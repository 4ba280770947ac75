/**
 * Preparing the recurring invoices of several contracts: which lines go on which
 * invoice, and how the invoiced lines move on to their next period.
 */
module RecurringInvoices {

  import opened Options
  import opened Calendar
  import opened ContractLines
  import opened LineDates
  import opened LineRuns
  import opened TimelyRuns
  import opened LineModel
  import Selection = InvoiceSelection

  /** The lines of a contract in order, and what kind each is. */
  datatype Contract = Contract(ids: seq<LineId>, kinds: seq<Selection.Kind>)

  /** Every line is in the table and belongs to one place of one contract. */
  ghost predicate Owned(db: Db, contracts: seq<Contract>) {
    && (forall c, k :: 0 <= c < |contracts| && 0 <= k < |contracts[c].ids| ==> contracts[c].ids[k] in db.lines)
    && (forall c :: 0 <= c < |contracts| ==> |contracts[c].kinds| == |contracts[c].ids|)
    && (forall c, j, k :: 0 <= c < |contracts| && 0 <= j < k < |contracts[c].ids| ==> contracts[c].ids[j] != contracts[c].ids[k])
    && (forall c, d, j, k :: 0 <= c < d < |contracts| && 0 <= j < |contracts[c].ids| && 0 <= k < |contracts[d].ids| ==>
          contracts[c].ids[j] != contracts[d].ids[k])
  }

  predicate InTable(db: Db, contract: Contract) {
    |contract.kinds| == |contract.ids| && forall k :: 0 <= k < |contract.ids| ==> contract.ids[k] in db.lines
  }

  function Entries(db: Db, contract: Contract): seq<Selection.Entry>
    requires InTable(db, contract)
  {
    seq(|contract.ids|, k requires 0 <= k < |contract.ids| =>
      var l := db.lines[contract.ids[k]];
      Selection.Entry(contract.kinds[k], l.isCanceled, l.nextInvoice))
  }

  predicate Counts(e: Selection.Entry) {
    Selection.Recurs(e) && !e.isCanceled && e.nextInvoice.Some?
  }

  /** The next invoice date of a contract: the earliest one of its recurring lines. */
  function Earliest(lines: seq<Selection.Entry>): (date: Option<Day>)
    ensures date.Some? ==> exists k ::
      && 0 <= k < |lines|
      && !lines[k].isCanceled
      && (lines[k].kind.Plain? || lines[k].kind == Selection.Note(Some(Selection.Custom)))
      && lines[k].nextInvoice == date
    ensures forall k :: 0 <= k < |lines| ==>
      && !lines[k].isCanceled
      && (lines[k].kind.Plain? || lines[k].kind == Selection.Note(Some(Selection.Custom)))
      && lines[k].nextInvoice.Some?
      ==> date.Some? && date.value <= lines[k].nextInvoice.value
  {
    if lines == [] then None
    else
      var n := |lines| - 1;
      var rest := Earliest(lines[..n]);
      if Counts(lines[n]) && (rest.None? || lines[n].nextInvoice.value < rest.value) then lines[n].nextInvoice else rest
  }

  function View(db: Db, contract: Contract): Selection.Contract
    requires InTable(db, contract)
  {
    Selection.Contract(Entries(db, contract), Earliest(Entries(db, contract)))
  }

  /** A contract is looked at line by line, in order, each with its kind, its mark and its date, and with the earliest date. */
  lemma ViewInFields(db: Db, contract: Contract, k: nat)
    requires InTable(db, contract) && k < |contract.ids|
    ensures var view := View(db, contract);
      && |view.lines| == |contract.ids|
      && view.lines[k].kind == contract.kinds[k]
      && view.lines[k].isCanceled == db.lines[contract.ids[k]].isCanceled
      && view.lines[k].nextInvoice == db.lines[contract.ids[k]].nextInvoice
      && view.nextInvoice == Earliest(view.lines)
  {
  }

  ghost function Views(db: Db, contracts: seq<Contract>): (views: seq<Selection.Contract>)
    requires Owned(db, contracts)
    ensures |views| == |contracts|
  {
    seq(|contracts|, c requires 0 <= c < |contracts| => View(db, contracts[c]))
  }

  // ---------------------------------------------------------------- invoicing a set of lines

  /** The table after each of some lines is invoiced once. */
  function Billed(db: Db, ids: set<LineId>): Db {
    db.(lines := map i | i in db.lines :: if i in ids then Invoiced(db.lines[i]) else db.lines[i])
  }

  /** Distinct lines of the table. */
  ghost predicate Each(db: Db, ids: seq<LineId>) {
    (forall j, k :: 0 <= j < k < |ids| ==> ids[j] != ids[k]) && forall k :: 0 <= k < |ids| ==> ids[k] in db.lines
  }

  ghost predicate AllDated(db: Db, ids: seq<LineId>)
    requires Each(db, ids)
  {
    forall k :: 0 <= k < |ids| ==> db.lines[ids[k]].nextInvoice.Some?
  }

  /** Invoicing the first line leaves the others to be invoiced as they were. */
  lemma InvoiceFirst(db: Db, ids: seq<LineId>)
    requires ids != [] && Each(db, ids) && forall k :: 0 <= k < |ids| ==> Timely(db.lines[ids[k]])
    ensures var db1 := db.(lines := db.lines[ids[0] := Invoiced(db.lines[ids[0]])]);
      && Each(db1, ids[1..]) && (forall k :: 0 <= k < |ids[1..]| ==> Timely(db1.lines[ids[1..][k]]))
      && (AllDated(db, ids) <==> db.lines[ids[0]].nextInvoice.Some? && AllDated(db1, ids[1..]))
      && Billed(db1, Set(ids[1..])) == Billed(db, Set(ids))
  {
    hide Timely, Invoiced;
    var rest := ids[1..];
    var db1 := db.(lines := db.lines[ids[0] := Invoiced(db.lines[ids[0]])]);
    forall k | 0 <= k < |rest| ensures rest[k] in db.lines && db1.lines[rest[k]] == db.lines[rest[k]] {
      assert rest[k] == ids[k + 1];
    }
    if db.lines[ids[0]].nextInvoice.Some? && AllDated(db1, rest) {
      forall k | 0 <= k < |ids| ensures db.lines[ids[k]].nextInvoice.Some? {
        assert k > 0 ==> db1.lines[rest[k - 1]].nextInvoice.Some?;
      }
    }
    assert Set(ids) == {ids[0]} + Set(rest) && ids[0] !in Set(rest);
    assert Billed(db1, Set(rest)).lines == Billed(db, Set(ids)).lines;
  }

  function Set(ids: seq<LineId>): set<LineId> {
    set i | i in ids
  }

  /** Invoicing timely lines, each once, succeeds exactly when all of them have a next invoice date. */
  lemma {:induction false} InvoiceSet(body: (Db, LineId) -> Result<Db>, db: Db, ids: seq<LineId>)
    requires forall d: Db, i: LineId :: body(d, i) == InvoiceOne(d, i)
    requires Each(db, ids) && forall k :: 0 <= k < |ids| ==> Timely(db.lines[ids[k]])
    ensures ForEach(body, db, ids) == if AllDated(db, ids) then Ok(Billed(db, Set(ids))) else Err(Crash)
    decreases |ids|
  {
    hide InvoiceOne, Timely, Invoiced;
    if ids == [] {
      assert Billed(db, Set(ids)).lines == db.lines;
    } else {
      var first: LineId := ids[0];
      InvoiceFirst(db, ids);
      InvoiceSucceeds(db, first);
      assert body(db, first) == InvoiceOne(db, first);
      hide AllDated, Billed, Each;
      if db.lines[first].nextInvoice.Some? {
        InvoiceSet(body, body(db, first).value, ids[1..]);
      }
    }
  }

  lemma InvoiceLines(db: Db, ids: seq<LineId>)
    requires Each(db, ids) && forall k :: 0 <= k < |ids| ==> Timely(db.lines[ids[k]])
    ensures Invoice(db, ids) == if AllDated(db, ids) then Ok(Billed(db, Set(ids))) else Err(Crash)
  {
    hide InvoiceOne, Timely;
    InvoiceSet((d, id) => InvoiceOne(d, id), db, ids);
  }

  // ---------------------------------------------------------------- several contracts

  function IdsOf(contract: Contract, lines: seq<nat>): (ids: seq<LineId>)
    requires forall k :: 0 <= k < |lines| ==> lines[k] < |contract.ids|
    ensures |ids| == |lines| && forall k :: 0 <= k < |lines| ==> ids[k] == contract.ids[lines[k]]
  {
    seq(|lines|, k requires 0 <= k < |lines| => contract.ids[lines[k]])
  }

  /** Every line of an invoice is a line of its contract. */
  ghost predicate OnContracts(contracts: seq<Contract>, invoices: seq<Selection.Invoice>) {
    forall a :: 0 <= a < |invoices| ==>
      && invoices[a].contract < |contracts|
      && forall j :: 0 <= j < |invoices[a].lines| ==> invoices[a].lines[j] < |contracts[invoices[a].contract].ids|
  }

  /** The lines on some invoices. */
  ghost function OnInvoices(contracts: seq<Contract>, invoices: seq<Selection.Invoice>): set<LineId>
    requires OnContracts(contracts, invoices)
  {
    if invoices == [] then {}
    else
      var n := |invoices| - 1;
      OnInvoices(contracts, invoices[..n]) + Set(IdsOf(contracts[invoices[n].contract], invoices[n].lines))
  }

  /** A line to take, on one of the first n contracts, has no next invoice date: a section or a note without one. */
  ghost predicate Blocked(views: seq<Selection.Contract>, dateRef: Option<Day>, n: nat)
    requires n <= |views|
  {
    exists k: nat, date :: k < n && Selection.IsReference(views, dateRef, k, date) && BlockedAt(views[k].lines, date)
  }

  ghost predicate BlockedAt(lines: seq<Selection.Entry>, date: Day) {
    exists j: nat :: j < |lines| && Selection.Taken(lines, date, j, |lines|) && lines[j].nextInvoice.None?
  }

  /** Where the loop is after some contracts, on a table of timely lines. */
  ghost predicate Progress(db0: Db, db: Db, contracts: seq<Contract>, dateRef: Option<Day>, reference: Option<Day>,
                           invoices: seq<Selection.Invoice>, n: nat)
    requires Owned(db0, contracts) && n <= |contracts|
  {
    var views := Views(db0, contracts);
    && OnContracts(contracts, invoices)
    && db == Billed(db0, OnInvoices(contracts, invoices))
    && (forall c, k :: n <= c < |contracts| && 0 <= k < |contracts[c].ids| ==>
          contracts[c].ids[k] !in OnInvoices(contracts, invoices))
    && Selection.Prepared(views, dateRef, invoices, n)
    && !Blocked(views, dateRef, n)
    && Refers(views, dateRef, reference, n)
  }

  /** The date carried along the loop. */
  ghost predicate Refers(views: seq<Selection.Contract>, dateRef: Option<Day>, reference: Option<Day>, n: nat)
    requires n <= |views|
  {
    if dateRef.Some? then reference == dateRef
    else if reference.None? then forall j :: 0 <= j < n ==> views[j].nextInvoice.None?
    else exists i :: 0 <= i < n && views[i].nextInvoice == reference
                     && forall j :: 0 <= j < i ==> views[j].nextInvoice.None?
  }

  /** With contract n taken into account, the carried date is the reference date of contract n. */
  lemma RefersNext(views: seq<Selection.Contract>, dateRef: Option<Day>, reference: Option<Day>, n: nat)
    requires n < |views| && Refers(views, dateRef, reference, n)
    ensures var next := if reference.None? then views[n].nextInvoice else reference;
      && Refers(views, dateRef, next, n + 1)
      && (forall date :: Selection.IsReference(views, dateRef, n, date) <==> next == Some(date))
  {
    var next := if reference.None? then views[n].nextInvoice else reference;
    if dateRef.None? {
      forall date | Selection.IsReference(views, dateRef, n, date) ensures next == Some(date) {
        Selection.ReferenceUnique(views, n, date, next);
      }
    }
  }

  lemma OwnedInTable(db: Db, contracts: seq<Contract>, c: nat)
    requires Owned(db, contracts) && c < |contracts|
    ensures InTable(db, contracts[c])
  {
  }

  /** A contract whose lines are not billed yet looks as it did. */
  lemma ViewSame(db0: Db, billed: set<LineId>, contract: Contract)
    requires InTable(db0, contract) && forall k :: 0 <= k < |contract.ids| ==> contract.ids[k] !in billed
    ensures InTable(Billed(db0, billed), contract) && View(Billed(db0, billed), contract) == View(db0, contract)
  {
    hide Earliest, Invoiced;
    assert Entries(Billed(db0, billed), contract) == Entries(db0, contract);
  }

  lemma BilledMore(db0: Db, s: set<LineId>, t: set<LineId>)
    requires s !! t
    ensures Billed(Billed(db0, s), t) == Billed(db0, s + t)
  {
    hide Invoiced;
    assert Billed(Billed(db0, s), t).lines == Billed(db0, s + t).lines;
  }

  lemma OnInvoicesSnoc(contracts: seq<Contract>, invoices: seq<Selection.Invoice>, invoice: Selection.Invoice)
    requires OnContracts(contracts, invoices) && invoice.contract < |contracts|
    requires forall j :: 0 <= j < |invoice.lines| ==> invoice.lines[j] < |contracts[invoice.contract].ids|
    ensures OnContracts(contracts, invoices + [invoice])
    ensures OnInvoices(contracts, invoices + [invoice])
         == OnInvoices(contracts, invoices) + Set(IdsOf(contracts[invoice.contract], invoice.lines))
  {
    assert (invoices + [invoice])[..|invoices|] == invoices;
  }

  /** The lines the scan takes of a contract. */
  ghost predicate Scanned(view: Selection.Contract, date: Day, lines: seq<nat>) {
    && (forall j: nat :: j in lines <==> j < |view.lines| && Selection.Taken(view.lines, date, j, |view.lines|))
    && forall a, b :: 0 <= a < b < |lines| ==> lines[a] < lines[b]
  }

  /** The lines taken of a contract that is not billed yet: distinct, and still as they were. */
  lemma TakenLines(db0: Db, billed: set<LineId>, contract: Contract, date: Day, lines: seq<nat>)
    requires InTable(db0, contract) && Scanned(View(db0, contract), date, lines)
    requires forall j, k :: 0 <= j < k < |contract.ids| ==> contract.ids[j] != contract.ids[k]
    requires forall k :: 0 <= k < |contract.ids| ==> contract.ids[k] !in billed
    ensures forall k :: 0 <= k < |lines| ==> lines[k] < |contract.ids|
    ensures var ids, db := IdsOf(contract, lines), Billed(db0, billed);
      && Each(db, ids)
      && (forall k :: 0 <= k < |ids| ==> db.lines[ids[k]] == db0.lines[ids[k]])
      && (AllDated(db, ids) <==> !BlockedAt(View(db0, contract).lines, date))
      && billed !! Set(ids)
  {
    hide Selection.Taken, Earliest, Invoiced;
    var entries := View(db0, contract).lines;
    forall k | 0 <= k < |lines| ensures lines[k] < |contract.ids| {
      assert lines[k] in lines;
    }
    var ids, db := IdsOf(contract, lines), Billed(db0, billed);
    if !AllDated(db, ids) {
      var k :| 0 <= k < |ids| && db.lines[ids[k]].nextInvoice.None?;
      assert lines[k] in lines;
      assert entries[lines[k]].nextInvoice.None?;
    }
    if BlockedAt(entries, date) {
      var j: nat :| j < |entries| && Selection.Taken(entries, date, j, |entries|) && entries[j].nextInvoice.None?;
      var k :| 0 <= k < |lines| && lines[k] == j;
      assert db.lines[ids[k]].nextInvoice.None?;
    }
  }

  lemma BlockedStep(views: seq<Selection.Contract>, dateRef: Option<Day>, n: nat, next: Option<Day>)
    requires n < |views| && forall date :: Selection.IsReference(views, dateRef, n, date) <==> next == Some(date)
    ensures Blocked(views, dateRef, n + 1)
       <==> Blocked(views, dateRef, n) || (next.Some? && BlockedAt(views[n].lines, next.value))
  {
    hide Selection.IsReference, BlockedAt;
    if next.Some? && BlockedAt(views[n].lines, next.value) {
      assert Selection.IsReference(views, dateRef, n, next.value);
    }
  }

  lemma ViewAt(db0: Db, contracts: seq<Contract>, n: nat)
    requires Owned(db0, contracts) && n < |contracts|
    ensures InTable(db0, contracts[n]) && Views(db0, contracts)[n] == View(db0, contracts[n])
  {
  }

  /** A contract without a line to take is passed over. */
  lemma PassOver(db0: Db, db: Db, contracts: seq<Contract>, dateRef: Option<Day>, reference: Option<Day>, next: Option<Day>,
                 invoices: seq<Selection.Invoice>, n: nat)
    requires Owned(db0, contracts) && n < |contracts| && Progress(db0, db, contracts, dateRef, reference, invoices, n)
    requires next == if reference.None? then Views(db0, contracts)[n].nextInvoice else reference
    requires next.Some? ==> Scanned(Views(db0, contracts)[n], next.value, [])
    ensures Progress(db0, db, contracts, dateRef, next, invoices, n + 1)
  {
    hide Selection.IsReference, Selection.Prepared, Selection.Taken, Views, Refers, Blocked, Billed, OnInvoices;
    var views := Views(db0, contracts);
    RefersNext(views, dateRef, reference, n);
    BlockedStep(views, dateRef, n, next);
    Selection.PreparedStep(views, dateRef, invoices, invoices, n, next);
  }

  /** A contract with lines to take gets an invoice, if all of them have a next invoice date. */
  lemma TakeOver(db0: Db, db: Db, contracts: seq<Contract>, dateRef: Option<Day>, reference: Option<Day>, next: Option<Day>,
                 invoices: seq<Selection.Invoice>, n: nat, lines: seq<nat>)
    requires Owned(db0, contracts) && n < |contracts| && Progress(db0, db, contracts, dateRef, reference, invoices, n)
    requires next == if reference.None? then Views(db0, contracts)[n].nextInvoice else reference
    requires next.Some? && lines != [] && Scanned(Views(db0, contracts)[n], next.value, lines)
    ensures forall k :: 0 <= k < |lines| ==> lines[k] < |contracts[n].ids|
    ensures var ids := IdsOf(contracts[n], lines);
      && Each(db, ids) && (forall k :: 0 <= k < |ids| ==> db.lines[ids[k]] == db0.lines[ids[k]])
      && (if AllDated(db, ids) then
            Progress(db0, Billed(db, Set(ids)), contracts, dateRef, next,
                     invoices + [Selection.Invoice(n, next.value, lines)], n + 1)
          else Blocked(Views(db0, contracts), dateRef, n + 1))
  {
    hide Selection.IsReference, Selection.Prepared, Selection.Taken, Views, Refers, Blocked, BlockedAt, Billed, OnInvoices, Each, AllDated;
    var views, billed := Views(db0, contracts), OnInvoices(contracts, invoices);
    ViewAt(db0, contracts, n);
    RefersNext(views, dateRef, reference, n);
    BlockedStep(views, dateRef, n, next);
    TakenLines(db0, billed, contracts[n], next.value, lines);
    var ids, invoice := IdsOf(contracts[n], lines), Selection.Invoice(n, next.value, lines);
    if AllDated(db, ids) {
      BilledMore(db0, billed, Set(ids));
      OnInvoicesSnoc(contracts, invoices, invoice);
      assert Selection.Bills(invoice, views[n]) by { assert lines[0] in lines; }
      Selection.PreparedStep(views, dateRef, invoices, invoices + [invoice], n, next);
    }
  }

  lemma InvoiceKeepsKeys(db: Db, ids: seq<LineId>)
    ensures var r := Invoice(db, ids); r.Ok? ==> r.value.lines.Keys == db.lines.Keys
  {
    hide NextEnd, InvoiceDate;
    ForEachKeeps((d: Db) => d.lines.Keys == db.lines.Keys, (d, id) => InvoiceOne(d, id), db, ids);
  }

  /** Scans one contract as of the carried date, if there is one. */
  method Scan(db: Db, contract: Contract, reference: Option<Day>) returns (lines: seq<nat>)
    requires InTable(db, contract)
    ensures if reference.Some? then Scanned(View(db, contract), reference.value, lines) else lines == []
    ensures forall k :: 0 <= k < |lines| ==> lines[k] < |contract.ids|
  {
    hide Selection.Taken, Earliest;
    lines := [];
    if reference.Some? {
      var view := View(db, contract);
      lines := Selection.GetLinesToInvoice(view.lines, reference.value);
      assert forall k :: 0 <= k < |lines| ==> lines[k] in lines;
    }
  }

  /**
   * The loop over contracts: the lines to take as of the carried date go on an
   * invoice, and are moved on to their next period.  An error undoes everything.
   * On timely lines it fails exactly when a section or a note to take has no next
   * invoice date; otherwise the invoices are those of the rule, each line on one of
   * them has moved on by one period, and no other line has changed.
   */
  method PrepareRecurringInvoices(model: ContractLineModel, contracts: seq<Contract>, dateRef: Option<Day>)
    returns (invoices: seq<Selection.Invoice>, fault: Option<Fault>)
    requires Owned(model.db, contracts)
    modifies model
    ensures fault.Some? ==> model.db == old(model.db)
    ensures AllTimely(old(model.db)) ==>
      var views := Views(old(model.db), contracts);
      && (fault.Some? <==> Blocked(views, dateRef, |contracts|))
      && (fault.None? ==>
            && Selection.Prepared(views, dateRef, invoices, |contracts|)
            && OnContracts(contracts, invoices)
            && model.db == Billed(old(model.db), OnInvoices(contracts, invoices)))
  {
    hide Owned, Progress, AllTimely, Timely, Invoice, View, Views, Scanned, InTable, Each, AllDated, Billed, Blocked, OnContracts;
    hide Selection.Prepared, OnInvoices;
    var saved := model.db;
    invoices := [];
    var reference := dateRef;
    assert AllTimely(saved) ==> Progress(saved, saved, contracts, dateRef, reference, [], 0) by { Start(saved, contracts, dateRef); }
    for n: nat := 0 to |contracts|
      invariant model.db.lines.Keys == saved.lines.Keys
      invariant AllTimely(saved) ==> Progress(saved, model.db, contracts, dateRef, reference, invoices, n)
    {
      var contract := contracts[n];
      ViewAt(saved, contracts, n);
      InTableKeys(saved, model.db, contract);
      if AllTimely(saved) { Unbilled(saved, model.db, contracts, dateRef, reference, invoices, n); }
      ghost var before := reference;
      if reference.None? { reference := View(model.db, contract).nextInvoice; }
      var lines := Scan(model.db, contract, reference);
      if lines == [] {
        if AllTimely(saved) { PassOver(saved, model.db, contracts, dateRef, before, reference, invoices, n); }
      } else {
        ghost var db := model.db;
        var ids := IdsOf(contract, lines);
        if AllTimely(saved) {
          TakeOver(saved, db, contracts, dateRef, before, reference, invoices, n, lines);
          TimelyAt(saved, db, ids);
          InvoiceLines(db, ids);
        }
        InvoiceKeepsKeys(db, ids);
        invoices := invoices + [Selection.Invoice(n, reference.value, lines)];
        fault := model.UpdateRecurringNextDate(ids);
        if fault.Some? {
          model.db := saved;
          if AllTimely(saved) { StaysBlocked(Views(saved, contracts), dateRef, n + 1); }
          return;
        }
      }
    }
    fault := None;
    if AllTimely(saved) { Unfold(saved, model.db, contracts, dateRef, reference, invoices); }
  }

  lemma InTableKeys(db0: Db, db: Db, contract: Contract)
    requires InTable(db0, contract) && db.lines.Keys == db0.lines.Keys
    ensures InTable(db, contract)
  {
    forall k | 0 <= k < |contract.ids| ensures contract.ids[k] in db.lines {
      assert contract.ids[k] in db0.lines.Keys;
    }
  }

  lemma Start(db0: Db, contracts: seq<Contract>, dateRef: Option<Day>)
    requires Owned(db0, contracts)
    ensures Progress(db0, db0, contracts, dateRef, dateRef, [], 0)
  {
    assert Billed(db0, {}).lines == db0.lines;
  }

  lemma Unbilled(db0: Db, db: Db, contracts: seq<Contract>, dateRef: Option<Day>, reference: Option<Day>,
                 invoices: seq<Selection.Invoice>, n: nat)
    requires Owned(db0, contracts) && n < |contracts| && Progress(db0, db, contracts, dateRef, reference, invoices, n)
    ensures InTable(db0, contracts[n]) && InTable(db, contracts[n]) && View(db, contracts[n]) == View(db0, contracts[n])
  {
    hide Views, View, Refers, Blocked, Selection.Prepared, Billed;
    OwnedInTable(db0, contracts, n);
    ViewSame(db0, OnInvoices(contracts, invoices), contracts[n]);
  }

  lemma TimelyAt(db0: Db, db: Db, ids: seq<LineId>)
    requires AllTimely(db0) && db.lines.Keys == db0.lines.Keys && Each(db, ids)
    requires forall k :: 0 <= k < |ids| ==> db.lines[ids[k]] == db0.lines[ids[k]]
    ensures forall k :: 0 <= k < |ids| ==> Timely(db.lines[ids[k]])
  {
    forall k | 0 <= k < |ids| ensures Timely(db.lines[ids[k]]) {
      var i := ids[k];
      assert i in db0.lines;
    }
  }

  lemma StaysBlocked(views: seq<Selection.Contract>, dateRef: Option<Day>, n: nat)
    requires n <= |views| && Blocked(views, dateRef, n)
    ensures Blocked(views, dateRef, |views|)
  {
    hide BlockedAt;
  }

  lemma Unfold(db0: Db, db: Db, contracts: seq<Contract>, dateRef: Option<Day>, reference: Option<Day>,
               invoices: seq<Selection.Invoice>)
    requires Owned(db0, contracts) && Progress(db0, db, contracts, dateRef, reference, invoices, |contracts|)
    ensures Selection.Prepared(Views(db0, contracts), dateRef, invoices, |contracts|)
    ensures OnContracts(contracts, invoices) && db == Billed(db0, OnInvoices(contracts, invoices))
    ensures !Blocked(Views(db0, contracts), dateRef, |contracts|)
  {
  }
}
