/**
 * Which lines of a contract go on an invoice: the one-pass scan over lines,
 * sections and notes, against the rule it implements.
 */
module InvoiceSelection {

  import opened Options
  import opened Calendar

  datatype NoteMode = WithPreviousLine | WithNextLine | Custom

  /** A custom note recurs like a line; the mode of a note may also be unset. */
  datatype Kind = Section | Note(mode: Option<NoteMode>) | Plain

  datatype Entry = Entry(kind: Kind, isCanceled: bool, nextInvoice: Option<Day>)

  predicate Recurs(e: Entry) {
    e.kind == Plain || e.kind == Note(Some(Custom))
  }

  /** A recurring line that is due. */
  predicate Due(e: Entry, dateRef: Day) {
    Recurs(e) && !e.isCanceled && e.nextInvoice.Some? && e.nextInvoice.value <= dateRef
  }

  predicate NotePrevious(e: Entry) {
    e.kind == Note(Some(WithPreviousLine))
  }

  /** The entries that wait for a later due line. */
  datatype Marker = SectionMarker | NoteMarker

  predicate Opens(m: Marker, e: Entry) {
    match m
    case SectionMarker => e.kind == Section
    case NoteMarker => e.kind == Note(Some(WithNextLine))
  }

  /** The entries that end the wait of an earlier one. */
  predicate Closes(m: Marker, e: Entry) {
    match m
    case SectionMarker => e.kind == Section
    case NoteMarker => e.kind == Note(Some(WithNextLine)) || NotePrevious(e)
  }

  // ---------------------------------------------------------------- the rule

  /** A due line before position n follows j, with nothing in between that ends its wait. */
  ghost predicate FollowedByDue(lines: seq<Entry>, dateRef: Day, m: Marker, j: nat, n: nat)
    requires n <= |lines|
  {
    exists k :: j < k < n && Due(lines[k], dateRef) && forall i :: j < i < k ==> !Closes(m, lines[i])
  }

  /** The run of with-previous notes ending at j directly follows a due line. */
  ghost predicate FollowsDue(lines: seq<Entry>, dateRef: Day, j: nat)
    requires j < |lines|
  {
    exists k :: 0 <= k < j && Due(lines[k], dateRef) && forall i :: k < i < j ==> NotePrevious(lines[i])
  }

  /** Whether position j is invoiced, judged on the first n lines. */
  ghost predicate Taken(lines: seq<Entry>, dateRef: Day, j: nat, n: nat)
    requires j < n <= |lines|
  {
    || Due(lines[j], dateRef)
    || (NotePrevious(lines[j]) && FollowsDue(lines, dateRef, j))
    || (Opens(SectionMarker, lines[j]) && FollowedByDue(lines, dateRef, SectionMarker, j, n))
    || (Opens(NoteMarker, lines[j]) && FollowedByDue(lines, dateRef, NoteMarker, j, n))
  }

  // ---------------------------------------------------------------- the scan

  /** A marker still waiting after n lines. */
  ghost predicate Waiting(lines: seq<Entry>, dateRef: Day, m: Marker, j: nat, n: nat)
    requires n <= |lines|
  {
    j < n && Opens(m, lines[j]) && forall i :: j < i < n ==> !Closes(m, lines[i]) && !Due(lines[i], dateRef)
  }

  /** The next line settles exactly the marker that is waiting. */
  lemma FollowedByDueStep(lines: seq<Entry>, dateRef: Day, m: Marker, j: nat, n: nat)
    requires j < n < |lines| && Opens(m, lines[j])
    ensures FollowedByDue(lines, dateRef, m, j, n + 1)
       <==> FollowedByDue(lines, dateRef, m, j, n) || (Due(lines[n], dateRef) && Waiting(lines, dateRef, m, j, n))
  {
    if Waiting(lines, dateRef, m, j, n) && Due(lines[n], dateRef) {
      assert FollowedByDue(lines, dateRef, m, j, n + 1);
    }
    if FollowedByDue(lines, dateRef, m, j, n + 1) && !FollowedByDue(lines, dateRef, m, j, n) {
      var k :| j < k < n + 1 && Due(lines[k], dateRef) && forall i :: j < i < k ==> !Closes(m, lines[i]);
      assert k == n;
    }
  }

  lemma FollowsDueStep(lines: seq<Entry>, dateRef: Day, n: nat)
    requires 0 < n < |lines|
    ensures FollowsDue(lines, dateRef, n)
       <==> Due(lines[n - 1], dateRef) || (NotePrevious(lines[n - 1]) && FollowsDue(lines, dateRef, n - 1))
  {
    if NotePrevious(lines[n - 1]) && FollowsDue(lines, dateRef, n - 1) {
      var k :| 0 <= k < n - 1 && Due(lines[k], dateRef) && forall i :: k < i < n - 1 ==> NotePrevious(lines[i]);
      assert forall i :: k < i < n ==> NotePrevious(lines[i]);
    }
    if FollowsDue(lines, dateRef, n) && !Due(lines[n - 1], dateRef) {
      var k :| 0 <= k < n && Due(lines[k], dateRef) && forall i :: k < i < n ==> NotePrevious(lines[i]);
      assert k < n - 1;
    }
  }

  /** What the scan remembers of a marker. */
  ghost predicate Remembers(lines: seq<Entry>, dateRef: Day, m: Marker, current: Option<nat>, n: nat)
    requires n <= |lines|
  {
    && (current.Some? ==> Waiting(lines, dateRef, m, current.value, n))
    && forall j: nat :: Waiting(lines, dateRef, m, j, n) ==> current == Some(j)
  }

  ghost predicate Gathered(lines: seq<Entry>, dateRef: Day, picked: set<nat>, n: nat)
    requires n <= |lines|
  {
    forall j: nat :: j in picked <==> j < n && Taken(lines, dateRef, j, n)
  }

  /** One turn of the scan picks exactly what the rule adds with one more line. */
  lemma GatherStep(lines: seq<Entry>, dateRef: Day, picked: set<nat>, picked': set<nat>,
                   section: Option<nat>, note: Option<nat>, n: nat)
    requires n < |lines| && Gathered(lines, dateRef, picked, n)
    requires Remembers(lines, dateRef, SectionMarker, section, n) && Remembers(lines, dateRef, NoteMarker, note, n)
    requires picked' == picked
      + (if Due(lines[n], dateRef) then {n} + Held(section) + Held(note) else {})
      + (if NotePrevious(lines[n]) && n > 0 && n - 1 in picked then {n} else {})
    requires forall j: nat :: j in picked && j == n - 1 ==> !Opens(SectionMarker, lines[j]) && !Opens(NoteMarker, lines[j])
    ensures Gathered(lines, dateRef, picked', n + 1)
  {
    hide FollowedByDue, FollowsDue;
    forall j: nat | j < n + 1 ensures j in picked' <==> Taken(lines, dateRef, j, n + 1) {
      if j < n {
        assert j in picked <==> Taken(lines, dateRef, j, n);
        if Opens(SectionMarker, lines[j]) { FollowedByDueStep(lines, dateRef, SectionMarker, j, n); }
        if Opens(NoteMarker, lines[j]) { FollowedByDueStep(lines, dateRef, NoteMarker, j, n); }
      } else {
        TakenNow(lines, dateRef, n);
        if n > 0 {
          FollowsDueStep(lines, dateRef, n);
          assert n - 1 in picked <==> Taken(lines, dateRef, n - 1, n);
        }
      }
    }
  }

  /** No line follows the last one yet. */
  lemma TakenNow(lines: seq<Entry>, dateRef: Day, n: nat)
    requires n < |lines|
    ensures Taken(lines, dateRef, n, n + 1)
       <==> Due(lines[n], dateRef) || (n > 0 && NotePrevious(lines[n]) && FollowsDue(lines, dateRef, n))
  {
  }

  function Held(current: Option<nat>): set<nat> {
    if current.Some? then {current.value} else {}
  }

  /** No marker has been settled by the line just before n, since that line is the marker itself. */
  lemma FreshMarkerNotPicked(lines: seq<Entry>, dateRef: Day, picked: set<nat>, n: nat)
    requires n <= |lines| && Gathered(lines, dateRef, picked, n)
    ensures forall j: nat :: j in picked && j == n - 1 ==> !Opens(SectionMarker, lines[j]) && !Opens(NoteMarker, lines[j])
  {
  }

  method GetLinesToInvoice(lines: seq<Entry>, dateRef: Day) returns (sorted: seq<nat>)
    ensures forall j: nat :: j in sorted <==> j < |lines| && Taken(lines, dateRef, j, |lines|)
    ensures forall a, b :: 0 <= a < b < |sorted| ==> sorted[a] < sorted[b]
  {
    hide Taken, FollowedByDue, FollowsDue;
    var picked: set<nat> := {};
    var section: Option<nat>, note: Option<nat> := None, None;
    for n := 0 to |lines|
      invariant Gathered(lines, dateRef, picked, n)
      invariant Remembers(lines, dateRef, SectionMarker, section, n)
      invariant Remembers(lines, dateRef, NoteMarker, note, n)
    {
      ghost var before, section0, note0 := picked, section, note;
      FreshMarkerNotPicked(lines, dateRef, picked, n);
      var line := lines[n];
      if line.kind == Section {
        section := Some(n);
      } else if line.kind.Note? && !Recurs(line) {
        if line.kind.mode == Some(WithPreviousLine) {
          if n > 0 && n - 1 in picked {
            picked := picked + {n};
          }
          note := None;
        } else if line.kind.mode == Some(WithNextLine) {
          note := Some(n);
        }
      } else if Due(line, dateRef) {
        if section.Some? {
          picked := picked + {section.value};
          section := None;
        }
        if note.Some? {
          picked := picked + {note.value};
        }
        picked := picked + {n};
        note := None;
      }
      GatherStep(lines, dateRef, before, picked, section0, note0, n);
    }
    sorted := Sorted(picked, |lines|);
  }

  /** The picked positions in the order of the lines. */
  method Sorted(picked: set<nat>, n: nat) returns (sorted: seq<nat>)
    ensures forall j: nat :: j in sorted <==> j < n && j in picked
    ensures forall a, b :: 0 <= a < b < |sorted| ==> sorted[a] < sorted[b]
  {
    sorted := [];
    for i := 0 to n
      invariant forall j: nat :: j in sorted <==> j < i && j in picked
      invariant forall a, b :: 0 <= a < b < |sorted| ==> sorted[a] < sorted[b]
    {
      if i in picked {
        assert forall k :: 0 <= k < |sorted| ==> sorted[k] in sorted;
        sorted := sorted + [i];
      }
    }
  }

  /** A line, or a note that recurs like one. */
  predicate LineLike(e: Entry) {
    e.kind.Plain? || (e.kind.Note? && e.kind.mode.Some? && e.kind.mode.value.Custom?)
  }

  predicate IsNote(e: Entry, mode: NoteMode) {
    e.kind.Note? && e.kind.mode.Some? && e.kind.mode.value == mode
  }

  /** A line that is not canceled and whose next invoice date has come. */
  predicate Billable(e: Entry, dateRef: Day) {
    LineLike(e) && !e.isCanceled && e.nextInvoice.Some? && e.nextInvoice.value <= dateRef
  }

  /**
   * Which entries go on the invoice, kind by kind: billable lines; a section with a
   * billable line before the next section; a with-next note with one before the
   * next with-next or with-previous note; a with-previous note when only such notes
   * lie between it and a billable line; no other note.
   */
  lemma TakenInFields(lines: seq<Entry>, dateRef: Day, j: nat)
    requires j < |lines|
    ensures Taken(lines, dateRef, j, |lines|) <==>
      match lines[j].kind
      case Plain => !lines[j].isCanceled && lines[j].nextInvoice.Some? && lines[j].nextInvoice.value <= dateRef
      case Section =>
        exists k :: j < k < |lines| && Billable(lines[k], dateRef) && forall i :: j < i < k ==> !lines[i].kind.Section?
      case Note(None) => false
      case Note(Some(Custom)) => !lines[j].isCanceled && lines[j].nextInvoice.Some? && lines[j].nextInvoice.value <= dateRef
      case Note(Some(WithNextLine)) =>
        exists k :: j < k < |lines| && Billable(lines[k], dateRef)
          && forall i :: j < i < k ==> !IsNote(lines[i], WithNextLine) && !IsNote(lines[i], WithPreviousLine)
      case Note(Some(WithPreviousLine)) =>
        exists k :: 0 <= k < j && Billable(lines[k], dateRef) && forall i :: k < i < j ==> IsNote(lines[i], WithPreviousLine)
  {
    assert forall k :: 0 <= k < |lines| ==> (Billable(lines[k], dateRef) <==> Due(lines[k], dateRef));
    assert forall i :: 0 <= i < |lines| ==> (IsNote(lines[i], WithPreviousLine) <==> NotePrevious(lines[i]));
    assert forall i :: 0 <= i < |lines| ==> (lines[i].kind.Section? <==> Closes(SectionMarker, lines[i]));
    assert forall i :: 0 <= i < |lines| ==>
      (IsNote(lines[i], WithNextLine) || IsNote(lines[i], WithPreviousLine) <==> Closes(NoteMarker, lines[i]));
  }

  // ---------------------------------------------------------------- several contracts

  datatype Contract = Contract(lines: seq<Entry>, nextInvoice: Option<Day>)

  datatype Invoice = Invoice(contract: nat, date: Day, lines: seq<nat>)

  /**
   * The date as of which contract k is invoiced: the given one, or else that of
   * the first contract that has one, even when k has its own.
   */
  ghost predicate IsReference(contracts: seq<Contract>, dateRef: Option<Day>, k: nat, date: Day)
    requires k < |contracts|
  {
    if dateRef.Some? then date == dateRef.value
    else exists i :: 0 <= i <= k && contracts[i].nextInvoice == Some(date)
                     && forall j :: 0 <= j < i ==> contracts[j].nextInvoice.None?
  }

  ghost predicate SomeTaken(lines: seq<Entry>, dateRef: Day) {
    exists j: nat :: j < |lines| && Taken(lines, dateRef, j, |lines|)
  }

  /** The invoice has the lines to take, in order, and there are some. */
  ghost predicate Bills(invoice: Invoice, contract: Contract) {
    && SomeTaken(contract.lines, invoice.date)
    && (forall j: nat :: j in invoice.lines <==> j < |contract.lines| && Taken(contract.lines, invoice.date, j, |contract.lines|))
    && forall a, b :: 0 <= a < b < |invoice.lines| ==> invoice.lines[a] < invoice.lines[b]
  }

  /** One invoice for each contract with a line to take as of its reference date. */
  ghost predicate Prepared(contracts: seq<Contract>, dateRef: Option<Day>, invoices: seq<Invoice>, n: nat)
    requires n <= |contracts|
  {
    && (forall a :: 0 <= a < |invoices| ==> invoices[a].contract < n)
    && (forall a, b :: 0 <= a < b < |invoices| ==> invoices[a].contract < invoices[b].contract)
    && (forall a :: 0 <= a < |invoices| ==>
          && IsReference(contracts, dateRef, invoices[a].contract, invoices[a].date)
          && Bills(invoices[a], contracts[invoices[a].contract]))
    && forall k: nat, date :: k < n && IsReference(contracts, dateRef, k, date) && SomeTaken(contracts[k].lines, date)
         ==> exists a :: 0 <= a < |invoices| && invoices[a].contract == k
  }

  lemma ReferenceUnique(contracts: seq<Contract>, k: nat, date: Day, first: Option<Day>)
    requires k < |contracts| && IsReference(contracts, None, k, date)
    requires first.Some? ==> IsReference(contracts, None, k, first.value)
    requires first.None? ==> forall j :: 0 <= j <= k ==> contracts[j].nextInvoice.None?
    ensures first == Some(date)
  {
  }

  lemma PreparedStep(contracts: seq<Contract>, dateRef: Option<Day>, before: seq<Invoice>, invoices: seq<Invoice>, n: nat,
                     reference: Option<Day>)
    requires n < |contracts| && Prepared(contracts, dateRef, before, n)
    requires forall date :: IsReference(contracts, dateRef, n, date) ==> reference == Some(date)
    requires if |invoices| <= |before| then
               invoices == before && (reference.Some? ==> !SomeTaken(contracts[n].lines, reference.value))
             else
               && invoices == before + [invoices[|before|]] && invoices[|before|].contract == n
               && IsReference(contracts, dateRef, n, invoices[|before|].date) && Bills(invoices[|before|], contracts[n])
    ensures Prepared(contracts, dateRef, invoices, n + 1)
  {
    hide IsReference, SomeTaken, Bills;
    forall k: nat, date | k < n + 1 && IsReference(contracts, dateRef, k, date) && SomeTaken(contracts[k].lines, date)
      ensures exists a :: 0 <= a < |invoices| && invoices[a].contract == k
    {
      if k < n {
        var a :| 0 <= a < |before| && before[a].contract == k;
        assert invoices[a].contract == k;
      } else {
        assert invoices[|before|].contract == n;
      }
    }
  }

  /** All invoices prepared together bear one date. */
  lemma OneDate(contracts: seq<Contract>, dateRef: Option<Day>, invoices: seq<Invoice>, a: nat, b: nat)
    requires Prepared(contracts, dateRef, invoices, |contracts|) && a < b < |invoices|
    ensures invoices[a].date == invoices[b].date
  {
    hide Bills;
  }

  ghost predicate FirstDated(contracts: seq<Contract>, i: nat) {
    i < |contracts| && contracts[i].nextInvoice.Some? && forall j :: 0 <= j < i ==> contracts[j].nextInvoice.None?
  }

  /**
   * When no date is given, each contract that is looked at is invoiced as of its own
   * next date exactly when all contracts from the first dated one on have its date.
   */
  lemma OwnDateIffSameDate(contracts: seq<Contract>)
    ensures (forall k: nat, date :: k < |contracts| && IsReference(contracts, None, k, date) ==>
               contracts[k].nextInvoice == Some(date))
       <==> (forall i: nat, k: nat :: FirstDated(contracts, i) && i <= k < |contracts| ==>
               contracts[k].nextInvoice == contracts[i].nextInvoice)
  {
    if forall k: nat, date :: k < |contracts| && IsReference(contracts, None, k, date) ==> contracts[k].nextInvoice == Some(date) {
      forall i: nat, k: nat | FirstDated(contracts, i) && i <= k < |contracts|
        ensures contracts[k].nextInvoice == contracts[i].nextInvoice {
        assert IsReference(contracts, None, k, contracts[i].nextInvoice.value);
      }
    }
    if forall i: nat, k: nat :: FirstDated(contracts, i) && i <= k < |contracts| ==>
         contracts[k].nextInvoice == contracts[i].nextInvoice {
      forall k: nat, date | k < |contracts| && IsReference(contracts, None, k, date)
        ensures contracts[k].nextInvoice == Some(date) {
        var i :| 0 <= i <= k && contracts[i].nextInvoice == Some(date)
                 && forall j :: 0 <= j < i ==> contracts[j].nextInvoice.None?;
        assert FirstDated(contracts, i);
      }
    }
  }

  /** Two contracts due on different days: the second is invoiced as of the date of the first, when it is not yet due. */
  lemma EarlierDateExample(first: Day, second: Day)
    requires first < second
    ensures var entry := (day: Day) => Entry(Plain, false, Some(day));
      var contracts := [Contract([entry(first)], Some(first)), Contract([entry(second)], Some(second))];
      && IsReference(contracts, None, 1, first)
      && !SomeTaken(contracts[1].lines, first) && SomeTaken(contracts[1].lines, second)
  {
    var entry := (day: Day) => Entry(Plain, false, Some(day));
    var contracts := [Contract([entry(first)], Some(first)), Contract([entry(second)], Some(second))];
    assert contracts[0].nextInvoice == Some(first);
    assert Taken(contracts[1].lines, second, 0, 1);
  }
}
