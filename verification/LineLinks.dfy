/** The predecessor and successor links over every run. */
module LineLinks {

  import opened Options
  import opened Calendar
  import opened Recurrence
  import opened ContractLines
  import opened LineRuns

  /** A successor points back, is not canceled, and starts after the line ends. */
  ghost predicate SuccessorOk(db: Db, i: LineId)
    requires i in db.lines
  {
    var l := db.lines[i];
    l.successor.Some? ==>
      && l.successor.value in db.lines
      && var s := db.lines[l.successor.value];
      && s.predecessor == Some(i)
      && !s.isCanceled
      && l.dateEnd.Some?
      && l.dateEnd.value < s.dateStart
  }

  /** A line that is not canceled is its predecessor's successor. */
  ghost predicate PredecessorOk(db: Db, i: LineId)
    requires i in db.lines
  {
    var l := db.lines[i];
    l.predecessor.Some? ==>
      && l.predecessor.value in db.lines
      && (!l.isCanceled ==> db.lines[l.predecessor.value].successor == Some(i))
  }

  ghost predicate RowOk(db: Db, i: LineId)
    requires i in db.lines
  {
    && i < db.nextId
    && StartBeforeEnd(db.lines[i])
    && AllowedCombination(db.lines[i])
    && !(db.lines[i].isAutoRenew && db.lines[i].isCanceled)
  }

  ghost predicate Linked(db: Db) {
    forall i :: i in db.lines ==> RowOk(db, i) && SuccessorOk(db, i) && PredecessorOk(db, i)
  }

  // ---------------------------------------------------------------- one step

  /** Rewriting a row keeps the links when every change of its dates or flags was declared as written. */
  lemma WriteKeeps(db: Db, id: LineId, l: Line, written: set<Field>)
    requires Linked(db) && id in db.lines
    requires var was := db.lines[id];
             && l.successor == was.successor && l.predecessor == was.predecessor && l.isCanceled == was.isCanceled
             && (l.dateStart == was.dateStart || DateStart in written)
             && (l.dateEnd == was.dateEnd || DateEnd in written)
             && (l.isAutoRenew == was.isAutoRenew || AutoRenew in written)
    ensures var r := Write(db, id, l, written); r.Ok? ==> Linked(r.value)
  {
    var r := Write(db, id, l, written);
    if r.Ok? {
      var db' := r.value;
      forall i | i in db'.lines ensures RowOk(db', i) && SuccessorOk(db', i) && PredecessorOk(db', i) {
        assert i in db.lines && RowOk(db, i) && SuccessorOk(db, i) && PredecessorOk(db, i);
        assert RowOk(db, id);
      }
    }
  }

  lemma CancelKeeps(db: Db, ids: seq<LineId>, today: Day)
    requires Linked(db)
    ensures var r := Cancel(db, ids, today); r.Ok? ==> Linked(r.value)
  {
    var r := Cancel(db, ids, today);
    if r.Ok? {
      var db' := r.value;
      forall i | i in db'.lines ensures RowOk(db', i) && SuccessorOk(db', i) && PredecessorOk(db', i) {
        assert RowOk(db, i) && SuccessorOk(db, i) && PredecessorOk(db, i);
        if db'.lines[i].successor.Some? {
          var s := db.lines[i].successor.value;
          assert i !in Predecessors(db, ids) && s !in ids;
        }
      }
    }
  }

  lemma CreateKeeps(db: Db, l: Line)
    requires Linked(db) && l.successor.None? && l.predecessor.None?
    ensures var r := Create(db, l); r.Ok? ==> Linked(r.value)
  {
    var r := Create(db, l);
    if r.Ok? {
      var db' := r.value;
      assert db.nextId in db.lines ==> RowOk(db, db.nextId);
      forall i | i in db'.lines ensures RowOk(db', i) && SuccessorOk(db', i) && PredecessorOk(db', i) {
        if i != db.nextId {
          assert RowOk(db, i) && SuccessorOk(db, i) && PredecessorOk(db, i);
        }
      }
    }
  }

  lemma PlanKeeps(db: Db, id: LineId, start: Day, end: Option<Day>, auto: bool, next: Option<Day>, today: Day)
    requires Linked(db)
    ensures var r := PlanOne(db, id, start, end, auto, next, today); r.Ok? ==> Linked(r.value)
  {
    var r := PlanOne(db, id, start, end, auto, next, today);
    if r.Ok? {
      var db' := r.value;
      assert RowOk(db, id);
      assert id != db.nextId;
      forall i | i in db'.lines ensures RowOk(db', i) && SuccessorOk(db', i) && PredecessorOk(db', i) {
        if i != db.nextId {
          assert RowOk(db, i) && SuccessorOk(db, i) && PredecessorOk(db, i);
        }
      }
    }
  }

  lemma UncancelKeeps(db: Db, id: LineId, next: Option<Day>)
    requires Linked(db)
    ensures var r := UncancelOne(db, id, next); r.Ok? ==> Linked(r.value)
  {
    hide LastInvoicedInside, NextSupplied, NextAfterStart;
    var r := UncancelOne(db, id, next);
    if r.Ok? {
      var db' := r.value;
      assert RowOk(db, id) && SuccessorOk(db, id) && PredecessorOk(db, id);
      forall i | i in db'.lines ensures RowOk(db', i) && SuccessorOk(db', i) && PredecessorOk(db', i) {
        assert RowOk(db, i) && SuccessorOk(db, i) && PredecessorOk(db, i);
      }
    }
  }

  lemma UnlinkKeeps(db: Db, ids: seq<LineId>)
    requires Linked(db)
    ensures var r := Unlink(db, ids); r.Ok? ==> Linked(r.value)
  {
    var r := Unlink(db, ids);
    if r.Ok? {
      var db' := r.value;
      forall i | i in db'.lines ensures RowOk(db', i) && SuccessorOk(db', i) && PredecessorOk(db', i) {
        assert i !in ids && RowOk(db, i) && SuccessorOk(db, i) && PredecessorOk(db, i);
        assert Forget(Some(i), ids) == Some(i);
      }
    }
  }

  lemma StopOneKeeps(db: Db, id: LineId, end: Day, manual: bool, today: Day)
    requires Linked(db)
    ensures var r := StopOne(db, id, end, manual, today); r.Ok? ==> Linked(r.value)
  {
    if id in db.lines {
      var l := db.lines[id];
      CancelKeeps(db, [id], today);
      WriteKeeps(db, id, l.(dateEnd := Some(end), isAutoRenew := false, manualRenewNeeded := manual,
                            nextInvoice := InvoiceDate(l, NextStart(l), Some(end))), {DateEnd, AutoRenew, NextInvoice});
      WriteKeeps(db, id, l.(isAutoRenew := false, manualRenewNeeded := manual), {AutoRenew});
    }
  }

  // ---------------------------------------------------------------- record sets

  lemma StopKeeps(db: Db, ids: seq<LineId>, end: Day, manual: bool, today: Day)
    requires Linked(db)
    ensures var r := Stop(db, ids, end, manual, today); r.Ok? ==> Linked(r.value)
  {
    hide StopOne, Linked;
    var body := (d, id) => StopOne(d, id, end, manual, today);
    forall d: Db, i: LineId | Linked(d) ensures body(d, i).Ok? ==> Linked(body(d, i).value) {
      StopOneKeeps(d, i, end, manual, today);
    }
    ForEachKeeps(Linked, body, db, ids);
  }

  lemma PlanSuccessorKeeps(db: Db, ids: seq<LineId>, start: Day, end: Option<Day>, auto: bool, next: Option<Day>, today: Day)
    requires Linked(db)
    ensures var r := PlanSuccessor(db, ids, start, end, auto, next, today); r.Ok? ==> Linked(r.value)
  {
    hide PlanOne, Linked;
    var body := (d, id) => PlanOne(d, id, start, end, auto, next, today);
    forall d: Db, i: LineId | Linked(d) ensures body(d, i).Ok? ==> Linked(body(d, i).value) {
      PlanKeeps(d, i, start, end, auto, next, today);
    }
    ForEachKeeps(Linked, body, db, ids);
  }

  lemma DelayKeeps(db: Db, id: LineId, days: int)
    requires Linked(db)
    ensures var r := Delay(db, id, days); r.Ok? ==> Linked(r.value)
  {
    hide NextInvoiceDate, Linked;
    if id in db.lines {
      var l := db.lines[id];
      var start, end := l.dateStart + days, AddDays(l.dateEnd, days);
      WriteKeeps(db, id, l.(dateStart := start, dateEnd := end, nextInvoice := InvoiceDate(l, Some(start), end)),
                 {DateStart, DateEnd, NextInvoice});
    }
  }

  lemma SuspendOneKeeps(db: Db, id: LineId, from: Day, to: Day, auto: bool, today: Day)
    requires Linked(db)
    ensures var r := SuspendOne(db, id, from, to, auto, today); r.Ok? ==> Linked(r.value)
  {
    hide Stop, PlanSuccessor, Linked, Delay;
    if id in db.lines {
      var l := db.lines[id];
      DelayKeeps(db, id, if l.dateStart < to then to - l.dateStart + 1 else to - from + 1);
      StopKeeps(db, [id], from, false, today);
      StopKeeps(db, [id], from - 1, true, today);
      var stopped := Stop(db, [id], from - 1, true, today);
      if stopped.Ok? {
        PlanSuccessorKeeps(stopped.value, [id], to + 1, ResumedEnd(l.dateEnd, from, to), auto, None, today);
      }
    }
  }

  lemma RenewOneKeeps(db: Db, id: LineId, createLine: bool, today: Day)
    requires Linked(db)
    ensures var r := RenewOne(db, id, createLine, today); r.Ok? ==> Linked(r.value)
  {
    hide Stop, PlanSuccessor, Plus;
    if id in db.lines && db.lines[id].dateEnd.Some? {
      var l := db.lines[id];
      var start := l.dateEnd.value + 1;
      var end := Plus(start, RelativeDelta(l.renewRule, l.renewInterval)) - 1;
      WriteKeeps(db, id, l.(dateEnd := Some(end)), {DateEnd});
      StopKeeps(db, [id], l.dateEnd.value, false, today);
      var stopped := Stop(db, [id], l.dateEnd.value, false, today);
      if stopped.Ok? {
        PlanSuccessorKeeps(stopped.value, [id], start, Some(end), l.isAutoRenew, None, today);
        var planned := PlanSuccessor(stopped.value, [id], start, Some(end), l.isAutoRenew, None, today);
        if planned.Ok? && stopped.value.nextId in planned.value.lines {
          var line := planned.value.lines[stopped.value.nextId];
          WriteKeeps(planned.value, stopped.value.nextId,
                     line.(nextInvoice := InvoiceDate(line, NextStart(line), line.dateEnd)), {NextInvoice});
        }
      }
    }
  }

  lemma InvoiceOneKeeps(db: Db, id: LineId)
    requires Linked(db)
    ensures var r := InvoiceOne(db, id); r.Ok? ==> Linked(r.value)
  {
    hide NextInvoiceDate, NextPeriodDateEnd;
    if id in db.lines && NextEnd(db.lines[id]).Some? {
      var l := db.lines[id];
      var last := NextEnd(l).value;
      WriteKeeps(db, id, l.(lastInvoiced := Some(last), nextInvoice := InvoiceDate(l, Some(last + 1), l.dateEnd)),
                 {NextInvoice, LastInvoiced});
    }
  }

  /** Every step of the life cycle keeps the links, whether it succeeds or fails. */
  lemma StepKeeps(db: Db, step: Step, today: Day)
    requires Linked(db)
    ensures Linked(Next(db, step, today))
  {
    hide Linked, Stop, PlanSuccessor, SuspendOne, UncancelOne, RenewOne, InvoiceOne, Create, Write, Unlink, Cancel;
    match step
    case NewLine(line) => if Entered(line) { CreateKeeps(db, line); }
    case Edit(id, line, written) =>
      if id in db.lines && Editable(db.lines[id], line, written) { WriteKeeps(db, id, line, written); }
    case DoInvoice(ids) =>
      forall d: Db, i: LineId | Linked(d) ensures InvoiceOne(d, i).Ok? ==> Linked(InvoiceOne(d, i).value) {
        InvoiceOneKeeps(d, i);
      }
      ForEachKeeps(Linked, (d, i) => InvoiceOne(d, i), db, ids);
    case DoStop(ids, end, manual) => StopKeeps(db, ids, end, manual, today);
    case DoPlanSuccessor(ids, start, end, auto, next) => PlanSuccessorKeeps(db, ids, start, end, auto, next, today);
    case DoSuspend(ids, from, to, auto) =>
      forall d: Db, i: LineId | Linked(d)
        ensures SuspendOne(d, i, from, to, auto, today).Ok? ==> Linked(SuspendOne(d, i, from, to, auto, today).value) {
        SuspendOneKeeps(d, i, from, to, auto, today);
      }
      ForEachKeeps(Linked, (d, i) => SuspendOne(d, i, from, to, auto, today), db, ids);
    case DoCancel(ids) => CancelKeeps(db, ids, today);
    case DoUncancel(ids, next) =>
      forall d: Db, i: LineId | Linked(d) ensures UncancelOne(d, i, next).Ok? ==> Linked(UncancelOne(d, i, next).value) {
        UncancelKeeps(d, i, next);
      }
      ForEachKeeps(Linked, (d, i) => UncancelOne(d, i, next), db, ids);
    case DoRenew(ids, createLine) =>
      forall d: Db, i: LineId | Linked(d)
        ensures RenewOne(d, i, createLine, today).Ok? ==> Linked(RenewOne(d, i, createLine, today).value) {
        RenewOneKeeps(d, i, createLine, today);
      }
      ForEachKeeps(Linked, (d, i) => RenewOne(d, i, createLine, today), db, ids);
    case DoUnlink(ids) => UnlinkKeeps(db, ids);
    case DoTerminate(contract, ids, date) =>
      TerminateKeeps(db, contract, ids, date, today);
    case DoReopen(contract) => TerminatedIrrelevant(db, db.terminated - {contract});
  }

  lemma TerminatedIrrelevant(db: Db, terminated: set<ContractId>)
    requires Linked(db)
    ensures Linked(db.(terminated := terminated))
  {
    var db' := db.(terminated := terminated);
    forall i | i in db'.lines ensures RowOk(db', i) && SuccessorOk(db', i) && PredecessorOk(db', i) {
      assert RowOk(db, i) && SuccessorOk(db, i) && PredecessorOk(db, i);
    }
  }

  lemma TerminateKeeps(db: Db, contract: ContractId, ids: seq<LineId>, date: Day, today: Day)
    requires Linked(db)
    ensures var r := Terminate(db, contract, ids, date, today); r.Ok? ==> Linked(r.value)
  {
    hide Stop;
    var stopped := Stop(db, Stoppable(db, ids, contract, today), date, false, today);
    StopKeeps(db, Stoppable(db, ids, contract, today), date, false, today);
    if stopped.Ok? {
      TerminatedIrrelevant(stopped.value, stopped.value.terminated + {contract});
    }
  }

  // ---------------------------------------------------------------- every run

  /** The links hold after every run of steps, on whatever days they are taken. */
  lemma {:induction false} RunKeeps(db: Db, steps: seq<(Step, Day)>)
    requires Linked(db)
    ensures Linked(Run(db, steps))
    decreases |steps|
  {
    hide Next, Linked;
    if steps != [] {
      StepKeeps(db, steps[0].0, steps[0].1);
      RunKeeps(Next(db, steps[0].0, steps[0].1), steps[1..]);
    }
  }

  /** The line reached by following n successor links. */
  function Follow(db: Db, i: LineId, n: nat): Option<LineId>
    decreases n
  {
    if i !in db.lines then None
    else if n == 0 then Some(i)
    else match db.lines[i].successor
      case None => None
      case Some(s) => Follow(db, s, n - 1)
  }

  /**
   * Along a chain every line ends before any later one starts: chains are
   * acyclic and their lines never overlap.
   */
  lemma {:induction false} ChainsOrdered(db: Db, i: LineId, n: nat)
    requires Linked(db) && n > 0 && Follow(db, i, n).Some?
    ensures var j := Follow(db, i, n).value;
            && j in db.lines && j != i
            && db.lines[i].dateEnd.Some? && db.lines[i].dateEnd.value < db.lines[j].dateStart
    decreases n
  {
    assert SuccessorOk(db, i) && RowOk(db, i);
    var s := db.lines[i].successor.value;
    if n > 1 {
      ChainsOrdered(db, s, n - 1);
      assert RowOk(db, s);
    }
  }

  /** Lines that are not canceled never share a predecessor, after any run from the empty table. */
  lemma RunFromEmpty(steps: seq<(Step, Day)>)
    ensures var db := Run(EMPTY, steps);
      && Linked(db)
      && (forall i, j :: i in db.lines && j in db.lines && i != j
            && !db.lines[i].isCanceled && !db.lines[j].isCanceled && db.lines[i].predecessor.Some?
            ==> db.lines[i].predecessor != db.lines[j].predecessor)
      && (forall i, n: nat :: n > 0 ==> Follow(db, i, n) != Some(i))
  {
    hide Next;
    RunKeeps(EMPTY, steps);
    var db := Run(EMPTY, steps);
    forall i, j | i in db.lines && j in db.lines && i != j && !db.lines[i].isCanceled && !db.lines[j].isCanceled
                  && db.lines[i].predecessor.Some?
      ensures db.lines[i].predecessor != db.lines[j].predecessor {
      assert PredecessorOk(db, i) && PredecessorOk(db, j);
    }
    forall i, n: nat | n > 0 ensures Follow(db, i, n) != Some(i) {
      if Follow(db, i, n).Some? { ChainsOrdered(db, i, n); }
    }
  }
}
