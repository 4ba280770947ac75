/** Suspending a line: when it succeeds, and what service it leaves. */
module Suspension {

  import opened Options
  import opened Calendar
  import opened Recurrence
  import opened ContractLines
  import opened LineLinks
  import opened LineDates
  import opened LineOutcomes

  predicate Covers(l: Line, d: Day) {
    l.dateStart <= d && (l.dateEnd.Some? ==> d <= l.dateEnd.value)
  }

  /** The days of service of a line with an end. */
  function ServiceDays(l: Line): int
    requires l.dateEnd.Some?
  {
    l.dateEnd.value - l.dateStart + 1
  }

  /** They are as many as the days the line covers. */
  lemma {:induction false} ServiceDaysCount(l: Line)
    requires l.dateEnd.Some? && l.dateStart <= l.dateEnd.value + 1
    ensures ServiceDays(l) == |set d: Day | l.dateStart <= d <= l.dateEnd.value && Covers(l, d)|
    decreases l.dateEnd.value - l.dateStart
  {
    var end := l.dateEnd.value;
    var days := set d: Day | l.dateStart <= d <= end && Covers(l, d);
    if l.dateStart <= end {
      var l' := l.(dateEnd := Some(end - 1));
      ServiceDaysCount(l');
      var days' := set d: Day | l'.dateStart <= d <= end - 1 && Covers(l', d);
      assert forall d: Day :: Covers(l', d) <==> Covers(l, d) && d != end;
      assert days == days' + {end};
    } else {
      assert days == {};
    }
  }

  /** The line is cut in two: it runs before the suspension and is still running when it starts. */
  predicate Splits(l: Line, from: Day) {
    l.dateStart < from && (l.dateEnd.Some? ==> from <= l.dateEnd.value)
  }

  function DelayDays(l: Line, from: Day, to: Day): int {
    if l.dateStart < to then to - l.dateStart + 1 else to - from + 1
  }

  /**
   * When a suspension is allowed, so is the stop inside it, and planning the
   * successor is allowed once the line is stopped, wherever today falls.
   */
  lemma InnerGuards(db: Db, id: LineId, from: Day, today: Day)
    requires Linked(db) && id in db.lines && AllowedSteps(db, id, today).stopPlanSuccessor
    ensures AllowedSteps(db, id, today).stop
    ensures !db.lines[id].isCanceled && db.lines[id].successor.None?
    ensures var db' := db.(lines := db.lines[id := Stopped(db.lines[id], from - 1, true)]);
            Splits(db.lines[id], from) ==> AllowedSteps(db', id, today).planSuccessor
  {
    hide NextInvoiceDate;
    assert RowOk(db, id);
  }

  /** Planning the successor of a line stopped for a suspension. */
  lemma PlanAfterStop(db: Db, id: LineId, from: Day, to: Day, auto: bool, today: Day)
    requires id in db.lines && from <= to && Splits(db.lines[id], from) && 1 <= db.lines[id].terms.interval
    requires var db1 := db.(lines := db.lines[id := Stopped(db.lines[id], from - 1, true)]);
             Linked(db1) && AllowedSteps(db1, id, today).planSuccessor
    ensures var l, db1 := db.lines[id], db.(lines := db.lines[id := Stopped(db.lines[id], from - 1, true)]);
      var r := PlanSuccessor(db1, [id], to + 1, ResumedEnd(l.dateEnd, from, to), auto, None, today);
      && (r.Ok? <==> (auto ==> l.dateEnd.Some?))
      && (r.Ok? ==> r.value == SplitTable(db, id, from, to, auto))
  {
    hide NextInvoiceDate, Linked, PlanSuccessor, AllowedSteps, Continuation;
    var l, head := db.lines[id], Stopped(db.lines[id], from - 1, true);
    var end := ResumedEnd(l.dateEnd, from, to);
    PlanOutcome(db.(lines := db.lines[id := head]), id, to + 1, end, auto, today);
    assert head.(isAutoRenew := false) == head;
    Overwrite(db.lines, id, head, db.nextId, Continuation(head, id, to + 1, end, auto, None),
              head.(successor := Some(db.nextId)));
  }

  lemma SplitOutcome(db: Db, id: LineId, from: Day, to: Day, auto: bool, today: Day)
    requires Linked(db) && id in db.lines && Timely(db.lines[id]) && from <= to && Splits(db.lines[id], from)
    requires AllowedSteps(db, id, today).stopPlanSuccessor
    ensures var l, r := db.lines[id], SuspendOne(db, id, from, to, auto, today);
      && (r.Ok? <==> (l.lastInvoiced.Some? ==> l.lastInvoiced.value < from) && (auto ==> l.dateEnd.Some?))
      && (r.Ok? ==> r.value == SplitTable(db, id, from, to, auto))
  {
    assert 1 <= db.lines[id].terms.interval;
    hide Linked, Timely, Stop, PlanSuccessor, AllowedSteps, Delay, Stopped, ResumedEnd, SplitTable;
    InnerGuards(db, id, from, today);
    StopOutcome(db, id, from - 1, true, today);
    StopKeeps(db, [id], from - 1, true, today);
    if Stop(db, [id], from - 1, true, today).Ok? {
      PlanAfterStop(db, id, from, to, auto, today);
    }
  }

  /** An allowed suspension of a timely line succeeds exactly when no invoice reaches into what it moves. */
  lemma SuspendOutcome(db: Db, id: LineId, from: Day, to: Day, auto: bool, today: Day)
    requires Linked(db) && id in db.lines && Timely(db.lines[id]) && from <= to
    requires AllowedSteps(db, id, today).stopPlanSuccessor
    ensures var l, r := db.lines[id], Suspend(db, [id], from, to, auto, today);
      && (r.Ok? <==>
            if from <= l.dateStart then l.lastInvoiced.None?
            else Splits(l, from) ==>
                   && (l.lastInvoiced.Some? ==> l.lastInvoiced.value < from)
                   && (auto ==> l.dateEnd.Some?))
      && (r.Ok? ==> r.value == Suspended(db, id, from, to, auto))
  {
    assert 1 <= db.lines[id].terms.interval;
    hide NextInvoiceDate, Linked, Timely, Stop, PlanSuccessor, Delay, AllowedSteps, SplitTable;
    var l := db.lines[id];
    Single((d, i) => SuspendOne(d, i, from, to, auto, today), db, id);
    InnerGuards(db, id, from, today);
    if from <= l.dateStart {
      DelayOutcome(db, id, DelayDays(l, from, to));
    } else if !Splits(l, from) {
      StopOutcome(db, id, from, false, today);
    } else {
      SplitOutcome(db, id, from, to, auto, today);
    }
  }

  /** The table after the line is suspended. */
  function Suspended(db: Db, id: LineId, from: Day, to: Day, auto: bool): Db
    requires id in db.lines
  {
    var l := db.lines[id];
    if from <= l.dateStart then db.(lines := db.lines[id := Delayed(l, DelayDays(l, from, to))])
    else if Splits(l, from) then SplitTable(db, id, from, to, auto)
    else db.(lines := db.lines[id := Stopped(l, from, false)])
  }

  /** The table after the line is cut in two. */
  function SplitTable(db: Db, id: LineId, from: Day, to: Day, auto: bool): Db
    requires id in db.lines
  {
    var head := Stopped(db.lines[id], from - 1, true);
    var tail := Continuation(head, id, to + 1, ResumedEnd(db.lines[id].dateEnd, from, to), auto, None);
    db.(nextId := db.nextId + 1, lines := db.lines[db.nextId := tail][id := head.(successor := Some(db.nextId))])
  }

  /** The pieces of service after a suspension: the line, and its successor when there is one. */
  function Pieces(db: Db, id: LineId): seq<Line>
    requires id in db.lines
  {
    var l := db.lines[id];
    [l] + if l.successor.Some? && l.successor.value in db.lines then [db.lines[l.successor.value]] else []
  }

  ghost predicate Served(pieces: seq<Line>, d: Day) {
    exists l :: l in pieces && Covers(l, d)
  }

  function TotalDays(pieces: seq<Line>): int
    requires forall l <- pieces :: l.dateEnd.Some?
  {
    if pieces == [] then 0 else ServiceDays(pieces[0]) + TotalDays(pieces[1..])
  }

  /**
   * A suspension leaves no day of service inside itself, does not touch the
   * service before it, keeps the number of days of service of a line with an end,
   * and leaves a line without end running after it.
   */
  lemma SuspensionConserves(db: Db, id: LineId, from: Day, to: Day, auto: bool, today: Day)
    requires Linked(db) && id in db.lines && Timely(db.lines[id]) && from <= to
    requires AllowedSteps(db, id, today).stopPlanSuccessor
    requires Suspend(db, [id], from, to, auto, today).Ok?
    ensures var l, db' := db.lines[id], Suspend(db, [id], from, to, auto, today).value;
      && id in db'.lines
      && (forall d :: from <= d <= to ==> !Served(Pieces(db', id), d))
      && (forall d :: d < from ==> (Served(Pieces(db', id), d) <==> Covers(l, d)))
      && (l.dateEnd.Some? ==>
            && (forall p <- Pieces(db', id) :: p.dateEnd.Some?)
            && TotalDays(Pieces(db', id)) == ServiceDays(l))
      && (l.dateEnd.None? ==> forall d :: to < d && (from <= l.dateStart ==> l.dateStart + DelayDays(l, from, to) <= d)
                                         ==> Served(Pieces(db', id), d))
  {
    assert RowOk(db, id) && SuccessorOk(db, id);
    hide NextInvoiceDate, Linked, Timely, Suspend, AllowedSteps;
    var l, db' := db.lines[id], Suspend(db, [id], from, to, auto, today).value;
    SuspendOutcome(db, id, from, to, auto, today);
    InnerGuards(db, id, from, today);
    var pieces := Pieces(db', id);
    if Splits(l, from) {
      assert id != db.nextId;
      assert pieces[1..] == [pieces[1]] && pieces[1..][1..] == [];
      assert l.dateEnd.Some? ==> TotalDays(pieces[1..]) == ServiceDays(pieces[1]) + TotalDays([]);
      forall d ensures Served(pieces, d) <==> Covers(pieces[0], d) || Covers(pieces[1], d) {
        assert pieces[0] in pieces && pieces[1] in pieces;
      }
    } else {
      assert pieces[1..] == [];
      assert pieces == [db'.lines[id]];
      forall d ensures Served(pieces, d) <==> Covers(pieces[0], d) {
        assert pieces[0] in pieces;
      }
    }
  }
}
