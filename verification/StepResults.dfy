/**
 * What each step does, told in the fields of the lines: exactly on which lines and
 * days it succeeds, which fields change and to what, and that nothing else does.
 */
module StepResults {

  import opened Options
  import opened Calendar
  import opened Recurrence
  import opened LineConstraints
  import opened ContractLines
  import opened LineRuns
  import opened LineLinks
  import opened LineDates
  import opened LineOutcomes
  import opened LineGuards
  import opened Suspension

  /** All lines but some are as before, and no contract is terminated or reopened. */
  ghost predicate OthersSame(db: Db, db': Db, changed: set<LineId>) {
    && db'.terminated == db.terminated
    && forall i :: i !in changed ==> ((i in db'.lines <==> i in db.lines) && (i in db.lines ==> db'.lines[i] == db.lines[i]))
  }

  /** The day a timely line is invoiced next: none once it is invoiced to its end. */
  lemma TimelyDate(l: Line)
    requires Timely(l)
    ensures var first := if l.lastInvoiced.Some? then l.lastInvoiced.value + 1 else l.dateStart;
      var end := RegularEnd(first, l.terms);
      var last := if l.dateEnd.Some? && l.dateEnd.value < end then l.dateEnd.value else end;
      l.nextInvoice ==
        if l.lastInvoiced.Some? && l.lastInvoiced == l.dateEnd then None
        else Some(if l.terms.invoicing == PrePaid then first
                  else if l.terms.rule == MonthlyLastDay then last
                  else last + 1)
  {
    hide RegularEnd;
  }

  // ---------------------------------------------------------------- invoice, stop, cancel, uncancel

  /** An invoice bills up to the end of the next period, and changes nothing but the last invoiced day and the next date. */
  lemma InvoiceResult(db: Db, id: LineId)
    requires id in db.lines && Timely(db.lines[id])
    ensures var l, r := db.lines[id], Invoice(db, [id]);
      var first := if l.lastInvoiced.Some? then l.lastInvoiced.value + 1 else l.dateStart;
      && (r.Ok? <==> !(l.lastInvoiced.Some? && l.lastInvoiced == l.dateEnd))
      && (r.Ok? ==>
            && OthersSame(db, r.value, {id}) && r.value.nextId == db.nextId && id in r.value.lines
            && var l' := r.value.lines[id];
            && Timely(l')
            && l' == l.(lastInvoiced := l'.lastInvoiced, nextInvoice := l'.nextInvoice)
            && var end := RegularEnd(first, l.terms);
            l'.lastInvoiced == Some(if l.dateEnd.Some? && l.dateEnd.value < end then l.dateEnd.value else end))
  {
    hide RegularEnd, Timely, InvoiceOne;
    Single((d, i) => InvoiceOne(d, i), db, id);
    InvoiceSucceeds(db, id);
    TimelyMeetsConstraints(db.lines[id]);
    if db.lines[id].nextInvoice.Some? {
      PeriodToInvoiceIsNextPeriod(db.lines[id]);
      InvoicedTimely(db.lines[id]);
      TimelyFrontier(db.lines[id]);
    }
  }

  /** A stop that does not fall before the start moves the end there if it is later, and ends auto-renewal. */
  lemma StopResult(db: Db, id: LineId, end: Day, manual: bool, today: Day)
    requires Linked(db) && id in db.lines && Timely(db.lines[id]) && db.lines[id].dateStart <= end
    ensures var l, r := db.lines[id], Stop(db, [id], end, manual, today);
      var sooner := l.dateEnd.None? || end < l.dateEnd.value;
      && (r.Ok? <==> MayStop(db, l, today) && (sooner && l.lastInvoiced.Some? ==> l.lastInvoiced.value <= end))
      && (r.Ok? ==>
            && OthersSame(db, r.value, {id}) && r.value.nextId == db.nextId && id in r.value.lines
            && var l' := r.value.lines[id];
            && Timely(l')
            && l'.dateEnd == (if sooner then Some(end) else l.dateEnd)
            && !l'.isAutoRenew && l'.manualRenewNeeded == manual
            && l' == l.(dateEnd := l'.dateEnd, isAutoRenew := false, manualRenewNeeded := manual, nextInvoice := l'.nextInvoice))
  {
    GuardsMeaning(db, id, today);
    hide AllowedSteps, Timely, Linked, MayStop, InvoiceDate;
    if AllowedSteps(db, id, today).stop {
      StopOutcome(db, id, end, manual, today);
    } else {
      StopRefused(db, id, end, manual, today);
    }
    hide Stop;
  }

  lemma StopRefused(db: Db, id: LineId, end: Day, manual: bool, today: Day)
    requires id in db.lines && !AllowedSteps(db, id, today).stop
    ensures Stop(db, [id], end, manual, today).Err?
  {
    hide AllowedSteps;
    assert id in [id];
  }

  /** A stop before the start is a cancel. */
  lemma EarlyStopResult(db: Db, id: LineId, end: Day, manual: bool, today: Day)
    requires id in db.lines && end < db.lines[id].dateStart
    ensures Stop(db, [id], end, manual, today) == if MayStop(db, db.lines[id], today) then Cancel(db, [id], today) else Err(NotAllowed)
  {
    GuardsMeaning(db, id, today);
    hide AllowedSteps, MayStop, Cancel;
    Single((d, i) => StopOne(d, i, end, manual, today), db, id);
    assert id in [id];
  }

  /** A cancel marks the line, ends its auto-renewal, and frees its predecessor. */
  lemma CancelResult(db: Db, id: LineId, today: Day)
    requires Linked(db) && id in db.lines
    ensures var l, r := db.lines[id], Cancel(db, [id], today);
      && (r.Ok? <==> MayCancel(db, l, today))
      && (r.Ok? ==>
            && r.value.nextId == db.nextId && id in r.value.lines
            && OthersSame(db, r.value, if l.predecessor.Some? then {id, l.predecessor.value} else {id})
            && r.value.lines[id] == l.(isCanceled := true, isAutoRenew := false)
            && (l.predecessor.Some? ==>
                  && l.predecessor.value in db.lines && l.predecessor.value in r.value.lines
                  && r.value.lines[l.predecessor.value] == db.lines[l.predecessor.value].(successor := None)))
  {
    GuardsMeaning(db, id, today);
    CancelOutcome(db, id, today);
    assert RowOk(db, id) && SuccessorOk(db, id) && PredecessorOk(db, id);
    if db.lines[id].predecessor.Some? { assert SuccessorOk(db, db.lines[id].predecessor.value) && RowOk(db, db.lines[id].predecessor.value); }
    hide Linked, AllowedSteps, Passes;
  }

  /** Undoing a cancellation clears the mark, writes the given date, and links the predecessor again. */
  lemma UncancelResult(db: Db, id: LineId, next: Option<Day>, today: Day)
    requires Linked(db) && id in db.lines
    ensures var l, r := db.lines[id], Uncancel(db, [id], next, today);
      && (r.Ok? <==>
            && MayUncancel(db, l)
            && (l.predecessor.Some? ==>
                  && l.predecessor.value in db.lines
                  && var p := db.lines[l.predecessor.value];
                  !p.isAutoRenew && p.dateEnd.Some? && p.dateEnd.value < l.dateStart)
            && (next.Some? ==> l.dateStart <= next.value)
            && (next.None? ==> l.dateEnd.Some? && l.lastInvoiced.Some? && l.dateEnd.value <= l.lastInvoiced.value)
            && (l.lastInvoiced.Some? ==>
                  && l.dateStart <= l.lastInvoiced.value
                  && (l.dateEnd.Some? ==> l.lastInvoiced.value <= l.dateEnd.value)
                  && (next.Some? ==> l.lastInvoiced.value < next.value)))
      && (r.Ok? ==>
            && r.value.nextId == db.nextId && id in r.value.lines
            && OthersSame(db, r.value, if l.predecessor.Some? then {id, l.predecessor.value} else {id})
            && r.value.lines[id] == l.(isCanceled := false, nextInvoice := next)
            && (l.predecessor.Some? ==>
                  && l.predecessor.value in r.value.lines
                  && r.value.lines[l.predecessor.value] == db.lines[l.predecessor.value].(successor := Some(id))))
  {
    GuardsMeaning(db, id, today);
    UncancelOutcome(db, id, next, today);
    assert PredecessorOk(db, id);
    hide Linked, AllowedSteps, Uncancel;
    assert forall i :: i in db.lines.Keys <==> i in db.lines;
  }

  // ---------------------------------------------------------------- plan, delay, suspend

  /** A planned successor is a copy with its own dates, never invoiced, linked both ways; the line stops renewing by itself. */
  lemma PlanResult(db: Db, id: LineId, start: Day, end: Option<Day>, auto: bool, today: Day)
    requires Linked(db) && id in db.lines && 1 <= db.lines[id].terms.interval
    ensures var l, r := db.lines[id], PlanSuccessor(db, [id], start, end, auto, None, today);
      && (r.Ok? <==>
            && MayPlanSuccessor(db, l) && l.dateEnd.Some? && l.dateEnd.value < start
            && (end.Some? ==> start <= end.value) && (auto ==> end.Some?))
      && (r.Ok? ==>
            && db.nextId !in db.lines && r.value.nextId == db.nextId + 1
            && OthersSame(db, r.value, {id, db.nextId}) && id in r.value.lines && db.nextId in r.value.lines
            && r.value.lines[id] == l.(isAutoRenew := false, successor := Some(db.nextId))
            && var s := r.value.lines[db.nextId];
            && Timely(s)
            && s == l.(dateStart := start, dateEnd := end, isAutoRenew := auto, lastInvoiced := None,
                       predecessor := Some(id), nextInvoice := s.nextInvoice)
            && s.successor.None? && !s.isCanceled)
  {
    GuardsMeaning(db, id, today);
    assert db.nextId in db.lines ==> RowOk(db, db.nextId);
    assert db.nextId !in db.lines;
    hide AllowedSteps, Timely, Linked;
    if AllowedSteps(db, id, today).planSuccessor {
      PlanOutcome(db, id, start, end, auto, today);
    } else {
      PlanRefused(db, id, start, end, auto, today);
    }
    hide PlanSuccessor, InvoiceDate;
  }

  /** A delay moves both dates of a line that was never invoiced. */
  lemma DelayResult(db: Db, id: LineId, days: int)
    requires Linked(db) && id in db.lines && Timely(db.lines[id]) && 0 <= days
    requires !db.lines[id].isCanceled && db.lines[id].successor.None?
    ensures var l, r := db.lines[id], Delay(db, id, days);
      && (r.Ok? <==> l.lastInvoiced.None?)
      && (r.Ok? ==>
            && OthersSame(db, r.value, {id}) && r.value.nextId == db.nextId && id in r.value.lines
            && var l' := r.value.lines[id];
            && Timely(l')
            && l'.dateStart == l.dateStart + days
            && l'.dateEnd == (if l.dateEnd.Some? then Some(l.dateEnd.value + days) else None)
            && l' == l.(dateStart := l'.dateStart, dateEnd := l'.dateEnd, nextInvoice := l'.nextInvoice))
  {
    hide Timely, Linked, InvoiceDate;
    DelayOutcome(db, id, days);
    hide Delay;
  }

  /**
   * A suspension delays a line that has not started before it, cuts in two a line
   * that runs into it, and only ends the auto-renewal of a line that ended before.
   */
  lemma SuspendResult(db: Db, id: LineId, from: Day, to: Day, auto: bool, today: Day)
    requires Linked(db) && id in db.lines && Timely(db.lines[id]) && from <= to
    ensures var l, r := db.lines[id], Suspend(db, [id], from, to, auto, today);
      var ended := l.dateStart < from && l.dateEnd.Some? && l.dateEnd.value < from;
      && (r.Ok? <==>
            && MaySuspend(db, l, today)
            && (from <= l.dateStart ==> l.lastInvoiced.None?)
            && (l.dateStart < from && !ended ==>
                  (l.lastInvoiced.Some? ==> l.lastInvoiced.value < from) && (auto ==> l.dateEnd.Some?)))
      && (r.Ok? && from <= l.dateStart ==>
            && OthersSame(db, r.value, {id}) && id in r.value.lines
            && var l' := r.value.lines[id];
            && Timely(l')
            && l'.dateStart == (if l.dateStart < to then to + 1 else l.dateStart + (to - from + 1))
            && l'.dateEnd == (if l.dateEnd.Some? then Some(l.dateEnd.value + (l'.dateStart - l.dateStart)) else None)
            && l' == l.(dateStart := l'.dateStart, dateEnd := l'.dateEnd, nextInvoice := l'.nextInvoice))
      && (r.Ok? && ended ==>
            && OthersSame(db, r.value, {id}) && id in r.value.lines
            && r.value.lines[id] == l.(isAutoRenew := false, manualRenewNeeded := false))
      && (r.Ok? && l.dateStart < from && !ended ==>
            && OthersSame(db, r.value, {id, db.nextId}) && id in r.value.lines && db.nextId in r.value.lines
            && var l', s := r.value.lines[id], r.value.lines[db.nextId];
            && Timely(s)
            && l' == l.(dateEnd := Some(from - 1), isAutoRenew := false, manualRenewNeeded := true,
                        successor := Some(db.nextId), nextInvoice := l'.nextInvoice)
            && s == l.(dateStart := to + 1,
                       dateEnd := if l.dateEnd.Some? then Some(l.dateEnd.value + (to - from + 1)) else None,
                       isAutoRenew := auto, manualRenewNeeded := true, lastInvoiced := None, successor := None,
                       predecessor := Some(id), nextInvoice := s.nextInvoice))
  {
    hide *;
    GuardsMeaning(db, id, today);
    SplitsMeaning(db.lines[id], from);
    if AllowedSteps(db, id, today).stopPlanSuccessor {
      SuspendOutcome(db, id, from, to, auto, today);
      if Suspend(db, [id], from, to, auto, today).Ok? {
        if from <= db.lines[id].dateStart {
          SuspendDelays(db, id, from, to, auto, today);
        } else if Splits(db.lines[id], from) {
          SuspendSplits(db, id, from, to, auto, today);
        } else {
          SuspendEnds(db, id, from, to, auto, today);
        }
      }
    } else {
      SuspendRefused(db, id, from, to, auto, today);
    }
  }

  lemma SplitsMeaning(l: Line, from: Day)
    ensures Splits(l, from) <==> l.dateStart < from && !(l.dateEnd.Some? && l.dateEnd.value < from)
  {
  }

  lemma SuspendRefused(db: Db, id: LineId, from: Day, to: Day, auto: bool, today: Day)
    requires id in db.lines && !AllowedSteps(db, id, today).stopPlanSuccessor
    ensures Suspend(db, [id], from, to, auto, today).Err?
  {
    hide AllowedSteps;
    assert id in [id];
  }

  lemma SuspendDelays(db: Db, id: LineId, from: Day, to: Day, auto: bool, today: Day)
    requires Linked(db) && id in db.lines && Timely(db.lines[id]) && from <= to && from <= db.lines[id].dateStart
    requires AllowedSteps(db, id, today).stopPlanSuccessor && db.lines[id].lastInvoiced.None?
    ensures var l, db' := db.lines[id], Suspended(db, id, from, to, auto);
      && OthersSame(db, db', {id}) && id in db'.lines
      && var l' := db'.lines[id];
      && Timely(l')
      && l'.dateStart == (if l.dateStart < to then to + 1 else l.dateStart + (to - from + 1))
      && l'.dateEnd == (if l.dateEnd.Some? then Some(l.dateEnd.value + (l'.dateStart - l.dateStart)) else None)
      && l' == l.(dateStart := l'.dateStart, dateEnd := l'.dateEnd, nextInvoice := l'.nextInvoice)
  {
    hide AllowedSteps, Timely, Linked, InvoiceDate, Delay;
    InnerGuards(db, id, from, today);
    DelayOutcome(db, id, DelayDays(db.lines[id], from, to));
  }

  lemma SuspendEnds(db: Db, id: LineId, from: Day, to: Day, auto: bool, today: Day)
    requires Linked(db) && id in db.lines && Timely(db.lines[id]) && from <= to
    requires db.lines[id].dateStart < from && db.lines[id].dateEnd.Some? && db.lines[id].dateEnd.value < from
    ensures var db' := Suspended(db, id, from, to, auto);
      && OthersSame(db, db', {id}) && id in db'.lines
      && db'.lines[id] == db.lines[id].(isAutoRenew := false, manualRenewNeeded := false)
  {
    var l := db.lines[id];
    FrontierDate(l, l.dateEnd);
    hide InvoiceDate, NextStart;
  }

  /** A new line that follows another is timely when its interval and its dates are in order. */
  lemma ContinuationTimely(l: Line, id: LineId, start: Day, end: Option<Day>, auto: bool)
    requires 1 <= l.terms.interval && (end.Some? ==> start <= end.value)
    ensures Timely(Continuation(l, id, start, end, auto, None))
  {
    hide RegularEnd;
  }

  lemma SuspendSplits(db: Db, id: LineId, from: Day, to: Day, auto: bool, today: Day)
    requires Linked(db) && id in db.lines && Timely(db.lines[id]) && from <= to && Splits(db.lines[id], from)
    requires AllowedSteps(db, id, today).stopPlanSuccessor
    requires db.lines[id].lastInvoiced.Some? ==> db.lines[id].lastInvoiced.value < from
    ensures var l, db' := db.lines[id], Suspended(db, id, from, to, auto);
      && OthersSame(db, db', {id, db.nextId}) && id in db'.lines && db.nextId in db'.lines
      && var l', s := db'.lines[id], db'.lines[db.nextId];
      && Timely(l') && Timely(s)
      && l' == l.(dateEnd := Some(from - 1), isAutoRenew := false, manualRenewNeeded := true,
                  successor := Some(db.nextId), nextInvoice := l'.nextInvoice)
      && s == l.(dateStart := to + 1,
                 dateEnd := if l.dateEnd.Some? then Some(l.dateEnd.value + (to - from + 1)) else None,
                 isAutoRenew := auto, manualRenewNeeded := true, lastInvoiced := None, successor := None,
                 predecessor := Some(id), nextInvoice := s.nextInvoice)
  {
    var l := db.lines[id];
    assert 1 <= l.terms.interval;
    assert RowOk(db, id);
    hide AllowedSteps, Linked, InvoiceDate, Timely, Stop;
    InnerGuards(db, id, from, today);
    StopOutcome(db, id, from - 1, true, today);
    var head := Stopped(l, from - 1, true);
    ContinuationTimely(head, id, to + 1, ResumedEnd(l.dateEnd, from, to), auto);
    SuccessorIrrelevant(head, Some(db.nextId));
  }

  lemma SuccessorIrrelevant(l: Line, successor: Option<LineId>)
    ensures Timely(l.(successor := successor)) <==> Timely(l)
  {
  }

  // ---------------------------------------------------------------- renew, delete

  /** A renewal by a new line closes the old one and adds the next period of renewal, linked both ways. */
  lemma RenewResult(db: Db, id: LineId, today: Day)
    requires Linked(db) && id in db.lines && Timely(db.lines[id]) && db.lines[id].dateEnd.Some?
    ensures var l, r := db.lines[id], RenewOne(db, id, true, today);
      var start := l.dateEnd.value + 1;
      && (r.Ok? <==> MayStop(db, l, today) && l.successor.None? && 1 <= l.renewInterval)
      && (r.Ok? ==>
            && r.value.nextId == db.nextId + 1 && db.nextId !in db.lines
            && OthersSame(db, r.value, {id, db.nextId}) && id in r.value.lines && db.nextId in r.value.lines
            && r.value.lines[id] == l.(isAutoRenew := false, manualRenewNeeded := false, successor := Some(db.nextId))
            && var s := r.value.lines[db.nextId];
            && Timely(s)
            && s == l.(dateStart := start, dateEnd := Some(RegularEnd(start, Terms(l.renewRule, l.renewInterval, l.terms.invoicing))),
                       manualRenewNeeded := false, lastInvoiced := None, successor := None,
                       predecessor := Some(id), nextInvoice := s.nextInvoice))
  {
    hide *;
    GuardsMeaning(db, id, today);
    FreshId(db);
    RenewOutcome(db, id, today);
    if db.lines[id].successor.None? { RenewedFields(db, id); }
  }

  lemma FreshId(db: Db)
    requires Linked(db)
    ensures db.nextId !in db.lines
  {
    assert db.nextId in db.lines ==> RowOk(db, db.nextId);
  }

  lemma RenewedFields(db: Db, id: LineId)
    requires id in db.lines && db.nextId !in db.lines && db.lines[id].dateEnd.Some? && db.lines[id].successor.None?
    ensures var l, db' := db.lines[id], RenewedTable(db, id);
      var start := l.dateEnd.value + 1;
      && db'.nextId == db.nextId + 1
      && OthersSame(db, db', {id, db.nextId}) && id in db'.lines && db.nextId in db'.lines
      && db'.lines[id] == l.(isAutoRenew := false, manualRenewNeeded := false, successor := Some(db.nextId))
      && var s := db'.lines[db.nextId];
      && s == Renewal(l, id)
      && s == l.(dateStart := start, dateEnd := Some(RegularEnd(start, Terms(l.renewRule, l.renewInterval, l.terms.invoicing))),
                 manualRenewNeeded := false, lastInvoiced := None, successor := None,
                 predecessor := Some(id), nextInvoice := s.nextInvoice)
  {
    hide InvoiceDate, Plus;
  }

  /** A renewal by extension moves the end by a period of renewal, and nothing else. */
  lemma ExtendResult(db: Db, id: LineId, today: Day)
    requires Linked(db) && id in db.lines && Timely(db.lines[id]) && db.lines[id].dateEnd.Some?
    ensures var l, r := db.lines[id], RenewOne(db, id, false, today);
      var end := RegularEnd(l.dateEnd.value + 1, Terms(l.renewRule, l.renewInterval, l.terms.invoicing));
      && (r.Ok? <==>
            && l.dateStart <= end && (l.lastInvoiced.Some? ==> l.lastInvoiced.value <= end)
            && (l.successor.Some? ==> l.successor.value in db.lines && end < db.lines[l.successor.value].dateStart))
      && (r.Ok? ==> OthersSame(db, r.value, {id}) && id in r.value.lines && r.value.lines[id] == l.(dateEnd := Some(end)))
  {
    assert SuccessorOk(db, id);
    hide Linked, Timely, Plus;
    ExtendOutcome(db, id, today);
    hide RenewOne;
  }

  /** Deleting needs every line to be canceled or a section or note, and clears all links to what is deleted. */
  lemma UnlinkResult(db: Db, ids: seq<LineId>, i: LineId)
    ensures var r := Unlink(db, ids);
      && (r.Ok? <==> forall id <- ids :: id in db.lines && (db.lines[id].isCanceled || db.lines[id].isDisplay))
      && (r.Ok? ==>
            && r.value.nextId == db.nextId && r.value.terminated == db.terminated
            && (i in r.value.lines <==> i in db.lines && i !in ids)
            && (i in r.value.lines ==>
                  var l, l' := db.lines[i], r.value.lines[i];
                  l' == l.(successor := if l.successor.Some? && l.successor.value in ids then None else l.successor,
                           predecessor := if l.predecessor.Some? && l.predecessor.value in ids then None else l.predecessor)))
  {
  }

  // ---------------------------------------------------------------- any lines, any dates

  /** The line is the predecessor of one of some lines. */
  ghost predicate Precedes(db: Db, i: LineId, ids: seq<LineId>) {
    exists id :: id in ids && id in db.lines && db.lines[id].predecessor == Some(i)
  }

  /** Canceling several lines, on any table: when it succeeds, and what becomes of each line. */
  lemma CancelSetResult(db: Db, ids: seq<LineId>, today: Day, i: LineId)
    ensures var r := Cancel(db, ids, today);
      && (r.Ok? <==>
            && (forall id :: id in ids ==> id in db.lines && MayCancel(db, db.lines[id], today))
            && forall p :: p in db.lines && Precedes(db, p, ids) && db.lines[p].isAutoRenew ==> db.lines[p].dateEnd.Some?)
      && (r.Ok? ==>
            && r.value.nextId == db.nextId && r.value.terminated == db.terminated
            && (i in r.value.lines <==> i in db.lines)
            && (i in db.lines ==>
                  var l := db.lines[i];
                  r.value.lines[i] == l.(successor := if Precedes(db, i, ids) then None else l.successor,
                                         isCanceled := l.isCanceled || i in ids,
                                         isAutoRenew := l.isAutoRenew && i !in ids)))
  {
    hide AllowedSteps, Passes;
    forall id | id in ids && id in db.lines
      ensures AllowedSteps(db, id, today).cancel <==> MayCancel(db, db.lines[id], today) {
      GuardsMeaning(db, id, today);
    }
    if Exist(db, ids) {
      var preds := Predecessors(db, ids);
      assert forall p :: p in preds <==> Precedes(db, p, ids);
      var db1 := Unlinked(db, preds);
      forall p | p in preds && p in db1.lines
        ensures Passes(db1, db1.lines[p], {Successor}) <==> (db.lines[p].isAutoRenew ==> db.lines[p].dateEnd.Some?) {
        PassesMeaning(db1, db1.lines[p], {Successor});
      }
      var db2 := Canceling(db1, ids);
      forall id | id in ids && MayCancel(db, db.lines[id], today)
        ensures Passes(db2, db2.lines[id], {Canceled, AutoRenew}) {
        PassesMeaning(db2, db2.lines[id], {Canceled, AutoRenew});
      }
    }
  }

  /** A stop at or after the end of a line leaves its dates as they are, computed or not. */
  lemma LateStopResult(db: Db, id: LineId, end: Day, manual: bool, today: Day)
    requires id in db.lines && db.lines[id].dateStart <= end
    requires db.lines[id].dateEnd.Some? && db.lines[id].dateEnd.value <= end
    ensures var l, r := db.lines[id], Stop(db, [id], end, manual, today);
      && (r.Ok? <==> MayStop(db, l, today))
      && (r.Ok? ==>
            OthersSame(db, r.value, {id}) && id in r.value.lines
            && r.value.lines[id] == l.(isAutoRenew := false, manualRenewNeeded := manual))
  {
    hide AllowedSteps;
    GuardsMeaning(db, id, today);
    Single((d, i) => StopOne(d, i, end, manual, today), db, id);
  }

  /** A successor planned with a next invoice date gets that date. */
  lemma PlanWithDateResult(db: Db, id: LineId, start: Day, end: Option<Day>, auto: bool, next: Day, today: Day)
    requires id in db.lines && db.nextId != id
    ensures var r := PlanSuccessor(db, [id], start, end, auto, Some(next), today); r.Ok? ==>
      db.nextId in r.value.lines && r.value.lines[db.nextId].nextInvoice == Some(next) && start <= next
  {
    hide AllowedSteps;
    Single((d, i) => PlanOne(d, i, start, end, auto, Some(next), today), db, id);
  }

  /** A line can be entered without links, never invoiced, with dates in order; it is the only change. */
  lemma EnterResult(db: Db, line: Line, today: Day)
    ensures var r := Do(db, NewLine(line), today);
      && (r.Ok? <==>
            && line.successor.None? && line.predecessor.None? && line.lastInvoiced.None? && !line.isCanceled
            && (line.isAutoRenew ==> line.dateEnd.Some?)
            && (line.dateEnd.Some? ==> line.dateStart <= line.dateEnd.value)
            && line.nextInvoice.Some? && line.dateStart <= line.nextInvoice.value)
      && (r.Ok? ==>
            && r.value.lines == db.lines[db.nextId := line]
            && r.value.nextId == db.nextId + 1 && r.value.terminated == db.terminated)
  {
    WriteMeaning(db.(nextId := db.nextId + 1), db.nextId, line, ALL_FIELDS);
  }

  /**
   * A user may edit the dates of a line, its auto-renewal and what no step looks at,
   * as long as the dates and links then fit; what is not written stays.
   */
  lemma EditResult(db: Db, id: LineId, line: Line, w: set<Field>, today: Day)
    requires id in db.lines
    ensures var l, r := db.lines[id], Do(db, Edit(id, line, w), today);
      && (r.Ok? <==>
            && (forall f :: f in w ==> f.DateStart? || f.DateEnd? || f.NextInvoice? || f.AutoRenew?)
            && line.contract == l.contract && line.isCanceled == l.isCanceled && line.lastInvoiced == l.lastInvoiced
            && line.successor == l.successor && line.predecessor == l.predecessor
            && (line.dateStart == l.dateStart || DateStart in w) && (line.dateEnd == l.dateEnd || DateEnd in w)
            && (line.nextInvoice == l.nextInvoice || NextInvoice in w)
            && (line.isAutoRenew == l.isAutoRenew || AutoRenew in w)
            && DatesFit(line, w) && LinksFit(db.lines[id := line], line, w))
      && (r.Ok? ==> OthersSame(db, r.value, {id}) && id in r.value.lines && r.value.lines[id] == line)
  {
    hide DatesFit, LinksFit, Passes;
    WriteMeaning(db, id, line, w);
    assert w <= {DateStart, DateEnd, NextInvoice, AutoRenew}
      <==> forall f :: f in w ==> f.DateStart? || f.DateEnd? || f.NextInvoice? || f.AutoRenew?;
  }

  /** Reopening a contract takes it off the terminated ones. */
  lemma ReopenResult(db: Db, contract: ContractId, c: ContractId, today: Day)
    ensures var r := Do(db, DoReopen(contract), today);
      && r.Ok? && r.value.lines == db.lines && r.value.nextId == db.nextId
      && (c in r.value.terminated <==> c in db.terminated && c != contract)
  {
  }

  // ---------------------------------------------------------------- terminate

  /** The line is canceled, or ends by a day. */
  ghost predicate EndsBy(db: Db, i: LineId, day: Day) {
    i in db.lines && (db.lines[i].isCanceled || (db.lines[i].dateEnd.Some? && db.lines[i].dateEnd.value <= day))
  }

  lemma CancelEnds(db: Db, ids: seq<LineId>, today: Day)
    ensures var r := Cancel(db, ids, today); r.Ok? ==>
      && r.value.terminated == db.terminated
      && (forall i :: i in ids ==> i in r.value.lines && r.value.lines[i].isCanceled)
      && (forall i, day :: EndsBy(db, i, day) ==> EndsBy(r.value, i, day))
      && forall i :: i in db.lines ==> i in r.value.lines && r.value.lines[i].contract == db.lines[i].contract
  {
    hide Passes, AllowedSteps;
  }

  lemma StopOneEnds(db: Db, id: LineId, end: Day, today: Day)
    ensures var r := StopOne(db, id, end, false, today); r.Ok? ==>
      && r.value.terminated == db.terminated
      && EndsBy(r.value, id, end)
      && forall i :: EndsBy(db, i, end) ==> EndsBy(r.value, i, end)
  {
    hide Passes, Cancel, InvoiceDate;
    CancelEnds(db, [id], today);
  }

  lemma {:induction false} StopEnds(body: (Db, LineId) -> Result<Db>, db: Db, ids: seq<LineId>, end: Day, today: Day)
    requires forall d: Db, i: LineId :: body(d, i) == StopOne(d, i, end, false, today)
    ensures var r := ForEach(body, db, ids); r.Ok? ==>
      && r.value.terminated == db.terminated
      && (forall i :: i in ids ==> EndsBy(r.value, i, end))
      && forall i :: EndsBy(db, i, end) ==> EndsBy(r.value, i, end)
    decreases |ids|
  {
    hide StopOne, EndsBy;
    if ids != [] {
      var first: LineId := ids[0];
      assert body(db, first) == StopOne(db, first, end, false, today);
      StopOneEnds(db, first, end, today);
      if body(db, first).Ok? {
        StopEnds(body, body(db, first).value, ids[1..], end, today);
        assert ids == [first] + ids[1..];
      }
    }
  }

  lemma {:induction false} StoppableMeaning(db: Db, ids: seq<LineId>, contract: ContractId, today: Day, i: LineId)
    ensures i in Stoppable(db, ids, contract, today)
       <==> i in ids && i in db.lines && db.lines[i].contract == contract && MayStop(db, db.lines[i], today)
  {
    if ids != [] {
      StoppableMeaning(db, ids[1..], contract, today, i);
      if ids[0] in db.lines { GuardsMeaning(db, ids[0], today); }
      hide AllowedSteps, MayStop;
    }
  }

  /** Terminating a contract ends by the given day, or cancels, each of its lines that may be stopped; then no step is allowed. */
  lemma TerminateResult(db: Db, contract: ContractId, ids: seq<LineId>, date: Day, today: Day, i: LineId, later: Day)
    requires Terminate(db, contract, ids, date, today).Ok?
    ensures var db' := Terminate(db, contract, ids, date, today).value;
      && db'.terminated == db.terminated + {contract}
      && (i in ids && i in db.lines && db.lines[i].contract == contract && MayStop(db, db.lines[i], today) ==>
            EndsBy(db', i, date))
      && (i in db'.lines && db'.lines[i].contract == contract ==> AllowedSteps(db', i, later) == Allowed(false, false, false, false, false))
  {
    hide MayStop, EndsBy, StopOne;
    var stops := Stoppable(db, ids, contract, today);
    StoppableMeaning(db, ids, contract, today, i);
    StopEnds((d, id) => StopOne(d, id, date, false, today), db, stops, date, today);
    var db' := Terminate(db, contract, ids, date, today).value;
    EndsStays(Stop(db, stops, date, false, today).value, db', i, date);
    hide Stoppable;
  }

  lemma EndsStays(db: Db, db': Db, i: LineId, date: Day)
    requires db'.lines == db.lines
    ensures EndsBy(db', i, date) <==> EndsBy(db, i, date)
  {
  }
}
