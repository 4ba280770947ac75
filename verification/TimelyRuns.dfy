/** The computed next invoice date over every run of steps that compute it. */
module TimelyRuns {

  import opened Options
  import opened Calendar
  import opened Recurrence
  import opened ContractLines
  import opened LineRuns
  import opened LineDates

  ghost predicate AllTimely(db: Db) {
    forall i :: i in db.lines ==> Timely(db.lines[i])
  }

  /**
   * The steps that take no invoice date from outside.  Left out are undoing a
   * cancellation, which is handed a date, and extending a line, which keeps its
   * old one.
   */
  predicate Computed(step: Step) {
    match step
    case NewLine(line) => Timely(line)
    case Edit(_, line, _) => Timely(line)
    case DoPlanSuccessor(_, _, _, _, next) => next.None?
    case DoUncancel(_, _) => false
    case DoRenew(_, createLine) => createLine
    case _ => true
  }

  lemma CancelTimely(db: Db, ids: seq<LineId>, today: Day)
    requires AllTimely(db)
    ensures var r := Cancel(db, ids, today); r.Ok? ==> AllTimely(r.value)
  {
    hide NextInvoiceDate;
  }

  lemma StopOneTimely(db: Db, id: LineId, end: Day, manual: bool, today: Day)
    requires AllTimely(db)
    ensures var r := StopOne(db, id, end, manual, today); r.Ok? ==> AllTimely(r.value)
  {
    hide NextInvoiceDate, Cancel;
    CancelTimely(db, [id], today);
    if id in db.lines {
      var l := db.lines[id];
      if l.dateEnd.None? || end < l.dateEnd.value { FrontierDates(l, end); }
    }
  }

  /** Shortening a line gives the same invoice date whether its next period is cut by the old or the new end. */
  lemma FrontierDates(l: Line, end: Day)
    requires l.dateEnd.None? || end < l.dateEnd.value
    ensures InvoiceDate(l, NextStart(l), Some(end)) == InvoiceDate(l, NextStart(l.(dateEnd := Some(end))), Some(end))
  {
    hide RegularEnd;
  }

  lemma StopTimely(db: Db, ids: seq<LineId>, end: Day, manual: bool, today: Day)
    requires AllTimely(db)
    ensures var r := Stop(db, ids, end, manual, today); r.Ok? ==> AllTimely(r.value)
  {
    hide StopOne, AllTimely;
    forall d: Db, i: LineId | AllTimely(d)
      ensures StopOne(d, i, end, manual, today).Ok? ==> AllTimely(StopOne(d, i, end, manual, today).value) {
      StopOneTimely(d, i, end, manual, today);
    }
    ForEachKeeps(AllTimely, (d, i) => StopOne(d, i, end, manual, today), db, ids);
  }

  lemma PlanOneTimely(db: Db, id: LineId, start: Day, end: Option<Day>, auto: bool, today: Day)
    requires AllTimely(db)
    ensures var r := PlanOne(db, id, start, end, auto, None, today); r.Ok? ==> AllTimely(r.value)
  {
    hide RegularEnd;
  }

  lemma PlanTimely(db: Db, ids: seq<LineId>, start: Day, end: Option<Day>, auto: bool, today: Day)
    requires AllTimely(db)
    ensures var r := PlanSuccessor(db, ids, start, end, auto, None, today); r.Ok? ==> AllTimely(r.value)
  {
    hide PlanOne, AllTimely;
    forall d: Db, i: LineId | AllTimely(d)
      ensures PlanOne(d, i, start, end, auto, None, today).Ok? ==> AllTimely(PlanOne(d, i, start, end, auto, None, today).value) {
      PlanOneTimely(d, i, start, end, auto, today);
    }
    ForEachKeeps(AllTimely, (d, i) => PlanOne(d, i, start, end, auto, None, today), db, ids);
  }

  lemma DelayTimely(db: Db, id: LineId, days: int)
    requires AllTimely(db)
    ensures var r := Delay(db, id, days); r.Ok? ==> AllTimely(r.value)
  {
    hide RegularEnd;
  }

  lemma SuspendOneTimely(db: Db, id: LineId, from: Day, to: Day, auto: bool, today: Day)
    requires AllTimely(db)
    ensures var r := SuspendOne(db, id, from, to, auto, today); r.Ok? ==> AllTimely(r.value)
  {
    hide Stop, PlanSuccessor, Delay, AllTimely;
    if id in db.lines {
      var l := db.lines[id];
      DelayTimely(db, id, if l.dateStart < to then to - l.dateStart + 1 else to - from + 1);
      StopTimely(db, [id], from, false, today);
      StopTimely(db, [id], from - 1, true, today);
      var stopped := Stop(db, [id], from - 1, true, today);
      if stopped.Ok? {
        PlanTimely(stopped.value, [id], to + 1, ResumedEnd(l.dateEnd, from, to), auto, today);
      }
    }
  }

  lemma RenewOneTimely(db: Db, id: LineId, today: Day)
    requires AllTimely(db)
    ensures var r := RenewOne(db, id, true, today); r.Ok? ==> AllTimely(r.value)
  {
    hide Stop, PlanSuccessor, Plus, NextInvoiceDate;
    if id in db.lines && db.lines[id].dateEnd.Some? {
      var l := db.lines[id];
      var start := l.dateEnd.value + 1;
      var end := Plus(start, RelativeDelta(l.renewRule, l.renewInterval)) - 1;
      StopTimely(db, [id], l.dateEnd.value, false, today);
      var stopped := Stop(db, [id], l.dateEnd.value, false, today);
      if stopped.Ok? {
        PlanTimely(stopped.value, [id], start, Some(end), l.isAutoRenew, today);
      }
    }
  }

  lemma InvoiceOneTimely(db: Db, id: LineId)
    requires AllTimely(db)
    ensures var r := InvoiceOne(db, id); r.Ok? ==> AllTimely(r.value)
  {
    hide Timely, Invoiced;
    if id in db.lines {
      InvoiceSucceeds(db, id);
      InvoicedTimely(db.lines[id]);
    }
  }

  lemma StepTimely(db: Db, step: Step, today: Day)
    requires AllTimely(db) && Computed(step)
    ensures AllTimely(Next(db, step, today))
  {
    hide Timely, Stop, PlanSuccessor, SuspendOne, RenewOne, InvoiceOne, Cancel;
    match step
    case DoInvoice(ids) =>
      forall d: Db, i: LineId | AllTimely(d) ensures InvoiceOne(d, i).Ok? ==> AllTimely(InvoiceOne(d, i).value) {
        InvoiceOneTimely(d, i);
      }
      ForEachKeeps(AllTimely, (d, i) => InvoiceOne(d, i), db, ids);
    case DoStop(ids, end, manual) => StopTimely(db, ids, end, manual, today);
    case DoPlanSuccessor(ids, start, end, auto, next) => PlanTimely(db, ids, start, end, auto, today);
    case DoSuspend(ids, from, to, auto) =>
      forall d: Db, i: LineId | AllTimely(d)
        ensures SuspendOne(d, i, from, to, auto, today).Ok? ==> AllTimely(SuspendOne(d, i, from, to, auto, today).value) {
        SuspendOneTimely(d, i, from, to, auto, today);
      }
      ForEachKeeps(AllTimely, (d, i) => SuspendOne(d, i, from, to, auto, today), db, ids);
    case DoCancel(ids) => CancelTimely(db, ids, today);
    case DoRenew(ids, createLine) =>
      forall d: Db, i: LineId | AllTimely(d)
        ensures RenewOne(d, i, true, today).Ok? ==> AllTimely(RenewOne(d, i, true, today).value) {
        RenewOneTimely(d, i, today);
      }
      ForEachKeeps(AllTimely, (d, i) => RenewOne(d, i, true, today), db, ids);
    case DoTerminate(contract, ids, date) => StopTimely(db, Stoppable(db, ids, contract, today), date, false, today);
    case DoUnlink(ids) => UnlinkTimely(db, ids);
    case _ =>
  }

  lemma UnlinkTimely(db: Db, ids: seq<LineId>)
    requires AllTimely(db)
    ensures var r := Unlink(db, ids); r.Ok? ==> AllTimely(r.value)
  {
    hide NextInvoiceDate;
  }

  /**
   * After any run of steps that compute their dates, from a timely table, every
   * line has the computed next invoice date and meets every date constraint.
   */
  lemma {:induction false} RunTimely(db: Db, steps: seq<(Step, Day)>)
    requires AllTimely(db) && forall k :: 0 <= k < |steps| ==> Computed(steps[k].0)
    ensures AllTimely(Run(db, steps))
    ensures forall i :: i in Run(db, steps).lines ==> MeetsDateConstraints(Run(db, steps).lines[i])
    decreases |steps|
  {
    hide Next, Timely, MeetsDateConstraints;
    if steps != [] {
      StepTimely(db, steps[0].0, steps[0].1);
      RunTimely(Next(db, steps[0].0, steps[0].1), steps[1..]);
    } else {
      assert Run(db, steps) == db;
      forall i | i in db.lines ensures MeetsDateConstraints(db.lines[i]) {
        TimelyMeetsConstraints(db.lines[i]);
      }
    }
  }
}
