/**
 * What is billed of a line over a whole run: the periods of all its invoices, with
 * any other steps in between, tile the line from its start to its last invoiced day.
 */
module LineHistory {

  import opened Options
  import opened Calendar
  import opened Recurrence
  import opened ContractLines
  import opened LineRuns
  import opened LineDates
  import opened TimelyRuns

  // ---------------------------------------------------------------- what other steps leave alone

  /** The last invoiced day stays, and so does the start once there is one. */
  predicate Kept(l: Line, l': Line) {
    l'.lastInvoiced == l.lastInvoiced && (l.lastInvoiced.Some? ==> l'.dateStart == l.dateStart)
  }

  predicate Bounded(db: Db) {
    forall i :: i in db.lines ==> i < db.nextId
  }

  /** A table some steps later: old lines are kept or gone, and new ones are not invoiced yet. */
  ghost predicate Framed(db: Db, db': Db) {
    && Bounded(db') && db.nextId <= db'.nextId
    && (forall i :: i in db'.lines && i in db.lines ==> Kept(db.lines[i], db'.lines[i]))
    && (forall i :: i in db'.lines && i !in db.lines ==> i >= db.nextId && db'.lines[i].lastInvoiced.None?)
  }

  lemma FramedChain(db: Db, db1: Db, db2: Db)
    requires Bounded(db) && Framed(db, db1) && Framed(db1, db2)
    ensures Framed(db, db2)
  {
  }

  lemma WriteFrames(db: Db, id: LineId, l: Line, written: set<Field>)
    requires Bounded(db) && id in db.lines && Kept(db.lines[id], l)
    ensures var r := Write(db, id, l, written); r.Ok? ==> Framed(db, r.value)
  {
    hide Passes;
  }

  lemma CreateFrames(db: Db, l: Line)
    requires Bounded(db) && l.lastInvoiced.None?
    ensures var r := Create(db, l); r.Ok? ==> Framed(db, r.value)
  {
    hide Passes;
  }

  lemma CancelFrames(db: Db, ids: seq<LineId>, today: Day)
    requires Bounded(db)
    ensures var r := Cancel(db, ids, today); r.Ok? ==> Framed(db, r.value)
  {
    hide Passes, AllowedSteps;
  }

  lemma StopOneFrames(db: Db, id: LineId, end: Day, manual: bool, today: Day)
    requires Bounded(db)
    ensures var r := StopOne(db, id, end, manual, today); r.Ok? ==> Framed(db, r.value)
  {
    hide Passes, Cancel, InvoiceDate;
    CancelFrames(db, [id], today);
  }

  lemma StopFrames(db: Db, ids: seq<LineId>, end: Day, manual: bool, today: Day)
    requires Bounded(db)
    ensures var r := Stop(db, ids, end, manual, today); r.Ok? ==> Framed(db, r.value)
  {
    hide StopOne, Framed, Bounded, AllowedSteps;
    forall d: Db, i: LineId | Framed(db, d) && StopOne(d, i, end, manual, today).Ok?
      ensures Framed(db, StopOne(d, i, end, manual, today).value) {
      FramedBounded(db, d);
      StopOneFrames(d, i, end, manual, today);
      FramedChain(db, d, StopOne(d, i, end, manual, today).value);
    }
    FramedSame(db);
    ForEachKeeps(d => Framed(db, d), (d, i) => StopOne(d, i, end, manual, today), db, ids);
  }

  lemma FramedBounded(db: Db, db': Db)
    requires Framed(db, db')
    ensures Bounded(db')
  {
  }

  lemma FramedSame(db: Db)
    requires Bounded(db)
    ensures Framed(db, db)
  {
  }

  lemma PlanOneFrames(db: Db, id: LineId, start: Day, end: Option<Day>, auto: bool, next: Option<Day>, today: Day)
    requires Bounded(db)
    ensures var r := PlanOne(db, id, start, end, auto, next, today); r.Ok? ==> Framed(db, r.value)
  {
    hide Passes, AllowedSteps, InvoiceDate;
  }

  lemma PlanFrames(db: Db, ids: seq<LineId>, start: Day, end: Option<Day>, auto: bool, next: Option<Day>, today: Day)
    requires Bounded(db)
    ensures var r := PlanSuccessor(db, ids, start, end, auto, next, today); r.Ok? ==> Framed(db, r.value)
  {
    hide PlanOne, Framed, Bounded;
    forall d: Db, i: LineId | Framed(db, d) && PlanOne(d, i, start, end, auto, next, today).Ok?
      ensures Framed(db, PlanOne(d, i, start, end, auto, next, today).value) {
      FramedBounded(db, d);
      PlanOneFrames(d, i, start, end, auto, next, today);
      FramedChain(db, d, PlanOne(d, i, start, end, auto, next, today).value);
    }
    FramedSame(db);
    ForEachKeeps(d => Framed(db, d), (d, i) => PlanOne(d, i, start, end, auto, next, today), db, ids);
  }

  lemma DelayFrames(db: Db, id: LineId, days: int)
    requires Bounded(db)
    ensures var r := Delay(db, id, days); r.Ok? ==> Framed(db, r.value)
  {
    hide Passes, InvoiceDate;
  }

  lemma SuspendOneFrames(db: Db, id: LineId, from: Day, to: Day, auto: bool, today: Day)
    requires Bounded(db)
    ensures var r := SuspendOne(db, id, from, to, auto, today); r.Ok? ==> Framed(db, r.value)
  {
    hide Stop, PlanSuccessor, Delay, Framed, Bounded;
    if id in db.lines {
      var l := db.lines[id];
      DelayFrames(db, id, if l.dateStart < to then to - l.dateStart + 1 else to - from + 1);
      StopFrames(db, [id], from, false, today);
      StopFrames(db, [id], from - 1, true, today);
      var stopped := Stop(db, [id], from - 1, true, today);
      if stopped.Ok? {
        FramedBounded(db, stopped.value);
        var planned := PlanSuccessor(stopped.value, [id], to + 1, ResumedEnd(l.dateEnd, from, to), auto, None, today);
        PlanFrames(stopped.value, [id], to + 1, ResumedEnd(l.dateEnd, from, to), auto, None, today);
        if planned.Ok? { FramedChain(db, stopped.value, planned.value); }
      }
    }
  }

  lemma RenewOneFrames(db: Db, id: LineId, today: Day)
    requires Bounded(db)
    ensures var r := RenewOne(db, id, true, today); r.Ok? ==> Framed(db, r.value)
  {
    hide Stop, PlanSuccessor, Framed, Bounded, InvoiceDate, Plus, Passes, Write;
    if id in db.lines && db.lines[id].dateEnd.Some? {
      var l := db.lines[id];
      var start := l.dateEnd.value + 1;
      var end := Plus(start, RelativeDelta(l.renewRule, l.renewInterval)) - 1;
      StopFrames(db, [id], l.dateEnd.value, false, today);
      var stopped := Stop(db, [id], l.dateEnd.value, false, today);
      if stopped.Ok? {
        var db1 := stopped.value;
        FramedBounded(db, db1);
        PlanFrames(db1, [id], start, Some(end), l.isAutoRenew, None, today);
        var planned := PlanSuccessor(db1, [id], start, Some(end), l.isAutoRenew, None, today);
        if planned.Ok? && db1.nextId in planned.value.lines {
          var db2 := planned.value;
          FramedBounded(db1, db2);
          FramedChain(db, db1, db2);
          var line := db2.lines[db1.nextId];
          var dated := line.(nextInvoice := InvoiceDate(line, NextStart(line), line.dateEnd));
          WriteFrames(db2, db1.nextId, dated, {NextInvoice});
          var written := Write(db2, db1.nextId, dated, {NextInvoice});
          if written.Ok? { FramedChain(db, db2, written.value); }
        }
      }
    }
  }

  lemma UnlinkFrames(db: Db, ids: seq<LineId>)
    requires Bounded(db)
    ensures var r := Unlink(db, ids); r.Ok? ==> Framed(db, r.value)
  {
  }

  /**
   * The steps looked at: those that compute their dates, and no edit that moves the
   * start of a line already invoiced.
   */
  predicate Steady(step: Step) {
    && Computed(step)
    && (step.Edit? ==> DateStart !in step.written || step.line.lastInvoiced.None?)
  }

  /** A step other than invoicing leaves what was billed alone. */
  lemma StepFrames(db: Db, step: Step, today: Day)
    requires Bounded(db) && Steady(step) && !step.DoInvoice?
    ensures Framed(db, Next(db, step, today))
  {
    hide Stop, PlanSuccessor, SuspendOne, RenewOne, Create, Unlink, Cancel, Framed, Bounded, Write, Timely;
    FramedSame(db);
    match step
    case NewLine(line) => if Entered(line) { CreateFrames(db, line); }
    case Edit(id, line, written) =>
      if id in db.lines && Editable(db.lines[id], line, written) { WriteFrames(db, id, line, written); }
    case DoStop(ids, end, manual) => StopFrames(db, ids, end, manual, today);
    case DoPlanSuccessor(ids, start, end, auto, next) => PlanFrames(db, ids, start, end, auto, next, today);
    case DoSuspend(ids, from, to, auto) =>
      forall d: Db, i: LineId | Framed(db, d) && SuspendOne(d, i, from, to, auto, today).Ok?
        ensures Framed(db, SuspendOne(d, i, from, to, auto, today).value) {
        FramedBounded(db, d);
        SuspendOneFrames(d, i, from, to, auto, today);
        FramedChain(db, d, SuspendOne(d, i, from, to, auto, today).value);
      }
      ForEachKeeps(d => Framed(db, d), (d, i) => SuspendOne(d, i, from, to, auto, today), db, ids);
    case DoCancel(ids) => CancelFrames(db, ids, today);
    case DoRenew(ids, createLine) =>
      forall d: Db, i: LineId | Framed(db, d) && RenewOne(d, i, true, today).Ok?
        ensures Framed(db, RenewOne(d, i, true, today).value) {
        FramedBounded(db, d);
        RenewOneFrames(d, i, today);
        FramedChain(db, d, RenewOne(d, i, true, today).value);
      }
      ForEachKeeps(d => Framed(db, d), (d, i) => RenewOne(d, i, true, today), db, ids);
    case DoUnlink(ids) => UnlinkFrames(db, ids);
    case DoTerminate(contract, ids, date) =>
      StopFrames(db, Stoppable(db, ids, contract, today), date, false, today);
      var stopped := Stop(db, Stoppable(db, ids, contract, today), date, false, today);
      if stopped.Ok? { TerminatedFrames(db, stopped.value, stopped.value.terminated + {contract}); }
    case DoReopen(contract) => TerminatedFrames(db, db, db.terminated - {contract});
    case _ =>
  }

  lemma TerminatedFrames(db: Db, db': Db, terminated: set<ContractId>)
    requires Framed(db, db')
    ensures Framed(db, db'.(terminated := terminated))
  {
  }

  // ---------------------------------------------------------------- what invoices bill

  /** The period an invoice bills of a line. */
  function BilledPeriod(l: Line): seq<Period> {
    var (first, last, _) := PeriodToInvoice(l, l.lastInvoiced, l.nextInvoice);
    if first.Some? && last.Some? then [Period(first.value, last.value)] else []
  }

  /** The periods billed of line i when some lines are invoiced one after the other. */
  function BilledIn(db: Db, ids: seq<LineId>, i: LineId): seq<Period>
    decreases |ids|
  {
    if ids == [] || InvoiceOne(db, ids[0]).Err? then []
    else (if ids[0] == i then BilledPeriod(db.lines[i]) else []) + BilledIn(InvoiceOne(db, ids[0]).value, ids[1..], i)
  }

  function BilledBy(db: Db, step: Step, today: Day, i: LineId): seq<Period> {
    if step.DoInvoice? && Do(db, step, today).Ok? then BilledIn(db, step.ids, i) else []
  }

  /** The periods billed of line i over a run. */
  function History(db: Db, steps: seq<(Step, Day)>, i: LineId): seq<Period>
    decreases |steps|
  {
    if steps == [] then []
    else BilledBy(db, steps[0].0, steps[0].1, i) + History(Next(db, steps[0].0, steps[0].1), steps[1..], i)
  }

  /** What was billed of line i so far: its invoiced days if it is there, nothing if it is still to come. */
  ghost predicate BilledSoFar(db: Db, i: LineId, periods: seq<Period>) {
    if i in db.lines then Tile(periods, db.lines[i].dateStart, Frontier(db.lines[i]))
    else i < db.nextId || periods == []
  }

  lemma {:induction false} TileMore(ps: seq<Period>, first: Day, next: Day, p: Period)
    requires Tile(ps, first, next) && p.first == next <= p.last
    ensures Tile(ps + [p], first, p.last + 1)
    decreases |ps|
  {
    if ps == [] {
      assert (ps + [p])[1..] == [];
    } else {
      TileMore(ps[1..], ps[0].last + 1, next, p);
      assert (ps + [p])[1..] == ps[1..] + [p];
    }
  }

  lemma TileNothing(ps: seq<Period>, first: Day)
    requires Tile(ps, first, first)
    ensures ps == []
  {
    if ps != [] { TileCoversOnce(ps[1..], ps[0].last + 1, first, first); }
  }

  lemma FramedBilled(db: Db, db': Db, i: LineId, periods: seq<Period>)
    requires Bounded(db) && Framed(db, db') && BilledSoFar(db, i, periods)
    ensures BilledSoFar(db', i, periods)
  {
    if i in db.lines && db.lines[i].lastInvoiced.None? { TileNothing(periods, db.lines[i].dateStart); }
  }

  /** One invoice of a timely line bills the days right after those billed before. */
  lemma OneBilled(db: Db, id: LineId, i: LineId, periods: seq<Period>)
    requires Bounded(db) && AllTimely(db) && BilledSoFar(db, i, periods) && InvoiceOne(db, id).Ok?
    ensures id in db.lines
    ensures var db' := InvoiceOne(db, id).value;
      && Bounded(db') && AllTimely(db')
      && BilledSoFar(db', i, periods + if id == i then BilledPeriod(db.lines[i]) else [])
  {
    hide RegularEnd, Timely;
    InvoiceSucceeds(db, id);
    InvoiceOneTimely(db, id);
    var l := db.lines[id];
    PeriodToInvoiceIsNextPeriod(l);
    TimelyFrontier(l);
    if id == i {
      var p := Period(NextStart(l).value, NextEnd(l).value);
      assert BilledPeriod(l) == [p];
      TileMore(periods, l.dateStart, Frontier(l), p);
    } else {
      assert periods + [] == periods;
    }
  }

  lemma {:induction false} InvoiceBilled(body: (Db, LineId) -> Result<Db>, db: Db, ids: seq<LineId>, i: LineId, periods: seq<Period>)
    requires forall d: Db, j: LineId :: body(d, j) == InvoiceOne(d, j)
    requires Bounded(db) && AllTimely(db) && BilledSoFar(db, i, periods) && ForEach(body, db, ids).Ok?
    ensures var db' := ForEach(body, db, ids).value;
      Bounded(db') && AllTimely(db') && BilledSoFar(db', i, periods + BilledIn(db, ids, i))
    decreases |ids|
  {
    hide InvoiceOne, AllTimely, Bounded, BilledSoFar, BilledPeriod;
    if ids == [] {
      assert periods + [] == periods;
    } else {
      var first: LineId := ids[0];
      assert body(db, first) == InvoiceOne(db, first);
      OneBilled(db, first, i, periods);
      var now := if first == i then BilledPeriod(db.lines[i]) else [];
      InvoiceBilled(body, InvoiceOne(db, first).value, ids[1..], i, periods + now);
      assert periods + BilledIn(db, ids, i) == (periods + now) + BilledIn(InvoiceOne(db, first).value, ids[1..], i);
    }
  }

  lemma StepBilled(db: Db, step: Step, today: Day, i: LineId, periods: seq<Period>)
    requires Bounded(db) && AllTimely(db) && Steady(step) && BilledSoFar(db, i, periods)
    ensures var db' := Next(db, step, today);
      Bounded(db') && AllTimely(db') && BilledSoFar(db', i, periods + BilledBy(db, step, today, i))
  {
    hide InvoiceOne, AllTimely, Bounded, BilledSoFar, BilledIn, Framed, Timely;
    StepTimely(db, step, today);
    if step.DoInvoice? {
      var ids := step.ids;
      if Invoice(db, ids).Ok? {
        InvoiceBilled((d, id) => InvoiceOne(d, id), db, ids, i, periods);
      } else {
        assert periods + [] == periods;
      }
    } else {
      StepFrames(db, step, today);
      FramedBounded(db, Next(db, step, today));
      FramedBilled(db, Next(db, step, today), i, periods);
      assert periods + [] == periods;
    }
  }

  lemma {:induction false} RunBilled(db: Db, steps: seq<(Step, Day)>, i: LineId, periods: seq<Period>)
    requires Bounded(db) && AllTimely(db) && BilledSoFar(db, i, periods)
    requires forall k :: 0 <= k < |steps| ==> Steady(steps[k].0)
    ensures BilledSoFar(Run(db, steps), i, periods + History(db, steps, i))
    decreases |steps|
  {
    hide AllTimely, Bounded, BilledSoFar, BilledBy, Next, Steady;
    if steps == [] {
      assert periods + [] == periods;
    } else {
      var step, today := steps[0].0, steps[0].1;
      var now := BilledBy(db, step, today, i);
      StepBilled(db, step, today, i, periods);
      RunBilled(Next(db, step, today), steps[1..], i, periods + now);
      assert periods + History(db, steps, i) == (periods + now) + History(Next(db, step, today), steps[1..], i);
    }
  }

  /**
   * Over every run from the empty table, with stops, delays, suspensions, renewals
   * and cancellations between the invoices, the billed periods of each line are
   * contiguous, not empty, and cover exactly its days from the start to the last
   * invoiced one; a day is billed once, and none is billed outside the line.
   */
  lemma HistoryTiles(steps: seq<(Step, Day)>, i: LineId, d: Day)
    requires forall k :: 0 <= k < |steps| ==> Steady(steps[k].0)
    requires i in Run(EMPTY, steps).lines
    ensures var l, periods := Run(EMPTY, steps).lines[i], History(EMPTY, steps, i);
      && Tile(periods, l.dateStart, Frontier(l))
      && ((exists k :: 0 <= k < |periods| && Within(d, periods[k]))
          <==> l.lastInvoiced.Some? && l.dateStart <= d <= l.lastInvoiced.value)
      && (forall j, k :: 0 <= j < k < |periods| ==> !(Within(d, periods[j]) && Within(d, periods[k])))
      && (l.lastInvoiced.Some? && l.dateEnd.Some? ==> l.lastInvoiced.value <= l.dateEnd.value)
  {
    hide Steady, History, Timely;
    RunBilled(EMPTY, steps, i, []);
    var l, periods := Run(EMPTY, steps).lines[i], History(EMPTY, steps, i);
    assert [] + periods == periods;
    TileCoversOnce(periods, l.dateStart, Frontier(l), d);
    RunWellDated(steps, i);
  }

  lemma RunWellDated(steps: seq<(Step, Day)>, i: LineId)
    requires forall k :: 0 <= k < |steps| ==> Steady(steps[k].0)
    requires i in Run(EMPTY, steps).lines
    ensures var l := Run(EMPTY, steps).lines[i];
      l.lastInvoiced.Some? ==> l.dateStart <= l.lastInvoiced.value && (l.dateEnd.Some? ==> l.lastInvoiced.value <= l.dateEnd.value)
  {
    hide Timely;
    RunTimely(EMPTY, steps);
  }
}
