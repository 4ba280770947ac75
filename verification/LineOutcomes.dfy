/**
 * Exactly when a step on a timely line succeeds, and the row it leaves: no date
 * constraint ever stops one of these steps, except a stop before the last
 * invoiced day.
 */
module LineOutcomes {

  import opened Options
  import opened Calendar
  import opened Recurrence
  import opened LineConstraints
  import opened ContractLines
  import opened LineLinks
  import opened LineDates

  lemma Single(body: (Db, LineId) -> Result<Db>, db: Db, id: LineId)
    ensures ForEach(body, db, [id]) == body(db, id)
  {
    if body(db, id).Ok? {
      assert ForEach(body, body(db, id).value, [id][1..]) == Ok(body(db, id).value);
    }
  }

  // ---------------------------------------------------------------- stop

  predicate Shortens(l: Line, end: Day) {
    l.dateEnd.None? || end < l.dateEnd.value
  }

  function Stopped(l: Line, end: Day, manual: bool): Line {
    var newEnd := if Shortens(l, end) then Some(end) else l.dateEnd;
    l.(dateEnd := newEnd, isAutoRenew := false, manualRenewNeeded := manual,
       nextInvoice := InvoiceDate(l, Some(Frontier(l)), newEnd))
  }

  lemma FrontierDate(l: Line, end: Option<Day>)
    requires end == l.dateEnd || (end.Some? && Shortens(l, end.value))
    ensures InvoiceDate(l, NextStart(l), end) == InvoiceDate(l, Some(Frontier(l)), end)
  {
    hide RegularEnd;
  }

  /** A stop inside the line is refused by a constraint exactly when it falls before the last invoiced day. */
  lemma StopOutcome(db: Db, id: LineId, end: Day, manual: bool, today: Day)
    requires Linked(db) && id in db.lines && Timely(db.lines[id])
    requires AllowedSteps(db, id, today).stop && db.lines[id].dateStart <= end
    ensures var l, r := db.lines[id], Stop(db, [id], end, manual, today);
      && (r.Ok? <==> (Shortens(l, end) && l.lastInvoiced.Some? ==> l.lastInvoiced.value <= end))
      && (r.Ok? ==> r.value == db.(lines := db.lines[id := Stopped(l, end, manual)]) && Timely(Stopped(l, end, manual)))
  {
    hide NextInvoiceDate;
    var l := db.lines[id];
    Single((d, i) => StopOne(d, i, end, manual, today), db, id);
    assert RowOk(db, id) && SuccessorOk(db, id) && PredecessorOk(db, id);
    FrontierDate(l, if Shortens(l, end) then Some(end) else l.dateEnd);
    var l' := Stopped(l, end, manual);
    FrontierDate(l', l'.dateEnd);
    if Timely(l') {
      TimelyMeetsConstraints(l');
    }
  }

  /**
   * A cancel, which is what a stop before the start does, is never refused by a
   * constraint once it is allowed, and frees the predecessor for another successor.
   */
  lemma CancelOutcome(db: Db, id: LineId, today: Day)
    requires Linked(db) && id in db.lines
    ensures var l, r := db.lines[id], Cancel(db, [id], today);
      && (r.Ok? <==> AllowedSteps(db, id, today).cancel)
      && (r.Ok? ==>
            && r.value.lines.Keys == db.lines.Keys
            && r.value.lines[id].isCanceled
            && (l.predecessor.Some? ==> r.value.lines[l.predecessor.value].successor.None?))
  {
    assert RowOk(db, id) && SuccessorOk(db, id) && PredecessorOk(db, id);
    hide NextInvoiceDate, Rule, CriteriaOf, NextStart, NextAfterStart, LastInvoicedInside, NextSupplied, AfterPredecessor;
    var l := db.lines[id];
    if l.predecessor.Some? {
      var p := l.predecessor.value;
      assert RowOk(db, p);
    }
  }

  // ---------------------------------------------------------------- plan a successor

  lemma PlanOutcome(db: Db, id: LineId, start: Day, end: Option<Day>, auto: bool, today: Day)
    requires Linked(db) && id in db.lines && 1 <= db.lines[id].terms.interval
    requires AllowedSteps(db, id, today).planSuccessor
    ensures db.lines[id].dateEnd.Some?
    ensures var l, r := db.lines[id].(isAutoRenew := false), PlanSuccessor(db, [id], start, end, auto, None, today);
      var continued := Continuation(l, id, start, end, auto, None);
      && (r.Ok? <==> l.dateEnd.value < start && (end.Some? ==> start <= end.value) && (auto ==> end.Some?))
      && (r.Ok? ==>
            && Timely(continued)
            && r.value == db.(nextId := db.nextId + 1,
                              lines := db.lines[db.nextId := continued][id := l.(successor := Some(db.nextId))]))
  {
    hide RegularEnd;
    Single((d, i) => PlanOne(d, i, start, end, auto, None, today), db, id);
    var l := db.lines[id].(isAutoRenew := false);
    assert RowOk(db, id) && SuccessorOk(db, id) && PredecessorOk(db, id);
    var continued := Continuation(l, id, start, end, auto, None);
    if Timely(continued) {
      TimelyMeetsConstraints(continued);
    }
  }

  // ---------------------------------------------------------------- delay

  function Delayed(l: Line, days: int): Line {
    var start, end := l.dateStart + days, AddDays(l.dateEnd, days);
    l.(dateStart := start, dateEnd := end, nextInvoice := InvoiceDate(l, Some(start), end))
  }

  /** A delay is refused exactly when the line was already invoiced. */
  lemma DelayOutcome(db: Db, id: LineId, days: int)
    requires Linked(db) && id in db.lines && Timely(db.lines[id]) && 0 <= days
    requires !db.lines[id].isCanceled && db.lines[id].successor.None?
    ensures var l, r := db.lines[id], Delay(db, id, days);
      && (r.Ok? <==> l.lastInvoiced.None?)
      && (r.Ok? ==> r.value == db.(lines := db.lines[id := Delayed(l, days)]) && Timely(Delayed(l, days)))
  {
    hide RegularEnd;
    var l := db.lines[id];
    assert RowOk(db, id) && PredecessorOk(db, id);
    if l.predecessor.Some? {
      assert SuccessorOk(db, l.predecessor.value);
    }
    if l.lastInvoiced.None? {
      TimelyMeetsConstraints(Delayed(l, days));
    }
  }

  // ---------------------------------------------------------------- renew by extending

  /**
   * Extending a renewed line does not recompute its next invoice date.  The date
   * stays the computed one exactly when an invoice is still due and, for a
   * post-paid line, its period was not cut short by the old end.
   */
  lemma ExtensionKeepsTimely(l: Line, end: Day)
    requires Timely(l) && l.dateEnd.Some? && l.dateEnd.value < end
    ensures Timely(l.(dateEnd := Some(end))) <==>
              && l.nextInvoice.Some?
              && (l.terms.invoicing == PrePaid || RegularEnd(NextStart(l).value, l.terms) <= l.dateEnd.value)
  {
    hide RegularEnd;
    TimelyFrontier(l);
    TimelyMeetsConstraints(l);
    var l' := l.(dateEnd := Some(end));
    InvoiceDateBounds(NextStart(l'), l.terms, l'.dateEnd);
  }

  /** The end a renewal gives a line. */
  function RenewedEnd(l: Line): Day
    requires l.dateEnd.Some?
  {
    RegularEnd(l.dateEnd.value + 1, Terms(l.renewRule, l.renewInterval, PrePaid))
  }

  /** A renewal by extension succeeds exactly when the new end fits the line, what is invoiced of it, and its successor. */
  lemma ExtendOutcome(db: Db, id: LineId, today: Day)
    requires Linked(db) && id in db.lines && Timely(db.lines[id]) && db.lines[id].dateEnd.Some?
    ensures var l, r := db.lines[id], RenewOne(db, id, false, today);
      && (r.Ok? <==>
            && l.dateStart <= RenewedEnd(l)
            && (l.lastInvoiced.Some? ==> l.lastInvoiced.value <= RenewedEnd(l))
            && (l.successor.Some? ==> RenewedEnd(l) < db.lines[l.successor.value].dateStart))
      && (r.Ok? ==> r.value == db.(lines := db.lines[id := l.(dateEnd := Some(RenewedEnd(l)))]))
  {
    hide NextInvoiceDate, Plus;
    assert RowOk(db, id) && SuccessorOk(db, id);
    TimelyMeetsConstraints(db.lines[id]);
  }

  /**
   * A line without a successor is always extended by a period of at least one unit.
   * Its next invoice date stays the computed one exactly when an invoice is still
   * due and, for a post-paid line, its period was not cut short by the old end.
   */
  lemma ExtensionOutcome(db: Db, id: LineId, today: Day)
    requires Linked(db) && id in db.lines && Timely(db.lines[id]) && db.lines[id].dateEnd.Some?
    requires 1 <= db.lines[id].renewInterval && db.lines[id].successor.None?
    ensures var l, r := db.lines[id], RenewOne(db, id, false, today);
      && r.Ok? && r.value == db.(lines := db.lines[id := l.(dateEnd := Some(RenewedEnd(l)))])
      && (Timely(r.value.lines[id]) <==>
            && l.nextInvoice.Some?
            && (l.terms.invoicing == PrePaid || RegularEnd(NextStart(l).value, l.terms) <= l.dateEnd.value))
  {
    hide RegularEnd, NextStart, Timely, RenewOne, NextInvoiceDate;
    var l := db.lines[id];
    RenewedLater(l);
    EndAfter(l);
    ExtendOutcome(db, id, today);
    ExtensionKeepsTimely(l, RenewedEnd(l));
  }

  lemma RenewedLater(l: Line)
    requires l.dateEnd.Some?
    ensures l.dateEnd.value < RenewedEnd(l) <==> 1 <= l.renewInterval
  {
    PeriodAdvances(l.dateEnd.value + 1, Terms(l.renewRule, l.renewInterval, PrePaid));
  }

  lemma EndAfter(l: Line)
    requires Timely(l) && l.dateEnd.Some?
    ensures l.dateStart <= l.dateEnd.value && (l.lastInvoiced.Some? ==> l.lastInvoiced.value <= l.dateEnd.value)
  {
  }

  /** A pre-paid line by the day that is invoiced to its end: renewed by extension, it has days to invoice and no invoice date. */
  lemma ExtensionExample(id: LineId, start: Day, today: Day)
    ensures var line := Line(0, false, start, Some(start), None, Some(start), Terms(Daily, 1, PrePaid), Daily, 1,
                             false, false, false, None, None);
      var db := Db(map[id := line], id + 1, {});
      && Linked(db) && Timely(line)
      && RenewOne(db, id, false, today).Ok?
      && !Timely(RenewOne(db, id, false, today).value.lines[id])
  {
    var line := Line(0, false, start, Some(start), None, Some(start), Terms(Daily, 1, PrePaid), Daily, 1,
                     false, false, false, None, None);
    var db := Db(map[id := line], id + 1, {});
    assert RowOk(db, id) && SuccessorOk(db, id) && PredecessorOk(db, id);
    ExtensionOutcome(db, id, today);
  }

  // ---------------------------------------------------------------- renew by a new line

  /** The line as it is left by a renewal, without its link to the new one. */
  function Closed(l: Line): Line {
    l.(isAutoRenew := false, manualRenewNeeded := false)
  }

  /** The line a renewal adds. */
  function Renewal(l: Line, id: LineId): Line
    requires l.dateEnd.Some?
  {
    Continuation(Closed(l), id, l.dateEnd.value + 1, Some(RenewedEnd(l)), l.isAutoRenew, None)
  }

  /** After the stop inside a renewal, planning the new line is allowed exactly when there is no successor. */
  lemma RenewGuards(db: Db, id: LineId, today: Day)
    requires Linked(db) && id in db.lines && AllowedSteps(db, id, today).stop && db.lines[id].dateEnd.Some?
    ensures var db' := db.(lines := db.lines[id := Closed(db.lines[id])]);
      AllowedSteps(db', id, today).planSuccessor <==> db.lines[id].successor.None?
  {
    hide NextInvoiceDate;
    assert RowOk(db, id);
  }

  lemma StopAtEnd(db: Db, id: LineId, today: Day)
    requires Linked(db) && id in db.lines && Timely(db.lines[id]) && db.lines[id].dateEnd.Some?
    requires AllowedSteps(db, id, today).stop
    ensures Stop(db, [id], db.lines[id].dateEnd.value, false, today)
         == Ok(db.(lines := db.lines[id := Closed(db.lines[id])]))
    ensures Timely(Closed(db.lines[id]))
  {
    var l := db.lines[id];
    EndAfter(l);
    StopOutcome(db, id, l.dateEnd.value, false, today);
    FrontierDate(l, l.dateEnd);
    hide NextInvoiceDate, Stop;
  }

  lemma RenewRefused(db: Db, id: LineId, today: Day)
    requires id in db.lines && !AllowedSteps(db, id, today).stop && db.lines[id].dateEnd.Some?
    ensures RenewOne(db, id, true, today).Err?
  {
    hide AllowedSteps, NextInvoiceDate, Plus;
  }

  lemma Overwrite<K, V>(m: map<K, V>, k: K, a: V, j: K, t: V, b: V)
    ensures m[k := a][j := t][k := b] == m[j := t][k := b]
  {
  }

  /** Planning the new line of a renewal, once the line is closed. */
  lemma PlanRenewal(db: Db, id: LineId, today: Day)
    requires id in db.lines && Timely(db.lines[id]) && db.lines[id].dateEnd.Some? && db.lines[id].successor.None?
    requires var db1 := db.(lines := db.lines[id := Closed(db.lines[id])]); Linked(db1) && AllowedSteps(db1, id, today).planSuccessor
    ensures var l, db1 := db.lines[id], db.(lines := db.lines[id := Closed(db.lines[id])]);
      var r := PlanSuccessor(db1, [id], l.dateEnd.value + 1, Some(RenewedEnd(l)), l.isAutoRenew, None, today);
      && id != db.nextId
      && (r.Ok? <==> 1 <= l.renewInterval)
      && (r.Ok? ==> Timely(Renewal(l, id)) && r.value == RenewedTable(db, id))
  {
    var l := db.lines[id];
    var db1 := db.(lines := db.lines[id := Closed(l)]);
    hide NextInvoiceDate, PlanSuccessor, AllowedSteps, RegularEnd, SuccessorOk, PredecessorOk;
    assert 1 <= l.terms.interval;
    assert id in db1.lines && RowOk(db1, id);
    RenewedLater(l);
    hide Timely, Linked, Continuation;
    PlanOutcome(db1, id, l.dateEnd.value + 1, Some(RenewedEnd(l)), l.isAutoRenew, today);
    assert Closed(l).(isAutoRenew := false) == Closed(l);
    Overwrite(db.lines, id, Closed(l), db.nextId, Renewal(l, id), Closed(l).(successor := Some(db.nextId)));
  }

  /** The table after a renewal by a new line. */
  function RenewedTable(db: Db, id: LineId): Db
    requires id in db.lines && db.lines[id].dateEnd.Some?
  {
    var l := db.lines[id];
    db.(nextId := db.nextId + 1,
        lines := db.lines[db.nextId := Renewal(l, id)][id := Closed(l).(successor := Some(db.nextId))])
  }

  /** The last write of a renewal recomputes the date the new line already has. */
  lemma RewriteDate(db: Db, id: LineId)
    requires id in db.lines && Timely(db.lines[id])
    ensures var l := db.lines[id];
      Write(db, id, l.(nextInvoice := InvoiceDate(l, NextStart(l), l.dateEnd)), {NextInvoice}) == Ok(db)
  {
    var l := db.lines[id];
    TimelyMeetsConstraints(l);
    assert l.(nextInvoice := InvoiceDate(l, NextStart(l), l.dateEnd)) == l;
    assert db.lines[id := l] == db.lines;
  }

  /**
   * A renewal by a new line succeeds exactly when the line may be stopped, has no
   * successor, and renews by a period of at least one unit; the new line starts the
   * day after, is timely, and renews by itself if the old one did.
   */
  lemma RenewOutcome(db: Db, id: LineId, today: Day)
    requires Linked(db) && id in db.lines && Timely(db.lines[id]) && db.lines[id].dateEnd.Some?
    ensures var l, r := db.lines[id], RenewOne(db, id, true, today);
      && (r.Ok? <==> AllowedSteps(db, id, today).stop && l.successor.None? && 1 <= l.renewInterval)
      && (r.Ok? ==> r.value == RenewedTable(db, id) && Timely(Renewal(l, id)))
  {
    hide *;
    var l := db.lines[id];
    if !AllowedSteps(db, id, today).stop {
      RenewRefused(db, id, today);
    } else {
      StopAtEnd(db, id, today);
      StopKeeps(db, [id], l.dateEnd.value, false, today);
      RenewGuards(db, id, today);
      RenewStopped(db, id, today);
      if l.successor.None? {
        PlanRenewal(db, id, today);
        if 1 <= l.renewInterval {
          NewLine(db, id);
          RewriteDate(RenewedTable(db, id), db.nextId);
        }
      } else {
        PlanRefused(db.(lines := db.lines[id := Closed(l)]), id, l.dateEnd.value + 1, Some(RenewedEnd(l)), l.isAutoRenew, today);
      }
    }
  }

  lemma NewLine(db: Db, id: LineId)
    requires id in db.lines && db.lines[id].dateEnd.Some? && id != db.nextId
    ensures db.nextId in RenewedTable(db, id).lines && RenewedTable(db, id).lines[db.nextId] == Renewal(db.lines[id], id)
  {
    hide Renewal;
  }

  lemma PlanRefused(db: Db, id: LineId, start: Day, end: Option<Day>, auto: bool, today: Day)
    requires id in db.lines && !AllowedSteps(db, id, today).planSuccessor
    ensures PlanSuccessor(db, [id], start, end, auto, None, today).Err?
  {
    hide AllowedSteps;
    Single((d, i) => PlanOne(d, i, start, end, auto, None, today), db, id);
  }

  /** The rest of a renewal, once the line is stopped. */
  lemma RenewStopped(db: Db, id: LineId, today: Day)
    requires id in db.lines && db.lines[id].dateEnd.Some?
    requires Stop(db, [id], db.lines[id].dateEnd.value, false, today) == Ok(db.(lines := db.lines[id := Closed(db.lines[id])]))
    ensures var l, db1 := db.lines[id], db.(lines := db.lines[id := Closed(db.lines[id])]);
      var p := PlanSuccessor(db1, [id], l.dateEnd.value + 1, Some(RenewedEnd(l)), l.isAutoRenew, None, today);
      RenewOne(db, id, true, today) == (
        if p.Err? then p
        else if db.nextId !in p.value.lines then Err(Crash)
        else
          var line := p.value.lines[db.nextId];
          Write(p.value, db.nextId, line.(nextInvoice := InvoiceDate(line, NextStart(line), line.dateEnd)), {NextInvoice}))
  {
    hide Stop, PlanSuccessor, InvoiceDate, NextStart, Write, Plus;
  }

  // ---------------------------------------------------------------- uncancel

  /** The line that an undone cancellation leaves. */
  function Restored(l: Line, next: Option<Day>): Line {
    l.(isCanceled := false, nextInvoice := next)
  }

  /**
   * Undoing a cancellation succeeds exactly when it is allowed, the predecessor can
   * be linked to again, and the given date meets the constraints on such dates.
   */
  lemma UncancelOutcome(db: Db, id: LineId, next: Option<Day>, today: Day)
    requires Linked(db) && id in db.lines
    ensures var l, r := db.lines[id], Uncancel(db, [id], next, today);
      && (r.Ok? <==>
            && AllowedSteps(db, id, today).uncancel
            && (l.predecessor.Some? ==>
                  var p := db.lines[l.predecessor.value];
                  !p.isAutoRenew && p.dateEnd.Some? && p.dateEnd.value < l.dateStart)
            && NextAfterStart(Restored(l, next)) && LastInvoicedInside(Restored(l, next)) && NextSupplied(Restored(l, next)))
      && (r.Ok? ==>
            && r.value.lines.Keys == db.lines.Keys && r.value.nextId == db.nextId && r.value.terminated == db.terminated
            && r.value.lines[id] == Restored(l, next)
            && (l.predecessor.Some? ==>
                  r.value.lines[l.predecessor.value] == db.lines[l.predecessor.value].(successor := Some(id)))
            && (forall i :: i in db.lines && i != id && l.predecessor != Some(i) ==> r.value.lines[i] == db.lines[i]))
  {
    hide NextInvoiceDate, NextStart, NextEnd, AllowedSteps;
    UncancelAllowed(db, id, today);
    Single((d, i) => UncancelOne(d, i, next), db, id);
    assert RowOk(db, id) && SuccessorOk(db, id) && PredecessorOk(db, id);
    if db.lines[id].predecessor.Some? { assert RowOk(db, db.lines[id].predecessor.value); }
    hide Linked;
  }

  /** An uncancel that is allowed finds the predecessor free. */
  lemma UncancelAllowed(db: Db, id: LineId, today: Day)
    requires id in db.lines
    ensures AllowedSteps(db, id, today).uncancel ==>
      var p := db.lines[id].predecessor; p.Some? && p.value in db.lines ==> db.lines[p.value].successor.None?
  {
    hide NextInvoiceDate, ComputeWhen;
  }
}
