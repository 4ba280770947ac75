/**
 * On which lines and days each step of the life cycle is allowed, in the fields of
 * the line and in dates.
 */
module LineGuards {

  import opened Options
  import opened Calendar
  import opened Recurrence
  import opened LineConstraints
  import opened ContractLines

  /** The line ended before today; a line that has not started yet has not. */
  predicate Over(l: Line, today: Day) {
    l.dateStart <= today && l.dateEnd.Some? && l.dateEnd.value < today
  }

  /** A live line of a contract that is not terminated, with attributes that go together. */
  predicate InForce(db: Db, l: Line) {
    && l.contract !in db.terminated && !l.isCanceled
    && (l.isAutoRenew ==> l.dateEnd.Some? && l.successor.None?)
    && (l.dateEnd.None? ==> l.successor.None?)
  }

  predicate PredecessorTaken(db: Db, l: Line) {
    l.predecessor.Some? && l.predecessor.value in db.lines && db.lines[l.predecessor.value].successor.Some?
  }

  predicate MayPlanSuccessor(db: Db, l: Line) {
    InForce(db, l) && l.dateEnd.Some? && !l.isAutoRenew && l.successor.None?
  }

  predicate MaySuspend(db: Db, l: Line, today: Day) {
    InForce(db, l) && !Over(l, today) && l.successor.None?
  }

  predicate MayStop(db: Db, l: Line, today: Day) {
    InForce(db, l) && !(Over(l, today) && l.successor.Some?)
  }

  predicate MayCancel(db: Db, l: Line, today: Day) {
    InForce(db, l) && !Over(l, today) && l.lastInvoiced.None?
  }

  predicate MayUncancel(db: Db, l: Line) {
    l.contract !in db.terminated && l.isCanceled && !PredecessorTaken(db, l)
  }

  /** The five guards, looked up in the table of criteria, say exactly this. */
  lemma GuardsMeaning(db: Db, id: LineId, today: Day)
    requires id in db.lines
    ensures var l, allowed := db.lines[id], AllowedSteps(db, id, today);
      && (allowed.planSuccessor <==> MayPlanSuccessor(db, l))
      && (allowed.stopPlanSuccessor <==> MaySuspend(db, l, today))
      && (allowed.stop <==> MayStop(db, l, today))
      && (allowed.cancel <==> MayCancel(db, l, today))
      && (allowed.uncancel <==> MayUncancel(db, l))
  {
  }

  /** A line that ended may no longer be canceled, suspended, or, with a successor, stopped. */
  lemma EndedLine(db: Db, id: LineId, today: Day)
    requires id in db.lines && Over(db.lines[id], today)
    ensures !AllowedSteps(db, id, today).cancel && !AllowedSteps(db, id, today).stopPlanSuccessor
    ensures db.lines[id].successor.Some? ==> !AllowedSteps(db, id, today).stop
  {
    GuardsMeaning(db, id, today);
  }

  // ---------------------------------------------------------------- what a write has to meet

  /** Dates that fit each other, as far as they were written. */
  ghost predicate DatesFit(l: Line, w: set<Field>) {
    var interval := DateStart in w || DateEnd in w;
    && (interval && l.dateEnd.Some? ==> l.dateStart <= l.dateEnd.value)
    && ((DateStart in w || NextInvoice in w) && l.nextInvoice.Some? ==> l.dateStart <= l.nextInvoice.value)
    && (NextInvoice in w && l.nextInvoice.None? ==>
          l.dateEnd.Some? && l.lastInvoiced.Some? && l.dateEnd.value <= l.lastInvoiced.value)
    && ((interval || NextInvoice in w || LastInvoiced in w) && l.lastInvoiced.Some? ==>
          && l.dateStart <= l.lastInvoiced.value
          && (l.dateEnd.Some? ==> l.lastInvoiced.value <= l.dateEnd.value)
          && (l.nextInvoice.Some? ==> l.lastInvoiced.value < l.nextInvoice.value))
  }

  /** Links that fit the dates and flags, as far as they were written. */
  ghost predicate LinksFit(lines: map<LineId, Line>, l: Line, w: set<Field>) {
    && (Canceled in w || AutoRenew in w ==> !(l.isCanceled && l.isAutoRenew))
    && (AutoRenew in w || Successor in w || DateEnd in w ==>
          (l.isAutoRenew ==> l.dateEnd.Some? && l.successor.None?) && (l.dateEnd.None? ==> l.successor.None?))
    && ((Successor in w || DateEnd in w) && l.dateEnd.Some? && l.successor.Some? ==>
          l.successor.value in lines && l.dateEnd.value < lines[l.successor.value].dateStart)
    && ((Predecessor in w || DateStart in w) && l.predecessor.Some? ==>
          l.predecessor.value in lines && var p := lines[l.predecessor.value]; p.dateEnd.Some? && p.dateEnd.value < l.dateStart)
  }

  /** A write of some fields is accepted exactly when dates and links fit, and then only that line changes. */
  lemma WriteMeaning(db: Db, id: LineId, l: Line, w: set<Field>)
    ensures var r, lines := Write(db, id, l, w), db.lines[id := l];
      && (r.Ok? <==> DatesFit(l, w) && LinksFit(lines, l, w))
      && (r.Ok? ==> r.value.lines == lines && r.value.nextId == db.nextId && r.value.terminated == db.terminated)
  {
    hide Passes;
    PassesMeaning(db.(lines := db.lines[id := l]), l, w);
  }

  lemma PassesMeaning(db: Db, l: Line, w: set<Field>)
    ensures Passes(db, l, w) <==> DatesFit(l, w) && LinksFit(db.lines, l, w)
  {
  }
}
