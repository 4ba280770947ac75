/**
 * The table of contract lines and the steps of their life cycle.
 *
 * A step is a function from table to table or to a fault: an exception rolls the
 * transaction back.  Each record write runs the constraints declared on the
 * written fields, on the table as written.
 */
module ContractLines {

  import opened Options
  import opened Calendar
  import opened Recurrence
  import opened LineConstraints

  type LineId = int
  type ContractId = int

  datatype Line = Line(
    contract: ContractId,
    isDisplay: bool, // a section or a note
    dateStart: Day,
    dateEnd: Option<Day>,
    nextInvoice: Option<Day>,
    lastInvoiced: Option<Day>,
    terms: Terms,
    renewRule: RuleType,
    renewInterval: int,
    isAutoRenew: bool,
    manualRenewNeeded: bool,
    isCanceled: bool,
    successor: Option<LineId>,
    predecessor: Option<LineId>)

  datatype Db = Db(lines: map<LineId, Line>, nextId: LineId, terminated: set<ContractId>)

  /** A guard refused, a constraint was violated, or the code raised something else. */
  datatype Fault = NotAllowed | Rejected | Crash

  datatype Result<+R> = Ok(value: R) | Err(fault: Fault) {
    predicate IsFailure() { Err? }
    function PropagateFailure<U>(): Result<U> requires Err? { Err(fault) }
    function Extract(): R requires Ok? { value }
  }

  // ---------------------------------------------------------------- computed fields

  const NOTHING := Allowed(false, false, false, false, false)

  function NextStart(l: Line): Option<Day> {
    NextPeriodStart(l.dateStart, l.dateEnd, l.lastInvoiced)
  }

  function NextEnd(l: Line): Option<Day> {
    NextPeriodDateEnd(NextStart(l), l.terms, l.dateEnd, l.nextInvoice, InvoicingOffset(l.terms))
  }

  /** The next invoice date of a period starting on a day, for a line ending at `end`. */
  function InvoiceDate(l: Line, start: Option<Day>, end: Option<Day>): Option<Day> {
    NextInvoiceDate(start, l.terms, InvoicingOffset(l.terms), end)
  }

  function CriteriaOf(db: Db, l: Line, today: Day): Criteria {
    Criteria(ComputeWhen(l.dateStart, l.dateEnd, today), l.dateEnd.Some?, l.lastInvoiced.Some?,
             l.isAutoRenew, l.successor.Some?,
             l.predecessor.Some? && l.predecessor.value in db.lines && db.lines[l.predecessor.value].successor.Some?,
             l.isCanceled)
  }

  function AllowedSteps(db: Db, id: LineId, today: Day): Allowed
    requires id in db.lines
  {
    var l := db.lines[id];
    if l.contract in db.terminated then NOTHING
    else match Rule(CriteriaOf(db, l, today))
      case Some(allowed) => allowed
      case None => NOTHING
  }

  // ---------------------------------------------------------------- constraints

  datatype Field = DateStart | DateEnd | NextInvoice | LastInvoiced | AutoRenew | Canceled | Successor | Predecessor

  const ALL_FIELDS := {DateStart, DateEnd, NextInvoice, LastInvoiced, AutoRenew, Canceled, Successor, Predecessor}

  predicate AllowedCombination(l: Line) {
    && (l.isAutoRenew ==> l.successor.None? && l.dateEnd.Some?)
    && (!l.isAutoRenew && l.dateEnd.None? ==> l.successor.None?)
  }

  predicate BeforeSuccessor(db: Db, l: Line) {
    l.dateEnd.Some? && l.successor.Some? ==>
      l.successor.value in db.lines && l.dateEnd.value < db.lines[l.successor.value].dateStart
  }

  /** Comparing with a predecessor that has no end date is a type error in the source. */
  predicate AfterPredecessor(db: Db, l: Line) {
    l.predecessor.Some? ==>
      && l.predecessor.value in db.lines
      && db.lines[l.predecessor.value].dateEnd.Some?
      && db.lines[l.predecessor.value].dateEnd.value < l.dateStart
  }

  predicate NextAfterStart(l: Line) {
    l.nextInvoice.Some? ==> l.dateStart <= l.nextInvoice.value
  }

  predicate LastInvoicedInside(l: Line) {
    l.lastInvoiced.Some? ==>
      && l.dateStart <= l.lastInvoiced.value
      && (l.dateEnd.Some? ==> l.lastInvoiced.value <= l.dateEnd.value)
      && (l.nextInvoice.Some? ==> l.lastInvoiced.value < l.nextInvoice.value)
  }

  predicate NextSupplied(l: Line) {
    l.nextInvoice.None? ==> l.dateEnd.Some? && l.lastInvoiced.Some? && l.dateEnd.value <= l.lastInvoiced.value
  }

  predicate StartBeforeEnd(l: Line) {
    l.dateEnd.Some? ==> l.dateStart <= l.dateEnd.value
  }

  /** The constraints triggered by writing the given fields. */
  predicate Passes(db: Db, l: Line, w: set<Field>) {
    && (AutoRenew in w || Successor in w || DateEnd in w ==> AllowedCombination(l))
    && (Successor in w || DateEnd in w ==> BeforeSuccessor(db, l))
    && (Predecessor in w || DateStart in w ==> AfterPredecessor(db, l))
    && (Canceled in w || AutoRenew in w ==> !(l.isCanceled && l.isAutoRenew))
    && (NextInvoice in w || DateStart in w ==> NextAfterStart(l))
    && (DateStart in w || DateEnd in w || LastInvoiced in w || NextInvoice in w ==> LastInvoicedInside(l))
    && (NextInvoice in w ==> NextSupplied(l))
    && (DateStart in w || DateEnd in w ==> StartBeforeEnd(l))
  }

  function Write(db: Db, id: LineId, l: Line, written: set<Field>): Result<Db> {
    var db' := db.(lines := db.lines[id := l]);
    if Passes(db', l, written) then Ok(db') else Err(Rejected)
  }

  function Create(db: Db, l: Line): Result<Db> {
    Write(db.(nextId := db.nextId + 1), db.nextId, l, ALL_FIELDS)
  }

  // ---------------------------------------------------------------- steps

  /** The body of a `for rec in self` loop, run on the records in order. */
  function ForEach(body: (Db, LineId) -> Result<Db>, db: Db, ids: seq<LineId>): Result<Db>
    decreases |ids|
  {
    if ids == [] then Ok(db)
    else
      var db1 :- body(db, ids[0]);
      ForEach(body, db1, ids[1..])
  }

  predicate Exist(db: Db, ids: seq<LineId>) {
    forall id <- ids :: id in db.lines
  }

  function Predecessors(db: Db, ids: seq<LineId>): set<LineId>
    requires Exist(db, ids)
  {
    set id | id in ids && db.lines[id].predecessor.Some? :: db.lines[id].predecessor.value
  }

  function Unlinked(db: Db, preds: set<LineId>): Db {
    db.(lines := map i | i in db.lines :: if i in preds then db.lines[i].(successor := None) else db.lines[i])
  }

  function Canceling(db: Db, ids: seq<LineId>): Db {
    db.(lines := map i | i in db.lines ::
      if i in ids then db.lines[i].(isCanceled := true, isAutoRenew := false) else db.lines[i])
  }

  function Cancel(db: Db, ids: seq<LineId>, today: Day): Result<Db> {
    if !Exist(db, ids) then Err(Crash)
    else if exists id <- ids :: !AllowedSteps(db, id, today).cancel then Err(NotAllowed)
    else
      var preds := Predecessors(db, ids);
      var db1 := Unlinked(db, preds);
      if exists p <- preds :: p in db1.lines && !Passes(db1, db1.lines[p], {Successor}) then Err(Rejected)
      else
        var db2 := Canceling(db1, ids);
        if exists id <- ids :: !Passes(db2, db2.lines[id], {Canceled, AutoRenew}) then Err(Rejected)
        else Ok(db2)
  }

  function StopOne(db: Db, id: LineId, end: Day, manual: bool, today: Day): Result<Db> {
    if id !in db.lines then Err(Crash)
    else
      var l := db.lines[id];
      if end < l.dateStart then Cancel(db, [id], today)
      else if l.dateEnd.None? || l.dateEnd.value > end then
        Write(db, id,
              l.(dateEnd := Some(end), isAutoRenew := false, manualRenewNeeded := manual,
                 nextInvoice := InvoiceDate(l, NextStart(l), Some(end))),
              {DateEnd, AutoRenew, NextInvoice})
      else
        Write(db, id, l.(isAutoRenew := false, manualRenewNeeded := manual), {AutoRenew})
  }

  function Stop(db: Db, ids: seq<LineId>, end: Day, manual: bool, today: Day): Result<Db> {
    if !Exist(db, ids) then Err(Crash)
    else if exists id <- ids :: !AllowedSteps(db, id, today).stop then Err(NotAllowed)
    else ForEach((d, id) => StopOne(d, id, end, manual, today), db, ids)
  }

  /** The copy of a line that continues it in a new interval. */
  function Continuation(l: Line, id: LineId, start: Day, end: Option<Day>, auto: bool, next: Option<Day>): Line {
    l.(dateStart := start, dateEnd := end, isAutoRenew := auto, lastInvoiced := None, predecessor := Some(id),
       nextInvoice := if next.Some? then next else InvoiceDate(l, Some(start), end))
  }

  function PlanOne(db: Db, id: LineId, start: Day, end: Option<Day>, auto: bool, next: Option<Day>, today: Day)
    : Result<Db>
  {
    if id !in db.lines then Err(Crash)
    else if !AllowedSteps(db, id, today).planSuccessor then Err(NotAllowed)
    else
      var l := db.lines[id].(isAutoRenew := false);
      var db1 :- Write(db, id, l, {AutoRenew});
      var db2 :- Create(db1, Continuation(l, id, start, end, auto, next));
      Write(db2, id, l.(successor := Some(db.nextId)), {Successor})
  }

  function PlanSuccessor(db: Db, ids: seq<LineId>, start: Day, end: Option<Day>, auto: bool, next: Option<Day>, today: Day)
    : Result<Db>
  {
    ForEach((d, id) => PlanOne(d, id, start, end, auto, next, today), db, ids)
  }

  function AddDays(date: Option<Day>, days: int): Option<Day> {
    if date.Some? then Some(date.value + days) else None
  }

  function Delay(db: Db, id: LineId, days: int): Result<Db> {
    if id !in db.lines then Err(Crash)
    else
      var l := db.lines[id];
      if l.lastInvoiced.Some? then Err(Rejected)
      else
        var start, end := l.dateStart + days, AddDays(l.dateEnd, days);
        Write(db, id, l.(dateStart := start, dateEnd := end, nextInvoice := InvoiceDate(l, Some(start), end)),
              {DateStart, DateEnd, NextInvoice})
  }

  /** How many days the successor of a suspended line ends after the suspension. */
  function ResumedEnd(end: Option<Day>, from: Day, to: Day): Option<Day> {
    if end.None? then None
    else if from < end.value < to then Some(to + (end.value - from) + 1)
    else Some(end.value + (to - from) + 1)
  }

  /** Suspends one line between two days, both included. */
  function SuspendOne(db: Db, id: LineId, from: Day, to: Day, auto: bool, today: Day): Result<Db> {
    if id !in db.lines then Err(Crash)
    else
      var l := db.lines[id];
      if from <= l.dateStart then
        Delay(db, id, if l.dateStart < to then to - l.dateStart + 1 else to - from + 1)
      else if l.dateEnd.Some? && l.dateEnd.value < from then
        Stop(db, [id], from, false, today)
      else
        var db1 :- Stop(db, [id], from - 1, true, today);
        PlanSuccessor(db1, [id], to + 1, ResumedEnd(l.dateEnd, from, to), auto, None, today)
  }

  function Suspend(db: Db, ids: seq<LineId>, from: Day, to: Day, auto: bool, today: Day): Result<Db> {
    if !Exist(db, ids) then Err(Crash)
    else if exists id <- ids :: !AllowedSteps(db, id, today).stopPlanSuccessor then Err(NotAllowed)
    else ForEach((d, id) => SuspendOne(d, id, from, to, auto, today), db, ids)
  }

  function UncancelOne(db: Db, id: LineId, next: Option<Day>): Result<Db> {
    if id !in db.lines then Err(Crash)
    else
      var db1 :- Relink(db, id);
      var l := db1.lines[id].(isCanceled := false);
      var db2 :- Write(db1, id, l, {Canceled});
      Write(db2, id, l.(nextInvoice := next), {NextInvoice})
  }

  /** Restores the link from the predecessor, which must be free. */
  function Relink(db: Db, id: LineId): (r: Result<Db>)
    requires id in db.lines
    ensures r.Ok? ==> r.value.lines.Keys == db.lines.Keys
  {
    match db.lines[id].predecessor
    case None => Ok(db)
    case Some(p) =>
      if p !in db.lines || db.lines[p].successor.Some? then Err(Crash)
      else Write(db, p, db.lines[p].(successor := Some(id)), {Successor})
  }

  function Uncancel(db: Db, ids: seq<LineId>, next: Option<Day>, today: Day): Result<Db> {
    if !Exist(db, ids) then Err(Crash)
    else if exists id <- ids :: !AllowedSteps(db, id, today).uncancel then Err(NotAllowed)
    else ForEach((d, id) => UncancelOne(d, id, next), db, ids)
  }

  function RenewOne(db: Db, id: LineId, createLine: bool, today: Day): Result<Db> {
    if id !in db.lines || db.lines[id].dateEnd.None? then Err(Crash)
    else
      var l := db.lines[id];
      var start := l.dateEnd.value + 1;
      var end := Plus(start, RelativeDelta(l.renewRule, l.renewInterval)) - 1;
      if createLine then
        var db1 :- Stop(db, [id], l.dateEnd.value, false, today);
        var db2 :- PlanSuccessor(db1, [id], start, Some(end), l.isAutoRenew, None, today);
        if db1.nextId !in db2.lines then Err(Crash)
        else
          var line := db2.lines[db1.nextId];
          Write(db2, db1.nextId, line.(nextInvoice := InvoiceDate(line, NextStart(line), line.dateEnd)), {NextInvoice})
      else
        Write(db, id, l.(dateEnd := Some(end)), {DateEnd})
  }

  function Renew(db: Db, ids: seq<LineId>, createLine: bool, today: Day): Result<Db> {
    ForEach((d, id) => RenewOne(d, id, createLine, today), db, ids)
  }

  function Forget(link: Option<LineId>, ids: seq<LineId>): Option<LineId> {
    if link.Some? && link.value in ids then None else link
  }

  /** Deleting records also clears the links to them. */
  function Unlink(db: Db, ids: seq<LineId>): Result<Db> {
    if !Exist(db, ids) then Err(Crash)
    else if exists id <- ids :: !(db.lines[id].isCanceled || db.lines[id].isDisplay) then Err(Rejected)
    else Ok(db.(lines := map i | i in db.lines && i !in ids :: db.lines[i].(
           successor := Forget(db.lines[i].successor, ids), predecessor := Forget(db.lines[i].predecessor, ids))))
  }

  function InvoiceOne(db: Db, id: LineId): Result<Db> {
    if id !in db.lines || NextEnd(db.lines[id]).None? then Err(Crash)
    else
      var l := db.lines[id];
      var last := NextEnd(l).value;
      Write(db, id, l.(lastInvoiced := Some(last), nextInvoice := InvoiceDate(l, Some(last + 1), l.dateEnd)),
            {NextInvoice, LastInvoiced})
  }

  function Invoice(db: Db, ids: seq<LineId>): Result<Db> {
    ForEach((d, id) => InvoiceOne(d, id), db, ids)
  }

  /** The line of a contract's record set whose stop is allowed, in order. */
  function Stoppable(db: Db, ids: seq<LineId>, contract: ContractId, today: Day): seq<LineId> {
    if ids == [] then []
    else
      var rest := Stoppable(db, ids[1..], contract, today);
      if ids[0] in db.lines && db.lines[ids[0]].contract == contract && AllowedSteps(db, ids[0], today).stop
      then [ids[0]] + rest
      else rest
  }

  function Terminate(db: Db, contract: ContractId, ids: seq<LineId>, date: Day, today: Day): Result<Db> {
    var db1 :- Stop(db, Stoppable(db, ids, contract, today), date, false, today);
    Ok(db1.(terminated := db1.terminated + {contract}))
  }
}
