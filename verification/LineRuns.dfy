/** Runs of life-cycle steps: a failing step leaves the table as it was. */
module LineRuns {

  import opened Options
  import opened Calendar
  import opened ContractLines

  datatype Step =
    | NewLine(line: Line)
    | Edit(id: LineId, line: Line, written: set<Field>)
    | DoInvoice(ids: seq<LineId>)
    | DoStop(ids: seq<LineId>, end: Day, manual: bool)
    | DoPlanSuccessor(ids: seq<LineId>, start: Day, dateEnd: Option<Day>, auto: bool, next: Option<Day>)
    | DoSuspend(ids: seq<LineId>, from: Day, to: Day, auto: bool)
    | DoCancel(ids: seq<LineId>)
    | DoUncancel(ids: seq<LineId>, next: Option<Day>)
    | DoRenew(ids: seq<LineId>, createLine: bool)
    | DoUnlink(ids: seq<LineId>)
    | DoTerminate(contract: ContractId, ids: seq<LineId>, date: Day)
    | DoReopen(contract: ContractId)

  /** A user edit of the fields a form leaves editable. */
  predicate Editable(old_: Line, line: Line, written: set<Field>) {
    && written <= {DateStart, DateEnd, NextInvoice, AutoRenew}
    && line.contract == old_.contract
    && line.isCanceled == old_.isCanceled && line.lastInvoiced == old_.lastInvoiced
    && line.successor == old_.successor && line.predecessor == old_.predecessor
    && (DateStart !in written ==> line.dateStart == old_.dateStart)
    && (DateEnd !in written ==> line.dateEnd == old_.dateEnd)
    && (NextInvoice !in written ==> line.nextInvoice == old_.nextInvoice)
    && (AutoRenew !in written ==> line.isAutoRenew == old_.isAutoRenew)
  }

  /** A line as first entered: no links yet and never invoiced. */
  predicate Entered(line: Line) {
    line.successor.None? && line.predecessor.None? && line.lastInvoiced.None? && !line.isCanceled
  }

  function Do(db: Db, step: Step, today: Day): Result<Db> {
    match step
    case NewLine(line) => if Entered(line) then Create(db, line) else Err(NotAllowed)
    case Edit(id, line, written) =>
      if id !in db.lines then Err(Crash)
      else if !Editable(db.lines[id], line, written) then Err(NotAllowed)
      else Write(db, id, line, written)
    case DoInvoice(ids) => Invoice(db, ids)
    case DoStop(ids, end, manual) => Stop(db, ids, end, manual, today)
    case DoPlanSuccessor(ids, start, end, auto, next) => PlanSuccessor(db, ids, start, end, auto, next, today)
    case DoSuspend(ids, from, to, auto) => Suspend(db, ids, from, to, auto, today)
    case DoCancel(ids) => Cancel(db, ids, today)
    case DoUncancel(ids, next) => Uncancel(db, ids, next, today)
    case DoRenew(ids, createLine) => Renew(db, ids, createLine, today)
    case DoUnlink(ids) => Unlink(db, ids)
    case DoTerminate(contract, ids, date) => Terminate(db, contract, ids, date, today)
    case DoReopen(contract) => Ok(db.(terminated := db.terminated - {contract}))
  }

  function Next(db: Db, step: Step, today: Day): Db {
    var r := Do(db, step, today);
    if r.Ok? then r.value else db
  }

  /** Each step comes with the day it is taken on. */
  function Run(db: Db, steps: seq<(Step, Day)>): Db
    decreases |steps|
  {
    if steps == [] then db else Run(Next(db, steps[0].0, steps[0].1), steps[1..])
  }

  /** A loop keeps what its body keeps. */
  lemma {:induction false} ForEachKeeps(inv: Db -> bool, body: (Db, LineId) -> Result<Db>, db: Db, ids: seq<LineId>)
    requires inv(db)
    requires forall d: Db, i: LineId :: inv(d) && body(d, i).Ok? ==> inv(body(d, i).value)
    ensures var r := ForEach(body, db, ids); r.Ok? ==> inv(r.value)
    decreases |ids|
  {
    if ids != [] && body(db, ids[0]).Ok? {
      var first: LineId := ids[0];
      assert inv(body(db, first).value);
      ForEachKeeps(inv, body, body(db, first).value, ids[1..]);
    }
  }

  const EMPTY := Db(map[], 0, {})
}
