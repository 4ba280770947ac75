/** The contract line model: record sets whose methods write the table in place. */
module LineModel {

  import opened Options
  import opened Calendar
  import opened Recurrence
  import S = ContractLines
  import opened Tables = ContractLines

  /** What a step reports: nothing, or the fault after which the table is as before. */
  predicate Reports(r: Result<Db>, fault: Option<Fault>, db: Db, db': Db) {
    if r.Ok? then fault.None? && db' == r.value else fault == Some(r.fault) && db' == db
  }

  class ContractLineModel {
    var db: Db

    constructor ()
      ensures db == Db(map[], 0, {})
    {
      db := Db(map[], 0, {});
    }

    method WriteRecord(id: LineId, line: Line, written: set<Field>) returns (fault: Option<Fault>)
      modifies this
      ensures Reports(S.Write(old(db), id, line, written), fault, old(db), db)
    {
      var saved := db;
      db := db.(lines := db.lines[id := line]);
      fault := None;
      if !Passes(db, line, written) {
        db := saved;
        fault := Some(Rejected);
      }
    }

    method CreateRecord(line: Line) returns (fault: Option<Fault>)
      modifies this
      ensures Reports(S.Create(old(db), line), fault, old(db), db)
    {
      var saved := db;
      db := db.(nextId := db.nextId + 1);
      fault := WriteRecord(saved.nextId, line, ALL_FIELDS);
      if fault.Some? { db := saved; }
    }

    method Cancel(ids: seq<LineId>, today: Day) returns (fault: Option<Fault>)
      modifies this
      ensures Reports(S.Cancel(old(db), ids, today), fault, old(db), db)
    {
      if !Exist(db, ids) { return Some(Crash); }
      for k := 0 to |ids|
        invariant forall j :: 0 <= j < k ==> AllowedSteps(db, ids[j], today).cancel
      {
        if !AllowedSteps(db, ids[k], today).cancel { return Some(NotAllowed); }
      }
      var saved := db;
      var preds := Predecessors(db, ids);
      db := Unlinked(db, preds);
      if exists p <- preds :: p in db.lines && !Passes(db, db.lines[p], {Successor}) {
        db := saved;
        return Some(Rejected);
      }
      db := Canceling(db, ids);
      if exists id <- ids :: !Passes(db, db.lines[id], {Canceled, AutoRenew}) {
        db := saved;
        return Some(Rejected);
      }
      fault := None;
    }

    /** Stops one record of a set that may be stopped. */
    method StopRecord(id: LineId, end: Day, manual: bool, today: Day) returns (fault: Option<Fault>)
      modifies this
      ensures Reports(StopOne(old(db), id, end, manual, today), fault, old(db), db)
    {
      if id !in db.lines { return Some(Crash); }
      var line := db.lines[id];
      if end < line.dateStart {
        fault := Cancel([id], today);
      } else if line.dateEnd.None? || line.dateEnd.value > end {
        var next := InvoiceDate(line, NextStart(line), Some(end));
        fault := WriteRecord(id, line.(dateEnd := Some(end), isAutoRenew := false,
                                       manualRenewNeeded := manual, nextInvoice := next),
                             {DateEnd, AutoRenew, NextInvoice});
      } else {
        fault := WriteRecord(id, line.(isAutoRenew := false, manualRenewNeeded := manual), {AutoRenew});
      }
    }

    method Stop(ids: seq<LineId>, end: Day, manual: bool, today: Day) returns (fault: Option<Fault>)
      modifies this
      ensures Reports(S.Stop(old(db), ids, end, manual, today), fault, old(db), db)
    {
      hide StopOne, AllowedSteps;
      if !Exist(db, ids) { return Some(Crash); }
      for k := 0 to |ids|
        invariant forall j :: 0 <= j < k ==> AllowedSteps(db, ids[j], today).stop
      {
        if !AllowedSteps(db, ids[k], today).stop { return Some(NotAllowed); }
      }
      var saved := db;
      ghost var body := (d, id) => StopOne(d, id, end, manual, today);
      fault := None;
      for k := 0 to |ids|
        invariant fault.None? && ForEach(body, db, ids[k..]) == ForEach(body, saved, ids)
      {
        fault := StopRecord(ids[k], end, manual, today);
        if fault.Some? {
          db := saved;
          return;
        }
      }
      assert ids[|ids|..] == [];
    }

    /** Plans the successor of one record. */
    method PlanRecord(id: LineId, start: Day, end: Option<Day>, auto: bool, next: Option<Day>, today: Day)
      returns (fault: Option<Fault>)
      modifies this
      ensures Reports(PlanOne(old(db), id, start, end, auto, next, today), fault, old(db), db)
    {
      if id !in db.lines { return Some(Crash); }
      if !AllowedSteps(db, id, today).planSuccessor { return Some(NotAllowed); }
      var saved := db;
      var newId := db.nextId;
      var line := db.lines[id].(isAutoRenew := false);
      fault := WriteRecord(id, line, {AutoRenew});
      if fault.None? { fault := CreateRecord(Continuation(line, id, start, end, auto, next)); }
      if fault.None? { fault := WriteRecord(id, line.(successor := Some(newId)), {Successor}); }
      if fault.Some? { db := saved; }
    }

    method PlanSuccessor(ids: seq<LineId>, start: Day, end: Option<Day>, auto: bool, next: Option<Day>, today: Day)
      returns (fault: Option<Fault>)
      modifies this
      ensures Reports(S.PlanSuccessor(old(db), ids, start, end, auto, next, today), fault, old(db), db)
    {
      var saved := db;
      ghost var body := (d, id) => PlanOne(d, id, start, end, auto, next, today);
      fault := None;
      for k := 0 to |ids|
        invariant fault.None? && ForEach(body, db, ids[k..]) == ForEach(body, saved, ids)
      {
        fault := PlanRecord(ids[k], start, end, auto, next, today);
        if fault.Some? {
          db := saved;
          return;
        }
      }
      assert ids[|ids|..] == [];
    }

    method Delay(id: LineId, days: int) returns (fault: Option<Fault>)
      modifies this
      ensures Reports(S.Delay(old(db), id, days), fault, old(db), db)
    {
      hide NextInvoiceDate;
      if id !in db.lines { return Some(Crash); }
      var line := db.lines[id];
      if line.lastInvoiced.Some? { return Some(Rejected); }
      var start, end := line.dateStart + days, AddDays(line.dateEnd, days);
      var next := InvoiceDate(line, Some(start), end);
      fault := WriteRecord(id, line.(dateStart := start, dateEnd := end, nextInvoice := next),
                           {DateStart, DateEnd, NextInvoice});
    }

    method StopPlanSuccessor(ids: seq<LineId>, from: Day, to: Day, auto: bool, today: Day) returns (fault: Option<Fault>)
      modifies this
      ensures Reports(S.Suspend(old(db), ids, from, to, auto, today), fault, old(db), db)
    {
      hide S.Stop, S.PlanSuccessor, S.Delay;
      if !Exist(db, ids) { return Some(Crash); }
      for k := 0 to |ids|
        invariant forall j :: 0 <= j < k ==> AllowedSteps(db, ids[j], today).stopPlanSuccessor
      {
        if !AllowedSteps(db, ids[k], today).stopPlanSuccessor { return Some(NotAllowed); }
      }
      hide AllowedSteps;
      var saved := db;
      ghost var body := (d, id) => SuspendOne(d, id, from, to, auto, today);
      fault := None;
      for k := 0 to |ids|
        invariant fault.None? && ForEach(body, db, ids[k..]) == ForEach(body, saved, ids)
      {
        fault := SuspendRecord(ids[k], from, to, auto, today);
        if fault.Some? {
          db := saved;
          return;
        }
      }
      assert ids[|ids|..] == [];
    }

    /** Suspends one record. */
    method SuspendRecord(id: LineId, from: Day, to: Day, auto: bool, today: Day) returns (fault: Option<Fault>)
      modifies this
      ensures Reports(SuspendOne(old(db), id, from, to, auto, today), fault, old(db), db)
    {
      hide S.Stop, S.PlanSuccessor, S.Delay;
      if id !in db.lines { return Some(Crash); }
      var saved := db;
      var line := db.lines[id];
      if from <= line.dateStart {
        var days := to - from + 1;
        if line.dateStart < to { days := to - line.dateStart + 1; }
        fault := Delay(id, days);
      } else if line.dateEnd.Some? && line.dateEnd.value < from {
        fault := Stop([id], from, false, today);
      } else {
        var newEnd := line.dateEnd;
        if line.dateEnd.Some? {
          if from < line.dateEnd.value < to {
            newEnd := Some(to + (line.dateEnd.value - from) + 1);
          } else {
            newEnd := Some(line.dateEnd.value + (to - from) + 1);
          }
        }
        fault := Stop([id], from - 1, true, today);
        if fault.None? { fault := PlanSuccessor([id], to + 1, newEnd, auto, None, today); }
        if fault.Some? { db := saved; }
      }
    }

    method Uncancel(ids: seq<LineId>, next: Option<Day>, today: Day) returns (fault: Option<Fault>)
      modifies this
      ensures Reports(S.Uncancel(old(db), ids, next, today), fault, old(db), db)
    {
      if !Exist(db, ids) { return Some(Crash); }
      for k := 0 to |ids|
        invariant forall j :: 0 <= j < k ==> AllowedSteps(db, ids[j], today).uncancel
      {
        if !AllowedSteps(db, ids[k], today).uncancel { return Some(NotAllowed); }
      }
      var saved := db;
      ghost var body := (d, id) => UncancelOne(d, id, next);
      fault := None;
      for k := 0 to |ids|
        invariant fault.None? && ForEach(body, db, ids[k..]) == ForEach(body, saved, ids)
      {
        var id := ids[k];
        if id !in db.lines {
          fault := Some(Crash);
        } else if db.lines[id].predecessor.Some? {
          var p := db.lines[id].predecessor.value;
          if p !in db.lines || db.lines[p].successor.Some? {
            fault := Some(Crash);
          } else {
            fault := WriteRecord(p, db.lines[p].(successor := Some(id)), {Successor});
          }
        }
        if fault.None? { fault := WriteRecord(id, db.lines[id].(isCanceled := false), {Canceled}); }
        if fault.None? { fault := WriteRecord(id, db.lines[id].(nextInvoice := next), {NextInvoice}); }
        if fault.Some? {
          db := saved;
          return;
        }
      }
      assert ids[|ids|..] == [];
    }

    /** Renews one record, by a new line or by extending it. */
    method RenewRecord(id: LineId, createLine: bool, today: Day) returns (fault: Option<Fault>)
      modifies this
      ensures Reports(RenewOne(old(db), id, createLine, today), fault, old(db), db)
    {
      hide S.Stop, S.PlanSuccessor, Plus, NextInvoiceDate;
      if id !in db.lines || db.lines[id].dateEnd.None? { return Some(Crash); }
      var saved := db;
      var line := db.lines[id];
      var start := line.dateEnd.value + 1;
      var end := Plus(start, RelativeDelta(line.renewRule, line.renewInterval)) - 1;
      if !createLine {
        fault := WriteRecord(id, line.(dateEnd := Some(end)), {DateEnd});
        return;
      }
      fault := Stop([id], line.dateEnd.value, false, today);
      if fault.None? {
        var newId := db.nextId;
        fault := PlanSuccessor([id], start, Some(end), line.isAutoRenew, None, today);
        if fault.None? {
          if newId !in db.lines {
            fault := Some(Crash);
          } else {
            var renewed := db.lines[newId];
            var next := InvoiceDate(renewed, NextStart(renewed), renewed.dateEnd);
            fault := WriteRecord(newId, renewed.(nextInvoice := next), {NextInvoice});
          }
        }
      }
      if fault.Some? { db := saved; }
    }

    method Renew(ids: seq<LineId>, createLine: bool, today: Day) returns (fault: Option<Fault>)
      modifies this
      ensures Reports(S.Renew(old(db), ids, createLine, today), fault, old(db), db)
    {
      hide RenewOne;
      var saved := db;
      ghost var body := (d, id) => RenewOne(d, id, createLine, today);
      fault := None;
      for k := 0 to |ids|
        invariant fault.None? && ForEach(body, db, ids[k..]) == ForEach(body, saved, ids)
      {
        fault := RenewRecord(ids[k], createLine, today);
        if fault.Some? {
          db := saved;
          return;
        }
      }
      assert ids[|ids|..] == [];
    }

    method UpdateRecurringNextDate(ids: seq<LineId>) returns (fault: Option<Fault>)
      modifies this
      ensures Reports(S.Invoice(old(db), ids), fault, old(db), db)
    {
      hide NextInvoiceDate, NextPeriodDateEnd;
      var saved := db;
      ghost var body := (d, id) => InvoiceOne(d, id);
      fault := None;
      for k := 0 to |ids|
        invariant fault.None? && ForEach(body, db, ids[k..]) == ForEach(body, saved, ids)
      {
        var id := ids[k];
        if id !in db.lines || NextEnd(db.lines[id]).None? {
          fault := Some(Crash);
        } else {
          var line := db.lines[id];
          var last := NextEnd(line).value;
          var next := InvoiceDate(line, Some(last + 1), line.dateEnd);
          fault := WriteRecord(id, line.(lastInvoiced := Some(last), nextInvoice := next), {NextInvoice, LastInvoiced});
        }
        if fault.Some? {
          db := saved;
          return;
        }
      }
      assert ids[|ids|..] == [];
    }

    method Unlink(ids: seq<LineId>) returns (fault: Option<Fault>)
      modifies this
      ensures Reports(S.Unlink(old(db), ids), fault, old(db), db)
    {
      if !Exist(db, ids) { return Some(Crash); }
      var lines := db.lines;
      assert forall id <- ids :: id in lines;
      for k := 0 to |ids|
        invariant forall j :: 0 <= j < k ==> lines[ids[j]].isCanceled || lines[ids[j]].isDisplay
      {
        var id := ids[k];
        if !(lines[id].isCanceled || lines[id].isDisplay) {
          assert id in ids;
          return Some(Rejected);
        }
      }
      db := db.(lines := map i | i in lines && i !in ids :: lines[i].(
        successor := Forget(lines[i].successor, ids), predecessor := Forget(lines[i].predecessor, ids)));
      fault := None;
    }
  }
}
