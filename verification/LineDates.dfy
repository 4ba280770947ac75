/**
 * The dates of a line: the next invoice date stays the one recomputed from the
 * next period, that relation implies every date constraint, and invoicing tiles
 * the life of the line.
 */
module LineDates {

  import opened Options
  import opened Calendar
  import opened Recurrence
  import opened ContractLines

  /** A well-dated line whose next invoice date is the computed one. */
  predicate Timely(l: Line) {
    && 1 <= l.terms.interval
    && StartBeforeEnd(l)
    && (l.lastInvoiced.Some? ==>
          && l.dateStart <= l.lastInvoiced.value
          && (l.dateEnd.Some? ==> l.lastInvoiced.value <= l.dateEnd.value))
    && l.nextInvoice == InvoiceDate(l, NextStart(l), l.dateEnd)
  }

  /** The dates of a line as its four date constraints want them. */
  predicate MeetsDateConstraints(l: Line) {
    && (l.dateEnd.Some? ==> l.dateStart <= l.dateEnd.value)
    && (l.nextInvoice.Some? ==> l.dateStart <= l.nextInvoice.value)
    && (l.lastInvoiced.Some? ==>
          && l.dateStart <= l.lastInvoiced.value
          && (l.dateEnd.Some? ==> l.lastInvoiced.value <= l.dateEnd.value)
          && (l.nextInvoice.Some? ==> l.lastInvoiced.value < l.nextInvoice.value))
    && (l.nextInvoice.None? ==> l.dateEnd.Some? && l.lastInvoiced.Some? && l.dateEnd.value <= l.lastInvoiced.value)
  }

  lemma DateConstraints(l: Line)
    ensures MeetsDateConstraints(l) <==> NextAfterStart(l) && LastInvoicedInside(l) && NextSupplied(l) && StartBeforeEnd(l)
  {
  }

  /**
   * The relation implies every date constraint, and the next invoice date is
   * missing exactly when the line is invoiced up to its end.
   */
  lemma TimelyMeetsConstraints(l: Line)
    requires Timely(l)
    ensures MeetsDateConstraints(l)
    ensures l.nextInvoice.None? <==> l.dateEnd.Some? && l.lastInvoiced == l.dateEnd
  {
    hide RegularEnd;
    InvoiceDateBounds(NextStart(l), l.terms, l.dateEnd);
  }

  /** The period a line would be invoiced for: first day, last day, invoice date. */
  function PeriodToInvoice(l: Line, lastInvoiced: Option<Day>, next: Option<Day>)
    : (Option<Day>, Option<Day>, Option<Day>)
  {
    if next.None? then (None, None, None)
    else
      var first := if lastInvoiced.Some? then lastInvoiced.value + 1 else l.dateStart;
      (Some(first), NextPeriodDateEnd(Some(first), l.terms, l.dateEnd, next, InvoicingOffset(l.terms)), next)
  }

  /** A line without an invoice date has no period; with one, the period starts after what was invoiced. */
  lemma PeriodStartsAfterInvoiced(l: Line, lastInvoiced: Option<Day>, next: Option<Day>)
    ensures var (first, last, date) := PeriodToInvoice(l, lastInvoiced, next);
      && date == next
      && (next.None? ==> first.None? && last.None?)
      && (next.Some? ==> first == Some(match lastInvoiced case Some(d) => d + 1 case None => l.dateStart))
      && (last.None? <==> next.None? || (l.dateEnd.Some? && l.dateEnd.value < first.value))
  {
    hide RegularEnd;
  }

  /** The invoiced period is the computed next period, and it is not empty. */
  lemma PeriodToInvoiceIsNextPeriod(l: Line)
    requires Timely(l) && l.nextInvoice.Some?
    ensures PeriodToInvoice(l, l.lastInvoiced, l.nextInvoice) == (NextStart(l), NextEnd(l), l.nextInvoice)
    ensures NextStart(l).Some? && NextEnd(l).Some? && NextStart(l).value <= NextEnd(l).value
    ensures l.dateEnd.Some? ==> NextEnd(l).value <= l.dateEnd.value
    ensures NextEnd(l).value == Trim(RegularEnd(NextStart(l).value, l.terms), l.dateEnd)
  {
    hide RegularEnd;
    InvoiceDateBounds(NextStart(l), l.terms, l.dateEnd);
    ForcedAgreesWithRegular(NextStart(l), l.terms, l.dateEnd, InvoicingOffset(l.terms));
  }

  // ---------------------------------------------------------------- invoicing a line

  /** A line after one invoice. */
  function Invoiced(l: Line): Line {
    if l.nextInvoice.None? || NextEnd(l).None? then l
    else
      var last := NextEnd(l).value;
      l.(lastInvoiced := Some(last), nextInvoice := InvoiceDate(l, Some(last + 1), l.dateEnd))
  }

  lemma InvoicedTimely(l: Line)
    requires Timely(l)
    ensures Timely(Invoiced(l))
  {
    hide RegularEnd;
    if l.nextInvoice.Some? { PeriodToInvoiceIsNextPeriod(l); }
  }

  /** Invoicing a timely line succeeds exactly when it has a next invoice date. */
  lemma InvoiceSucceeds(db: Db, id: LineId)
    requires id in db.lines && Timely(db.lines[id])
    ensures InvoiceOne(db, id) == if db.lines[id].nextInvoice.Some?
                                  then Ok(db.(lines := db.lines[id := Invoiced(db.lines[id])])) else Err(Crash)
  {
    hide RegularEnd;
    var l := db.lines[id];
    TimelyMeetsConstraints(l);
    if l.nextInvoice.Some? {
      PeriodToInvoiceIsNextPeriod(l);
      InvoicedTimely(l);
      TimelyMeetsConstraints(Invoiced(l));
    }
  }

  function After(l: Line, n: nat): Line
    decreases n
  {
    if n == 0 then l else After(Invoiced(l), n - 1)
  }

  datatype Period = Period(first: Day, last: Day)

  /** The periods billed by the next n invoices. */
  function Periods(l: Line, n: nat): seq<Period>
    decreases n
  {
    if n == 0 || l.nextInvoice.None? || NextStart(l).None? || NextEnd(l).None? then []
    else [Period(NextStart(l).value, NextEnd(l).value)] + Periods(Invoiced(l), n - 1)
  }

  ghost predicate Within(d: Day, p: Period) {
    p.first <= d <= p.last
  }

  /** Consecutive, non-empty periods from `first` up to just before `next`. */
  ghost predicate Tile(ps: seq<Period>, first: Day, next: Day)
    decreases |ps|
  {
    if ps == [] then first == next
    else ps[0].first == first <= ps[0].last && Tile(ps[1..], ps[0].last + 1, next)
  }

  /** The day after the last invoiced one. */
  function Frontier(l: Line): Day {
    if l.lastInvoiced.Some? then l.lastInvoiced.value + 1 else l.dateStart
  }

  /** However many invoices are made, their periods tile the line from its frontier. */
  lemma {:induction false} InvoicesTile(l: Line, n: nat)
    requires Timely(l)
    ensures Timely(After(l, n))
    ensures Tile(Periods(l, n), Frontier(l), Frontier(After(l, n)))
    ensures l.dateEnd.Some? ==> Frontier(After(l, n)) <= l.dateEnd.value + 1
    ensures l.dateEnd == After(l, n).dateEnd && l.terms == After(l, n).terms
    decreases n
  {
    hide RegularEnd, InvoiceDate, NextStart, NextEnd;
    TimelyFrontier(l);
    if n > 0 {
      InvoicedTimely(l);
      InvoicesTile(Invoiced(l), n - 1);
      if l.nextInvoice.Some? {
        PeriodToInvoiceIsNextPeriod(l);
      } else {
        assert Invoiced(l) == l && Periods(l, n) == Periods(l, n - 1) == [];
      }
    }
  }

  lemma TimelyFrontier(l: Line)
    requires Timely(l)
    ensures l.dateEnd.Some? ==> Frontier(l) <= l.dateEnd.value + 1
    ensures l.nextInvoice.Some? ==> NextStart(l) == Some(Frontier(l))
  {
    hide RegularEnd;
    InvoiceDateBounds(NextStart(l), l.terms, l.dateEnd);
  }

  /** In a tiling every day of the range lies in exactly one period and no other day in any. */
  lemma {:induction false} TileCoversOnce(ps: seq<Period>, first: Day, next: Day, d: Day)
    requires Tile(ps, first, next)
    ensures first <= next
    ensures first <= d < next <==> exists k :: 0 <= k < |ps| && Within(d, ps[k])
    ensures forall j, k :: 0 <= j < k < |ps| ==> !(Within(d, ps[j]) && Within(d, ps[k]))
    decreases |ps|
  {
    if ps != [] {
      TileCoversOnce(ps[1..], ps[0].last + 1, next, d);
      assert forall k :: 0 < k < |ps| ==> ps[k] == ps[1..][k - 1];
      if first <= d < next {
        if d <= ps[0].last {
          assert Within(d, ps[0]);
        } else {
          var k :| 0 <= k < |ps[1..]| && Within(d, ps[1..][k]);
          assert Within(d, ps[k + 1]);
        }
      }
    }
  }

  /** With an end date, finitely many invoices bill the line to its last day, and then none is due. */
  lemma {:induction false} InvoicesFinish(l: Line, n: nat)
    requires Timely(l) && l.dateEnd.Some? && n > l.dateEnd.value - Frontier(l)
    ensures After(l, n).lastInvoiced == l.dateEnd && After(l, n).nextInvoice.None?
    ensures Tile(Periods(l, n), Frontier(l), l.dateEnd.value + 1)
    decreases n
  {
    InvoicesTile(l, n);
    Exhausts(l, n);
    TimelyMeetsConstraints(After(l, n));
  }

  lemma {:induction false} Exhausts(l: Line, n: nat)
    requires Timely(l) && l.dateEnd.Some? && n > l.dateEnd.value - Frontier(l)
    ensures After(l, n).nextInvoice.None?
    decreases n
  {
    hide RegularEnd, InvoiceDate, NextStart, NextEnd;
    TimelyFrontier(l);
    TimelyMeetsConstraints(l);
    if n > 0 {
      InvoicedTimely(l);
      if l.nextInvoice.Some? { PeriodToInvoiceIsNextPeriod(l); }
      if l.nextInvoice.Some? || n > 1 {
        Exhausts(Invoiced(l), n - 1);
      }
    }
  }

  lemma LastDayStep(l: Line)
    requires Timely(l) && l.terms.rule == MonthlyLastDay && l.nextInvoice.Some?
    ensures LastDayOfMonth(NextEnd(l).value) || NextEnd(l) == l.dateEnd
    ensures Invoiced(l).nextInvoice.Some? ==> FirstDayOfMonth(NextStart(Invoiced(l)).value)
  {
    hide MonthOf, MonthStart, RegularEnd, LastDayOfMonth, FirstDayOfMonth, InvoiceDate, NextStart, NextEnd, Timely;
    PeriodToInvoiceIsNextPeriod(l);
    LastDayPeriods(NextStart(l).value, l.terms);
    InvoicedTimely(l);
    TimelyFrontier(Invoiced(l));
    TimelyMeetsConstraints(Invoiced(l));
  }

  /** Under the month-last-day rule every period but the first starts on day 1, and all end with a month or with the line. */
  lemma {:induction false} LastDayTiling(l: Line, n: nat)
    requires Timely(l) && l.terms.rule == MonthlyLastDay
    ensures forall k :: 0 <= k < |Periods(l, n)| ==>
              && (LastDayOfMonth(Periods(l, n)[k].last) || Some(Periods(l, n)[k].last) == l.dateEnd)
              && (k > 0 ==> FirstDayOfMonth(Periods(l, n)[k].first))
    decreases n
  {
    hide MonthOf, MonthStart, RegularEnd, InvoiceDate, NextStart, NextEnd, LastDayOfMonth, FirstDayOfMonth, Timely;
    if n > 0 && l.nextInvoice.Some? {
      PeriodToInvoiceIsNextPeriod(l);
      LastDayStep(l);
      InvoicedTimely(l);
      LastDayTiling(Invoiced(l), n - 1);
      var ps, rest := Periods(l, n), Periods(Invoiced(l), n - 1);
      assert ps == [Period(NextStart(l).value, NextEnd(l).value)] + rest;
      assert forall k :: 0 < k < |ps| ==> ps[k] == rest[k - 1];
      if rest != [] {
        assert rest[0].first == NextStart(Invoiced(l)).value;
      }
    }
  }
}
