/**
 * Recurrence rules of a contract line: the period that starts on a day, and the
 * date on which that period is invoiced.
 */
module Recurrence {

  import opened Options
  import opened Calendar

  datatype RuleType = Daily | Weekly | Monthly | MonthlyLastDay | Quarterly | Semesterly | Yearly

  datatype InvoicingType = PrePaid | PostPaid

  /** The recurrence options of a line.  The interval is not constrained by the source. */
  datatype Terms = Terms(rule: RuleType, interval: int, invoicing: InvoicingType)

  function RelativeDelta(rule: RuleType, interval: int): Delta {
    match rule
    case Daily => Days(interval)
    case Weekly => Days(7 * interval)
    case Monthly => Months(interval)
    case MonthlyLastDay => MonthsThenFirst(interval)
    case Quarterly => Months(3 * interval)
    case Semesterly => Months(6 * interval)
    case Yearly => Months(12 * interval)
  }

  /** The computed invoicing offset, in days. */
  function InvoicingOffset(terms: Terms): int {
    if terms.invoicing == PrePaid || terms.rule == MonthlyLastDay then 0 else 1
  }

  predicate Past(start: Day, maxEnd: Option<Day>) {
    maxEnd.Some? && start > maxEnd.value
  }

  function Trim(end: Day, maxEnd: Option<Day>): Day {
    if maxEnd.Some? && end > maxEnd.value then maxEnd.value else end
  }

  /** The last day of the period starting on `start`, before trimming. */
  function RegularEnd(start: Day, terms: Terms): Day {
    Plus(start, RelativeDelta(terms.rule, terms.interval)) - 1
  }

  /** The untrimmed end when the next invoice date is forced. */
  function ForcedEnd(nextInvoice: Day, terms: Terms, offset: int): Day {
    match terms.invoicing
    case PrePaid => RegularEnd(nextInvoice - offset, terms)
    case PostPaid => nextInvoice - offset
  }

  function NextPeriodDateEnd(start: Option<Day>, terms: Terms, maxEnd: Option<Day>,
                             nextInvoice: Option<Day>, offset: int): Option<Day>
  {
    if start.None? || Past(start.value, maxEnd) then None
    else
      var end := if nextInvoice.None? then RegularEnd(start.value, terms)
                 else ForcedEnd(nextInvoice.value, terms, offset);
      Some(Trim(end, maxEnd))
  }

  function NextInvoiceDate(start: Option<Day>, terms: Terms, offset: int, maxEnd: Option<Day>): Option<Day> {
    var end := NextPeriodDateEnd(start, terms, maxEnd, None, 0);
    if end.None? then None
    else match terms.invoicing
      case PrePaid => Some(start.value + offset)
      case PostPaid => Some(end.value + offset)
  }

  /** The start of the next period of a line. */
  function NextPeriodStart(dateStart: Day, dateEnd: Option<Day>, lastInvoiced: Option<Day>): Option<Day> {
    var start := if lastInvoiced.Some? then lastInvoiced.value + 1 else dateStart;
    if Past(start, dateEnd) then None else Some(start)
  }

  /** Some months on in the calendar, on the same day, or on the last one of a shorter month. */
  ghost predicate SameDayMonthsOn(start: Day, next: Day, months: int) {
    var from, to := CivilOf(start), CivilOf(next);
    && 12 * to.year + to.month == 12 * from.year + from.month + months
    && to.day == if from.day <= MonthLength(MonthIndex(to)) then from.day else MonthLength(MonthIndex(to))
  }

  lemma MonthsOn(start: Day, months: int)
    ensures SameDayMonthsOn(start, AddMonths(start, months), months)
  {
    hide MonthStart, MonthLength, MonthOf, DayOfMonth, CivilOf;
    AddMonthsInMonth(start, months);
    CivilParts(start);
    CivilParts(AddMonths(start, months));
  }

  /** The day after a period starts the next one; which day that is, in the calendar. */
  lemma NextPeriodDay(start: Day, terms: Terms)
    ensures var next := RegularEnd(start, terms) + 1;
      match terms.rule
      case Daily => next == start + terms.interval
      case Weekly => next == start + 7 * terms.interval
      case Monthly => SameDayMonthsOn(start, next, terms.interval)
      case MonthlyLastDay =>
        var from, to := CivilOf(start), CivilOf(next);
        to.day == 1 && 12 * to.year + to.month == 12 * from.year + from.month + terms.interval
      case Quarterly => SameDayMonthsOn(start, next, 3 * terms.interval)
      case Semesterly => SameDayMonthsOn(start, next, 6 * terms.interval)
      case Yearly =>
        && CivilOf(next).year == CivilOf(start).year + terms.interval
        && CivilOf(next).month == CivilOf(start).month
        && SameDayMonthsOn(start, next, 12 * terms.interval)
  {
    hide SameDayMonthsOn, MonthOf, MonthStart, MonthLength, DayOfMonth, AddMonths, CivilOf;
    match terms.rule
    case Monthly => MonthsOn(start, terms.interval);
    case MonthlyLastDay =>
      LastDayPeriods(start, terms);
      CivilParts(start);
      CivilParts(RegularEnd(start, terms) + 1);
    case Quarterly => MonthsOn(start, 3 * terms.interval);
    case Semesterly => MonthsOn(start, 6 * terms.interval);
    case Yearly =>
      MonthsOn(start, 12 * terms.interval);
      MonthsApart(start, AddMonths(start, 12 * terms.interval), 12 * terms.interval);
      YearsOn(CivilOf(start), CivilOf(AddMonths(start, 12 * terms.interval)), terms.interval);
    case _ =>
  }

  lemma MonthsApart(start: Day, next: Day, months: int)
    ensures SameDayMonthsOn(start, next, months) ==>
      12 * CivilOf(next).year + CivilOf(next).month == 12 * CivilOf(start).year + CivilOf(start).month + months
    ensures 1 <= CivilOf(start).month <= 12 && 1 <= CivilOf(next).month <= 12
  {
    hide CivilOf, MonthLength;
  }

  lemma YearsOn(from: Civil, to: Civil, years: int)
    requires 1 <= from.month <= 12 && 1 <= to.month <= 12
    requires 12 * to.year + to.month == 12 * from.year + from.month + 12 * years
    ensures to.year == from.year + years && to.month == from.month
  {
  }

  /**
   * The day on which a period is invoiced: its first day when pre-paid; when
   * post-paid the day after its last day, or its last day under month-last-day.
   */
  lemma InvoiceDay(start: Day, terms: Terms, maxEnd: Option<Day>)
    requires maxEnd.Some? ==> start <= maxEnd.value
    ensures var end := RegularEnd(start, terms);
      var last := if maxEnd.Some? && maxEnd.value < end then maxEnd.value else end;
      NextInvoiceDate(Some(start), terms, InvoicingOffset(terms), maxEnd)
      == Some(if terms.invoicing == PrePaid then start else if terms.rule == MonthlyLastDay then last else last + 1)
  {
    hide RegularEnd;
  }

  /**
   * A period whose invoice date was set by hand ends where that date says: when
   * pre-paid it is the regular period of the day the date stands for, when
   * post-paid that day is its last one; in both cases it stays within the line.
   */
  lemma ForcedPeriod(start: Day, terms: Terms, maxEnd: Option<Day>, nextInvoice: Day, offset: int)
    ensures var day := nextInvoice - offset;
      var last := if terms.invoicing == PrePaid then RegularEnd(day, terms) else day;
      var end := NextPeriodDateEnd(Some(start), terms, maxEnd, Some(nextInvoice), offset);
      && (end.None? <==> maxEnd.Some? && maxEnd.value < start)
      && (end.Some? ==> end.value == if maxEnd.Some? && maxEnd.value < last then maxEnd.value else last)
  {
    hide RegularEnd;
  }

  /** The next period starts after what was invoiced, or with the line, unless the line has ended before. */
  lemma PeriodStartDay(dateStart: Day, dateEnd: Option<Day>, lastInvoiced: Option<Day>)
    ensures var first := match lastInvoiced case Some(last) => last + 1 case None => dateStart;
      var start := NextPeriodStart(dateStart, dateEnd, lastInvoiced);
      && (start.None? <==> dateEnd.Some? && dateEnd.value < first)
      && (start.Some? ==> start.value == first)
  {
  }

  /** Every rule moves a day forward exactly when its interval is at least one. */
  lemma PeriodAdvances(start: Day, terms: Terms)
    ensures start <= RegularEnd(start, terms) <==> 1 <= terms.interval
  {
    hide Plus;
    PlusAdvances(start, RelativeDelta(terms.rule, terms.interval));
  }

  /**
   * Later periods never end earlier, and periods laid end to end never overlap,
   * across month-end clamping and leap years.
   */
  lemma PeriodMonotone(start: Day, start': Day, terms: Terms)
    requires start <= start'
    ensures RegularEnd(start, terms) <= RegularEnd(start', terms)
  {
    hide Plus;
    PlusMonotone(start, start', RelativeDelta(terms.rule, terms.interval));
  }

  /**
   * A computed next invoice date gives back the period it was computed from:
   * the forced-date branch agrees with the regular one, pre-paid or post-paid,
   * trimmed or not, whatever the offset.
   */
  lemma ForcedAgreesWithRegular(start: Option<Day>, terms: Terms, maxEnd: Option<Day>, offset: int)
    ensures NextPeriodDateEnd(start, terms, maxEnd, NextInvoiceDate(start, terms, offset, maxEnd), offset)
         == NextPeriodDateEnd(start, terms, maxEnd, None, 0)
  {
    hide RegularEnd;
  }

  predicate LastDayOfMonth(n: Day) {
    MonthOf(n + 1) == MonthOf(n) + 1
  }

  predicate FirstDayOfMonth(n: Day) {
    DayOfMonth(n) == 1
  }

  /**
   * Under the month-last-day rule an untrimmed period ends on the last day of a
   * month, interval - 1 months after the month it starts in, so the next one
   * starts on a first day.
   */
  lemma LastDayPeriods(start: Day, terms: Terms)
    requires terms.rule == MonthlyLastDay
    ensures LastDayOfMonth(RegularEnd(start, terms))
    ensures FirstDayOfMonth(RegularEnd(start, terms) + 1)
    ensures MonthOf(RegularEnd(start, terms)) == MonthOf(start) + terms.interval - 1
  {
    hide MonthStart, MonthLength, MonthOf;
    var m := MonthOf(start) + terms.interval;
    MonthStartStep(m - 1);
    MonthStartStep(m);
    MonthOfUnique(MonthStart(m) - 1, m - 1);
    MonthOfUnique(MonthStart(m), m);
  }

  /** The next invoice date exists exactly when a next period does, and never precedes it. */
  lemma InvoiceDateBounds(start: Option<Day>, terms: Terms, maxEnd: Option<Day>)
    requires 1 <= terms.interval
    ensures var next := NextInvoiceDate(start, terms, InvoicingOffset(terms), maxEnd);
            && (next.Some? <==> start.Some? && !Past(start.value, maxEnd))
            && (next.Some? ==>
                 var end := NextPeriodDateEnd(start, terms, maxEnd, next, InvoicingOffset(terms));
                 && end.Some?
                 && start.value <= end.value
                 && end.value <= RegularEnd(start.value, terms)
                 && (maxEnd.Some? ==> end.value <= maxEnd.value)
                 && start.value <= next.value <= end.value + 1)
  {
    ForcedAgreesWithRegular(start, terms, maxEnd, InvoicingOffset(terms));
    if start.Some? {
      PeriodAdvances(start.value, terms);
    }
    hide RegularEnd;
  }
}
