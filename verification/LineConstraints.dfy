/**
 * Which life-cycle steps a contract line allows: the criteria table, its
 * expansion into a dictionary, and what a lookup in that dictionary means.
 */
module LineConstraints {

  import opened Options
  import opened Calendar

  datatype When = Before | In | After

  datatype Criteria = Criteria(when: When, hasDateEnd: bool, hasLastInvoiced: bool, isAutoRenew: bool,
                               hasSuccessor: bool, predecessorHasSuccessor: bool, canceled: bool)

  datatype Allowed = Allowed(planSuccessor: bool, stopPlanSuccessor: bool, stop: bool, cancel: bool, uncancel: bool)

  /** A row of the table; None stands for every value. */
  datatype Row = Row(when: Option<When>, hasDateEnd: Option<bool>, hasLastInvoiced: Option<bool>,
                     isAutoRenew: Option<bool>, hasSuccessor: Option<bool>,
                     predecessorHasSuccessor: Option<bool>, canceled: Option<bool>, allowed: Allowed)

  const T := Some(true)
  const F := Some(false)

  const ROWS: seq<Row> := [
    Row(Some(Before), T, F, T, F, None, F, Allowed(false, true, true, true, false)),
    Row(Some(Before), T, F, F, T, None, F, Allowed(false, false, true, true, false)),
    Row(Some(Before), T, F, F, F, None, F, Allowed(true, true, true, true, false)),
    Row(Some(Before), F, F, F, F, None, F, Allowed(false, true, true, true, false)),
    Row(Some(In), T, F, T, F, None, F, Allowed(false, true, true, true, false)),
    Row(Some(In), T, F, F, T, None, F, Allowed(false, false, true, true, false)),
    Row(Some(In), T, F, F, F, None, F, Allowed(true, true, true, true, false)),
    Row(Some(In), F, F, F, F, None, F, Allowed(false, true, true, true, false)),
    Row(Some(Before), T, T, T, F, None, F, Allowed(false, true, true, false, false)),
    Row(Some(Before), T, T, F, T, None, F, Allowed(false, false, true, false, false)),
    Row(Some(Before), T, T, F, F, None, F, Allowed(true, true, true, false, false)),
    Row(Some(Before), F, T, F, F, None, F, Allowed(false, true, true, false, false)),
    Row(Some(In), T, T, T, F, None, F, Allowed(false, true, true, false, false)),
    Row(Some(In), T, T, F, T, None, F, Allowed(false, false, true, false, false)),
    Row(Some(In), T, T, F, F, None, F, Allowed(true, true, true, false, false)),
    Row(Some(In), F, T, F, F, None, F, Allowed(false, true, true, false, false)),
    Row(Some(After), T, None, T, F, None, F, Allowed(false, false, true, false, false)),
    Row(Some(After), T, None, F, T, None, F, Allowed(false, false, false, false, false)),
    Row(Some(After), T, None, F, F, None, F, Allowed(true, false, true, false, false)),
    Row(None, None, None, None, None, F, T, Allowed(false, false, false, false, true)),
    Row(None, None, None, None, None, T, T, Allowed(false, false, false, false, false))
  ]

  function Variations(value: Option<bool>): set<bool> {
    if value.None? then {true, false} else {value.value}
  }

  /** The concrete criteria a row stands for. */
  function ExpandNone(row: Row): set<Criteria> {
    set when | when in (if row.when.None? then {Before, In, After} else {row.when.value}),
        e | e in Variations(row.hasDateEnd), l | l in Variations(row.hasLastInvoiced),
        a | a in Variations(row.isAutoRenew), s | s in Variations(row.hasSuccessor),
        p | p in Variations(row.predecessorHasSuccessor), c | c in Variations(row.canceled)
      :: Criteria(when, e, l, a, s, p, c)
  }

  predicate Has(value: Option<bool>, b: bool) {
    value.None? || value.value == b
  }

  predicate Matches(row: Row, c: Criteria) {
    && (row.when.None? || row.when.value == c.when)
    && Has(row.hasDateEnd, c.hasDateEnd) && Has(row.hasLastInvoiced, c.hasLastInvoiced)
    && Has(row.isAutoRenew, c.isAutoRenew) && Has(row.hasSuccessor, c.hasSuccessor)
    && Has(row.predecessorHasSuccessor, c.predecessorHasSuccessor) && Has(row.canceled, c.canceled)
  }

  lemma ExpandNoneMatches(row: Row, c: Criteria)
    ensures c in ExpandNone(row) <==> Matches(row, c)
  {
    if Matches(row, c) {
      assert c.when.Before? || c.when.In? || c.when.After?;
      assert c.when in (if row.when.None? then {Before, In, After} else {row.when.value});
      assert c.hasDateEnd in Variations(row.hasDateEnd) && c.hasLastInvoiced in Variations(row.hasLastInvoiced);
      assert c.isAutoRenew in Variations(row.isAutoRenew) && c.hasSuccessor in Variations(row.hasSuccessor);
      assert c.predecessorHasSuccessor in Variations(row.predecessorHasSuccessor) && c.canceled in Variations(row.canceled);
      assert c == Criteria(c.when, c.hasDateEnd, c.hasLastInvoiced, c.isAutoRenew, c.hasSuccessor,
                           c.predecessorHasSuccessor, c.canceled);
    }
  }

  /** The combinations of attributes an uncanceled line can have. */
  predicate Covered(c: Criteria) {
    if c.hasDateEnd then !(c.isAutoRenew && c.hasSuccessor)
    else !c.isAutoRenew && !c.hasSuccessor && c.when != After
  }

  /** What the table says, as one rule. */
  function Rule(c: Criteria): Option<Allowed> {
    if c.canceled then Some(Allowed(false, false, false, false, !c.predecessorHasSuccessor))
    else if !Covered(c) then None
    else Some(Allowed(
      planSuccessor := c.hasDateEnd && !c.isAutoRenew && !c.hasSuccessor,
      stopPlanSuccessor := c.when != After && !c.hasSuccessor,
      stop := !(c.when == After && c.hasSuccessor),
      cancel := c.when != After && !c.hasLastInvoiced,
      uncancel := false))
  }

  /** The row for a criteria the rule applies to. */
  function RowFor(c: Criteria): nat {
    var links := if c.isAutoRenew then 0 else if c.hasSuccessor then 1 else 2;
    var open := (if c.hasLastInvoiced then 8 else 0) + (if c.when == In then 4 else 0)
              + (if c.hasDateEnd then links else 3);
    if c.canceled then (if c.predecessorHasSuccessor then 20 else 19)
    else (if c.when == After then 16 + links else open)
  }

  /** Rows never compete: all that match a criteria allow what the rule allows. */
  lemma RowsFollowRule(c: Criteria, k: nat)
    requires k < |ROWS| && Matches(ROWS[k], c)
    ensures Rule(c) == Some(ROWS[k].allowed)
  {
  }

  /** A criteria the rule applies to has its row. */
  lemma RowForMatches(c: Criteria)
    requires Rule(c).Some?
    ensures RowFor(c) < |ROWS| && Matches(ROWS[RowFor(c)], c)
  {
  }

  function Get(table: map<Criteria, Allowed>, c: Criteria): Option<Allowed> {
    if c in table then Some(table[c]) else None
  }

  /** Filling the dictionary row by row yields the rule, in whatever order the rows come. */
  method BuildTable(order: seq<Row>) returns (table: map<Criteria, Allowed>)
    requires forall row :: row in order <==> row in ROWS
    ensures forall c :: Get(table, c) == Rule(c)
  {
    table := map[];
    var i := 0;
    while i < |order|
      invariant 0 <= i <= |order|
      invariant forall c :: c in table ==> Rule(c) == Some(table[c])
      invariant forall c, k :: 0 <= k < i && Matches(order[k], c) ==> c in table
    {
      table := Add(table, order[i]);
      i := i + 1;
    }
    forall c ensures Get(table, c) == Rule(c) {
      if Rule(c).Some? {
        RowForMatches(c);
        var k := RowFor(c);
        assert ROWS[k] in order;
        var j :| 0 <= j < |order| && order[j] == ROWS[k];
        assert c in table;
      }
    }
  }

  method Add(table: map<Criteria, Allowed>, row: Row) returns (table': map<Criteria, Allowed>)
    requires row in ROWS
    requires forall c :: c in table ==> Rule(c) == Some(table[c])
    ensures forall c :: c in table' <==> c in table || Matches(row, c)
    ensures forall c :: c in table' ==> Rule(c) == Some(table'[c])
  {
    hide Matches, Rule, ExpandNone;
    table' := table + map c | c in ExpandNone(row) :: row.allowed;
    var k :| 0 <= k < |ROWS| && row == ROWS[k];
    forall c ensures c in ExpandNone(row) <==> Matches(row, c)
            ensures Matches(row, c) ==> Rule(c) == Some(row.allowed) {
      ExpandNoneMatches(row, c);
      if Matches(row, c) { RowsFollowRule(c, k); }
    }
  }

  function ComputeWhen(start: Day, end: Option<Day>, today: Day): When {
    if today < start then Before
    else if end.Some? && today > end.value then After
    else In
  }
}
