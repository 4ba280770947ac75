/**
 * The computed state of a contract line and the search domains that stand for it.
 *
 * A domain is a list in prefix notation; the search builds one for several states
 * by pushing an "or" in front of what it has and appending the next state.
 */
module StateSearch {

  import opened Options
  import opened Calendar

  datatype State = Upcoming | InProgress | ToRenew | UpcomingClose | Closed | CanceledState

  /** What the state of a line depends on. */
  datatype Row = Row(isDisplay: bool, isCanceled: bool, dateStart: Day, dateEnd: Option<Day>, notice: Option<Day>,
                     isAutoRenew: bool, manualRenewNeeded: bool, hasSuccessor: bool)

  /** None is the False of sections and notes. */
  function ComputeState(r: Row, today: Day): Option<State> {
    if r.isDisplay then None
    else if r.isCanceled then Some(CanceledState)
    else if r.dateStart > today then Some(Upcoming)
    else if r.dateEnd.None? || r.dateEnd.value >= today then
      if r.notice.Some? && r.notice.value < today && !r.isAutoRenew && !r.manualRenewNeeded then Some(UpcomingClose)
      else Some(InProgress)
    else if (r.manualRenewNeeded && !r.hasSuccessor) || r.isAutoRenew then Some(ToRenew)
    else Some(Closed)
  }

  // ---------------------------------------------------------------- domains

  /** Comparisons with an unset date never hold. */
  datatype Leaf =
    | StartAfter(day: Day) | StartNotAfter(day: Day)
    | EndFrom(day: Day) | EndBefore(day: Day) | EndUnset
    | NoticeAfter(day: Day) | NoticeBefore(day: Day)
    | CanceledIs(b: bool) | AutoRenewIs(b: bool) | ManualIs(b: bool) | SuccessorSet(b: bool)
    | DisplaySet | IdUnset

  predicate LeafHolds(leaf: Leaf, r: Row) {
    match leaf
    case StartAfter(d) => r.dateStart > d
    case StartNotAfter(d) => r.dateStart <= d
    case EndFrom(d) => r.dateEnd.Some? && r.dateEnd.value >= d
    case EndBefore(d) => r.dateEnd.Some? && r.dateEnd.value < d
    case EndUnset => r.dateEnd.None?
    case NoticeAfter(d) => r.notice.Some? && r.notice.value > d
    case NoticeBefore(d) => r.notice.Some? && r.notice.value < d
    case CanceledIs(b) => r.isCanceled == b
    case AutoRenewIs(b) => r.isAutoRenew == b
    case ManualIs(b) => r.manualRenewNeeded == b
    case SuccessorSet(b) => r.hasSuccessor == b
    case DisplaySet => r.isDisplay
    case IdUnset => false
  }

  datatype Token = And | Or | Test(leaf: Leaf)

  type Domain = seq<Token>

  datatype Expr = Atom(leaf: Leaf) | Both(left: Expr, right: Expr) | Either(left: Expr, right: Expr)

  predicate Holds(e: Expr, r: Row) {
    match e
    case Atom(leaf) => LeafHolds(leaf, r)
    case Both(a, b) => Holds(a, r) && Holds(b, r)
    case Either(a, b) => Holds(a, r) || Holds(b, r)
  }

  datatype Parsed<T> = Parsed(read: T, rest: Domain)

  /** Reads one complete expression off the front of a domain. */
  function Parse(d: Domain): (p: Option<Parsed<Expr>>)
    ensures p.Some? ==> |p.value.rest| < |d|
    decreases |d|, 0
  {
    if d == [] then None
    else match d[0]
      case Test(leaf) => Some(Parsed(Atom(leaf), d[1..]))
      case And =>
        var p := ParsePair(d[1..]);
        if p.None? then None else Some(Parsed(Both(p.value.read.0, p.value.read.1), p.value.rest))
      case Or =>
        var p := ParsePair(d[1..]);
        if p.None? then None else Some(Parsed(Either(p.value.read.0, p.value.read.1), p.value.rest))
  }

  function ParsePair(d: Domain): (p: Option<Parsed<(Expr, Expr)>>)
    ensures p.Some? ==> |p.value.rest| < |d|
    decreases |d|, 1
  {
    var left := Parse(d);
    if left.None? then None
    else
      var right := Parse(left.value.rest);
      if right.None? then None
      else Some(Parsed((left.value.read, right.value.read), right.value.rest))
  }

  /** A row satisfies an empty domain, and a domain that is exactly one true expression. */
  predicate Satisfies(d: Domain, r: Row) {
    d == [] || (Parse(d).Some? && Parse(d).value.rest == [] && Holds(Parse(d).value.read, r))
  }

  function Flatten(e: Expr): (d: Domain) {
    match e
    case Atom(leaf) => [Test(leaf)]
    case Both(a, b) => [And] + Flatten(a) + Flatten(b)
    case Either(a, b) => [Or] + Flatten(a) + Flatten(b)
  }

  lemma Regroup(x: Domain, a: Domain, b: Domain, rest: Domain)
    ensures x + a + b + rest == x + (a + (b + rest))
  {
  }

  /** Reading an operator and its two operands. */
  lemma ParseNode(e: Expr, tail: Domain, rest: Domain)
    requires !e.Atom? && Parse(tail).Some? && Parse(tail).value.read == e.left
    requires Parse(Parse(tail).value.rest) == Some(Parsed(e.right, rest))
    ensures Parse([if e.Both? then And else Or] + tail) == Some(Parsed(e, rest))
  {
    var d := [if e.Both? then And else Or] + tail;
    assert d[1..] == tail;
    assert ParsePair(tail) == Some(Parsed((e.left, e.right), rest));
  }

  /** Prefix notation is unambiguous: a written expression is read back, whatever follows it. */
  lemma {:induction false} ParseFlatten(e: Expr, rest: Domain)
    ensures Parse(Flatten(e) + rest) == Some(Parsed(e, rest))
  {
    if e.Atom? {
      assert (Flatten(e) + rest)[1..] == rest;
    } else {
      var tail := Flatten(e.left) + (Flatten(e.right) + rest);
      ParseFlatten(e.left, Flatten(e.right) + rest);
      ParseFlatten(e.right, rest);
      ParseNode(e, tail, rest);
      Regroup([if e.Both? then And else Or], Flatten(e.left), Flatten(e.right), rest);
      hide Parse;
    }
  }

  // ---------------------------------------------------------------- state domains

  function StateDomain(state: Option<State>, today: Day): Domain {
    match state
    case Some(Upcoming) => [And, Test(StartAfter(today)), Test(CanceledIs(false))]
    case Some(InProgress) =>
      [And, And, And, Test(StartNotAfter(today)), Test(CanceledIs(false)),
       Or, Test(EndFrom(today)), Test(EndUnset),
       Or, Test(AutoRenewIs(true)), And, Test(AutoRenewIs(false)), Test(NoticeAfter(today))]
    case Some(ToRenew) =>
      [And, And, Test(CanceledIs(false)), Test(EndBefore(today)),
       Or, And, Test(ManualIs(true)), Test(SuccessorSet(false)), Test(AutoRenewIs(true))]
    case Some(UpcomingClose) =>
      [And, And, And, And, And, Test(StartNotAfter(today)), Test(AutoRenewIs(false)), Test(ManualIs(false)),
       Test(CanceledIs(false)), Test(NoticeBefore(today)), Test(EndFrom(today))]
    case Some(Closed) =>
      [And, And, And, Test(CanceledIs(false)), Test(EndBefore(today)), Test(AutoRenewIs(false)),
       Or, And, Test(ManualIs(true)), Test(SuccessorSet(true)), Test(ManualIs(false))]
    case Some(CanceledState) => [Test(CanceledIs(true))]
    case None => [Test(DisplaySet)]
  }

  /** The expression each state domain writes. */
  function StateExpr(state: Option<State>, today: Day): Expr {
    match state
    case Some(Upcoming) => Both(Atom(StartAfter(today)), Atom(CanceledIs(false)))
    case Some(InProgress) =>
      Both(Both(Both(Atom(StartNotAfter(today)), Atom(CanceledIs(false))),
                Either(Atom(EndFrom(today)), Atom(EndUnset))),
           Either(Atom(AutoRenewIs(true)), Both(Atom(AutoRenewIs(false)), Atom(NoticeAfter(today)))))
    case Some(ToRenew) =>
      Both(Both(Atom(CanceledIs(false)), Atom(EndBefore(today))),
           Either(Both(Atom(ManualIs(true)), Atom(SuccessorSet(false))), Atom(AutoRenewIs(true))))
    case Some(UpcomingClose) =>
      Both(Both(Both(Both(Both(Atom(StartNotAfter(today)), Atom(AutoRenewIs(false))), Atom(ManualIs(false))),
                     Atom(CanceledIs(false))), Atom(NoticeBefore(today))), Atom(EndFrom(today)))
    case Some(Closed) =>
      Both(Both(Both(Atom(CanceledIs(false)), Atom(EndBefore(today))), Atom(AutoRenewIs(false))),
           Either(Both(Atom(ManualIs(true)), Atom(SuccessorSet(true))), Atom(ManualIs(false))))
    case Some(CanceledState) => Atom(CanceledIs(true))
    case None => Atom(DisplaySet)
  }

  lemma InProgressWrites(today: Day)
    ensures StateDomain(Some(InProgress), today) == Flatten(StateExpr(Some(InProgress), today))
  {
    var e := StateExpr(Some(InProgress), today);
    assert Flatten(e.left.left) == [And, Test(StartNotAfter(today)), Test(CanceledIs(false))];
    assert Flatten(e.left.right) == [Or, Test(EndFrom(today)), Test(EndUnset)];
    assert Flatten(e.right.right) == [And, Test(AutoRenewIs(false)), Test(NoticeAfter(today))];
    assert Flatten(e.left) == [And] + Flatten(e.left.left) + Flatten(e.left.right);
    assert Flatten(e.right) == [Or, Test(AutoRenewIs(true))] + Flatten(e.right.right);
  }

  lemma UpcomingCloseWrites(today: Day)
    ensures StateDomain(Some(UpcomingClose), today) == Flatten(StateExpr(Some(UpcomingClose), today))
  {
    var e := StateExpr(Some(UpcomingClose), today);
    assert Flatten(e.left.left.left.left) == [And, Test(StartNotAfter(today)), Test(AutoRenewIs(false))];
    assert Flatten(e.left.left.left) == [And] + Flatten(e.left.left.left.left) + [Test(ManualIs(false))];
    assert Flatten(e.left.left) == [And] + Flatten(e.left.left.left) + [Test(CanceledIs(false))];
    assert Flatten(e.left) == [And] + Flatten(e.left.left) + [Test(NoticeBefore(today))];
  }

  lemma PastWrites(today: Day)
    ensures StateDomain(Some(ToRenew), today) == Flatten(StateExpr(Some(ToRenew), today))
    ensures StateDomain(Some(Closed), today) == Flatten(StateExpr(Some(Closed), today))
  {
    var e, f := StateExpr(Some(ToRenew), today), StateExpr(Some(Closed), today);
    assert Flatten(e.left) == [And, Test(CanceledIs(false)), Test(EndBefore(today))];
    assert Flatten(e.right.left) == [And, Test(ManualIs(true)), Test(SuccessorSet(false))];
    assert Flatten(f.left.left) == [And, Test(CanceledIs(false)), Test(EndBefore(today))];
    assert Flatten(f.left) == [And] + Flatten(f.left.left) + [Test(AutoRenewIs(false))];
    assert Flatten(f.right.left) == [And, Test(ManualIs(true)), Test(SuccessorSet(true))];
    assert Flatten(f.right) == [Or] + Flatten(f.right.left) + [Test(ManualIs(false))];
  }

  /** The written domain of a state is the flattened expression. */
  lemma StateDomainWrites(state: Option<State>, today: Day)
    ensures StateDomain(state, today) == Flatten(StateExpr(state, today))
  {
    if state in {Some(InProgress), Some(UpcomingClose), Some(ToRenew), Some(Closed)} {
      hide StateDomain, StateExpr, Flatten;
      InProgressWrites(today);
      UpcomingCloseWrites(today);
      PastWrites(today);
    }
  }

  /** A line as the code keeps it: not a display line, well dated, with a notice date when it has an end. */
  predicate Ordinary(r: Row) {
    && !r.isDisplay
    && (r.notice.Some? <==> r.dateEnd.Some?)
    && (r.dateEnd.Some? ==> r.dateStart <= r.dateEnd.value)
  }

  /** The in-progress lines the in-progress domain reaches. */
  predicate Reached(r: Row, today: Day) {
    r.isAutoRenew || (r.notice.Some? && r.notice.value > today)
  }

  lemma InProgressMeaning(r: Row, today: Day)
    requires Ordinary(r)
    ensures Holds(StateExpr(Some(InProgress), today), r) <==> ComputeState(r, today) == Some(InProgress) && Reached(r, today)
  {
    var e := StateExpr(Some(InProgress), today);
    assert Holds(e.left.left, r) <==> r.dateStart <= today && !r.isCanceled;
    assert Holds(e.left.right, r) <==> r.dateEnd.None? || r.dateEnd.value >= today;
    assert Holds(e.right.right, r) <==> !r.isAutoRenew && r.notice.Some? && r.notice.value > today;
    assert Holds(e.left, r) <==> Holds(e.left.left, r) && Holds(e.left.right, r);
    assert Holds(e.right, r) <==> r.isAutoRenew || Holds(e.right.right, r);
  }

  lemma ToRenewMeaning(r: Row, today: Day)
    requires Ordinary(r)
    ensures Holds(StateExpr(Some(ToRenew), today), r) <==> ComputeState(r, today) == Some(ToRenew)
  {
    var e := StateExpr(Some(ToRenew), today);
    assert Holds(e.left, r) <==> !r.isCanceled && r.dateEnd.Some? && r.dateEnd.value < today;
    assert Holds(e.right.left, r) <==> r.manualRenewNeeded && !r.hasSuccessor;
    assert Holds(e.right, r) <==> Holds(e.right.left, r) || r.isAutoRenew;
  }

  lemma UpcomingCloseMeaning(r: Row, today: Day)
    requires Ordinary(r)
    ensures Holds(StateExpr(Some(UpcomingClose), today), r) <==> ComputeState(r, today) == Some(UpcomingClose)
  {
    var e := StateExpr(Some(UpcomingClose), today);
    assert Holds(e.left.left.left.left, r) <==> r.dateStart <= today && !r.isAutoRenew;
    assert Holds(e.left.left.left, r) <==> Holds(e.left.left.left.left, r) && !r.manualRenewNeeded;
    assert Holds(e.left.left, r) <==> Holds(e.left.left.left, r) && !r.isCanceled;
    assert Holds(e.left, r) <==> Holds(e.left.left, r) && r.notice.Some? && r.notice.value < today;
  }

  lemma ClosedMeaning(r: Row, today: Day)
    requires Ordinary(r)
    ensures Holds(StateExpr(Some(Closed), today), r) <==> ComputeState(r, today) == Some(Closed)
  {
    var e := StateExpr(Some(Closed), today);
    assert Holds(e.left.left, r) <==> !r.isCanceled && r.dateEnd.Some? && r.dateEnd.value < today;
    assert Holds(e.left, r) <==> Holds(e.left.left, r) && !r.isAutoRenew;
    assert Holds(e.right.left, r) <==> r.manualRenewNeeded && r.hasSuccessor;
    assert Holds(e.right, r) <==> Holds(e.right.left, r) || !r.manualRenewNeeded;
  }

  /**
   * On ordinary lines a state's domain is equivalent to the computed state, but
   * for in-progress, whose domain holds on exactly the lines that also renew by
   * themselves or whose notice date is still to come.
   */
  lemma StateDomainMeaning(r: Row, state: Option<State>, today: Day)
    requires Ordinary(r)
    ensures Holds(StateExpr(state, today), r)
       <==> ComputeState(r, today) == state && (state == Some(InProgress) ==> Reached(r, today))
  {
    match state
    case Some(InProgress) => InProgressMeaning(r, today);
    case Some(ToRenew) => ToRenewMeaning(r, today);
    case Some(UpcomingClose) => UpcomingCloseMeaning(r, today);
    case Some(Closed) => ClosedMeaning(r, today);
    case _ =>
  }

  /** Sections and notes have no state, and the domain of no state finds exactly them. */
  lemma DisplayMeaning(r: Row, today: Day)
    ensures r.isDisplay <==> ComputeState(r, today).None?
    ensures r.isDisplay <==> Holds(StateExpr(None, today), r)
  {
  }

  /** A running line without an end that does not renew by itself: its state is in-progress, and no domain of a state finds it. */
  lemma RunningLineExample(start: Day, today: Day)
    requires start <= today
    ensures var r := Row(false, false, start, None, None, false, false, false);
      && Ordinary(r) && ComputeState(r, today) == Some(InProgress)
      && forall state :: !Holds(StateExpr(state, today), r)
  {
    hide StateExpr;
    var r := Row(false, false, start, None, None, false, false, false);
    forall state ensures !Holds(StateExpr(state, today), r) {
      StateDomainMeaning(r, state, today);
    }
  }

  // ---------------------------------------------------------------- the search

  const STATES: seq<Option<State>> :=
    [Some(Upcoming), Some(InProgress), Some(ToRenew), Some(UpcomingClose), Some(Closed), Some(CanceledState), None]

  datatype Operator = Is(state: Option<State>) | IsNot(state: Option<State>)
                    | In(states: seq<Option<State>>) | NotIn(states: seq<Option<State>>)

  function AsSet(states: seq<Option<State>>): set<Option<State>> {
    set s | s in states
  }

  /** The states an operator asks for. */
  function Wanted(op: Operator): set<Option<State>> {
    match op
    case Is(s) => {s}
    case IsNot(s) => AsSet(STATES) - {s}
    case In(ss) => AsSet(ss)
    case NotIn(ss) => AsSet(STATES) - AsSet(ss)
  }

  /** What a domain built for some states means. */
  ghost predicate Disjoins(d: Domain, states: set<Option<State>>, today: Day) {
    exists e: Expr :: d == Flatten(e) && forall r :: Holds(e, r) <==> exists s <- states :: Holds(StateExpr(s, today), r)
  }

  lemma DisjoinMore(d: Domain, states: set<Option<State>>, s: Option<State>, today: Day)
    requires Disjoins(d, states, today)
    ensures Disjoins([Or] + d + StateDomain(s, today), states + {s}, today)
  {
    var e: Expr :| d == Flatten(e) && forall r :: Holds(e, r) <==> exists s <- states :: Holds(StateExpr(s, today), r);
    var e' := Either(e, StateExpr(s, today));
    StateDomainWrites(s, today);
    assert [Or] + d + StateDomain(s, today) == Flatten(e');
    hide StateExpr;
    forall r ensures Holds(e', r) <==> exists t <- states + {s} :: Holds(StateExpr(t, today), r) {
      if Holds(StateExpr(s, today), r) { assert s in states + {s}; }
    }
  }

  lemma DisjoinOne(s: Option<State>, today: Day)
    ensures Disjoins(StateDomain(s, today), {s}, today)
  {
    StateDomainWrites(s, today);
    var e := StateExpr(s, today);
    hide StateExpr;
    forall r ensures Holds(e, r) <==> exists t <- {s} :: Holds(StateExpr(t, today), r) {
      if Holds(e, r) { assert s in {s}; }
    }
  }

  /** Joins the domains of the listed states that `keep` retains. */
  method Join(states: seq<Option<State>>, today: Day) returns (domain: Domain)
    ensures states == [] ==> domain == []
    ensures states != [] ==> Disjoins(domain, AsSet(states), today)
  {
    hide Disjoins, Flatten, StateExpr;
    domain := [];
    for i := 0 to |states|
      invariant i == 0 ==> domain == []
      invariant i > 0 ==> domain != [] && Disjoins(domain, AsSet(states[..i]), today)
    {
      assert AsSet(states[..i + 1]) == AsSet(states[..i]) + {states[i]};
      if domain != [] {
        DisjoinMore(domain, AsSet(states[..i]), states[i], today);
        domain := [Or] + domain;
      } else {
        DisjoinOne(states[i], today);
        assert AsSet(states[..i + 1]) == {states[i]};
        assert [] + StateDomain(states[i], today) == StateDomain(states[i], today);
      }
      domain := domain + StateDomain(states[i], today);
    }
    assert states[..|states|] == states;
  }

  /** The states that are not in a list, in the order the code goes through them. */
  function Others(states: seq<Option<State>>, not: seq<Option<State>>): (rest: seq<Option<State>>)
    ensures AsSet(rest) == AsSet(states) - AsSet(not)
  {
    if states == [] then []
    else
      assert AsSet(states) == {states[0]} + AsSet(states[1..]);
      var rest := Others(states[1..], not);
      if states[0] in not then rest
      else
        assert AsSet([states[0]] + rest) == {states[0]} + AsSet(rest);
        [states[0]] + rest
  }

  lemma EveryState(s: Option<State>)
    ensures s in AsSet(STATES)
  {
    if s.None? {
      assert STATES[6] == s;
    } else {
      match s.value
      case Upcoming => assert STATES[0] == s;
      case InProgress => assert STATES[1] == s;
      case ToRenew => assert STATES[2] == s;
      case UpcomingClose => assert STATES[3] == s;
      case Closed => assert STATES[4] == s;
      case CanceledState => assert STATES[5] == s;
    }
  }

  lemma EmptyList(states: seq<Option<State>>)
    ensures AsSet(states) == {} <==> states == []
  {
    if states != [] { assert states[0] in AsSet(states); }
  }

  lemma NothingLeft<T>(a: set<T>, b: set<T>)
    requires b <= a
    ensures a - b == {} <==> a == b
  {
    if a - b == {} {
      forall x | x in a ensures x in b { assert x !in a - b; }
    }
  }

  lemma OtherStateExists(s: Option<State>)
    ensures AsSet(STATES) - {s} != {}
  {
    EveryState(None);
    EveryState(Some(Upcoming));
    assert (if s.None? then Some(Upcoming) else None) in AsSet(STATES) - {s};
  }

  method SearchState(op: Operator, today: Day) returns (domain: Domain)
    ensures Wanted(op) != {} ==> Disjoins(domain, Wanted(op), today)
    ensures Wanted(op) == {} ==> domain == if op.NotIn? then [Test(IdUnset)] else []
  {
    hide Disjoins, StateExpr;
    match op
    case Is(state) =>
      DisjoinOne(state, today);
      domain := StateDomain(state, today);
    case IsNot(state) =>
      OtherStateExists(state);
      assert AsSet([state]) == {state};
      domain := Join(Others(STATES, [state]), today);
    case In(states) =>
      EmptyList(states);
      domain := Join(states, today);
    case NotIn(states) =>
      if AsSet(states) == AsSet(STATES) {
        domain := [Test(IdUnset)];
      } else {
        forall s | s in states ensures s in AsSet(STATES) { EveryState(s); }
        NothingLeft(AsSet(STATES), AsSet(states));
        domain := Join(Others(STATES, states), today);
      }
  }

  /** A state that a search asks for. */
  predicate IsWanted(op: Operator, state: Option<State>) {
    match op
    case Is(s) => state == s
    case IsNot(s) => state != s
    case In(ss) => state in ss
    case NotIn(ss) => state !in ss
  }

  lemma WantedMeaning(op: Operator, state: Option<State>)
    ensures state in Wanted(op) <==> IsWanted(op, state)
  {
    EveryState(state);
  }

  /**
   * A search finds exactly the ordinary lines whose computed state was asked
   * for, less the in-progress lines no domain reaches, unless it is an "in" over
   * an empty list: that one finds every line.
   */
  lemma SearchFinds(op: Operator, domain: Domain, r: Row, today: Day)
    requires Ordinary(r)
    requires Wanted(op) != {} ==> Disjoins(domain, Wanted(op), today)
    requires Wanted(op) == {} ==> domain == if op.NotIn? then [Test(IdUnset)] else []
    ensures (Satisfies(domain, r) <==>
               && IsWanted(op, ComputeState(r, today))
               && (ComputeState(r, today) == Some(InProgress) ==> Reached(r, today)))
       <==> op != In([])
  {
    hide StateExpr, ComputeState;
    WantedMeaning(op, ComputeState(r, today));
    if Wanted(op) == {} {
      if op.NotIn? { assert Parse(domain) == Some(Parsed(Atom(IdUnset), [])); }
      if op.IsNot? { OtherStateExists(op.state); }
      if op.In? { EmptyList(op.states); }
    } else {
      var e: Expr :| domain == Flatten(e)
        && forall t :: Holds(e, t) <==> exists s <- Wanted(op) :: Holds(StateExpr(s, today), t);
      ParseFlatten(e, []);
      assert Flatten(e) + [] == domain;
      forall s ensures Holds(StateExpr(s, today), r)
                  <==> ComputeState(r, today) == s && (s == Some(InProgress) ==> Reached(r, today)) {
        StateDomainMeaning(r, s, today);
      }
    }
  }
}
