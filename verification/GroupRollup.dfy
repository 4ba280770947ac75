/**
 * Rolling account totals up the tree of account groups.
 *
 * Groups with accounts are filled first; then, level by level, each group adds
 * its amounts to its parent, which is created when it is not there yet.  A group
 * pushes once, with what it holds at that moment.
 */
module GroupRollup {

  import opened Options
  import opened FiniteSums

  type GroupId = int

  datatype Amounts = Amounts(initial: int, debit: int, credit: int, balance: int, ending: int)

  datatype Column = Initial | Debit | Credit | Balance | Ending

  function Pick(c: Column, a: Amounts): int {
    match c
    case Initial => a.initial
    case Debit => a.debit
    case Credit => a.credit
    case Balance => a.balance
    case Ending => a.ending
  }

  function Add(a: Amounts, b: Amounts): Amounts {
    Amounts(a.initial + b.initial, a.debit + b.debit, a.credit + b.credit, a.balance + b.balance, a.ending + b.ending)
  }

  /** The tree of groups.  Odoo refuses parents that form a cycle, so depths exist. */
  datatype Tree = Tree(parent: GroupId -> Option<GroupId>, depth: GroupId -> nat)

  ghost predicate WellFounded(t: Tree) {
    forall g :: t.parent(g).Some? ==> t.depth(t.parent(g).value) < t.depth(g)
  }

  /** The group data and the order in which its keys were created. */
  datatype Table = Table(data: map<GroupId, Amounts>, order: seq<GroupId>)

  ghost predicate Keyed(b: Table) {
    && (forall g :: g in b.data <==> g in b.order)
    && (forall i, j :: 0 <= i < j < |b.order| ==> b.order[i] != b.order[j])
  }

  /** One group adds its amounts to its parent. */
  function Push(t: Tree, b: Table, g: GroupId): (b': Table)
    requires g in b.data
  {
    match t.parent(g)
    case None => b
    case Some(p) =>
      if p in b.data then b.(data := b.data[p := Add(b.data[p], b.data[g])])
      else Table(b.data[p := b.data[g]], b.order + [p])
  }

  lemma PushKeyed(t: Tree, b: Table, g: GroupId)
    requires Keyed(b) && g in b.data
    ensures Keyed(Push(t, b, g))
    ensures b.order <= Push(t, b, g).order
  {
  }

  function Pending(t: Tree, ids: seq<GroupId>): nat {
    if ids == [] then 0 else t.depth(ids[0]) + 1 + Pending(t, ids[1..])
  }

  lemma {:induction false} PendingSnoc(t: Tree, ids: seq<GroupId>, g: GroupId)
    ensures Pending(t, ids + [g]) == Pending(t, ids) + t.depth(g) + 1
  {
    if ids == [] {
      assert [] + [g] == [g];
    } else {
      assert (ids + [g])[1..] == ids[1..] + [g];
      PendingSnoc(t, ids[1..], g);
    }
  }

  /** A push shortens the work left. */
  lemma PushDecreases(t: Tree, b: Table, i: nat)
    requires WellFounded(t) && Keyed(b) && i < |b.order|
    ensures Pending(t, Push(t, b, b.order[i]).order[i + 1..]) < Pending(t, b.order[i..])
  {
    var g, b' := b.order[i], Push(t, b, b.order[i]);
    assert b.order[i..] == [g] + b.order[i + 1..];
    if b'.order != b.order {
      var p := t.parent(g).value;
      assert b'.order[i + 1..] == b.order[i + 1..] + [p];
      PendingSnoc(t, b.order[i + 1..], p);
    }
  }

  /** Every group pushes in turn, in the order of creation, from position i on. */
  ghost function Work(t: Tree, b: Table, i: nat): Table
    requires WellFounded(t) && Keyed(b) && i <= |b.order|
    decreases Pending(t, b.order[i..])
  {
    if i == |b.order| then b
    else
      PushKeyed(t, b, b.order[i]);
      PushDecreases(t, b, i);
      Work(t, Push(t, b, b.order[i]), i + 1)
  }

  lemma WorkStep(t: Tree, b: Table, i: nat)
    requires WellFounded(t) && Keyed(b) && i < |b.order|
    ensures b.order[i] in b.data && var b' := Push(t, b, b.order[i]);
      && Keyed(b') && b.order <= b'.order
      && Work(t, b, i) == Work(t, b', i + 1)
      && (forall j :: |b.order| <= j < |b'.order| ==> t.parent(b.order[i]) == Some(b'.order[j]))
  {
    PushKeyed(t, b, b.order[i]);
    PushDecreases(t, b, i);
  }

  /** The recursion over levels: the groups of one level push, then those they created. */
  method HierarchyGroups(t: Tree, b: Table, level: nat, ghost bound: nat) returns (b': Table)
    requires WellFounded(t) && Keyed(b) && level <= |b.order|
    requires forall i :: level <= i < |b.order| ==> t.depth(b.order[i]) < bound
    ensures b' == Work(t, b, level)
    decreases bound
  {
    hide Keyed, WellFounded, Work, Push;
    b' := b;
    var newParents := false;
    for i := level to |b.order|
      invariant Keyed(b') && b.order <= b'.order
      invariant Work(t, b', i) == Work(t, b, level)
      invariant newParents ==> bound > 0
      invariant forall j :: |b.order| <= j < |b'.order| ==> newParents && t.depth(b'.order[j]) < bound - 1
      invariant !newParents ==> b' == b
    {
      var g := b'.order[i];
      assert g == b.order[i];
      WorkStep(t, b', i);
      if t.parent(g).Some? {
        newParents := true;
        assert t.depth(t.parent(g).value) < t.depth(g) by { ParentAbove(t, g); }
        b' := Push(t, b', g);
      } else {
        PushRoot(t, b', g);
      }
    }
    if newParents {
      b' := HierarchyGroups(t, b', |b.order|, bound - 1);
    } else {
      WorkDone(t, b);
    }
  }

  lemma ParentAbove(t: Tree, g: GroupId)
    requires WellFounded(t) && t.parent(g).Some?
    ensures t.depth(t.parent(g).value) < t.depth(g)
  {
  }

  lemma PushRoot(t: Tree, b: Table, g: GroupId)
    requires g in b.data && t.parent(g).None?
    ensures Push(t, b, g) == b
  {
  }

  lemma WorkDone(t: Tree, b: Table)
    requires WellFounded(t) && Keyed(b)
    ensures Work(t, b, |b.order|) == b
  {
  }

  // ---------------------------------------------------------------- which groups appear

  ghost predicate AncestorOf(t: Tree, v: GroupId, u: GroupId)
    requires WellFounded(t)
    decreases t.depth(u)
  {
    u == v || (t.parent(u).Some? && AncestorOf(t, v, t.parent(u).value))
  }

  /** The table built so far from some populated groups. */
  ghost predicate Grown(t: Tree, start: Table, b: Table, i: nat)
    requires WellFounded(t)
  {
    && Keyed(b) && start.order <= b.order && i <= |b.order|
    && (forall v :: v in b.data ==> Descends(t, start, v))
    && (forall j :: 0 <= j < i && t.parent(b.order[j]).Some? ==> t.parent(b.order[j]).value in b.data)
  }

  lemma {:induction false} AncestorStep(t: Tree, v: GroupId, u: GroupId)
    requires WellFounded(t) && AncestorOf(t, v, u) && t.parent(v).Some?
    ensures AncestorOf(t, t.parent(v).value, u)
    decreases t.depth(u)
  {
    if u != v { AncestorStep(t, v, t.parent(u).value); }
  }

  ghost predicate Descends(t: Tree, start: Table, v: GroupId)
    requires WellFounded(t)
  {
    exists u <- start.order :: AncestorOf(t, v, u)
  }

  lemma ParentDescends(t: Tree, start: Table, g: GroupId)
    requires WellFounded(t) && Descends(t, start, g) && t.parent(g).Some?
    ensures Descends(t, start, t.parent(g).value)
  {
    var u :| u in start.order && AncestorOf(t, g, u);
    AncestorStep(t, g, u);
    hide AncestorOf;
  }

  lemma GrownStep(t: Tree, start: Table, b: Table, i: nat)
    requires WellFounded(t) && Grown(t, start, b, i) && i < |b.order|
    ensures b.order[i] in b.data && Grown(t, start, Push(t, b, b.order[i]), i + 1)
  {
    hide Keyed, Descends, WellFounded;
    WorkStep(t, b, i);
    if t.parent(b.order[i]).Some? { ParentDescends(t, start, b.order[i]); }
  }

  lemma {:induction false} WorkGrows(t: Tree, start: Table, b: Table, i: nat)
    requires WellFounded(t) && Grown(t, start, b, i)
    ensures var e := Work(t, b, i); Grown(t, start, e, |e.order|) && b.order <= e.order
    decreases Pending(t, b.order[i..])
  {
    if i < |b.order| {
      WorkStep(t, b, i);
      PushDecreases(t, b, i);
      GrownStep(t, start, b, i);
      hide Push, Keyed;
      WorkGrows(t, start, Push(t, b, b.order[i]), i + 1);
    }
  }

  lemma {:induction false} ClosedContainsAncestors(t: Tree, keys: set<GroupId>, v: GroupId, u: GroupId)
    requires WellFounded(t) && u in keys && AncestorOf(t, v, u)
    requires forall g <- keys :: t.parent(g).Some? ==> t.parent(g).value in keys
    ensures v in keys
    decreases t.depth(u)
  {
    if u != v { ClosedContainsAncestors(t, keys, v, t.parent(u).value); }
  }

  /** The groups of the result are exactly the populated ones and their ancestors. */
  lemma KeysAreAncestors(t: Tree, b: Table)
    requires WellFounded(t) && Keyed(b)
    ensures forall v :: v in Work(t, b, 0).data <==> exists u <- b.order :: AncestorOf(t, v, u)
  {
    assert forall v <- b.data :: v in b.order && AncestorOf(t, v, v);
    WorkGrows(t, b, b, 0);
    var e := Work(t, b, 0);
    forall g | g in e.data && t.parent(g).Some? ensures t.parent(g).value in e.data.Keys {
      var j :| 0 <= j < |e.order| && e.order[j] == g;
    }
    forall v, u | u in b.order && AncestorOf(t, v, u) ensures v in e.data {
      var j :| 0 <= j < |b.order| && b.order[j] == u;
      assert e.order[j] == u;
      ClosedContainsAncestors(t, e.data.Keys, v, u);
    }
  }

  // ---------------------------------------------------------------- what the groups add up to

  function At(c: Column, data: map<GroupId, Amounts>, g: GroupId): int {
    if g in data then Pick(c, data[g]) else 0
  }

  function Children(t: Tree, keys: set<GroupId>, v: GroupId): set<GroupId> {
    set g | g in keys && t.parent(g) == Some(v)
  }

  ghost function ChildSum(t: Tree, c: Column, data: map<GroupId, Amounts>, v: GroupId): int {
    SumOver(Children(t, data.Keys, v), g => At(c, data, g))
  }

  /** Every group is its own amounts plus those of its children. */
  ghost predicate AddsUp(t: Tree, own: map<GroupId, Amounts>, data: map<GroupId, Amounts>) {
    forall c: Column, v :: v in data ==> At(c, data, v) == At(c, own, v) + ChildSum(t, c, data, v)
  }

  /** The amounts each group pushed, and what they make of the table. */
  ghost predicate Pushed(t: Tree, c: Column, own: map<GroupId, Amounts>, b: Table, i: nat, snap: map<GroupId, Amounts>) {
    && Keyed(b) && i <= |b.order|
    && snap.Keys == (set j | 0 <= j < i :: b.order[j])
    && forall v :: v in b.data ==> At(c, b.data, v) == At(c, own, v) + ChildSum(t, c, snap, v)
  }

  function After(snap: map<GroupId, Amounts>, b: Table, g: GroupId): map<GroupId, Amounts>
    requires g in b.data
  {
    snap[g := b.data[g]]
  }

  lemma ChildSumMore(t: Tree, c: Column, snap: map<GroupId, Amounts>, g: GroupId, a: Amounts, v: GroupId)
    requires g !in snap
    ensures ChildSum(t, c, snap[g := a], v) == ChildSum(t, c, snap, v) + if t.parent(g) == Some(v) then Pick(c, a) else 0
  {
    var snap' := snap[g := a];
    var kids, kids' := Children(t, snap.Keys, v), Children(t, snap'.Keys, v);
    var at, at' := (x: GroupId) => At(c, snap, x), (x: GroupId) => At(c, snap', x);
    SumOverEqual(kids, at, at');
    if t.parent(g) == Some(v) {
      SumOverRemove(kids', at', g);
      assert kids' - {g} == kids;
    } else {
      assert kids' == kids;
    }
  }

  /** A group outside the keys has no child among those that pushed. */
  lemma PushedStep(t: Tree, c: Column, own: map<GroupId, Amounts>, b: Table, i: nat, snap: map<GroupId, Amounts>)
    requires WellFounded(t) && Pushed(t, c, own, b, i, snap) && i < |b.order|
    requires own.Keys <= b.data.Keys
    requires forall j :: 0 <= j < i && t.parent(b.order[j]).Some? ==> t.parent(b.order[j]).value in b.data
    ensures b.order[i] in b.data
    ensures Pushed(t, c, own, Push(t, b, b.order[i]), i + 1, After(snap, b, b.order[i]))
  {
    WorkStep(t, b, i);
    var g, b' := b.order[i], Push(t, b, b.order[i]);
    var snap' := After(snap, b, g);
    assert snap'.Keys == set j | 0 <= j < i + 1 :: b'.order[j];
    assert g !in snap;
    forall v | v in b'.data && v !in b.data ensures ChildSum(t, c, snap, v) == 0 {
      NoChildren(t, c, b, i, snap, v);
    }
    hide Keyed, ChildSum, Push, At;
    forall v | v in b'.data ensures At(c, b'.data, v) == At(c, own, v) + ChildSum(t, c, snap', v) {
      PushedAt(t, c, own, b, g, snap, v);
    }
  }

  lemma PushedAt(t: Tree, c: Column, own: map<GroupId, Amounts>, b: Table, g: GroupId, snap: map<GroupId, Amounts>, v: GroupId)
    requires WellFounded(t) && g in b.data && g !in snap && own.Keys <= b.data.Keys && v in Push(t, b, g).data
    requires v in b.data ==> At(c, b.data, v) == At(c, own, v) + ChildSum(t, c, snap, v)
    requires v !in b.data ==> ChildSum(t, c, snap, v) == 0
    ensures At(c, Push(t, b, g).data, v) == At(c, own, v) + ChildSum(t, c, After(snap, b, g), v)
  {
    hide ChildSum;
    ChildSumMore(t, c, snap, g, b.data[g], v);
  }

  lemma NoChildren(t: Tree, c: Column, b: Table, i: nat, snap: map<GroupId, Amounts>, v: GroupId)
    requires i <= |b.order| && v !in b.data && snap.Keys == set j | 0 <= j < i :: b.order[j]
    requires forall j :: 0 <= j < i && t.parent(b.order[j]).Some? ==> t.parent(b.order[j]).value in b.data
    ensures ChildSum(t, c, snap, v) == 0
  {
    assert Children(t, snap.Keys, v) == {};
  }

  /** No group that pushes does so before one of its children. */
  ghost predicate NoLatePush(t: Tree, order: seq<GroupId>) {
    forall j, k :: 0 <= j < k < |order| && t.parent(order[k]) == Some(order[j]) ==> t.parent(order[j]).None?
  }

  ghost predicate Started(t: Tree, own: map<GroupId, Amounts>, b: Table, i: nat)
    requires WellFounded(t)
  {
    && Keyed(b) && i <= |b.order|
    && own.Keys <= b.data.Keys
    && forall j :: 0 <= j < i && t.parent(b.order[j]).Some? ==> t.parent(b.order[j]).value in b.data
  }

  lemma StartedStep(t: Tree, own: map<GroupId, Amounts>, b: Table, i: nat)
    requires WellFounded(t) && Started(t, own, b, i) && i < |b.order|
    ensures b.order[i] in b.data && Started(t, own, Push(t, b, b.order[i]), i + 1)
  {
    WorkStep(t, b, i);
  }

  lemma {:induction false} WorkExtends(t: Tree, b: Table, i: nat)
    requires WellFounded(t) && Keyed(b) && i <= |b.order|
    ensures b.order <= Work(t, b, i).order
    decreases Pending(t, b.order[i..])
  {
    if i < |b.order| {
      WorkStep(t, b, i);
      PushDecreases(t, b, i);
      WorkExtends(t, Push(t, b, b.order[i]), i + 1);
    }
  }

  /** What a group with a parent pushed is what it still holds. */
  ghost predicate Settled(t: Tree, b: Table, snap: map<GroupId, Amounts>) {
    forall g :: g in snap ==> g in b.data && (t.parent(g).Some? ==> b.data[g] == snap[g])
  }

  lemma SettledStep(t: Tree, own: map<GroupId, Amounts>, b: Table, i: nat, snap: map<GroupId, Amounts>, order: seq<GroupId>)
    requires WellFounded(t) && Started(t, own, b, i) && Settled(t, b, snap) && i < |b.order|
    requires snap.Keys == set j | 0 <= j < i :: b.order[j]
    requires b.order <= order && NoLatePush(t, order)
    ensures b.order[i] in b.data && Settled(t, Push(t, b, b.order[i]), After(snap, b, b.order[i]))
  {
    var g, b' := b.order[i], Push(t, b, b.order[i]);
    if t.parent(g).Some? {
      var p := t.parent(g).value;
      assert p != g by { ParentAbove(t, g); }
      if p in snap {
        var j :| 0 <= j < i && b.order[j] == p;
        assert order[j] == p && order[i] == g;
      }
    }
  }

  lemma AllPushed(b: Table)
    requires Keyed(b)
    ensures (set j | 0 <= j < |b.order| :: b.order[j]) == b.data.Keys
  {
    forall g ensures g in b.data <==> g in (set j | 0 <= j < |b.order| :: b.order[j]) {
      if g in b.data {
        var j :| 0 <= j < |b.order| && b.order[j] == g;
      }
    }
  }

  lemma SettledSums(t: Tree, c: Column, own: map<GroupId, Amounts>, b: Table, snap: map<GroupId, Amounts>)
    requires Pushed(t, c, own, b, |b.order|, snap) && Settled(t, b, snap)
    ensures forall v :: v in b.data ==> At(c, b.data, v) == At(c, own, v) + ChildSum(t, c, b.data, v)
  {
    AllPushed(b);
    forall v | v in b.data ensures ChildSum(t, c, snap, v) == ChildSum(t, c, b.data, v) {
      SumOverEqual(Children(t, b.data.Keys, v), g => At(c, snap, g), g => At(c, b.data, g));
    }
  }

  /** When no push comes late, each group ends with its own amounts plus what its children end with. */
  lemma {:induction false} OrderlyAddsUp(t: Tree, c: Column, own: map<GroupId, Amounts>, b: Table, i: nat,
                                         snap: map<GroupId, Amounts>)
    requires WellFounded(t) && Started(t, own, b, i) && Pushed(t, c, own, b, i, snap) && Settled(t, b, snap)
    requires NoLatePush(t, Work(t, b, i).order)
    ensures var e := Work(t, b, i);
      forall v :: v in e.data ==> At(c, e.data, v) == At(c, own, v) + ChildSum(t, c, e.data, v)
    decreases Pending(t, b.order[i..])
  {
    if i == |b.order| {
      SettledSums(t, c, own, b, snap);
    } else {
      WorkExtends(t, b, i);
      SettledStep(t, own, b, i, snap, Work(t, b, i).order);
      hide Keyed, Push, Settled, NoLatePush;
      WorkStep(t, b, i);
      PushDecreases(t, b, i);
      PushedStep(t, c, own, b, i, snap);
      StartedStep(t, own, b, i);
      OrderlyAddsUp(t, c, own, Push(t, b, b.order[i]), i + 1, After(snap, b, b.order[i]));
    }
  }

  // ---------------------------------------------------------------- late pushes lose amounts

  /** Once every amount is positive, what a group pushed never exceeds what it holds. */
  ghost predicate Growing(c: Column, b: Table, snap: map<GroupId, Amounts>) {
    && (forall g :: g in b.data ==> At(c, b.data, g) >= 1)
    && (forall g :: g in snap ==> g in b.data && At(c, snap, g) <= At(c, b.data, g))
  }

  lemma GrowingStep(t: Tree, c: Column, b: Table, snap: map<GroupId, Amounts>, g: GroupId)
    requires WellFounded(t) && Growing(c, b, snap) && g in b.data
    ensures Growing(c, Push(t, b, g), After(snap, b, g))
  {
    PushGrows(t, c, b, g);
    var b', snap' := Push(t, b, g), After(snap, b, g);
    assert t.parent(g) != Some(g) by { if t.parent(g).Some? { ParentAbove(t, g); } }
    hide Push, WellFounded;
    forall v | v in snap' ensures v in b'.data && At(c, snap', v) <= At(c, b'.data, v) {
      assert v != g ==> v in snap && At(c, snap', v) == At(c, snap, v);
    }
  }

  /** The group at position j holds more than it pushed. */
  ghost predicate Ahead(c: Column, b: Table, snap: map<GroupId, Amounts>, j: nat)
    requires j < |b.order|
  {
    At(c, snap, b.order[j]) < At(c, b.data, b.order[j])
  }

  /** A late push at position k gets the group at j ahead of what it pushed, and it stays ahead. */
  lemma AheadStep(t: Tree, c: Column, b: Table, i: nat, snap: map<GroupId, Amounts>, order: seq<GroupId>, j: nat, k: nat)
    requires WellFounded(t) && Keyed(b) && Growing(c, b, snap) && i < |b.order|
    requires snap.Keys == set m | 0 <= m < i :: b.order[m]
    requires b.order <= order && j < k < |order| && t.parent(order[k]) == Some(order[j])
    requires k < i ==> Ahead(c, b, snap, j)
    ensures b.order[i] in b.data && var b' := Push(t, b, b.order[i]);
            b.order <= b'.order && (k < i + 1 ==> Ahead(c, b', After(snap, b, b.order[i]), j))
  {
    var g := b.order[i];
    WorkStep(t, b, i);
    PushGrows(t, c, b, g);
    if k < i + 1 {
      assert b.order[j] in snap && b.order[j] != g;
      assert order[k] == b.order[k] && order[j] == b.order[j];
    }
    hide Keyed, Push, WellFounded;
  }

  lemma PushGrows(t: Tree, c: Column, b: Table, g: GroupId)
    requires g in b.data && forall v :: v in b.data ==> At(c, b.data, v) >= 1
    ensures var b' := Push(t, b, g);
      && b.data.Keys <= b'.data.Keys
      && (forall v :: v in b'.data ==> At(c, b'.data, v) >= 1)
      && (forall v :: v in b.data ==> At(c, b.data, v) <= At(c, b'.data, v))
      && (forall v :: v in b.data && t.parent(g) == Some(v) ==> At(c, b.data, v) < At(c, b'.data, v))
  {
  }

  lemma {:induction false} LatePushLoses(t: Tree, c: Column, own: map<GroupId, Amounts>, b: Table, i: nat,
                                         snap: map<GroupId, Amounts>, j: nat, k: nat)
    requires WellFounded(t) && Started(t, own, b, i) && Pushed(t, c, own, b, i, snap) && Growing(c, b, snap)
    requires j < k && (k < i ==> Ahead(c, b, snap, j))
    requires var order := Work(t, b, i).order;
             k < |order| && t.parent(order[k]) == Some(order[j]) && t.parent(order[j]).Some?
    ensures var e := Work(t, b, i); j < |e.order| && t.parent(e.order[j]).Some? && var v := t.parent(e.order[j]).value;
            v in e.data && At(c, e.data, v) != At(c, own, v) + ChildSum(t, c, e.data, v)
    decreases Pending(t, b.order[i..])
  {
    if i == |b.order| {
      var g := b.order[j];
      var v := t.parent(g).value;
      AllPushed(b);
      SumOverLess(Children(t, b.data.Keys, v), x => At(c, snap, x), x => At(c, b.data, x), g);
    } else {
      var order := Work(t, b, i).order;
      WorkExtends(t, b, i);
      WorkStep(t, b, i);
      GrowingStep(t, c, b, snap, b.order[i]);
      AheadStep(t, c, b, i, snap, order, j, k);
      hide Keyed, Push, Growing, Ahead;
      PushDecreases(t, b, i);
      PushedStep(t, c, own, b, i, snap);
      StartedStep(t, own, b, i);
      LatePushLoses(t, c, own, Push(t, b, b.order[i]), i + 1, After(snap, b, b.order[i]), j, k);
    }
  }

  // ---------------------------------------------------------------- the exact condition

  ghost predicate Distinct(order: seq<GroupId>) {
    forall i, j :: 0 <= i < j < |order| ==> order[i] != order[j]
  }

  function Ones(order: seq<GroupId>): map<GroupId, Amounts> {
    map g | g in order :: Amounts(1, 1, 1, 1, 1)
  }

  /** The order in which the groups push depends on the tree and the populated groups only. */
  ghost function PushOrder(t: Tree, order: seq<GroupId>): seq<GroupId>
    requires WellFounded(t) && Distinct(order)
  {
    Work(t, Table(Ones(order), order), 0).order
  }

  // ---------------------------------------------------------------- the order of the pushes

  /** A way up to a group: from the populated group at some position, in some number of steps. */
  datatype Route = Route(steps: nat, from: nat)

  /** Fewer steps come first, then the earlier populated group. */
  predicate Earlier(r: Route, s: Route) {
    r.steps < s.steps || (r.steps == s.steps && r.from < s.from)
  }

  /** The group some steps above another. */
  function Up(t: Tree, u: GroupId, steps: nat): Option<GroupId> {
    if steps == 0 then Some(u)
    else match Up(t, u, steps - 1)
      case None => None
      case Some(x) => t.parent(x)
  }

  predicate Leads(t: Tree, order: seq<GroupId>, r: Route, v: GroupId) {
    r.from < |order| && Up(t, order[r.from], r.steps) == Some(v)
  }

  /** The rank of a group: the first of the routes that lead to it. */
  ghost predicate IsRank(t: Tree, order: seq<GroupId>, r: Route, v: GroupId) {
    Leads(t, order, r, v) && forall s: Route :: Leads(t, order, s, v) ==> !Earlier(s, r)
  }

  /** The groups of a table with their ranks, which increase. */
  ghost predicate Ranked(t: Tree, order: seq<GroupId>, groups: seq<GroupId>, ranks: seq<Route>) {
    && |ranks| == |groups|
    && (forall k :: 0 <= k < |groups| ==> IsRank(t, order, ranks[k], groups[k]))
    && Increasing(ranks)
  }

  /** Every rank is that of a populated group, or one step above a group that has pushed. */
  ghost predicate OneStepUp(ranks: seq<Route>, i: nat) {
    forall k :: 0 <= k < |ranks| && ranks[k].steps > 0 ==>
      exists m :: 0 <= m < i && m < |ranks| && ranks[m] == Route(ranks[k].steps - 1, ranks[k].from)
  }

  ghost predicate Ordered(t: Tree, order: seq<GroupId>, b: Table, i: nat, ranks: seq<Route>) {
    && Keyed(b) && i <= |b.order| && order <= b.order
    && Ranked(t, order, b.order, ranks) && OneStepUp(ranks, i)
    && forall j :: 0 <= j < i && t.parent(b.order[j]).Some? ==> t.parent(b.order[j]).value in b.data
  }

  lemma IndexOf(b: Table, v: GroupId) returns (k: nat)
    requires Keyed(b) && v in b.data
    ensures k < |b.order| && b.order[k] == v
  {
    k :| 0 <= k < |b.order| && b.order[k] == v;
  }

  lemma InData(b: Table, k: nat)
    requires Keyed(b) && k < |b.order|
    ensures b.order[k] in b.data
  {
    assert b.order[k] in b.order;
  }

  /** A group to which a route earlier than a rank leads comes before the group of that rank. */
  lemma ComesBefore(t: Tree, order: seq<GroupId>, groups: seq<GroupId>, ranks: seq<Route>, i: nat, r: Route, k: nat)
    requires Ranked(t, order, groups, ranks) && i < |groups| && k < |groups|
    requires Leads(t, order, r, groups[k]) && Earlier(r, ranks[i])
    ensures k < i
  {
    hide Leads;
    assert IsRank(t, order, ranks[k], groups[k]);
    assert forall m :: i < m < |ranks| ==> Earlier(ranks[i], ranks[m]);
  }

  /** A group to which a route earlier than the rank of the next group to push leads has pushed. */
  lemma {:induction false} EarlierHasPushed(t: Tree, order: seq<GroupId>, b: Table, i: nat, ranks: seq<Route>, r: Route, v: GroupId)
    returns (k: nat)
    requires Ordered(t, order, b, i, ranks) && i < |b.order|
    requires Leads(t, order, r, v) && Earlier(r, ranks[i])
    ensures k < i && b.order[k] == v
    decreases r.steps
  {
    hide Ranked, OneStepUp, Keyed;
    if r.steps == 0 {
      k := r.from;
    } else {
      var x := Up(t, order[r.from], r.steps - 1).value;
      var j := EarlierHasPushed(t, order, b, i, ranks, Route(r.steps - 1, r.from), x);
      k := IndexOf(b, v);
    }
    ComesBefore(t, order, b.order, ranks, i, r, k);
  }

  lemma RouteHasSteps(t: Tree, order: seq<GroupId>, b: Table, s: Route, v: GroupId)
    requires Keyed(b) && order <= b.order && v !in b.data && Leads(t, order, s, v)
    ensures s.steps > 0
  {
    hide Keyed;
    InData(b, s.from);
  }

  lemma NoEarlierRoute(t: Tree, order: seq<GroupId>, b: Table, i: nat, ranks: seq<Route>, s: Route, v: GroupId)
    requires Ordered(t, order, b, i, ranks) && i < |b.order| && i < |ranks| && v !in b.data
    requires s.steps > 0 && Leads(t, order, s, v)
    ensures !Earlier(Route(s.steps - 1, s.from), ranks[i])
  {
    hide Keyed, Ranked, OneStepUp;
    var below, x := Route(s.steps - 1, s.from), Up(t, order[s.from], s.steps - 1).value;
    assert Leads(t, order, below, x) && t.parent(x) == Some(v);
    if Earlier(below, ranks[i]) {
      hide Leads, Up, Earlier;
      var k := EarlierHasPushed(t, order, b, i, ranks, below, x);
    }
  }

  /** A new group is one step above the group that creates it, and no earlier route leads to it. */
  lemma NewRank(t: Tree, order: seq<GroupId>, b: Table, i: nat, ranks: seq<Route>, v: GroupId)
    requires Ordered(t, order, b, i, ranks) && i < |b.order|
    requires t.parent(b.order[i]) == Some(v) && v !in b.data
    ensures IsRank(t, order, Route(ranks[i].steps + 1, ranks[i].from), v)
  {
    var r := Route(ranks[i].steps + 1, ranks[i].from);
    assert IsRank(t, order, ranks[i], b.order[i]);
    assert Leads(t, order, r, v) && Keyed(b) && order <= b.order && i < |ranks|;
    hide Leads, Ordered;
    forall s: Route | Leads(t, order, s, v) ensures !Earlier(s, r) {
      RouteHasSteps(t, order, b, s, v);
      NoEarlierRoute(t, order, b, i, ranks, s, v);
    }
  }

  predicate Increasing(ranks: seq<Route>) {
    forall j, k :: 0 <= j < k < |ranks| ==> Earlier(ranks[j], ranks[k])
  }

  /** A new group comes last in rank. */
  lemma NewIsLast(ranks: seq<Route>, i: nat, k: nat)
    requires i < |ranks| && k < |ranks| && OneStepUp(ranks, i) && Increasing(ranks)
    ensures Earlier(ranks[k], Route(ranks[i].steps + 1, ranks[i].from))
  {
    if ranks[k].steps > 0 {
      var m :| 0 <= m < i && ranks[m] == Route(ranks[k].steps - 1, ranks[k].from);
      assert Earlier(ranks[m], ranks[i]);
    }
  }

  lemma OneStepUpMore(ranks: seq<Route>, i: nat)
    requires i < |ranks| && OneStepUp(ranks, i)
    ensures OneStepUp(ranks, i + 1)
    ensures OneStepUp(ranks + [Route(ranks[i].steps + 1, ranks[i].from)], i + 1)
  {
    var ranks' := ranks + [Route(ranks[i].steps + 1, ranks[i].from)];
    forall k | 0 <= k < |ranks'| && ranks'[k].steps > 0
      ensures exists m :: 0 <= m < i + 1 && m < |ranks'| && ranks'[m] == Route(ranks'[k].steps - 1, ranks'[k].from) {
      if k < |ranks| {
        var m :| 0 <= m < i && ranks[m] == Route(ranks[k].steps - 1, ranks[k].from);
        assert ranks'[m] == ranks[m];
      } else {
        assert ranks'[i] == Route(ranks'[k].steps - 1, ranks'[k].from);
      }
    }
  }

  lemma RankedSnoc(t: Tree, order: seq<GroupId>, groups: seq<GroupId>, ranks: seq<Route>, v: GroupId, r: Route)
    requires Ranked(t, order, groups, ranks) && IsRank(t, order, r, v)
    requires forall k :: 0 <= k < |ranks| ==> Earlier(ranks[k], r)
    ensures Ranked(t, order, groups + [v], ranks + [r])
  {
    hide IsRank, Earlier;
  }

  lemma OrderedStep(t: Tree, order: seq<GroupId>, b: Table, i: nat, ranks: seq<Route>) returns (ranks': seq<Route>)
    requires WellFounded(t) && Ordered(t, order, b, i, ranks) && i < |b.order|
    ensures b.order[i] in b.data && Ordered(t, order, Push(t, b, b.order[i]), i + 1, ranks')
  {
    hide IsRank, Earlier, Keyed, OneStepUp, WellFounded;
    WorkStep(t, b, i);
    OneStepUpMore(ranks, i);
    var g := b.order[i];
    ranks' := ranks;
    if t.parent(g).Some? && t.parent(g).value !in b.data {
      NewRank(t, order, b, i, ranks, t.parent(g).value);
      forall k | 0 <= k < |ranks| ensures Earlier(ranks[k], Route(ranks[i].steps + 1, ranks[i].from)) {
        NewIsLast(ranks, i, k);
      }
      ranks' := ranks + [Route(ranks[i].steps + 1, ranks[i].from)];
      RankedSnoc(t, order, b.order, ranks, t.parent(g).value, Route(ranks[i].steps + 1, ranks[i].from));
    }
    hide Ranked;
  }

  lemma {:induction false} WorkRanked(t: Tree, order: seq<GroupId>, b: Table, i: nat, ranks: seq<Route>) returns (final: seq<Route>)
    requires WellFounded(t) && Ordered(t, order, b, i, ranks)
    ensures Ranked(t, order, Work(t, b, i).order, final)
    decreases Pending(t, b.order[i..])
  {
    hide Push, Keyed, Ranked, OneStepUp, WellFounded;
    if i == |b.order| {
      final := ranks;
    } else {
      WorkStep(t, b, i);
      PushDecreases(t, b, i);
      var ranks' := OrderedStep(t, order, b, i, ranks);
      hide Ordered;
      final := WorkRanked(t, order, Push(t, b, b.order[i]), i + 1, ranks');
    }
  }

  /** How many steps above u the group v is, if it is above u at all. */
  ghost function Distance(t: Tree, v: GroupId, u: GroupId): Option<nat>
    requires WellFounded(t)
    decreases t.depth(u)
  {
    if u == v then Some(0)
    else if t.parent(u).None? then None
    else
      var d := Distance(t, v, t.parent(u).value);
      if d.None? then None else Some(d.value + 1)
  }

  /** The nearest populated group at or below v, and the first of those: steps up to v, and position. */
  ghost function Rank(t: Tree, order: seq<GroupId>, v: GroupId): Option<Route>
    requires WellFounded(t)
  {
    if order == [] then None
    else
      var n := |order| - 1;
      var best, d := Rank(t, order[..n], v), Distance(t, v, order[n]);
      if d.Some? && (best.None? || d.value < best.value.steps) then Some(Route(d.value, n)) else best
  }

  lemma {:induction false} UpFromParent(t: Tree, u: GroupId, steps: nat)
    requires t.parent(u).Some?
    ensures Up(t, u, steps + 1) == Up(t, t.parent(u).value, steps)
  {
    if steps > 0 { UpFromParent(t, u, steps - 1); }
  }

  lemma {:induction false} NoWayUp(t: Tree, u: GroupId, steps: nat)
    requires t.parent(u).None?
    ensures Up(t, u, steps + 1).None?
  {
    if steps > 0 { NoWayUp(t, u, steps - 1); }
  }

  lemma {:induction false} UpDepth(t: Tree, u: GroupId, steps: nat)
    requires WellFounded(t) && Up(t, u, steps).Some?
    ensures t.depth(Up(t, u, steps).value) + steps <= t.depth(u)
  {
    if steps > 0 {
      UpDepth(t, u, steps - 1);
      ParentAbove(t, Up(t, u, steps - 1).value);
    }
  }

  lemma {:induction false} DistanceIsUp(t: Tree, v: GroupId, u: GroupId, steps: nat)
    requires WellFounded(t)
    ensures Distance(t, v, u) == Some(steps) <==> Up(t, u, steps) == Some(v)
    decreases steps
  {
    hide WellFounded;
    if Up(t, u, steps) == Some(v) { UpDepth(t, u, steps); }
    if steps > 0 {
      if t.parent(u).Some? {
        UpFromParent(t, u, steps - 1);
        DistanceIsUp(t, v, t.parent(u).value, steps - 1);
      } else {
        NoWayUp(t, u, steps - 1);
      }
    }
  }

  /** The rank so computed is the first of the routes. */
  lemma {:induction false} RankIsFirst(t: Tree, order: seq<GroupId>, v: GroupId)
    requires WellFounded(t)
    ensures Rank(t, order, v).Some? ==> IsRank(t, order, Rank(t, order, v).value, v)
    ensures Rank(t, order, v).None? ==> forall r: Route :: !Leads(t, order, r, v)
  {
    if order != [] {
      var n := |order| - 1;
      RankIsFirst(t, order[..n], v);
      forall r: Route ensures Leads(t, order, r, v)
        <==> Leads(t, order[..n], r, v) || (r.from == n && Distance(t, v, order[n]) == Some(r.steps)) {
        DistanceIsUp(t, v, order[n], r.steps);
      }
      hide Leads, Distance;
    }
  }

  lemma RankUnique(t: Tree, order: seq<GroupId>, r: Route, v: GroupId)
    requires WellFounded(t) && IsRank(t, order, r, v)
    ensures Rank(t, order, v) == Some(r)
  {
    RankIsFirst(t, order, v);
    hide Leads, Rank;
  }

  lemma {:induction false} UpContained(t: Tree, keys: set<GroupId>, u: GroupId, steps: nat)
    requires u in keys && Up(t, u, steps).Some?
    requires forall g <- keys :: t.parent(g).Some? ==> t.parent(g).value in keys
    ensures Up(t, u, steps).value in keys
  {
    if steps > 0 { UpContained(t, keys, u, steps - 1); }
  }

  /** The groups push in the order of their ranks: the populated ones and their ancestors, each once. */
  lemma PushOrderByRank(t: Tree, order: seq<GroupId>)
    requires WellFounded(t) && Distinct(order)
    ensures forall v :: v in PushOrder(t, order) <==> Rank(t, order, v).Some?
    ensures forall j, k :: 0 <= j < k < |PushOrder(t, order)| ==>
      && Rank(t, order, PushOrder(t, order)[j]).Some? && Rank(t, order, PushOrder(t, order)[k]).Some?
      && Earlier(Rank(t, order, PushOrder(t, order)[j]).value, Rank(t, order, PushOrder(t, order)[k]).value)
  {
    var b := Table(Ones(order), order);
    var final := PushOrder(t, order);
    var start := seq(|order|, k requires 0 <= k < |order| => Route(0, k));
    assert forall k :: 0 <= k < |order| ==> Up(t, order[k], 0) == Some(order[k]);
    forall k, s: Route | 0 <= k < |order| && Leads(t, order, s, order[k]) ensures !Earlier(s, start[k]) {
    }
    var ranks := WorkRanked(t, order, b, 0, start);
    forall k | 0 <= k < |final| ensures Rank(t, order, final[k]) == Some(ranks[k]) {
      RankUnique(t, order, ranks[k], final[k]);
    }
    forall v | Rank(t, order, v).Some? ensures v in final {
      RankedAreThere(t, order, v);
    }
    hide IsRank, Rank, Earlier;
  }

  lemma RankedAreThere(t: Tree, order: seq<GroupId>, v: GroupId)
    requires WellFounded(t) && Distinct(order) && Rank(t, order, v).Some?
    ensures v in PushOrder(t, order)
  {
    var b := Table(Ones(order), order);
    RankIsFirst(t, order, v);
    var r := Rank(t, order, v).value;
    WorkClosed(t, b);
    assert order[r.from] in b.data;
    UpContained(t, Work(t, b, 0).data.Keys, order[r.from], r.steps);
    WorkGrows(t, b, b, 0);
  }

  /** Every group that has a parent ranks after each of its children. */
  ghost predicate ChildrenRankFirst(t: Tree, order: seq<GroupId>)
    requires WellFounded(t)
  {
    forall v, w :: t.parent(w) == Some(v) && t.parent(v).Some? && Rank(t, order, w).Some? && Rank(t, order, v).Some?
      ==> Earlier(Rank(t, order, w).value, Rank(t, order, v).value)
  }

  lemma LatePushByRank(t: Tree, order: seq<GroupId>)
    requires WellFounded(t) && Distinct(order)
    ensures NoLatePush(t, PushOrder(t, order)) <==> ChildrenRankFirst(t, order)
  {
    var final := PushOrder(t, order);
    PushOrderByRank(t, order);
    hide Rank, PushOrder;
    if NoLatePush(t, final) {
      forall v, w | t.parent(w) == Some(v) && t.parent(v).Some? && Rank(t, order, w).Some? && Rank(t, order, v).Some?
        ensures Earlier(Rank(t, order, w).value, Rank(t, order, v).value) {
        ParentAbove(t, w);
        assert v in final && w in final;
        var j :| 0 <= j < |final| && final[j] == v;
        var k :| 0 <= k < |final| && final[k] == w;
        assert k < j;
      }
    }
  }

  lemma {:induction false} WorkOrder(t: Tree, b: Table, b': Table, i: nat)
    requires WellFounded(t) && Keyed(b) && Keyed(b') && b.order == b'.order && i <= |b.order|
    ensures Work(t, b, i).order == Work(t, b', i).order
    decreases Pending(t, b.order[i..])
  {
    if i < |b.order| {
      WorkStep(t, b, i);
      WorkStep(t, b', i);
      PushDecreases(t, b, i);
      var g := b.order[i];
      assert forall v :: v in b.data <==> v in b'.data;
      assert Push(t, b, g).order == Push(t, b', g).order;
      WorkOrder(t, Push(t, b, g), Push(t, b', g), i + 1);
    }
  }

  /** Whatever the amounts, each group ends with its own amounts plus those of its children. */
  ghost predicate AlwaysAddsUp(t: Tree, order: seq<GroupId>)
    requires WellFounded(t)
  {
    forall own: map<GroupId, Amounts> :: Keyed(Table(own, order)) ==> AddsUp(t, own, Work(t, Table(own, order), 0).data)
  }

  lemma PushedNone(t: Tree, c: Column, own: map<GroupId, Amounts>, order: seq<GroupId>)
    requires Keyed(Table(own, order))
    ensures Pushed(t, c, own, Table(own, order), 0, map[])
  {
    forall v | v in own ensures ChildSum(t, c, map[], v) == 0 {
      assert Children(t, {}, v) == {};
    }
  }

  lemma OrderlyTableAddsUp(t: Tree, own: map<GroupId, Amounts>, order: seq<GroupId>)
    requires WellFounded(t) && Keyed(Table(own, order)) && NoLatePush(t, PushOrder(t, order))
    ensures AddsUp(t, own, Work(t, Table(own, order), 0).data)
  {
    WorkOrder(t, Table(own, order), Table(Ones(order), order), 0);
    forall c: Column, v | v in Work(t, Table(own, order), 0).data
      ensures var data := Work(t, Table(own, order), 0).data; At(c, data, v) == At(c, own, v) + ChildSum(t, c, data, v) {
      PushedNone(t, c, own, order);
      OrderlyAddsUp(t, c, own, Table(own, order), 0, map[]);
    }
  }

  /**
   * The roll-up is right for every choice of amounts exactly when every group that
   * has a parent ranks after each of its children.
   */
  lemma AddsUpIffChildrenRankFirst(t: Tree, order: seq<GroupId>)
    requires WellFounded(t) && Distinct(order)
    ensures AlwaysAddsUp(t, order) <==> ChildrenRankFirst(t, order)
  {
    hide ChildrenRankFirst;
    LatePushByRank(t, order);
    var final := PushOrder(t, order);
    if NoLatePush(t, final) {
      forall own: map<GroupId, Amounts> | Keyed(Table(own, order))
        ensures AddsUp(t, own, Work(t, Table(own, order), 0).data) {
        OrderlyTableAddsUp(t, own, order);
      }
    } else {
      var j, k :| 0 <= j < k < |final| && t.parent(final[k]) == Some(final[j]) && t.parent(final[j]).Some?;
      var own := Ones(order);
      PushedNone(t, Balance, own, order);
      LatePushLoses(t, Balance, own, Table(own, order), 0, map[], j, k);
    }
  }

  const CHAIN := Tree(g => if g == 2 then Some(1) else if g == 1 then Some(0) else None,
                      g => if g == 2 then 2 else if g == 1 then 1 else 0)

  /** A late push: group 1, above group 2 and below group 0, is listed first, and what group 2 holds never reaches group 0. */
  lemma LatePushExample(a: Amounts, b: Amounts)
    ensures WellFounded(CHAIN) && Keyed(Table(map[1 := a, 2 := b], [1, 2]))
    ensures Work(CHAIN, Table(map[1 := a, 2 := b], [1, 2]), 0).data == map[1 := Add(a, b), 2 := b, 0 := a]
    ensures !ChildrenRankFirst(CHAIN, [1, 2])
  {
    var b0 := Table(map[1 := a, 2 := b], [1, 2]);
    WorkStep(CHAIN, b0, 0);
    var b1 := Push(CHAIN, b0, 1);
    assert b1 == Table(map[1 := a, 2 := b, 0 := a], [1, 2, 0]);
    WorkStep(CHAIN, b1, 1);
    var b2 := Push(CHAIN, b1, 2);
    assert b2 == Table(map[1 := Add(a, b), 2 := b, 0 := a], [1, 2, 0]);
    WorkStep(CHAIN, b2, 2);
    WorkDone(CHAIN, b2);
    var one, two := Route(0, 0), Route(0, 1);
    assert Leads(CHAIN, [1, 2], one, 1) && Leads(CHAIN, [1, 2], two, 2);
    RankUnique(CHAIN, [1, 2], one, 1);
    assert forall s: Route :: Leads(CHAIN, [1, 2], s, 2) ==> !Earlier(s, two) by {
      assert !Leads(CHAIN, [1, 2], one, 2);
    }
    RankUnique(CHAIN, [1, 2], two, 2);
  }

  /** In a roll-up that adds up, each amount of a group is its own plus those of its children. */
  lemma AddsUpInFields(t: Tree, own: map<GroupId, Amounts>, data: map<GroupId, Amounts>, v: GroupId)
    requires AddsUp(t, own, data) && v in data
    ensures var mine := if v in own then own[v] else Amounts(0, 0, 0, 0, 0);
      var kids := set g | g in data.Keys && t.parent(g) == Some(v);
      && data[v].initial == mine.initial + SumOver(kids, g => if g in data then data[g].initial else 0)
      && data[v].debit == mine.debit + SumOver(kids, g => if g in data then data[g].debit else 0)
      && data[v].credit == mine.credit + SumOver(kids, g => if g in data then data[g].credit else 0)
      && data[v].balance == mine.balance + SumOver(kids, g => if g in data then data[g].balance else 0)
      && data[v].ending == mine.ending + SumOver(kids, g => if g in data then data[g].ending else 0)
  {
    hide SumOver;
    hide AddsUp;
    ColumnAdds(t, Initial, own, data, v, g => if g in data then data[g].initial else 0);
    ColumnAdds(t, Debit, own, data, v, g => if g in data then data[g].debit else 0);
    ColumnAdds(t, Credit, own, data, v, g => if g in data then data[g].credit else 0);
    ColumnAdds(t, Balance, own, data, v, g => if g in data then data[g].balance else 0);
    ColumnAdds(t, Ending, own, data, v, g => if g in data then data[g].ending else 0);
  }

  lemma ColumnAdds(t: Tree, c: Column, own: map<GroupId, Amounts>, data: map<GroupId, Amounts>, v: GroupId,
      f: GroupId -> int)
    requires AddsUp(t, own, data) && v in data
    requires forall g :: f(g) == At(c, data, g)
    ensures At(c, data, v) == At(c, own, v) + SumOver((set g | g in data.Keys && t.parent(g) == Some(v)), f)
  {
    hide SumOver;
    var kids := set g | g in data.Keys && t.parent(g) == Some(v);
    assert kids == Children(t, data.Keys, v);
    SumOverEqual(kids, g => At(c, data, g), f);
    assert At(c, data, v) == At(c, own, v) + ChildSum(t, c, data, v);
  }

  /** Depths that count the steps to the root. */
  ghost predicate Levels(t: Tree) {
    forall g :: t.parent(g).Some? ==> t.depth(g) == t.depth(t.parent(g).value) + 1
  }

  ghost predicate Descending(t: Tree, order: seq<GroupId>, i: nat) {
    && (forall j, k :: 0 <= j < k < |order| ==> t.depth(order[j]) >= t.depth(order[k]))
    && (i < |order| ==> t.depth(order[|order| - 1]) >= t.depth(order[i]) - 1)
  }

  lemma DescendingStep(t: Tree, b: Table, i: nat)
    requires WellFounded(t) && Levels(t) && Keyed(b) && i < |b.order| && Descending(t, b.order, i)
    ensures b.order[i] in b.data && Descending(t, Push(t, b, b.order[i]).order, i + 1)
  {
    WorkStep(t, b, i);
    if t.parent(b.order[i]).Some? { OneLevelDown(t, b.order[i]); }
    hide WellFounded, Keyed, Levels;
  }

  lemma {:induction false} DescendingWork(t: Tree, b: Table, i: nat)
    requires WellFounded(t) && Levels(t) && Keyed(b) && i <= |b.order| && Descending(t, b.order, i)
    ensures Descending(t, Work(t, b, i).order, |Work(t, b, i).order|)
    decreases Pending(t, b.order[i..])
  {
    if i < |b.order| {
      WorkStep(t, b, i);
      PushDecreases(t, b, i);
      DescendingStep(t, b, i);
      hide Push, Keyed, Descending, Levels;
      DescendingWork(t, Push(t, b, b.order[i]), i + 1);
    }
  }

  lemma OneLevelDown(t: Tree, g: GroupId)
    requires Levels(t) && t.parent(g).Some?
    ensures t.depth(g) == t.depth(t.parent(g).value) + 1
  {
  }

  /** When the populated groups are all at one depth, every group ranks after its children. */
  lemma SameDepthIsOrderly(t: Tree, order: seq<GroupId>)
    requires WellFounded(t) && Levels(t) && Distinct(order)
    requires forall g <- order, h <- order :: t.depth(g) == t.depth(h)
    ensures ChildrenRankFirst(t, order)
  {
    LatePushByRank(t, order);
    DescendingWork(t, Table(Ones(order), order), 0);
    var final := PushOrder(t, order);
    forall j, k | 0 <= j < k < |final| ensures t.parent(final[k]) != Some(final[j]) {
      if t.parent(final[k]).Some? {
        OneLevelDown(t, final[k]);
      }
    }
  }

  // ---------------------------------------------------------------- accounts

  ghost predicate Closed(t: Tree, keys: set<GroupId>) {
    forall g :: g in keys && t.parent(g).Some? ==> t.parent(g).value in keys
  }

  /** The child of v on the way down to u. */
  ghost function Toward(t: Tree, v: GroupId, u: GroupId): GroupId
    requires WellFounded(t) && u != v && AncestorOf(t, v, u)
    decreases t.depth(u)
  {
    if t.parent(u) == Some(v) then u else Toward(t, v, t.parent(u).value)
  }

  lemma {:induction false} AncestorDepth(t: Tree, v: GroupId, u: GroupId)
    requires WellFounded(t) && AncestorOf(t, v, u)
    ensures u != v ==> t.depth(v) < t.depth(u)
    decreases t.depth(u)
  {
    if u != v { AncestorDepth(t, v, t.parent(u).value); }
  }

  lemma {:induction false} TowardIsChild(t: Tree, keys: set<GroupId>, v: GroupId, u: GroupId)
    requires WellFounded(t) && Closed(t, keys) && u in keys && u != v && AncestorOf(t, v, u)
    ensures var c := Toward(t, v, u); c in keys && t.parent(c) == Some(v) && AncestorOf(t, c, u)
    decreases t.depth(u)
  {
    if t.parent(u) != Some(v) { TowardIsChild(t, keys, v, t.parent(u).value); }
  }

  /** Exactly one child of an ancestor lies on the way down. */
  lemma {:induction false} TowardUnique(t: Tree, v: GroupId, u: GroupId, c: GroupId)
    requires WellFounded(t) && t.parent(c) == Some(v)
    ensures AncestorOf(t, c, u) <==> u != v && AncestorOf(t, v, u) && c == Toward(t, v, u)
    decreases t.depth(u)
  {
    ParentAbove(t, c);
    if t.parent(u).Some? {
      var p := t.parent(u).value;
      ParentAbove(t, u);
      TowardUnique(t, v, p, c);
      if u == c {
        assert AncestorOf(t, v, v);
      } else if u == v {
        if AncestorOf(t, v, p) { AncestorDepth(t, v, p); }
      } else if p == v {
        assert AncestorOf(t, v, v) && AncestorOf(t, v, u) && Toward(t, v, u) == u;
      } else if AncestorOf(t, v, u) {
        assert Toward(t, v, u) == Toward(t, v, p);
      }
    }
  }

  /** The own amount of u, if u is v or below it. */
  ghost function Below(t: Tree, c: Column, own: map<GroupId, Amounts>, v: GroupId, u: GroupId): int
    requires WellFounded(t)
  {
    if AncestorOf(t, v, u) then At(c, own, u) else 0
  }

  lemma SubtreeSplits(t: Tree, c: Column, own: map<GroupId, Amounts>, keys: set<GroupId>, v: GroupId, u: GroupId)
    requires WellFounded(t) && Closed(t, keys) && u in keys
    ensures Below(t, c, own, v, u)
         == (if u == v then At(c, own, v) else 0) + SumOver(Children(t, keys, v), x => Below(t, c, own, x, u))
  {
    var f := (x: GroupId) => Below(t, c, own, x, u);
    var kids := Children(t, keys, v);
    forall x | x in kids ensures AncestorOf(t, x, u) <==> u != v && AncestorOf(t, v, u) && x == Toward(t, v, u) {
      TowardUnique(t, v, u, x);
    }
    if u != v && AncestorOf(t, v, u) {
      TowardIsChild(t, keys, v, u);
      SumOverSingle(kids, f, Toward(t, v, u));
    } else {
      SumOverEqual(kids, f, _ => 0);
      SumOverNone(kids);
    }
  }

  /** The own amounts at or below v. */
  ghost function SubtreeSum(t: Tree, c: Column, own: map<GroupId, Amounts>, keys: set<GroupId>, v: GroupId): int
    requires WellFounded(t)
  {
    SumOver(keys, u => Below(t, c, own, v, u))
  }

  lemma SubtreeSumSplits(t: Tree, c: Column, own: map<GroupId, Amounts>, keys: set<GroupId>, v: GroupId)
    requires WellFounded(t) && Closed(t, keys) && v in keys
    ensures SubtreeSum(t, c, own, keys, v)
         == At(c, own, v) + SumOver(Children(t, keys, v), x => SubtreeSum(t, c, own, keys, x))
  {
    var kids := Children(t, keys, v);
    var f := (x: GroupId, u: GroupId) => Below(t, c, own, x, u);
    var strictly := (u: GroupId) => SumOver(kids, x => Below(t, c, own, x, u));
    var self := (u: GroupId) => if u == v then At(c, own, v) else 0;
    forall u | u in keys ensures Below(t, c, own, v, u) == self(u) + strictly(u)
                         ensures strictly(u) == SumOver(kids, FiniteSums.Column(f, u)) {
      SubtreeSplits(t, c, own, keys, v, u);
      SumOverEqual(kids, x => Below(t, c, own, x, u), FiniteSums.Column(f, u));
    }
    SumOverSingle(keys, self, v);
    SumOverPlus(keys, self, strictly, u => Below(t, c, own, v, u));
    forall x | x in kids ensures SubtreeSum(t, c, own, keys, x) == SumOver(keys, Row(f, x)) {
      SumOverEqual(keys, u => Below(t, c, own, x, u), Row(f, x));
    }
    hide SumOver, Closed, Below, AncestorOf;
    SumOverSwap(kids, keys, f, x => SubtreeSum(t, c, own, keys, x), strictly);
  }

  /** A group that adds up holds the amounts of all the groups below it. */
  lemma {:induction false} NodeIsSubtree(t: Tree, c: Column, own: map<GroupId, Amounts>, data: map<GroupId, Amounts>,
                                         v: GroupId, bound: nat)
    requires WellFounded(t) && Closed(t, data.Keys) && AddsUp(t, own, data) && v in data
    requires forall g <- data :: t.depth(g) <= bound
    ensures At(c, data, v) == SubtreeSum(t, c, own, data.Keys, v)
    decreases bound - t.depth(v)
  {
    var keys, kids := data.Keys, Children(t, data.Keys, v);
    forall x | x in kids ensures At(c, data, x) == SubtreeSum(t, c, own, keys, x) {
      ParentAbove(t, x);
      NodeIsSubtree(t, c, own, data, x, bound);
    }
    SumOverEqual(kids, x => At(c, data, x), x => SubtreeSum(t, c, own, keys, x));
    SubtreeSumSplits(t, c, own, keys, v);
  }

  // ---------------------------------------------------------------- from accounts to groups

  type AccountId = int

  /** The accounts of the report: their group, if any, and their totals. */
  datatype Chart = Chart(group: AccountId -> Option<GroupId>, total: AccountId -> Amounts)

  function InGroup(ch: Chart, c: Column, g: GroupId, a: AccountId): int {
    if ch.group(a) == Some(g) then Pick(c, ch.total(a)) else 0
  }

  /** A populated group starts with the totals of its own accounts. */
  ghost predicate Populated(ch: Chart, accounts: set<AccountId>, b: Table) {
    && Keyed(b)
    && (forall g :: g in b.data <==> exists a <- accounts :: ch.group(a) == Some(g))
    && (forall c: Column, g :: g in b.data ==> At(c, b.data, g) == SumOver(accounts, a => InGroup(ch, c, g, a)))
  }

  method GroupsData(ch: Chart, accounts: seq<AccountId>) returns (b: Table)
    requires forall i, j :: 0 <= i < j < |accounts| ==> accounts[i] != accounts[j]
    ensures Populated(ch, Elements(accounts), b)
  {
    hide Populated;
    b := Table(map[], []);
    PopulatedNone(ch);
    assert Elements(accounts[..0]) == {};
    for i := 0 to |accounts|
      invariant Populated(ch, Elements(accounts[..i]), b)
    {
      ElementsSnoc(accounts, i);
      var a := accounts[i];
      PopulatedStep(ch, Elements(accounts[..i]), b, a);
      b := Credited(b, ch.group(a), ch.total(a));
    }
    assert accounts[..|accounts|] == accounts;
  }

  /** The table after an account is added to its group. */
  function Credited(b: Table, group: Option<GroupId>, total: Amounts): Table {
    match group
    case None => b
    case Some(g) =>
      if g in b.data then b.(data := b.data[g := Add(b.data[g], total)])
      else Table(b.data[g := Add(Amounts(0, 0, 0, 0, 0), total)], b.order + [g])
  }

  lemma PopulatedNone(ch: Chart)
    ensures Populated(ch, {}, Table(map[], []))
  {
  }

  lemma PopulatedStep(ch: Chart, accounts: set<AccountId>, b: Table, a: AccountId)
    requires Populated(ch, accounts, b) && a !in accounts
    ensures Populated(ch, accounts + {a}, Credited(b, ch.group(a), ch.total(a)))
  {
    var b' := Credited(b, ch.group(a), ch.total(a));
    forall c: Column, g | g in b'.data ensures At(c, b'.data, g) == SumOver(accounts + {a}, x => InGroup(ch, c, g, x)) {
      var f := (x: AccountId) => InGroup(ch, c, g, x);
      SumOverRemove(accounts + {a}, f, a);
      assert accounts + {a} - {a} == accounts;
      assert g in b.data ==> At(c, b.data, g) == SumOver(accounts, f);
      if g !in b.data {
        SumOverEqual(accounts, f, _ => 0);
        SumOverNone(accounts);
      }
    }
    forall g ensures g in b'.data <==> exists x <- accounts + {a} :: ch.group(x) == Some(g) {
      if ch.group(a) == Some(g) { assert a in accounts + {a}; }
      if g in b.data {
        var x :| x in accounts && ch.group(x) == Some(g);
        assert x in accounts + {a};
      }
    }
  }

  /** An account counts for a group and for all its ancestors. */
  ghost function Counted(t: Tree, ch: Chart, c: Column, v: GroupId, a: AccountId): int
    requires WellFounded(t)
  {
    if ch.group(a).Some? && AncestorOf(t, v, ch.group(a).value) then Pick(c, ch.total(a)) else 0
  }

  lemma SubtreeIsAccounts(t: Tree, ch: Chart, accounts: set<AccountId>, b: Table, keys: set<GroupId>, c: Column, v: GroupId)
    requires WellFounded(t) && Populated(ch, accounts, b) && b.data.Keys <= keys
    ensures SubtreeSum(t, c, b.data, keys, v) == SumOver(accounts, a => Counted(t, ch, c, v, a))
  {
    var f := (g: GroupId, a: AccountId) => if AncestorOf(t, v, g) then InGroup(ch, c, g, a) else 0;
    forall g | g in keys ensures Below(t, c, b.data, v, g) == SumOver(accounts, Row(f, g)) {
      if AncestorOf(t, v, g) {
        SumOverEqual(accounts, a => InGroup(ch, c, g, a), Row(f, g));
        if g !in b.data {
          SumOverEqual(accounts, Row(f, g), _ => 0);
          SumOverNone(accounts);
        }
      } else {
        SumOverEqual(accounts, Row(f, g), _ => 0);
        SumOverNone(accounts);
      }
    }
    forall a | a in accounts ensures Counted(t, ch, c, v, a) == SumOver(keys, FiniteSums.Column(f, a)) {
      if ch.group(a).Some? {
        SumOverSingle(keys, FiniteSums.Column(f, a), ch.group(a).value);
      } else {
        SumOverEqual(keys, FiniteSums.Column(f, a), _ => 0);
        SumOverNone(keys);
      }
    }
    hide SumOver, Populated, Below, InGroup, Counted;
    SumOverSwap(keys, accounts, f, g => Below(t, c, b.data, v, g), a => Counted(t, ch, c, v, a));
  }

  /**
   * When every group ranks after its children, each group holds exactly the totals of the
   * accounts in it and below it.
   */
  lemma GroupsHoldTheirAccounts(t: Tree, ch: Chart, accounts: set<AccountId>, b: Table, v: GroupId, c: Column, bound: nat)
    requires WellFounded(t) && Populated(ch, accounts, b) && ChildrenRankFirst(t, b.order)
    requires v in Work(t, b, 0).data && forall g <- Work(t, b, 0).data :: t.depth(g) <= bound
    ensures At(c, Work(t, b, 0).data, v) == SumOver(accounts, a => Counted(t, ch, c, v, a))
  {
    var e := Work(t, b, 0);
    assert b == Table(b.data, b.order);
    LatePushByRank(t, b.order);
    OrderlyTableAddsUp(t, b.data, b.order);
    WorkClosed(t, b);
    NodeIsSubtree(t, c, b.data, e.data, v, bound);
    SubtreeIsAccounts(t, ch, accounts, b, e.data.Keys, c, v);
  }

  lemma WorkClosed(t: Tree, b: Table)
    requires WellFounded(t) && Keyed(b)
    ensures Closed(t, Work(t, b, 0).data.Keys) && b.data.Keys <= Work(t, b, 0).data.Keys
  {
    KeysAreAncestors(t, b);
    var e := Work(t, b, 0);
    forall g | g in e.data && t.parent(g).Some? ensures t.parent(g).value in e.data {
      var u :| u in b.order && AncestorOf(t, g, u);
      AncestorStep(t, g, u);
    }
    forall g | g in b.data ensures g in e.data {
      assert g in b.order && AncestorOf(t, g, g);
    }
  }

  ghost function AtRoot(t: Tree, c: Column, data: map<GroupId, Amounts>, g: GroupId): int {
    if t.parent(g).None? then At(c, data, g) else 0
  }

  function ToParent(t: Tree, c: Column, data: map<GroupId, Amounts>, v: GroupId, g: GroupId): int {
    if t.parent(g) == Some(v) then At(c, data, g) else 0
  }

  /** What the groups receive from their children is what the groups with a parent hold. */
  lemma PassedOn(t: Tree, c: Column, data: map<GroupId, Amounts>, kids: GroupId -> int, inner: GroupId -> int)
    requires Closed(t, data.Keys)
    requires forall v :: kids(v) == ChildSum(t, c, data, v)
    requires forall g :: inner(g) == if t.parent(g).Some? then At(c, data, g) else 0
    ensures SumOver(data.Keys, kids) == SumOver(data.Keys, inner)
  {
    hide SumOver, ToParent, ChildSum, Closed;
    var keys := data.Keys;
    var f := (v: GroupId, g: GroupId) => ToParent(t, c, data, v, g);
    forall g | g in keys ensures kids(g) == SumOver(keys, Row(f, g)) && inner(g) == SumOver(keys, FiniteSums.Column(f, g)) {
      PushedRow(t, c, data, g, f);
    }
    SumOverSwap(keys, keys, f, kids, inner);
  }

  /** When every group adds up, the groups without a parent hold the grand total. */
  lemma RootsConserve(t: Tree, c: Column, own: map<GroupId, Amounts>, data: map<GroupId, Amounts>)
    requires Closed(t, data.Keys) && AddsUp(t, own, data)
    ensures SumOver(data.Keys, g => AtRoot(t, c, data, g)) == SumOver(data.Keys, g => At(c, own, g))
  {
    hide SumOver, ChildSum, Closed;
    var keys := data.Keys;
    var held, owned := (g: GroupId) => At(c, data, g), (g: GroupId) => At(c, own, g);
    var kids := (v: GroupId) => ChildSum(t, c, data, v);
    var inner := (g: GroupId) => if t.parent(g).Some? then At(c, data, g) else 0;
    forall g | g in keys ensures held(g) == owned(g) + kids(g) {
      assert At(c, data, g) == At(c, own, g) + ChildSum(t, c, data, g);
    }
    hide AddsUp, At;
    SumOverPlus(keys, owned, kids, held);
    SumOverPlus(keys, g => AtRoot(t, c, data, g), inner, held);
    PassedOn(t, c, data, kids, inner);
  }

  /** What a group receives, and the one place its own amount goes to. */
  lemma PushedRow(t: Tree, c: Column, data: map<GroupId, Amounts>, v: GroupId, f: (GroupId, GroupId) -> int)
    requires Closed(t, data.Keys) && v in data
    requires forall x, y :: f(x, y) == ToParent(t, c, data, x, y)
    ensures ChildSum(t, c, data, v) == SumOver(data.Keys, Row(f, v))
    ensures SumOver(data.Keys, FiniteSums.Column(f, v)) == if t.parent(v).Some? then At(c, data, v) else 0
  {
    var keys := data.Keys;
    forall x | x in keys && x !in Children(t, keys, v) ensures Row(f, v)(x) == 0 {
      assert f(v, x) == ToParent(t, c, data, v, x);
    }
    SumOverSupport(Children(t, keys, v), keys, Row(f, v));
    SumOverEqual(Children(t, keys, v), g => At(c, data, g), Row(f, v));
    if t.parent(v).Some? {
      SumOverSingle(keys, FiniteSums.Column(f, v), t.parent(v).value);
    } else {
      forall x | x in keys ensures FiniteSums.Column(f, v)(x) == 0 {
        assert f(x, v) == ToParent(t, c, data, x, v);
      }
      SumOverEqual(keys, FiniteSums.Column(f, v), _ => 0);
      SumOverNone(keys);
    }
  }

  function Grouped(ch: Chart, c: Column, a: AccountId): int {
    if ch.group(a).Some? then Pick(c, ch.total(a)) else 0
  }

  lemma OwnedIsGrouped(ch: Chart, accounts: set<AccountId>, b: Table, keys: set<GroupId>, c: Column)
    requires Populated(ch, accounts, b) && b.data.Keys <= keys
    ensures SumOver(keys, g => At(c, b.data, g)) == SumOver(accounts, a => Grouped(ch, c, a))
  {
    var f := (g: GroupId, a: AccountId) => InGroup(ch, c, g, a);
    forall g | g in keys ensures At(c, b.data, g) == SumOver(accounts, Row(f, g)) {
      SumOverEqual(accounts, a => InGroup(ch, c, g, a), Row(f, g));
      if g !in b.data {
        SumOverEqual(accounts, Row(f, g), _ => 0);
        SumOverNone(accounts);
      }
    }
    forall a | a in accounts ensures Grouped(ch, c, a) == SumOver(keys, FiniteSums.Column(f, a)) {
      if ch.group(a).Some? {
        SumOverSingle(keys, FiniteSums.Column(f, a), ch.group(a).value);
      } else {
        SumOverEqual(keys, FiniteSums.Column(f, a), _ => 0);
        SumOverNone(keys);
      }
    }
    hide SumOver, Populated, InGroup, Grouped;
    SumOverSwap(keys, accounts, f, g => At(c, b.data, g), a => Grouped(ch, c, a));
  }

  /** When every group ranks after its children, the roots hold the total of all accounts that have a group. */
  lemma RootsHoldEverything(t: Tree, ch: Chart, accounts: set<AccountId>, b: Table, c: Column)
    requires WellFounded(t) && Populated(ch, accounts, b) && ChildrenRankFirst(t, b.order)
    ensures var data := Work(t, b, 0).data;
            SumOver(data.Keys, g => AtRoot(t, c, data, g)) == SumOver(accounts, a => Grouped(ch, c, a))
  {
    assert b == Table(b.data, b.order);
    var data := Work(t, b, 0).data;
    LatePushByRank(t, b.order);
    OrderlyTableAddsUp(t, b.data, b.order);
    WorkClosed(t, b);
    RootsConserve(t, c, b.data, data);
    OwnedIsGrouped(ch, accounts, b, data.Keys, c);
  }

  // ---------------------------------------------------------------- identities

  /** Late or not, pushes keep ending = initial + balance and balance = debit - credit. */
  lemma {:induction false} WorkKeepsBalanced(t: Tree, b: Table, i: nat)
    requires WellFounded(t) && Keyed(b) && i <= |b.order|
    requires forall g <- b.data ::
      var a := b.data[g]; a.ending == a.initial + a.balance && a.balance == a.debit - a.credit
    ensures forall g <- Work(t, b, i).data ::
      var a := Work(t, b, i).data[g]; a.ending == a.initial + a.balance && a.balance == a.debit - a.credit
    decreases Pending(t, b.order[i..])
  {
    if i < |b.order| {
      WorkStep(t, b, i);
      PushDecreases(t, b, i);
      WorkKeepsBalanced(t, Push(t, b, b.order[i]), i + 1);
    }
  }
}
