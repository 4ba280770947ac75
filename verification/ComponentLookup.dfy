/**
 * The registry of components, its lookup cache, and the choice of one component.
 *
 * A component class is known by its name.  Building a class may change what is
 * known of others that inherit from it, and the cache keeps classes, not what is
 * known of them.
 */
module ComponentLookup {
  import opened Options

  datatype Name = Name(text: string)

  datatype Component = Component(
    isAbstract: bool,
    collection: Option<Name>,
    usage: Option<Name>,
    applyOn: Option<seq<Name>>)

  type Definitions = map<Name, Component>

  datatype Query = Query(collection: Option<Name>, usage: Option<Name>, model: Option<Name>)

  /** A class as its module declares it, and what is known of it and of its children once it is built. */
  datatype Class = Class(name: Name, known: Definitions)

  datatype State = State(
    order: seq<Name>,
    known: Definitions,
    loaded: set<Name>,
    cache: map<Query, seq<Name>>)

  predicate Distinct(names: seq<Name>) {
    forall j, k :: 0 <= j < k < |names| ==> names[j] != names[k]
  }

  ghost predicate Valid(s: State) {
    Distinct(s.order) && forall k :: 0 <= k < |s.order| ==> s.order[k] in s.known
  }

  // ---------------------------------------------------------------- filters

  function Filter(names: seq<Name>, keep: Name -> bool): (r: seq<Name>)
  {
    if names == [] then []
    else
      var last := names[|names| - 1];
      Filter(names[..|names| - 1], keep) + if keep(last) then [last] else []
  }

  /** A filter keeps what it should. */
  lemma {:induction false} FilterKeeps(names: seq<Name>, keep: Name -> bool, name: Name)
    ensures name in Filter(names, keep) <==> name in names && keep(name)
  {
    if names != [] {
      var n := |names| - 1;
      FilterKeeps(names[..n], keep, name);
      assert names == names[..n] + [names[n]];
    }
  }

  /** A filter keeps the order, which in a list without repetition leaves only one result. */
  lemma {:induction false} FilterOrdered(names: seq<Name>, keep: Name -> bool, a: Name, b: Name)
    requires Distinct(names)
    ensures Distinct(Filter(names, keep))
    ensures Before(Filter(names, keep), a, b) <==> Before(names, a, b) && keep(a) && keep(b)
  {
    if names != [] {
      var n := |names| - 1;
      var front := names[..n];
      FilterOrdered(front, keep, a, b);
      forall x ensures x in Filter(front, keep) <==> x in front && keep(x) {
        FilterKeeps(front, keep, x);
      }
      assert names == front + [names[n]];
      BeforeSnoc(front, names[n], a, b);
      var kept := Filter(front, keep);
      BeforeSnoc(kept, names[n], a, b);
      assert Filter(names, keep) == if keep(names[n]) then kept + [names[n]] else kept;
      assert b == names[n] ==> !Before(front, a, b) by {
        assert Distinct(front + [names[n]]);
      }
      if b != names[n] || !keep(names[n]) {
        assert Before(Filter(names, keep), a, b) <==> Before(kept, a, b);
      } else {
        assert Before(Filter(names, keep), a, b) <==> Before(kept, a, b) || a in kept;
      }
    }
  }

  ghost predicate Before(names: seq<Name>, a: Name, b: Name) {
    exists j, k :: 0 <= j < k < |names| && names[j] == a && names[k] == b
  }

  lemma BeforeSnoc(names: seq<Name>, last: Name, a: Name, b: Name)
    ensures Before(names + [last], a, b) <==> Before(names, a, b) || (a in names && b == last)
  {
    var more := names + [last];
    if Before(names, a, b) {
      var j, k :| 0 <= j < k < |names| && names[j] == a && names[k] == b;
      assert more[j] == a && more[k] == b;
    }
    if a in names && b == last {
      var j :| 0 <= j < |names| && names[j] == a;
      assert more[j] == a && more[|names|] == b;
    }
    if Before(more, a, b) {
      var j, k :| 0 <= j < k < |more| && more[j] == a && more[k] == b;
      assert names[j] == a;
    }
  }

  lemma {:induction false} FilterTwice(names: seq<Name>, p: Name -> bool, q: Name -> bool, both: Name -> bool)
    requires forall name :: both(name) <==> p(name) && q(name)
    ensures Filter(Filter(names, p), q) == Filter(names, both)
  {
    if names != [] {
      var n := |names| - 1;
      FilterTwice(names[..n], p, q, both);
      var kept := Filter(names[..n], p);
      assert (kept + [names[n]])[..|kept|] == kept;
      assert Filter(names, p) == if p(names[n]) then kept + [names[n]] else kept;
    }
  }

  // ---------------------------------------------------------------- lookup

  predicate InCollection(c: Component, collection: Name) {
    c.collection == Some(collection) || c.collection == None
  }

  predicate AppliesTo(c: Component, model: Name) {
    c.applyOn == None || model in c.applyOn.value
  }

  /** A component that a query asks for. */
  predicate Asked(c: Component, q: Query) {
    && !c.isAbstract
    && (q.collection.Some? ==> InCollection(c, q.collection.value))
    && (q.usage.Some? ==> c.usage == q.usage)
    && (q.model.Some? ==> AppliesTo(c, q.model.value))
  }

  ghost predicate IsAsked(known: Definitions, q: Query, name: Name) {
    name in known && Asked(known[name], q)
  }

  /** The names of the components a query asks for, in the order of registration. */
  ghost function Found(s: State, q: Query): seq<Name> {
    AskedAmong(s.order, s.known, q)
  }

  ghost function AskedAmong(names: seq<Name>, known: Definitions, q: Query): seq<Name> {
    Filter(names, name => IsAsked(known, q, name))
  }

  /** Filtering what one query finds gives what a narrower one does. */
  lemma AskedMore(names: seq<Name>, known: Definitions, q: Query, keep: Name -> bool, q': Query)
    requires forall name :: IsAsked(known, q', name) <==> IsAsked(known, q, name) && keep(name)
    ensures Filter(AskedAmong(names, known, q), keep) == AskedAmong(names, known, q')
  {
    hide IsAsked;
    FilterTwice(names, name => IsAsked(known, q, name), keep, name => IsAsked(known, q', name));
  }

  /** What a query finds: each component it asks for, once, in the order of registration. */
  lemma FoundMeaning(s: State, q: Query, a: Name, b: Name)
    requires Valid(s)
    ensures a in Found(s, q) <==> a in s.order && Asked(s.known[a], q)
    ensures Distinct(Found(s, q))
    ensures Before(Found(s, q), a, b) <==> Before(s.order, a, b) && a in Found(s, q) && b in Found(s, q)
  {
    var keep := name => IsAsked(s.known, q, name);
    FilterKeeps(s.order, keep, a);
    FilterKeeps(s.order, keep, b);
    FilterOrdered(s.order, keep, a, b);
  }

  /**
   * Which components a query finds: those that are not abstract, of the asked
   * collection or of none, of the asked usage, and for the asked model or for all.
   */
  lemma FoundInFields(s: State, collection: Option<Name>, usage: Option<Name>, model: Option<Name>, a: Name)
    requires Valid(s)
    ensures a in Found(s, Query(collection, usage, model)) <==>
      && a in s.order
      && var c := s.known[a];
      && !c.isAbstract
      && (collection.Some? ==> c.collection.None? || c.collection.value == collection.value)
      && (usage.Some? ==> c.usage.Some? && c.usage.value == usage.value)
      && (model.Some? ==> c.applyOn.None? || model.value in c.applyOn.value)
  {
    hide Found;
    FoundMeaning(s, Query(collection, usage, model), a, a);
  }

  ghost function Build(s: State, c: Class): (r: State)
    requires c.name in c.known
    ensures Valid(s) ==> Valid(r)
  {
    s.(order := if c.name in s.order then s.order else s.order + [c.name], known := s.known + c.known)
  }

  ghost function BuildAll(s: State, classes: seq<Class>): (r: State)
    requires forall k :: 0 <= k < |classes| ==> classes[k].name in classes[k].known
    ensures Valid(s) ==> Valid(r)
    ensures r.cache == s.cache && r.loaded == s.loaded
  {
    if classes == [] then s
    else Build(BuildAll(s, classes[..|classes| - 1]), classes[|classes| - 1])
  }

  ghost function Loaded(s: State, mod: Name, classes: seq<Class>): (r: State)
    requires forall k :: 0 <= k < |classes| ==> classes[k].name in classes[k].known
    ensures Valid(s) ==> Valid(r)
  {
    if mod in s.loaded then s
    else var built := BuildAll(s, classes); built.(loaded := built.loaded + {mod})
  }

  ghost function Answer(s: State, q: Query): seq<Name> {
    if q in s.cache then s.cache[q] else Found(s, q)
  }

  /** The cache after a lookup, when it has dropped some of its entries to make room. */
  ghost function Looked(s: State, q: Query, evicted: set<Query>): State {
    if q in s.cache then s else s.(cache := s.cache[q := Found(s, q)] - evicted)
  }

  /** A class of the list gives a component its definition, and no later one gives it another. */
  ghost predicate Defines(classes: seq<Class>, k: nat, a: Name) {
    k < |classes| && a in classes[k].known && forall j :: k < j < |classes| ==> a !in classes[j].known
  }

  ghost predicate IsNamed(classes: seq<Class>, a: Name) {
    exists k :: 0 <= k < |classes| && classes[k].name == a
  }

  /** A class of the list knows a component. */
  ghost predicate IsDefined(classes: seq<Class>, a: Name) {
    exists k :: 0 <= k < |classes| && a in classes[k].known
  }

  lemma NamedSnoc(classes: seq<Class>, a: Name)
    requires classes != []
    ensures var n := |classes| - 1;
      && (IsNamed(classes, a) <==> IsNamed(classes[..n], a) || classes[n].name == a)
      && (IsDefined(classes, a) <==> IsDefined(classes[..n], a) || a in classes[n].known)
  {
    var n := |classes| - 1;
    if IsNamed(classes[..n], a) {
      var j :| 0 <= j < n && classes[..n][j].name == a;
      assert classes[j].name == a;
    }
    if IsDefined(classes[..n], a) {
      var j :| 0 <= j < n && a in classes[..n][j].known;
      assert a in classes[j].known;
    }
    if IsNamed(classes, a) && classes[n].name != a {
      var j :| 0 <= j < n && classes[j].name == a;
      assert classes[..n][j].name == a;
    }
    if IsDefined(classes, a) && a !in classes[n].known {
      var j :| 0 <= j < n && a in classes[j].known;
      assert a in classes[..n][j].known;
    }
  }

  lemma {:induction false} BuildAllOrder(s: State, classes: seq<Class>, a: Name)
    requires forall k :: 0 <= k < |classes| ==> classes[k].name in classes[k].known
    ensures var r := BuildAll(s, classes);
      && s.order <= r.order
      && (a in r.order <==> a in s.order || IsNamed(classes, a))
      && (a in r.known <==> a in s.known || IsDefined(classes, a))
      && (a in s.known && !IsDefined(classes, a) ==> r.known[a] == s.known[a])
    decreases |classes|
  {
    hide Valid, IsNamed, IsDefined;
    if classes == [] {
      NoneNamed(a);
    } else {
      BuildAllOrder(s, classes[..|classes| - 1], a);
      NamedSnoc(classes, a);
    }
  }

  lemma NoneNamed(a: Name)
    ensures !IsNamed([], a) && !IsDefined([], a)
  {
  }

  lemma {:induction false} BuildAllKnown(s: State, classes: seq<Class>, a: Name, k: nat)
    requires (forall k :: 0 <= k < |classes| ==> classes[k].name in classes[k].known) && Defines(classes, k, a)
    ensures var r := BuildAll(s, classes); a in r.known && r.known[a] == classes[k].known[a]
    decreases |classes|
  {
    hide Valid;
    var n := |classes| - 1;
    if k < n {
      assert Defines(classes[..n], k, a);
      BuildAllKnown(s, classes[..n], a, k);
      assert a !in classes[n].known;
    }
  }

  /**
   * Loading a module a second time does nothing.  The first time it adds its new
   * names at the end, gives each component the definition of its last class, and
   * leaves other components, other modules and the cache alone.
   */
  lemma LoadedInFields(s: State, mod: Name, classes: seq<Class>, a: Name, k: nat)
    requires forall k :: 0 <= k < |classes| ==> classes[k].name in classes[k].known
    ensures var r := Loaded(s, mod, classes);
      && (mod in s.loaded ==> r == s)
      && (mod !in s.loaded ==>
            && r.loaded == s.loaded + {mod} && r.cache == s.cache
            && s.order <= r.order
            && (a in r.order <==> a in s.order || IsNamed(classes, a))
            && (a in r.known <==> a in s.known || IsDefined(classes, a))
            && (Defines(classes, k, a) ==> a in r.known && r.known[a] == classes[k].known[a])
            && (a in s.known && !IsDefined(classes, a) ==> r.known[a] == s.known[a]))
  {
    hide BuildAll, Valid, IsNamed, IsDefined, Defines;
    BuildAllOrder(s, classes, a);
    if Defines(classes, k, a) { BuildAllKnown(s, classes, a, k); }
  }

  /** A lookup changes the cache only: not at all when the query is there, and else by its answer, as far as that is kept. */
  lemma LookedInFields(s: State, q: Query, evicted: set<Query>, other: Query)
    ensures var r := Looked(s, q, evicted);
      && r == s.(cache := r.cache)
      && (q in s.cache ==> r.cache == s.cache && Answer(s, q) == s.cache[q])
      && (q !in s.cache ==>
            && Answer(s, q) == Found(s, q)
            && (other in r.cache <==> (other in s.cache || other == q) && other !in evicted)
            && (other in r.cache ==> r.cache[other] == if other == q then Found(s, q) else s.cache[other]))
  {
    hide Found;
  }

  class Registry {
    var order: seq<Name>
    var known: Definitions
    var loaded: set<Name>
    var cache: map<Query, seq<Name>>

    ghost function Value(): State
      reads this
    {
      State(order, known, loaded, cache)
    }

    constructor ()
      ensures Value() == State([], map[], {}, map[]) && Valid(Value())
    {
      order, known, loaded, cache := [], map[], {}, map[];
    }

    method LoadComponents(mod: Name, classes: seq<Class>)
      requires forall k :: 0 <= k < |classes| ==> classes[k].name in classes[k].known
      modifies this
      ensures Value() == Loaded(old(Value()), mod, classes)
    {
      if mod in loaded {
        return;
      }
      for k := 0 to |classes|
        invariant Value() == BuildAll(old(Value()), classes[..k])
      {
        assert classes[..k + 1][..k] == classes[..k];
        var c := classes[k];
        known := known + c.known;
        if c.name !in order {
          order := order + [c.name];
        }
      }
      assert classes[..|classes|] == classes;
      loaded := loaded + {mod};
    }

    /** Finds components, from the cache if the same query was asked before and not dropped since. */
    method Lookup(q: Query, evicted: set<Query>) returns (found: seq<Name>)
      requires Valid(Value())
      modifies `cache
      ensures found == Answer(old(Value()), q)
      ensures Value() == Looked(old(Value()), q, evicted)
    {
      if q in cache {
        return cache[q];
      }
      var known := this.known;
      var concrete := name => name in known && !known[name].isAbstract;
      found := Filter(order, concrete);
      FilterSame(order, concrete, name => IsAsked(known, Query(None, None, None), name));
      if q.collection.Some? {
        var keep := name => name in known && InCollection(known[name], q.collection.value);
        AskedMore(order, known, Query(None, None, None), keep, Query(q.collection, None, None));
        found := Filter(found, keep);
      }
      if q.usage.Some? {
        var keep := name => name in known && known[name].usage == q.usage;
        AskedMore(order, known, Query(q.collection, None, None), keep, Query(q.collection, q.usage, None));
        found := Filter(found, keep);
      }
      if q.model.Some? {
        var keep := name => name in known && AppliesTo(known[name], q.model.value);
        AskedMore(order, known, Query(q.collection, q.usage, None), keep, q);
        found := Filter(found, keep);
      }
      assert found == AskedAmong(order, known, q);
      cache := cache[q := found] - evicted;
    }
  }

  // ---------------------------------------------------------------- whole runs

  datatype Event =
    | Load(mod: Name, classes: seq<Class>)
    | Lookup(q: Query, evicted: set<Query>)

  predicate WellFormed(e: Event) {
    e.Load? ==> forall k :: 0 <= k < |e.classes| ==> e.classes[k].name in e.classes[k].known
  }

  ghost function Next(s: State, e: Event): State
    requires WellFormed(e)
  {
    match e
    case Load(mod, classes) => Loaded(s, mod, classes)
    case Lookup(q, evicted) => Looked(s, q, evicted)
  }

  ghost predicate IsRun(states: seq<State>, events: seq<Event>) {
    && |states| == |events| + 1
    && states[0] == State([], map[], {}, map[])
    && (forall i :: 0 <= i < |events| ==> WellFormed(events[i]))
    && forall i :: 0 <= i < |events| ==> states[i + 1] == Next(states[i], events[i])
  }

  /** Every module is loaded before the first lookup; loading one again is no harm. */
  ghost predicate LoadsFirst(states: seq<State>, events: seq<Event>)
    requires IsRun(states, events)
  {
    forall i, j :: 0 <= i < j < |events| && events[i].Lookup? && events[j].Load? ==> events[j].mod in states[j].loaded
  }

  /** The cache agrees with what would be found now. */
  ghost predicate Coherent(s: State) {
    forall q <- s.cache.Keys :: s.cache[q] == Found(s, q)
  }

  /** When all loading precedes all lookups, every lookup finds what a fresh filter does, whatever is evicted. */
  lemma {:induction false} LookupsAreFresh(states: seq<State>, events: seq<Event>, n: nat)
    requires IsRun(states, events) && LoadsFirst(states, events) && n <= |events|
    ensures Valid(states[n]) && Coherent(states[n])
    ensures n < |events| && events[n].Lookup? ==> Answer(states[n], events[n].q) == Found(states[n], events[n].q)
    ensures (forall i :: 0 <= i < n ==> events[i].Load?) ==> states[n].cache == map[]
  {
    if n > 0 {
      LookupsAreFresh(states, events, n - 1);
      var s, s', e := states[n - 1], states[n], events[n - 1];
      assert s' == Next(s, e);
      if e.Lookup? {
        assert forall q :: Found(s', q) == Found(s, q);
      }
    }
  }

  /** Loading changes nothing that a cached query asks for: the same names are asked for, none of them new. */
  ghost predicate Harmless(s: State, mod: Name, classes: seq<Class>)
    requires forall k :: 0 <= k < |classes| ==> classes[k].name in classes[k].known
  {
    forall q :: q in s.cache ==> SameAsked(s, Loaded(s, mod, classes), q)
  }

  lemma {:induction false} FilterAppend(names: seq<Name>, more: seq<Name>, keep: Name -> bool)
    ensures Filter(names + more, keep) == Filter(names, keep) + Filter(more, keep)
    decreases |more|
  {
    if more == [] {
      assert names + more == names;
    } else {
      var front := more[..|more| - 1];
      FilterAppend(names, front, keep);
      assert (names + more)[..|names + more| - 1] == names + front;
    }
  }

  lemma {:induction false} FilterSame(names: seq<Name>, p: Name -> bool, q: Name -> bool)
    requires forall k :: 0 <= k < |names| ==> (p(names[k]) <==> q(names[k]))
    ensures Filter(names, p) == Filter(names, q)
  {
    if names != [] {
      FilterSame(names[..|names| - 1], p, q);
    }
  }

  lemma {:induction false} FilterNone(names: seq<Name>, keep: Name -> bool)
    requires forall k :: 0 <= k < |names| ==> !keep(names[k])
    ensures Filter(names, keep) == []
  {
    if names != [] {
      FilterNone(names[..|names| - 1], keep);
    }
  }

  lemma {:induction false} BuildAllAppends(s: State, classes: seq<Class>)
    requires forall k :: 0 <= k < |classes| ==> classes[k].name in classes[k].known
    ensures s.order <= BuildAll(s, classes).order
  {
    if classes != [] { BuildAllAppends(s, classes[..|classes| - 1]); }
  }

  /** The same names are asked for, and none of the new ones. */
  ghost predicate SameAsked(s: State, s': State, q: Query) {
    forall a :: a in s'.order ==> ((a in s.order && IsAsked(s.known, q, a)) <==> IsAsked(s'.known, q, a))
  }

  lemma SameAskedFound(s: State, s': State, q: Query)
    requires Distinct(s'.order) && s.order <= s'.order && SameAsked(s, s', q)
    ensures Found(s', q) == Found(s, q)
  {
    hide IsAsked;
    var more := s'.order[|s.order|..];
    var was, now := (a: Name) => IsAsked(s.known, q, a), (a: Name) => IsAsked(s'.known, q, a);
    assert s'.order == s.order + more;
    forall k | 0 <= k < |s.order| ensures was(s.order[k]) <==> now(s.order[k]) {
      assert s'.order[k] in s'.order && s.order[k] in s.order;
    }
    forall k | 0 <= k < |more| ensures !now(more[k]) {
      assert s'.order[|s.order| + k] in s'.order && s'.order[|s.order| + k] == more[k];
    }
    FilterAppend(s.order, more, now);
    FilterSame(s.order, was, now);
    FilterNone(more, now);
  }

  /** A query finds the same after a change exactly when the same names are asked for and none of them is new. */
  lemma SameFound(s: State, s': State, q: Query)
    requires Valid(s) && Valid(s') && s.order <= s'.order
    ensures Found(s', q) == Found(s, q) <==> SameAsked(s, s', q)
  {
    hide Asked;
    if SameAsked(s, s', q) {
      SameAskedFound(s, s', q);
    } else {
      var a :| a in s'.order && !((a in s.order && IsAsked(s.known, q, a)) <==> IsAsked(s'.known, q, a));
      FoundMeaning(s, q, a, a);
      FoundMeaning(s', q, a, a);
    }
  }

  /** The cache still agrees after loading exactly when loading was harmless. */
  lemma CoherentIffHarmless(s: State, mod: Name, classes: seq<Class>)
    requires Valid(s) && Coherent(s)
    requires forall k :: 0 <= k < |classes| ==> classes[k].name in classes[k].known
    ensures Coherent(Loaded(s, mod, classes)) <==> Harmless(s, mod, classes)
  {
    hide IsAsked, Found;
    var s' := Loaded(s, mod, classes);
    BuildAllAppends(s, classes);
    assert s.order <= s'.order && s'.cache == s.cache && Valid(s');
    hide Valid, Loaded, BuildAll;
    forall q | q in s.cache ensures (s.cache[q] == Found(s', q))
      <==> SameAsked(s, s', q) {
      SameFound(s, s', q);
    }
  }

  /** Every load among the first n events is harmless. */
  ghost predicate LoadsHarmless(states: seq<State>, events: seq<Event>, n: nat)
    requires IsRun(states, events) && n <= |events|
  {
    forall i :: 0 <= i < n && events[i].Load? ==> Harmless(states[i], events[i].mod, events[i].classes)
  }

  /** The cache agrees with a fresh filter before each of the first n events, and after them. */
  ghost predicate AlwaysCoherent(states: seq<State>, n: nat)
    requires n < |states|
  {
    forall i :: 0 <= i <= n ==> Coherent(states[i])
  }

  lemma FreshStep(s: State, e: Event)
    requires Valid(s) && WellFormed(e)
    ensures Valid(Next(s, e))
    ensures Coherent(s) ==>
      && (Coherent(Next(s, e)) <==> (e.Load? ==> Harmless(s, e.mod, e.classes)))
      && (e.Lookup? ==> Answer(s, e.q) == Found(s, e.q))
  {
    if Coherent(s) {
      if e.Load? {
        CoherentIffHarmless(s, e.mod, e.classes);
      } else {
        LookupKeepsCoherent(s, e.q, e.evicted);
      }
    }
  }

  /**
   * In every run the cache agrees with a fresh filter at all times exactly when
   * every load is harmless, and then every lookup is answered afresh.
   */
  lemma {:induction false} AlwaysFreshIffHarmless(states: seq<State>, events: seq<Event>, n: nat)
    requires IsRun(states, events) && n <= |events|
    ensures Valid(states[n])
    ensures AlwaysCoherent(states, n) <==> LoadsHarmless(states, events, n)
    ensures LoadsHarmless(states, events, n) && n < |events| && events[n].Lookup? ==>
      Answer(states[n], events[n].q) == Found(states[n], events[n].q)
  {
    hide *;
    RunSteps(states, events, n);
    if n > 0 {
      AlwaysFreshIffHarmless(states, events, n - 1);
      FreshStep(states[n - 1], events[n - 1]);
    }
    if n < |events| && Coherent(states[n]) && events[n].Lookup? {
      LookupKeepsCoherent(states[n], events[n].q, events[n].evicted);
    }
  }

  lemma RunSteps(states: seq<State>, events: seq<Event>, n: nat)
    requires IsRun(states, events) && n <= |events|
    ensures |states| == |events| + 1
    ensures n == 0 ==> Valid(states[n]) && AlwaysCoherent(states, n) && LoadsHarmless(states, events, n)
    ensures n > 0 ==> WellFormed(events[n - 1]) && states[n] == Next(states[n - 1], events[n - 1])
    ensures n > 0 ==> (AlwaysCoherent(states, n) <==> AlwaysCoherent(states, n - 1) && Coherent(states[n]))
    ensures n > 0 ==>
      var safe := events[n - 1].Load? ==> Harmless(states[n - 1], events[n - 1].mod, events[n - 1].classes);
      LoadsHarmless(states, events, n) <==> LoadsHarmless(states, events, n - 1) && safe
    ensures AlwaysCoherent(states, n) ==> Coherent(states[n])
    ensures n > 0 && AlwaysCoherent(states, n - 1) ==> Coherent(states[n - 1])
  {
    assert states[0] == State([], map[], {}, map[]);
    hide Harmless, Found, Next;
  }

  lemma LookupKeepsCoherent(s: State, q: Query, evicted: set<Query>)
    requires Coherent(s)
    ensures Coherent(Looked(s, q, evicted)) && Answer(s, q) == Found(s, q)
  {
    var s' := Looked(s, q, evicted);
    assert forall r :: Found(s', r) == Found(s, r);
  }

  /** A class that is loaded after a query for it was asked and not dropped is missed when it is asked again. */
  lemma LateClassIsMissed(q: Query, name: Name, c: Component, mod: Name)
    requires Asked(c, q)
    ensures var s := Loaded(Looked(State([], map[], {}, map[]), q, {}), mod, [Class(name, map[name := c])]);
      Answer(s, q) == [] && Found(s, q) == [name]
  {
    var start := State([], map[], {}, map[]);
    var asked := Looked(start, q, {});
    var late := Class(name, map[name := c]);
    assert [late][..0] == [];
    assert BuildAll(asked, [late]) == Build(BuildAll(asked, [late][..0]), late) == Build(asked, late);
    var s := Loaded(asked, mod, [late]);
    assert s.order == [name] && s.known[name] == c;
    assert IsAsked(s.known, q, name);
    FilterIs(s.order, n => IsAsked(s.known, q, n));
    OnlyOne(Found(s, q), name);
  }

  // ---------------------------------------------------------------- one component

  datatype Choice = NoComponent | SeveralComponents | One(name: Name, model: Name)

  predicate OfCollection(known: Definitions, collection: Name, name: Name) {
    name in known && known[name].collection == Some(collection)
  }

  predicate OfModel(known: Definitions, model: Name, name: Name) {
    name in known && known[name].applyOn.Some? && model in known[name].applyOn.value
  }

  /** The choice among candidates: those of the collection come first, then those of the model. */
  function Choose(known: Definitions, candidates: seq<Name>, collection: Name, model: Name): Choice {
    if candidates == [] then NoComponent
    else
      var own := if |candidates| > 1 then Filter(candidates, n => OfCollection(known, collection, n)) else candidates;
      var closest := if |own| > 1 then Filter(own, n => OfModel(known, model, n)) else own;
      if |closest| != 1 then SeveralComponents else One(closest[0], model)
  }

  /**
   * One component goes before another: it is of the collection, and the other is
   * not or is not for the model while the first one is.
   */
  predicate Beats(known: Definitions, collection: Name, model: Name, a: Name, b: Name) {
    && a in known && known[a].collection.Some? && known[a].collection.value == collection
    && (b in known && known[b].collection.Some? && known[b].collection.value == collection ==>
          && known[a].applyOn.Some? && model in known[a].applyOn.value
          && !(known[b].applyOn.Some? && model in known[b].applyOn.value))
  }

  lemma BeatsMeaning(known: Definitions, collection: Name, model: Name)
    ensures forall a, b :: Beats(known, collection, model, a, b) <==>
      && OfCollection(known, collection, a)
      && (OfCollection(known, collection, b) ==> OfModel(known, model, a) && !OfModel(known, model, b))
  {
  }

  ghost predicate Wins(known: Definitions, collection: Name, model: Name, candidates: seq<Name>, a: Name) {
    a in candidates && forall b <- candidates :: b != a ==> Beats(known, collection, model, a, b)
  }

  /** The chosen component is the one that goes before every other candidate; without one there is none to choose. */
  lemma ChoiceIsWinner(known: Definitions, candidates: seq<Name>, collection: Name, model: Name)
    requires Distinct(candidates)
    ensures var choice := Choose(known, candidates, collection, model);
      && (choice.NoComponent? <==> candidates == [])
      && (forall a :: choice == One(a, model) <==> Wins(known, collection, model, candidates, a))
      && (choice.One? ==> choice.model == model)
  {
    hide OfCollection, OfModel;
    if |candidates| > 1 {
      var isOwn := n => OfCollection(known, collection, n);
      var isModel := n => OfModel(known, model, n);
      var own := Filter(candidates, isOwn);
      FilterIs(candidates, isOwn);
      var closest := if |own| > 1 then Filter(own, isModel) else own;
      FilterIs(own, isModel);
      assert Choose(known, candidates, collection, model)
          == if |closest| != 1 then SeveralComponents else One(closest[0], model);
      forall a ensures |closest| == 1 && closest[0] == a <==> Wins(known, collection, model, candidates, a) {
        WinnerIsClosest(known, candidates, own, closest, collection, model, a);
      }
    } else if |candidates| == 1 {
      assert Wins(known, collection, model, candidates, candidates[0]);
    }
  }

  lemma FilterIs(names: seq<Name>, keep: Name -> bool)
    requires Distinct(names)
    ensures Distinct(Filter(names, keep))
    ensures forall a :: a in Filter(names, keep) <==> a in names && keep(a)
  {
    forall a ensures a in Filter(names, keep) <==> a in names && keep(a) {
      FilterKeeps(names, keep, a);
    }
    if names != [] {
      FilterOrdered(names, keep, names[0], names[0]);
    }
  }

  lemma WinnerIsClosest(known: Definitions, candidates: seq<Name>, own: seq<Name>, closest: seq<Name>,
                        collection: Name, model: Name, a: Name)
    requires Distinct(candidates) && Distinct(own) && Distinct(closest) && |candidates| > 1
    requires forall b :: b in own <==> b in candidates && OfCollection(known, collection, b)
    requires if |own| > 1 then forall b :: b in closest <==> b in own && OfModel(known, model, b) else closest == own
    ensures |closest| == 1 && closest[0] == a <==> Wins(known, collection, model, candidates, a)
  {
    hide OfCollection, OfModel, Beats;
    BeatsMeaning(known, collection, model);
    assert candidates[0] != candidates[1];
    if Wins(known, collection, model, candidates, a) {
      var other := if candidates[0] == a then candidates[1] else candidates[0];
      assert Beats(known, collection, model, a, other);
      assert a in own;
      if |own| > 1 {
        var b := if own[0] == a then own[1] else own[0];
        assert b in own && Beats(known, collection, model, a, b);
        assert a in closest;
      }
      OnlyOne(closest, a);
    }
    if |closest| == 1 && closest[0] == a {
      assert a in closest;
      if |own| <= 1 { assert own == [a]; }
    }
  }

  lemma OnlyOne(names: seq<Name>, a: Name)
    requires Distinct(names) && a in names && forall b <- names :: b == a
    ensures names == [a]
  {
    assert names[0] in names && names[|names| - 1] in names;
  }

  /** The choice does not depend on the order of the candidates. */
  lemma ChoiceIgnoresOrder(known: Definitions, a: seq<Name>, b: seq<Name>, collection: Name, model: Name)
    requires Distinct(a) && Distinct(b) && forall name :: name in a <==> name in b
    ensures Choose(known, a, collection, model) == Choose(known, b, collection, model)
  {
    ChoiceIsWinner(known, a, collection, model);
    ChoiceIsWinner(known, b, collection, model);
    if a != [] { assert a[0] in b; }
    if b != [] { assert b[0] in a; }
    forall name ensures Wins(known, collection, model, a, name) <==> Wins(known, collection, model, b, name) {
    }
  }

  /** Registering the same components in another order does not change the choice. */
  lemma ChoiceIgnoresRegistration(s: State, s': State, q: Query, matches: Name -> bool, collection: Name, model: Name)
    requires Valid(s) && Valid(s') && s.known == s'.known
    requires forall name :: name in s.order <==> name in s'.order
    ensures Choose(s.known, Filter(Found(s, q), matches), collection, model)
         == Choose(s.known, Filter(Found(s', q), matches), collection, model)
  {
    hide Asked;
    var keep := name => IsAsked(s.known, q, name);
    FilterIs(s.order, keep);
    FilterIs(s'.order, keep);
    FilterIs(Found(s, q), matches);
    FilterIs(Found(s', q), matches);
    ChoiceIgnoresOrder(s.known, Filter(Found(s, q), matches), Filter(Found(s', q), matches), collection, model);
  }

  class WorkContext {
    const collection: Name
    const model: Name
    const registry: Registry

    constructor (collection: Name, model: Name, registry: Registry)
      ensures this.collection == collection && this.model == model && this.registry == registry
    {
      this.collection, this.model, this.registry := collection, model, registry;
    }

    /** Chooses a component for a usage; `matches` is what each class says about this context. */
    method Component(usage: Option<Name>, modelName: Option<Name>, matches: Name -> bool, evicted: set<Query>)
      returns (choice: Choice)
      requires Valid(registry.Value())
      modifies registry`cache
      ensures Valid(registry.Value())
      ensures var model := if modelName.Some? then modelName.value else this.model;
        var q := Query(Some(collection), usage, Some(model));
        && registry.Value() == Looked(old(registry.Value()), q, evicted)
        && choice == Choose(registry.known, Filter(Answer(old(registry.Value()), q), matches), collection, model)
    {
      var model := if modelName.Some? then modelName.value else this.model;
      var found := registry.Lookup(Query(Some(collection), usage, Some(model)), evicted);
      var candidates := Filter(found, matches);
      if candidates == [] {
        return NoComponent;
      }
      var known := registry.known;
      if |candidates| > 1 {
        candidates := Filter(candidates, n => OfCollection(known, collection, n));
      }
      if |candidates| > 1 {
        candidates := Filter(candidates, n => OfModel(known, model, n));
      }
      if |candidates| != 1 {
        return SeveralComponents;
      }
      choice := One(candidates[0], model);
    }
  }
}
