/**
 * Class registration in a backend, and the choice of the classes that stand in
 * for the registered ones.
 *
 * An entry is identified by its position in the order of creation.  An entry that
 * replaces another one is appended to the other's list, so lists only ever point
 * to later entries.
 */
module BackendClasses {

  import opened Options
  import opened FiniteSums

  type ClassId = int
  type ModuleId = int

  datatype Entry = Entry(cls: ClassId, home: ModuleId, replacedBy: seq<nat>)

  /** All entries ever created, and those the backend lists. */
  datatype Registry = Registry(entries: seq<Entry>, listed: seq<nat>)

  ghost predicate Between(entries: seq<nat>, low: nat, high: nat) {
    forall i :: 0 <= i < |entries| ==> low <= entries[i] < high
  }

  ghost predicate Valid(r: Registry) {
    && Between(r.listed, 0, |r.entries|)
    && forall x :: 0 <= x < |r.entries| ==> Between(r.entries[x].replacedBy, x + 1, |r.entries|)
  }

  // ---------------------------------------------------------------- registration

  /** The first listed entry of a class. */
  function FirstEntry(r: Registry, listed: seq<nat>, cls: ClassId): (x: Option<nat>)
    ensures x.Some? ==> x.value in listed && x.value < |r.entries| && r.entries[x.value].cls == cls
    ensures x.None? ==> forall y <- listed :: y < |r.entries| ==> r.entries[y].cls != cls
  {
    if listed == [] then None
    else if listed[0] < |r.entries| && r.entries[listed[0]].cls == cls then Some(listed[0])
    else FirstEntry(r, listed[1..], cls)
  }

  function AddReplacement(r: Registry, x: nat, entry: nat): Registry
    requires x < |r.entries|
  {
    r.(entries := r.entries[x := r.entries[x].(replacedBy := r.entries[x].replacedBy + [entry])])
  }

  datatype Replacing = Nothing | One(cls: ClassId) | Many(classes: seq<ClassId>)

  /** The classes replaced one after the other, up to the first that is not listed. */
  function ReplaceAll(r: Registry, entry: nat, classes: seq<ClassId>): (Registry, bool)
    decreases |classes|
  {
    if classes == [] then (r, true)
    else match FirstEntry(r, r.listed, classes[0])
      case None => (r, false)
      case Some(x) => ReplaceAll(AddReplacement(r, x, entry), entry, classes[1..])
  }

  function Classes(replacing: Replacing): seq<ClassId> {
    match replacing
    case Nothing => []
    case One(cls) => [cls]
    case Many(classes) => classes
  }

  /** The registry after a registration, and whether it raised no error. */
  function Register(r: Registry, cls: ClassId, home: ModuleId, replacing: Replacing): (Registry, bool) {
    if replacing == One(cls) then (r, false)
    else
      var entry := |r.entries|;
      var (r', ok) := ReplaceAll(r.(entries := r.entries + [Entry(cls, home, [])]), entry, Classes(replacing));
      (if ok then r'.(listed := r'.listed + [entry]) else r', ok)
  }

  class Backend {
    var registry: Registry

    constructor ()
      ensures registry == Registry([], [])
    {
      registry := Registry([], []);
    }

    method RegisterClass(cls: ClassId, home: ModuleId, replacing: Replacing) returns (ok: bool)
      modifies this
      ensures (registry, ok) == Register(old(registry), cls, home, replacing)
    {
      if replacing == One(cls) { return false; }
      var entry := |registry.entries|;
      registry := registry.(entries := registry.entries + [Entry(cls, home, [])]);
      var classes := Classes(replacing);
      ghost var start := registry;
      for i := 0 to |classes|
        invariant ReplaceAll(registry, entry, classes[i..]) == ReplaceAll(start, entry, classes)
      {
        var found := FirstEntry(registry, registry.listed, classes[i]);
        if found.None? { return false; }
        registry := AddReplacement(registry, found.value, entry);
      }
      assert classes[|classes|..] == [];
      registry := registry.(listed := registry.listed + [entry]);
      ok := true;
    }
  }

  lemma {:induction false} ReplaceAllValid(r: Registry, entry: nat, classes: seq<ClassId>)
    requires Valid(r) && entry == |r.entries| - 1 && Between(r.listed, 0, entry)
    ensures var r' := ReplaceAll(r, entry, classes).0;
            Valid(r') && |r'.entries| == |r.entries| && r'.listed == r.listed
    decreases |classes|
  {
    if classes != [] {
      var found := FirstEntry(r, r.listed, classes[0]);
      if found.Some? {
        ReplaceAllValid(AddReplacement(r, found.value, entry), entry, classes[1..]);
      }
    }
  }

  /** Replacement lists keep pointing forward, even after a registration that raised an error halfway. */
  lemma RegisterValid(r: Registry, cls: ClassId, home: ModuleId, replacing: Replacing)
    requires Valid(r)
    ensures Valid(Register(r, cls, home, replacing).0)
  {
    if replacing != One(cls) {
      ReplaceAllValid(r.(entries := r.entries + [Entry(cls, home, [])]), |r.entries|, Classes(replacing));
    }
  }

  // ---------------------------------------------------------------- lookup

  /** The installed modules, and the classes that match what is asked for. */
  datatype Query = Query(installed: set<ModuleId>, matching: set<ClassId>)

  predicate Active(r: Registry, q: Query, x: nat) {
    x < |r.entries| && r.entries[x].home in q.installed && r.entries[x].cls in q.matching
  }

  /** The candidates among some entries, all from position `low` on. */
  function FollowReplacing(r: Registry, q: Query, entries: seq<nat>, ghost low: nat): set<ClassId>
    requires Valid(r) && low <= |r.entries| && Between(entries, low, |r.entries|)
    decreases |r.entries| - low, |entries|
  {
    if entries == [] then {}
    else
      var x := entries[0];
      var replacings := FollowReplacing(r, q, r.entries[x].replacedBy, x + 1);
      var candidates := if replacings == {} && Active(r, q, x) then {r.entries[x].cls} else replacings;
      candidates + FollowReplacing(r, q, entries[1..], low)
  }

  /** y is x, or replaces it directly or through others. */
  ghost predicate Reaches(r: Registry, x: nat, y: nat)
    requires Valid(r)
    decreases |r.entries| - x
  {
    && x < |r.entries|
    && (x == y || exists z: nat :: z in r.entries[x].replacedBy && Reaches(r, z, y))
  }

  ghost predicate ReachedFrom(r: Registry, entries: seq<nat>, y: nat)
    requires Valid(r)
  {
    exists x: nat :: x in entries && Reaches(r, x, y)
  }

  /** An active entry that no active entry replaces, directly or not. */
  ghost predicate Standing(r: Registry, q: Query, y: nat)
    requires Valid(r)
  {
    && Active(r, q, y)
    && forall z: nat :: ReachedFrom(r, r.entries[y].replacedBy, z) ==> !Active(r, q, z)
  }

  lemma {:induction false} ReachesLater(r: Registry, x: nat, y: nat)
    requires Valid(r) && Reaches(r, x, y)
    ensures x <= y < |r.entries|
    decreases |r.entries| - x
  {
    if x != y {
      var z :| z in r.entries[x].replacedBy && Reaches(r, z, y);
      ReachesLater(r, z, y);
    }
  }

  lemma {:induction false} ReachesTransitive(r: Registry, x: nat, y: nat, z: nat)
    requires Valid(r) && Reaches(r, x, y) && Reaches(r, y, z)
    ensures Reaches(r, x, z)
    decreases |r.entries| - x
  {
    if x != y {
      var w :| w in r.entries[x].replacedBy && Reaches(r, w, y);
      ReachesTransitive(r, w, y, z);
    }
  }

  /** No candidate is found exactly when no active entry is reached. */
  lemma {:induction false} FollowNone(r: Registry, q: Query, entries: seq<nat>, low: nat)
    requires Valid(r) && low <= |r.entries| && Between(entries, low, |r.entries|)
    ensures FollowReplacing(r, q, entries, low) == {} <==> forall y: nat :: ReachedFrom(r, entries, y) ==> !Active(r, q, y)
    decreases |r.entries| - low, |entries|
  {
    if entries != [] {
      var x, rest := entries[0], entries[1..];
      FollowNone(r, q, r.entries[x].replacedBy, x + 1);
      FollowNone(r, q, rest, low);
      forall y: nat ensures ReachedFrom(r, entries, y)
                  <==> x == y || ReachedFrom(r, r.entries[x].replacedBy, y) || ReachedFrom(r, rest, y) {
        ReachedSplit(r, entries, y);
      }
    }
  }

  lemma ReachedSplit(r: Registry, entries: seq<nat>, y: nat)
    requires Valid(r) && entries != [] && entries[0] < |r.entries|
    ensures ReachedFrom(r, entries, y)
       <==> entries[0] == y || ReachedFrom(r, r.entries[entries[0]].replacedBy, y) || ReachedFrom(r, entries[1..], y)
  {
    var x, rest := entries[0], entries[1..];
    assert entries == [x] + rest;
    assert Reaches(r, x, y) <==> x == y || ReachedFrom(r, r.entries[x].replacedBy, y);
    if ReachedFrom(r, entries, y) && !ReachedFrom(r, rest, y) {
      var z :| z in entries && Reaches(r, z, y);
      assert z == x;
    }
    if Reaches(r, x, y) { assert x in entries; }
    if ReachedFrom(r, rest, y) {
      var z :| z in rest && Reaches(r, z, y);
      assert z in entries;
    }
  }

  /** The classes of the standing entries that are reached. */
  ghost predicate StandsFor(r: Registry, q: Query, entries: seq<nat>, cls: ClassId)
    requires Valid(r)
  {
    exists y: nat :: ReachedFrom(r, entries, y) && Standing(r, q, y) && r.entries[y].cls == cls
  }

  // ---------------------------------------------------------------- what a registration does

  /** The classes a registration says it replaces. */
  ghost predicate Names(replacing: Replacing, cls: ClassId) {
    replacing == One(cls) || (replacing.Many? && cls in replacing.classes)
  }

  /** The entry is the first listed one of a class. */
  ghost predicate IsFirst(r: Registry, x: nat, cls: ClassId) {
    exists j :: 0 <= j < |r.listed| && r.listed[j] == x && x < |r.entries| && r.entries[x].cls == cls
      && forall i :: 0 <= i < j && r.listed[i] < |r.entries| ==> r.entries[r.listed[i]].cls != cls
  }

  lemma {:induction false} FirstEntryIsFirst(r: Registry, cls: ClassId, n: nat)
    requires n <= |r.listed|
    requires forall i :: 0 <= i < n && r.listed[i] < |r.entries| ==> r.entries[r.listed[i]].cls != cls
    ensures var x := FirstEntry(r, r.listed[n..], cls);
      && (x.Some? ==> IsFirst(r, x.value, cls))
      && (x.None? ==> forall y: nat :: !IsFirst(r, y, cls))
    decreases |r.listed| - n
  {
    if n < |r.listed| {
      var x := r.listed[n];
      assert r.listed[n..][0] == x && r.listed[n..][1..] == r.listed[n + 1..];
      if !(x < |r.entries| && r.entries[x].cls == cls) { FirstEntryIsFirst(r, cls, n + 1); }
    }
  }

  lemma FirstUnique(r: Registry, x: nat, y: nat, cls: ClassId)
    requires IsFirst(r, x, cls) && IsFirst(r, y, cls)
    ensures x == y
  {
  }

  /** An entry that some registrations by one new entry may have been added to. */
  ghost predicate Extended(old_: Entry, new_: Entry, entry: nat, replaced: bool) {
    && new_.cls == old_.cls && new_.home == old_.home
    && old_.replacedBy <= new_.replacedBy
    && (forall j :: |old_.replacedBy| <= j < |new_.replacedBy| ==> new_.replacedBy[j] == entry)
    && (replaced <==> |old_.replacedBy| < |new_.replacedBy|)
  }

  ghost predicate ReplacedAmong(r: Registry, x: nat, classes: seq<ClassId>) {
    exists cls <- classes :: IsFirst(r, x, cls)
  }

  /** The first listed entries do not depend on the replacement lists. */
  lemma FirstSame(r: Registry, r': Registry, x: nat, cls: ClassId)
    requires r'.listed == r.listed && |r'.entries| == |r.entries|
    requires forall y :: 0 <= y < |r.entries| ==> r'.entries[y].cls == r.entries[y].cls
    ensures IsFirst(r', x, cls) <==> IsFirst(r, x, cls)
  {
  }

  /** Some listed entry is of the class. */
  ghost predicate Registered(r: Registry, cls: ClassId) {
    exists x: nat :: IsFirst(r, x, cls)
  }

  /** Recording a replacement changes no first listed entry. */
  lemma ReplacementKeepsFirst(r: Registry, x: nat, entry: nat)
    requires x < |r.entries|
    ensures forall y: nat, cls :: IsFirst(AddReplacement(r, x, entry), y, cls) <==> IsFirst(r, y, cls)
    ensures forall cls :: Registered(AddReplacement(r, x, entry), cls) <==> Registered(r, cls)
  {
    var r' := AddReplacement(r, x, entry);
    forall y: nat, cls ensures IsFirst(r', y, cls) <==> IsFirst(r, y, cls) { FirstSame(r, r', y, cls); }
    hide IsFirst;
    forall cls ensures Registered(r', cls) <==> Registered(r, cls) {
      if y: nat :| IsFirst(r, y, cls) { assert IsFirst(r', y, cls); }
    }
  }

  lemma FoundFirst(r: Registry, cls: ClassId)
    ensures var x := FirstEntry(r, r.listed, cls);
      (x.Some? ==> IsFirst(r, x.value, cls)) && (x.Some? <==> Registered(r, cls))
  {
    FirstEntryIsFirst(r, cls, 0);
    assert r.listed[0..] == r.listed;
    hide IsFirst, FirstEntry;
  }

  /** Recording replacements stops at the first class that is not listed. */
  lemma {:induction false} ReplaceAllSucceeds(r: Registry, entry: nat, classes: seq<ClassId>)
    ensures ReplaceAll(r, entry, classes).1 <==> forall k :: 0 <= k < |classes| ==> Registered(r, classes[k])
    ensures ReplaceAll(r, entry, classes).0.listed == r.listed
    ensures |ReplaceAll(r, entry, classes).0.entries| == |r.entries|
    decreases |classes|
  {
    hide Registered, FirstEntry;
    if classes != [] {
      FoundFirst(r, classes[0]);
      var found := FirstEntry(r, r.listed, classes[0]);
      if found.Some? {
        ReplacementKeepsFirst(r, found.value, entry);
        ReplaceAllSucceeds(AddReplacement(r, found.value, entry), entry, classes[1..]);
        assert forall k :: 0 < k < |classes| ==> classes[k] == classes[1..][k - 1];
      }
    }
  }

  lemma ReplacedSplit(r: Registry, r1: Registry, x: nat, first: nat, classes: seq<ClassId>)
    requires classes != [] && IsFirst(r, first, classes[0])
    requires forall y: nat, cls :: IsFirst(r1, y, cls) <==> IsFirst(r, y, cls)
    ensures ReplacedAmong(r, x, classes) <==> x == first || ReplacedAmong(r1, x, classes[1..])
  {
    assert classes == [classes[0]] + classes[1..];
    if ReplacedAmong(r, x, classes) {
      var c :| c in classes && IsFirst(r, x, c);
      if c == classes[0] { FirstUnique(r, x, first, c); }
    }
    hide IsFirst;
  }

  /** Each class adds the new entry to the list of its first listed entry, and to no other. */
  lemma {:induction false} ReplaceAllExtends(r: Registry, entry: nat, classes: seq<ClassId>, x: nat)
    requires ReplaceAll(r, entry, classes).1 && x < |r.entries| && |ReplaceAll(r, entry, classes).0.entries| == |r.entries|
    ensures Extended(r.entries[x], ReplaceAll(r, entry, classes).0.entries[x], entry, ReplacedAmong(r, x, classes))
    decreases |classes|
  {
    hide Registered, FirstEntry, IsFirst, ReplacedAmong;
    if classes == [] {
      NoneReplaced(r, x);
    } else {
      FoundFirst(r, classes[0]);
      var found := FirstEntry(r, r.listed, classes[0]);
      var r1 := AddReplacement(r, found.value, entry);
      ReplacementKeepsFirst(r, found.value, entry);
      ReplaceAllExtends(r1, entry, classes[1..], x);
      ReplacedSplit(r, r1, x, found.value, classes);
    }
  }

  lemma NoneReplaced(r: Registry, x: nat)
    ensures !ReplacedAmong(r, x, [])
  {
  }

  /** The entry is the first listed one of a class that a registration replaces. */
  ghost predicate Replaced(r: Registry, replacing: Replacing, x: nat) {
    exists cls :: Names(replacing, cls) && IsFirst(r, x, cls)
  }

  /** The new entry is not listed while replacements are recorded. */
  lemma UnlistedEntry(r: Registry, entry: Entry, replacing: Replacing, x: nat, cls: ClassId)
    requires Valid(r)
    ensures var start := r.(entries := r.entries + [entry]);
      && (ReplacedAmong(start, x, Classes(replacing)) <==> Replaced(r, replacing, x))
      && (Registered(start, cls) <==> Registered(r, cls))
      && (ReplacedAmong(start, x, Classes(replacing)) ==> x < |r.entries|)
  {
    var start := r.(entries := r.entries + [entry]);
    forall y: nat, c ensures (IsFirst(start, y, c) <==> IsFirst(r, y, c)) && (IsFirst(start, y, c) ==> y < |r.entries|) {
      NewNotFirst(r, start, y, c);
    }
    hide IsFirst;
    forall c ensures Names(replacing, c) <==> c in Classes(replacing) {}
    hide Names;
    if y: nat :| IsFirst(r, y, cls) { assert IsFirst(start, y, cls); }
  }

  lemma RegisterSucceeds(r: Registry, cls: ClassId, home: ModuleId, replacing: Replacing)
    requires Valid(r)
    ensures var (r', ok) := Register(r, cls, home, replacing);
      && (ok <==> replacing != One(cls) && forall c :: Names(replacing, c) ==> Registered(r, c))
      && r'.listed == if ok then r.listed + [|r.entries|] else r.listed
  {
    var start, classes := r.(entries := r.entries + [Entry(cls, home, [])]), Classes(replacing);
    forall c ensures Registered(start, c) <==> Registered(r, c) {
      UnlistedEntry(r, Entry(cls, home, []), replacing, 0, c);
    }
    ReplaceAllSucceeds(start, |r.entries|, classes);
    forall c ensures Names(replacing, c) <==> c in classes {}
    hide Registered, ReplaceAll, Names;
    assert forall k :: 0 <= k < |classes| ==> classes[k] in classes;
  }

  lemma RegisterEntry(r: Registry, cls: ClassId, home: ModuleId, replacing: Replacing, x: nat)
    requires Valid(r) && Register(r, cls, home, replacing).1 && x <= |r.entries|
    ensures var r' := Register(r, cls, home, replacing).0;
      && |r'.entries| == |r.entries| + 1
      && (x < |r.entries| ==> Extended(r.entries[x], r'.entries[x], |r.entries|, Replaced(r, replacing, x)))
      && (x == |r.entries| ==> r'.entries[x] == Entry(cls, home, []))
  {
    var start, classes := r.(entries := r.entries + [Entry(cls, home, [])]), Classes(replacing);
    hide ReplaceAll, ReplacedAmong, Replaced;
    ReplaceAllSucceeds(start, |r.entries|, classes);
    ReplaceAllExtends(start, |r.entries|, classes, x);
    UnlistedEntry(r, Entry(cls, home, []), replacing, x, cls);
  }

  /**
   * A registration raises an error exactly when a class replaces itself alone or one
   * that is not listed.  Otherwise the new entry is listed last, and the first listed
   * entry of each class it replaces, and no other entry, has it in its list.
   */
  lemma RegisterMeaning(r: Registry, cls: ClassId, home: ModuleId, replacing: Replacing)
    requires Valid(r)
    ensures var (r', ok) := Register(r, cls, home, replacing);
      && (ok <==> replacing != One(cls) && forall c :: Names(replacing, c) ==> Registered(r, c))
      && r'.listed == (if ok then r.listed + [|r.entries|] else r.listed)
      && (ok ==>
            && |r'.entries| == |r.entries| + 1
            && r'.entries[|r.entries|] == Entry(cls, home, [])
            && forall x: nat :: x < |r.entries| ==>
                 Extended(r.entries[x], r'.entries[x], |r.entries|, Replaced(r, replacing, x)))
  {
    hide *;
    RegisterSucceeds(r, cls, home, replacing);
    if Register(r, cls, home, replacing).1 {
      RegisterEntry(r, cls, home, replacing, |r.entries|);
      forall x: nat | x < |r.entries|
        ensures Extended(r.entries[x], Register(r, cls, home, replacing).0.entries[x], |r.entries|, Replaced(r, replacing, x)) {
        RegisterEntry(r, cls, home, replacing, x);
      }
    }
  }

  /** A class that was replaced no longer stands while the class that replaces it is active. */
  lemma ReplacedSteps(r: Registry, q: Query, cls: ClassId, home: ModuleId, replacing: Replacing, x: nat)
    requires Valid(r) && Register(r, cls, home, replacing).1 && Replaced(r, replacing, x) && x < |r.entries|
    requires home in q.installed && cls in q.matching
    ensures Valid(Register(r, cls, home, replacing).0) && !Standing(Register(r, cls, home, replacing).0, q, x)
  {
    hide Register, Replaced, Standing, Reaches, ReachedFrom, Active, Valid;
    RegisterValid(r, cls, home, replacing);
    RegisterEntry(r, cls, home, replacing, x);
    RegisterEntry(r, cls, home, replacing, |r.entries|);
    var r' := Register(r, cls, home, replacing).0;
    var was, now := r.entries[x].replacedBy, r'.entries[x].replacedBy;
    assert now[|was|] in now;
    ReplacedDoesNotStand(r', q, x, |r.entries|);
  }

  lemma NewNotFirst(r: Registry, start: Registry, x: nat, cls: ClassId)
    requires Valid(r) && start.listed == r.listed && r.entries <= start.entries
    ensures IsFirst(start, x, cls) <==> IsFirst(r, x, cls)
    ensures IsFirst(start, x, cls) ==> x < |r.entries|
  {
  }

  /** An entry with an active one in its list does not stand. */
  lemma ReplacedDoesNotStand(r: Registry, q: Query, x: nat, entry: nat)
    requires Valid(r) && x < |r.entries| && entry in r.entries[x].replacedBy && entry < |r.entries|
    requires r.entries[entry].home in q.installed && r.entries[entry].cls in q.matching
    ensures !Standing(r, q, x)
  {
    assert Reaches(r, entry, entry);
    assert ReachedFrom(r, r.entries[x].replacedBy, entry);
  }

  // ---------------------------------------------------------------- what a lookup finds

  /** The candidates are exactly the classes of the active entries without an active replacement below them. */
  lemma {:induction false} FollowExact(r: Registry, q: Query, entries: seq<nat>, low: nat)
    requires Valid(r) && low <= |r.entries| && Between(entries, low, |r.entries|)
    ensures forall cls :: cls in FollowReplacing(r, q, entries, low) <==> StandsFor(r, q, entries, cls)
    decreases |r.entries| - low, |entries|
  {
    if entries == [] {
      forall y: nat ensures !ReachedFrom(r, entries, y) {}
    } else {
      var x, rest := entries[0], entries[1..];
      FollowExact(r, q, r.entries[x].replacedBy, x + 1);
      FollowExact(r, q, rest, low);
      forall cls ensures StandsFor(r, q, entries, cls)
                    <==> StandsFor(r, q, r.entries[x].replacedBy, cls) || StandsFor(r, q, rest, cls)
                         || (Standing(r, q, x) && r.entries[x].cls == cls) {
        StandsForSplit(r, q, entries, cls);
      }
      FollowNone(r, q, r.entries[x].replacedBy, x + 1);
      StandingAlone(r, q, x);
    }
  }

  lemma StandsForSplit(r: Registry, q: Query, entries: seq<nat>, cls: ClassId)
    requires Valid(r) && entries != [] && entries[0] < |r.entries|
    ensures StandsFor(r, q, entries, cls)
       <==> StandsFor(r, q, r.entries[entries[0]].replacedBy, cls) || StandsFor(r, q, entries[1..], cls)
            || (Standing(r, q, entries[0]) && r.entries[entries[0]].cls == cls)
  {
    var x, rest := entries[0], entries[1..];
    var below := r.entries[x].replacedBy;
    hide Reaches, Standing, ReachedFrom;
    forall y: nat ensures ReachedFrom(r, entries, y) <==> x == y || ReachedFrom(r, below, y) || ReachedFrom(r, rest, y) {
      ReachedSplit(r, entries, y);
    }
    if StandsFor(r, q, entries, cls) {
      var y: nat :| ReachedFrom(r, entries, y) && Standing(r, q, y) && r.entries[y].cls == cls;
    }
    if StandsFor(r, q, below, cls) {
      var y: nat :| ReachedFrom(r, below, y) && Standing(r, q, y) && r.entries[y].cls == cls;
      assert ReachedFrom(r, entries, y);
    }
    if StandsFor(r, q, rest, cls) {
      var y: nat :| ReachedFrom(r, rest, y) && Standing(r, q, y) && r.entries[y].cls == cls;
      assert ReachedFrom(r, entries, y);
    }
    if Standing(r, q, x) && r.entries[x].cls == cls {
      assert ReachedFrom(r, entries, x);
    }
  }

  lemma StandingAlone(r: Registry, q: Query, x: nat)
    requires Valid(r) && x < |r.entries|
    ensures Standing(r, q, x)
       <==> Active(r, q, x) && forall z: nat :: ReachedFrom(r, r.entries[x].replacedBy, z) ==> !Active(r, q, z)
  {
  }

  // ---------------------------------------------------------------- parents

  /** The classes of the nearest backend that has any, from the backend itself up through its parents. */
  function GetClasses(chain: seq<Registry>, q: Query): set<ClassId>
    requires forall r <- chain :: Valid(r)
  {
    if chain == [] then {}
    else
      var matching := FollowReplacing(chain[0], q, chain[0].listed, 0);
      if matching == {} then GetClasses(chain[1..], q) else matching
  }

  /** Whether a backend has an active entry. */
  ghost predicate HasActive(r: Registry, q: Query)
    requires Valid(r)
  {
    exists y: nat :: ReachedFrom(r, r.listed, y) && Active(r, q, y)
  }

  /**
   * The answer is that of the nearest backend with an active entry: its active
   * entries that no active entry replaces.
   */
  lemma {:induction false} GetClassesNearest(chain: seq<Registry>, q: Query, k: nat)
    requires forall r <- chain :: Valid(r)
    requires k < |chain| && HasActive(chain[k], q) && forall j :: 0 <= j < k ==> !HasActive(chain[j], q)
    ensures forall cls :: cls in GetClasses(chain, q) <==> StandsFor(chain[k], q, chain[k].listed, cls)
    ensures GetClasses(chain, q) != {}
    decreases |chain|
  {
    var r := chain[0];
    FollowNone(r, q, r.listed, 0);
    if k == 0 {
      FollowExact(r, q, r.listed, 0);
    } else {
      assert !HasActive(chain[0], q);
      forall j | 0 <= j < k - 1 ensures !HasActive(chain[1..][j], q) {
        assert chain[1..][j] == chain[j + 1];
      }
      GetClassesNearest(chain[1..], q, k - 1);
    }
  }

  datatype Found = NoUnit | Several | Unit(cls: ClassId)

  /** One class stands in, or the lookup fails. */
  ghost function GetClass(chain: seq<Registry>, q: Query): (found: Found)
    requires forall r <- chain :: Valid(r)
    ensures found.NoUnit? <==> GetClasses(chain, q) == {}
    ensures found.Unit? ==> GetClasses(chain, q) == {found.cls}
    ensures found.Several? <==> |GetClasses(chain, q)| > 1
  {
    var matching := GetClasses(chain, q);
    if matching == {} then NoUnit
    else
      var cls := AnyOf(matching);
      assert matching == {cls} || |matching - {cls}| > 0;
      if |matching| == 1 then Unit(cls) else Several
  }

  /** Nothing is found exactly when neither the backend nor any parent has an active entry. */
  lemma {:induction false} NoUnitIffNoneActive(chain: seq<Registry>, q: Query)
    requires forall r <- chain :: Valid(r)
    ensures GetClass(chain, q) == NoUnit <==> forall k :: 0 <= k < |chain| ==> !HasActive(chain[k], q)
    decreases |chain|
  {
    if k: nat :| k < |chain| && HasActive(chain[k], q) && forall j :: 0 <= j < k ==> !HasActive(chain[j], q) {
      GetClassesNearest(chain, q, k);
    } else {
      NoneIsFirst(chain, q, |chain|);
      NoClasses(chain, q);
    }
  }

  lemma {:induction false} NoneIsFirst(chain: seq<Registry>, q: Query, n: nat)
    requires n <= |chain| && forall r <- chain :: Valid(r)
    requires forall k: nat :: k < |chain| && HasActive(chain[k], q) ==> exists j :: 0 <= j < k && HasActive(chain[j], q)
    ensures forall k: nat :: k < n ==> !HasActive(chain[k], q)
  {
    if n > 0 { NoneIsFirst(chain, q, n - 1); }
  }

  lemma {:induction false} NoClasses(chain: seq<Registry>, q: Query)
    requires forall r <- chain :: Valid(r)
    requires forall k :: 0 <= k < |chain| ==> !HasActive(chain[k], q)
    ensures GetClasses(chain, q) == {}
    decreases |chain|
  {
    if chain != [] {
      assert !HasActive(chain[0], q);
      FollowNone(chain[0], q, chain[0].listed, 0);
      forall k | 0 <= k < |chain[1..]| ensures !HasActive(chain[1..][k], q) {
        assert chain[1..][k] == chain[k + 1];
      }
      NoClasses(chain[1..], q);
    }
  }

  /** A class that is found matches what is asked for, and comes from an entry of an installed module. */
  lemma {:induction false} FoundMatches(chain: seq<Registry>, q: Query, cls: ClassId)
    requires (forall r <- chain :: Valid(r)) && cls in GetClasses(chain, q)
    ensures cls in q.matching
    ensures exists k: nat, y: nat ::
      && k < |chain|
      && y < |chain[k].entries|
      && chain[k].entries[y].cls == cls
      && chain[k].entries[y].home in q.installed
    decreases |chain|
  {
    var r := chain[0];
    assert r in chain;
    FollowExact(r, q, r.listed, 0);
    if FollowReplacing(r, q, r.listed, 0) == {} {
      FoundMatches(chain[1..], q, cls);
      var k: nat, y: nat :|
        && k < |chain[1..]|
        && y < |chain[1..][k].entries|
        && chain[1..][k].entries[y].cls == cls
        && chain[1..][k].entries[y].home in q.installed;
      assert chain[k + 1] == chain[1..][k];
    } else {
      var y: nat :| ReachedFrom(r, r.listed, y) && Standing(r, q, y) && r.entries[y].cls == cls;
      assert y < |chain[0].entries|;
    }
  }

  /** A listed entry that nothing replaces is found when its module is installed and its class matches. */
  lemma PlainEntryFound(chain: seq<Registry>, q: Query, x: nat)
    requires chain != [] && (forall r <- chain :: Valid(r)) && x in chain[0].listed
    requires x < |chain[0].entries| && chain[0].entries[x].replacedBy == []
    requires chain[0].entries[x].home in q.installed && chain[0].entries[x].cls in q.matching
    ensures chain[0].entries[x].cls in GetClasses(chain, q)
  {
    var r := chain[0];
    assert r in chain;
    FollowExact(r, q, r.listed, 0);
    assert Reaches(r, x, x);
    assert ReachedFrom(r, r.listed, x) && Standing(r, q, x);
  }
}
