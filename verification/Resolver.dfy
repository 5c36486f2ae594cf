/** Turning a change set into an ordered plan. Conditional changes join the
    plan only when a change that has to act names them as "before change". */
module Resolver {
  import opened Wrappers
  import opened ChangeSet
  import opened Graphs

  type Changes = map<Key, Change>

  datatype Error = Duplicate(key: Key) | Cyclic | NotFound(key: Key)

  datatype Resolution = Plan(changes: seq<Change>) | Failed(error: Error)

  predicate Acts(fs: Fs, c: Change) {
    !ActionOf(fs, c).DoNothing?
  }

  // ---- Collecting the changes ----

  /** The links of a reordering are not part of the comparison. */
  predicate SameState(a: Expected, b: Expected) {
    if a.SymlinksInOrder? then b.SymlinksInOrder? else a == b
  }

  predicate IsSame(a: Change, b: Change) {
    a.path == b.path && SameState(a.expected, b.expected) && a.dependsOn == b.dependsOn && a.ignoreErrors == b.ignoreErrors
  }

  /** The last conditional change of each key. */
  function Conditionals(cs: seq<Change>): Changes {
    if cs == [] then map[]
    else
      var m, last := Conditionals(cs[..|cs| - 1]), cs[|cs| - 1];
      if last.conditional then m[last.key := last] else m
  }

  /** The first unconditional change of each key. */
  function Unconditionals(cs: seq<Change>): Changes {
    if cs == [] then map[]
    else
      var m, last := Unconditionals(cs[..|cs| - 1]), cs[|cs| - 1];
      if last.conditional || last.key in m then m else m[last.key := last]
  }

  /** Two different unconditional changes share a key. */
  predicate Conflict(cs: seq<Change>) {
    cs != [] &&
    var m, last := Unconditionals(cs[..|cs| - 1]), cs[|cs| - 1];
    Conflict(cs[..|cs| - 1]) || (!last.conditional && last.key in m && !IsSame(m[last.key], last))
  }

  predicate WellKeyed(m: Changes) {
    forall k :: k in m ==> m[k].key == k
  }

  lemma {:induction false} CollectedAreWellKeyed(cs: seq<Change>)
    ensures WellKeyed(Conditionals(cs)) && WellKeyed(Unconditionals(cs))
    ensures forall k :: k in Conditionals(cs) ==> Conditionals(cs)[k] in cs && Conditionals(cs)[k].conditional
    ensures forall k :: k in Unconditionals(cs) ==> Unconditionals(cs)[k] in cs && !Unconditionals(cs)[k].conditional
  {
    if cs != [] {
      CollectedAreWellKeyed(cs[..|cs| - 1]);
    }
  }

  // ---- The dependency graph ----

  function DepsOf(m: Changes, extra: map<Key, seq<Key>>, k: Key): set<Key> {
    (if k in m then Elements(m[k].dependsOn) else {}) + (if k in m && k in extra then Elements(extra[k]) else {})
  }

  /** Keys that are only depended on are nodes too. */
  function Graph(m: Changes, extra: map<Key, seq<Key>>): map<Key, set<Key>> {
    map k | k in m.Keys + (set j, d | j in m.Keys && d in DepsOf(m, extra, j) :: d) :: DepsOf(m, extra, k)
  }

  lemma GraphIsGraph(m: Changes, extra: map<Key, seq<Key>>)
    ensures IsGraph(Graph(m, extra))
  {
  }

  /** Every dependency any change could bring in. */
  function BeforeOf(m: Changes): map<Key, seq<Key>> {
    map k | k in m :: m[k].beforeChange
  }

  function FullGraph(all: Changes): map<Key, set<Key>> {
    Graph(all, BeforeOf(all))
  }

  /** A cycle is still one when there are more changes and dependencies. */
  lemma CycleInLarger(m: Changes, extra: map<Key, seq<Key>>, m': Changes, extra': map<Key, seq<Key>>, c: seq<Key>)
    requires forall k :: k in m ==> k in m' && DepsOf(m, extra, k) <= DepsOf(m', extra', k)
    requires IsCycle(Graph(m, extra), c)
    ensures IsCycle(Graph(m', extra'), c)
  {
    var g, g' := Graph(m, extra), Graph(m', extra');
    assert forall k :: DepsOf(m, extra, k) <= DepsOf(m', extra', k);
    forall k | k in g
      ensures k in g' && g[k] <= g'[k]
    {
    }
  }

  lemma CycleInFullGraph(m: Changes, extra: map<Key, seq<Key>>, all: Changes, c: seq<Key>)
    requires forall k :: k in m ==> k in all && all[k] == m[k]
    requires forall k :: k in extra && k in m ==> extra[k] == m[k].beforeChange
    requires IsCycle(Graph(m, extra), c)
    ensures IsCycle(FullGraph(all), c)
  {
    CycleInLarger(m, extra, all, BeforeOf(all), c);
  }

  // ---- The plan ----

  ghost predicate HasKey(plan: seq<Change>, k: Key) {
    exists i :: 0 <= i < |plan| && plan[i].key == k
  }

  ghost function NamedBy(all: Changes, acting: set<Key>): set<Key> {
    set k, d | k in acting && k in all && d in all[k].beforeChange :: d
  }

  /** The changes that are planned when those in `acting` act ... */
  ghost function Planned(u: Changes, c: Changes, acting: set<Key>): Changes {
    map k | k in u.Keys + NamedBy(u + c, acting) && k in u + c :: (u + c)[k]
  }

  ghost function Triggers(u: Changes, c: Changes, acting: set<Key>): map<Key, seq<Key>> {
    map k | k in acting && k in u + c :: (u + c)[k].beforeChange
  }

  /** ... and their dependencies, with the "before change" steps of `acting`. */
  ghost function PlannedGraph(u: Changes, c: Changes, acting: set<Key>): map<Key, set<Key>> {
    Graph(Planned(u, c, acting), Triggers(u, c, acting))
  }

  /** Every change in `acting` is planned and has something to do. */
  ghost predicate OnlyActing(u: Changes, c: Changes, fs: Fs, acting: set<Key>) {
    var all, named := u + c, NamedBy(u + c, acting);
    forall k :: k in acting ==> k in u.Keys + named && k in all && Acts(fs, all[k])
  }

  /** What a successful resolution of the unconditional changes `u` and the
      conditional changes `c` in the state `fs` gives. `acting` are the changes
      found to act in the first pass. */
  ghost predicate IsPlan(u: Changes, c: Changes, fs: Fs, acting: set<Key>, plan: seq<Change>) {
    var all, named := u + c, NamedBy(u + c, acting);
    && (forall k :: k in u && Acts(fs, u[k]) ==> k in acting)
    && OnlyActing(u, c, fs, acting)
    && named <= c.Keys
    // Exactly the unconditional and the named changes, each once ...
    && (forall i, j :: 0 <= i < j < |plan| ==> plan[i].key != plan[j].key)
    && (forall i :: 0 <= i < |plan| ==>
          plan[i].key in u.Keys + named && plan[i].key in all && plan[i] == all[plan[i].key])
    && (forall k :: k in u.Keys + named ==> HasKey(plan, k))
    // ... after everything they depend on and everything they triggered.
    && (forall i, d :: 0 <= i < |plan| && d in plan[i].dependsOn && d in u.Keys + named ==> HasKey(plan[..i], d))
    && (forall i, d :: 0 <= i < |plan| && plan[i].key in acting && d in plan[i].beforeChange ==> HasKey(plan[..i], d))
  }

  /** When conditional changes have no triggers of their own, the plan holds
      the conditional changes named by the acting unconditional ones, no others. */
  lemma NamedByUnconditionals(u: Changes, c: Changes, fs: Fs, acting: set<Key>, plan: seq<Change>, k: Key)
    requires IsPlan(u, c, fs, acting, plan) && u.Keys !! c.Keys && WellKeyed(u) && WellKeyed(c)
    requires forall j :: j in c ==> c[j].beforeChange == []
    ensures k in c && HasKey(plan, k) <==>
            k in c && exists j :: j in u && Acts(fs, u[j]) && k in u[j].beforeChange
  {
    if k in c && HasKey(plan, k) {
      var i :| 0 <= i < |plan| && plan[i].key == k;
      assert k in NamedBy(u + c, acting);
      var j :| j in acting && j in u + c && k in (u + c)[j].beforeChange;
    }
  }

  // ---- Picking the changes in order ----

  function Pick(m: Changes, order: seq<Key>): seq<Change> {
    if order == [] then []
    else
      var r, last := Pick(m, order[..|order| - 1]), order[|order| - 1];
      if last in m then r + [m[last]] else r
  }

  lemma {:induction false} PickHas(m: Changes, order: seq<Key>, k: Key)
    requires WellKeyed(m)
    ensures HasKey(Pick(m, order), k) <==> k in m && k in order
  {
    if order != [] {
      var init, last := order[..|order| - 1], order[|order| - 1];
      PickHas(m, init, k);
      var r, all := Pick(m, init), Pick(m, order);
      if last in m {
        assert all[|r|] == m[last];
        assert forall i :: 0 <= i < |r| ==> all[i] == r[i];
        if HasKey(r, k) {
          var i :| 0 <= i < |r| && r[i].key == k;
          assert all[i].key == k;
        }
      }
    }
  }

  /** The `i`th picked change and what was picked before it. */
  lemma {:induction false} PickAt(m: Changes, order: seq<Key>, i: nat) returns (j: nat)
    requires i < |Pick(m, order)|
    ensures j < |order| && order[j] in m && Pick(m, order)[i] == m[order[j]]
    ensures Pick(m, order)[..i] == Pick(m, order[..j])
  {
    var init, last := order[..|order| - 1], order[|order| - 1];
    if last in m && i == |Pick(m, init)| {
      j := |order| - 1;
    } else {
      j := PickAt(m, init, i);
      assert init[..j] == order[..j];
      assert Pick(m, order)[..i] == Pick(m, init)[..i];
    }
  }

  lemma PickDistinct(m: Changes, order: seq<Key>, i: nat, i': nat)
    requires WellKeyed(m) && Distinct(order) && i < i' < |Pick(m, order)|
    ensures Pick(m, order)[i].key != Pick(m, order)[i'].key
  {
    var plan := Pick(m, order);
    var j := PickAt(m, order, i');
    assert plan[..i'][i] == plan[i];
    assert HasKey(plan[..i'], plan[i].key);
    PickHas(m, order[..j], plan[i].key);
  }

  /** Dependencies come first in the picked list. */
  lemma PickFirst(m: Changes, extra: map<Key, seq<Key>>, order: seq<Key>, i: nat, d: Key)
    requires WellKeyed(m) && IsOrder(Graph(m, extra), order) && i < |Pick(m, order)|
    requires var k := Pick(m, order)[i].key;
             d in Pick(m, order)[i].dependsOn || (k in extra && d in extra[k])
    requires d in m
    ensures HasKey(Pick(m, order)[..i], d)
  {
    var j := PickAt(m, order, i);
    var k := order[j];
    assert d in DepsOf(m, extra, k);
    assert d in Elements(order[..j]);
    PickHas(m, order[..j], d);
  }

  // ---- The first pass ----

  /** The changes found to act among the keys `seen`. */
  ghost predicate ActingSoFar(u: Changes, c: Changes, fs: Fs, seen: seq<Key>, acting: set<Key>) {
    var all, named := u + c, NamedBy(u + c, acting);
    && (forall k :: k in seen && k in u && Acts(fs, u[k]) ==> k in acting)
    && (forall k :: k in acting ==> k in seen && k in u.Keys + named && k in all && Acts(fs, all[k]))
  }

  /** The map and the extra dependencies that go with the acting changes. */
  ghost predicate Gathered(u: Changes, c: Changes, acting: set<Key>, m: Changes, extra: map<Key, seq<Key>>) {
    var all, named := u + c, NamedBy(u + c, acting);
    && named <= c.Keys
    && m.Keys == u.Keys + named
    && (forall k :: k in m ==> m[k] == all[k])
    && extra.Keys <= acting
    && (forall k :: k in acting && k in all && all[k].beforeChange != [] ==> k in extra)
    && (forall k :: k in extra && k in all ==> extra[k] == all[k].beforeChange)
  }

  ghost predicate FirstPass(u: Changes, c: Changes, fs: Fs, seen: seq<Key>, acting: set<Key>,
                            m: Changes, extra: map<Key, seq<Key>>)
  {
    ActingSoFar(u, c, fs, seen, acting) && Gathered(u, c, acting, m, extra)
  }

  lemma FirstPassStart(u: Changes, c: Changes, fs: Fs)
    requires u.Keys !! c.Keys
    ensures FirstPass(u, c, fs, [], {}, u, map[])
  {
    assert NamedBy(u + c, {}) == {};
  }

  lemma FirstPassSkips(u: Changes, c: Changes, fs: Fs, seen: seq<Key>, acting: set<Key>,
                       m: Changes, extra: map<Key, seq<Key>>, k: Key)
    requires FirstPass(u, c, fs, seen, acting, m, extra) && u.Keys !! c.Keys
    requires k in m ==> !Acts(fs, m[k])
    ensures FirstPass(u, c, fs, seen + [k], acting, m, extra)
  {
    assert k in u ==> m[k] == u[k];
  }

  /** The map after `change` has pulled in the changes it names. */
  ghost predicate Triggered(c: Changes, change: Change, m: Changes, extra: map<Key, seq<Key>>,
                            m': Changes, extra': map<Key, seq<Key>>)
  {
    && (forall d :: d in change.beforeChange ==> d in c)
    && m'.Keys == m.Keys + Elements(change.beforeChange)
    && (forall j :: j in m' ==> m'[j] == if j in change.beforeChange then c[j] else m[j])
    && extra' == if change.beforeChange == [] then extra else extra[change.key := change.beforeChange]
  }

  lemma NamedByMore(all: Changes, acting: set<Key>, k: Key)
    requires k in all
    ensures NamedBy(all, acting + {k}) == NamedBy(all, acting) + Elements(all[k].beforeChange)
  {
  }

  lemma GatheredMapMore(u: Changes, c: Changes, named: set<Key>, m: Changes, extra: map<Key, seq<Key>>, k: Key,
                        m': Changes, extra': map<Key, seq<Key>>)
    requires u.Keys !! c.Keys && named <= c.Keys && m.Keys == u.Keys + named && (forall j :: j in m ==> m[j] == (u + c)[j])
    requires k in m && Triggered(c, m[k], m, extra, m', extra')
    ensures var named' := named + Elements((u + c)[k].beforeChange);
            named' <= c.Keys && m'.Keys == u.Keys + named' && forall j :: j in m' ==> m'[j] == (u + c)[j]
  {
    forall j | j in m'
      ensures m'[j] == (u + c)[j]
    {
    }
  }

  lemma GatheredMore(u: Changes, c: Changes, acting: set<Key>, m: Changes, extra: map<Key, seq<Key>>, k: Key,
                     m': Changes, extra': map<Key, seq<Key>>)
    requires Gathered(u, c, acting, m, extra) && u.Keys !! c.Keys
    requires k in m && m[k].key == k && Triggered(c, m[k], m, extra, m', extra')
    ensures Gathered(u, c, acting + {k}, m', extra')
  {
    hide NamedBy, Elements;
    var all := u + c;
    NamedByMore(all, acting, k);
    assert m[k] == all[k];
    GatheredMapMore(u, c, NamedBy(all, acting), m, extra, k, m', extra');
    GatheredExtraMore(all, acting, extra, k, extra');
  }

  lemma GatheredExtraMore(all: Changes, acting: set<Key>, extra: map<Key, seq<Key>>, k: Key, extra': map<Key, seq<Key>>)
    requires k in all && extra.Keys <= acting
    requires forall j :: j in acting && j in all && all[j].beforeChange != [] ==> j in extra
    requires forall j :: j in extra && j in all ==> extra[j] == all[j].beforeChange
    requires extra' == if all[k].beforeChange == [] then extra else extra[k := all[k].beforeChange]
    ensures extra'.Keys <= acting + {k}
    ensures forall j :: j in acting + {k} && j in all && all[j].beforeChange != [] ==> j in extra'
    ensures forall j :: j in extra' && j in all ==> extra'[j] == all[j].beforeChange
  {
  }

  lemma ActingMore(u: Changes, c: Changes, fs: Fs, seen: seq<Key>, acting: set<Key>, k: Key)
    requires ActingSoFar(u, c, fs, seen, acting)
    requires k in u.Keys + NamedBy(u + c, acting) && k in u + c && Acts(fs, (u + c)[k])
    ensures ActingSoFar(u, c, fs, seen + [k], acting + {k})
  {
    hide NamedBy, Acts;
    var all := u + c;
    NamedByMore(all, acting, k);
    var named, named' := NamedBy(all, acting), NamedBy(all, acting + {k});
    assert named <= named';
    forall j | j in acting + {k}
      ensures j in seen + [k] && j in u.Keys + named' && j in all && Acts(fs, all[j])
    {
    }
  }

  lemma FirstPassTriggers(u: Changes, c: Changes, fs: Fs, seen: seq<Key>, acting: set<Key>,
                          m: Changes, extra: map<Key, seq<Key>>, k: Key, m': Changes, extra': map<Key, seq<Key>>)
    requires FirstPass(u, c, fs, seen, acting, m, extra) && u.Keys !! c.Keys
    requires k in m && m[k].key == k && Acts(fs, m[k]) && Triggered(c, m[k], m, extra, m', extra')
    ensures FirstPass(u, c, fs, seen + [k], acting + {k}, m', extra')
  {
    GatheredMore(u, c, acting, m, extra, k, m', extra');
    ActingMore(u, c, fs, seen, acting, k);
  }

  // ---- The resolver object ----

  class ChangeSetResolver {
    var changesMap: Changes
    var conditionalChangesMap: Changes
    var resolvedDeps: map<Key, seq<Key>>
    var orderedChanges: seq<Key>
    var resolvedChanges: seq<Change>
    var additionalResolveRequired: bool
    /** The changes found to act in the first pass. */
    ghost var acting: set<Key>

    constructor ()
      ensures resolvedDeps == map[] && !additionalResolveRequired
    {
      changesMap, conditionalChangesMap, resolvedDeps := map[], map[], map[];
      orderedChanges, resolvedChanges, additionalResolveRequired := [], [], false;
      acting := {};
    }

    /** Splits the change set into its two maps. */
    method Collect(cs: seq<Change>) returns (err: Option<Error>)
      modifies this`changesMap, this`conditionalChangesMap
      ensures err.Some? <==> Conflict(cs)
      ensures err.Some? ==> err.value.Duplicate?
      ensures err.None? ==> changesMap == Unconditionals(cs) && conditionalChangesMap == Conditionals(cs)
    {
      var m: Changes, cond: Changes := map[], map[];
      for i := 0 to |cs|
        invariant m == Unconditionals(cs[..i]) && cond == Conditionals(cs[..i]) && !Conflict(cs[..i])
      {
        var change := cs[i];
        assert cs[..i + 1][..i] == cs[..i];
        if change.conditional {
          cond := cond[change.key := change];
          continue;
        }
        if change.key in m {
          if IsSame(m[change.key], change) {
            continue;
          }
          ConflictLasts(cs, i + 1);
          return Some(Duplicate(change.key));
        }
        m := m[change.key := change];
      }
      assert cs[..|cs|] == cs;
      changesMap, conditionalChangesMap := m, cond;
      err := None;
    }

    method ToOrderedChanges() returns (err: Option<Error>)
      modifies this`orderedChanges
      ensures err.None? ==> IsOrder(Graph(changesMap, resolvedDeps), orderedChanges)
      ensures err.Some? ==> err.value == Cyclic && exists c :: IsCycle(Graph(changesMap, resolvedDeps), c)
    {
      var deps := Graph(changesMap, resolvedDeps);
      GraphIsGraph(changesMap, resolvedDeps);
      var order := TopologicalOrder(deps);
      if order.None? {
        return Some(Cyclic);
      }
      orderedChanges := order.value;
      err := None;
    }

    /** Adds the changes an acting change wants done before it. */
    method Trigger(change: Change) returns (err: Option<Error>)
      modifies this`changesMap, this`resolvedDeps, this`additionalResolveRequired
      ensures err.Some? ==> err.value.NotFound? && err.value.key in change.beforeChange && err.value.key !in conditionalChangesMap
      ensures err.None? ==>
        && Triggered(conditionalChangesMap, change, old(changesMap), old(resolvedDeps), changesMap, resolvedDeps)
        && additionalResolveRequired == (old(additionalResolveRequired) || change.beforeChange != [])
    {
      if change.beforeChange == [] {
        return None;
      }
      resolvedDeps := resolvedDeps[change.key := change.beforeChange];
      additionalResolveRequired := true;
      ghost var m := changesMap;
      for i := 0 to |change.beforeChange|
        invariant forall d :: d in change.beforeChange[..i] ==> d in conditionalChangesMap
        invariant changesMap.Keys == m.Keys + Elements(change.beforeChange[..i])
        invariant forall j :: j in changesMap ==>
          changesMap[j] == if j in change.beforeChange[..i] then conditionalChangesMap[j] else m[j]
        invariant resolvedDeps == old(resolvedDeps)[change.key := change.beforeChange] && additionalResolveRequired
      {
        var dep := change.beforeChange[i];
        if dep !in conditionalChangesMap {
          return Some(NotFound(dep));
        }
        changesMap := changesMap[dep := conditionalChangesMap[dep]];
        assert change.beforeChange[..i + 1] == change.beforeChange[..i] + [dep];
      }
      assert change.beforeChange[..|change.beforeChange|] == change.beforeChange;
      err := None;
    }

    /** One pass over the ordered keys. The first pass lets acting changes pull
        in what they want done before; the second only lists the changes. */
    method DoResolveChanges(initial: bool, fs: Fs) returns (err: Option<Error>)
      requires initial ==> resolvedDeps == map[] && !additionalResolveRequired
      modifies this`changesMap, this`resolvedDeps, this`additionalResolveRequired, this`resolvedChanges, this`acting
      ensures err.None? && !initial ==>
        && changesMap == old(changesMap) && resolvedDeps == old(resolvedDeps) && acting == old(acting)
        && resolvedChanges == Pick(changesMap, orderedChanges)
      ensures err.None? && initial && Separate(old(changesMap), conditionalChangesMap) ==>
        FirstPass(old(changesMap), conditionalChangesMap, fs, orderedChanges, acting, changesMap, resolvedDeps)
      ensures err.None? && initial && !additionalResolveRequired ==>
        && changesMap == old(changesMap) && resolvedDeps == map[]
        && resolvedChanges == Pick(changesMap, orderedChanges)
      ensures err.Some? ==> initial && err.value.NotFound?
      ensures err.Some? && Separate(old(changesMap), conditionalChangesMap) ==>
        IsReason(old(changesMap), conditionalChangesMap, fs, acting, err.value)
    {
      hide Acts, Pick, Triggered, FirstPass, IsReason;
      ghost var u, c := changesMap, conditionalChangesMap;
      resolvedChanges := [];
      if initial {
        acting := {};
      }
      PassStart(initial, u, c, fs);
      for i := 0 to |orderedChanges|
        invariant orderedChanges[..i] <= orderedChanges
        invariant !initial ==> changesMap == u && resolvedDeps == old(resolvedDeps) && acting == old(acting)
        invariant !initial ==> resolvedChanges == Pick(changesMap, orderedChanges[..i])
        invariant initial && Separate(u, c) ==> FirstPass(u, c, fs, orderedChanges[..i], acting, changesMap, resolvedDeps)
        invariant initial && !additionalResolveRequired ==>
          changesMap == u && resolvedDeps == map[] && resolvedChanges == Pick(u, orderedChanges[..i])
      {
        var key := orderedChanges[i];
        assert orderedChanges[..i + 1] == orderedChanges[..i] + [key];
        PickMore(changesMap, orderedChanges[..i], key);
        PickMore(u, orderedChanges[..i], key);
        if key !in changesMap {
          PassSkips(initial, u, c, fs, orderedChanges[..i], acting, changesMap, resolvedDeps, key);
          continue;
        }
        var change := changesMap[key];
        resolvedChanges := resolvedChanges + [change];
        if !Acts(fs, change) || !initial {
          PassSkips(initial, u, c, fs, orderedChanges[..i], acting, changesMap, resolvedDeps, key);
          continue;
        }
        ghost var m, extra := changesMap, resolvedDeps;
        err := Trigger(change);
        if err.Some? {
          PassMisses(u, c, fs, orderedChanges[..i], acting, m, extra, key, err.value);
          return;
        }
        PassTriggers(u, c, fs, orderedChanges[..i], acting, m, extra, key, changesMap, resolvedDeps);
        acting := acting + {key};
      }
      assert orderedChanges[..|orderedChanges|] == orderedChanges;
      err := None;
    }

    /** Orders, passes, and if the first pass pulled anything in orders and
        passes once more. */
    method ResolveChanges(initial: bool, fs: Fs) returns (err: Option<Error>)
      requires initial ==> resolvedDeps == map[] && !additionalResolveRequired
      modifies this`changesMap, this`resolvedDeps, this`additionalResolveRequired
      modifies this`orderedChanges, this`resolvedChanges, this`acting
      ensures !initial ==> changesMap == old(changesMap) && resolvedDeps == old(resolvedDeps) && acting == old(acting)
      ensures err.None? && !initial ==>
        IsOrder(Graph(changesMap, resolvedDeps), orderedChanges) && resolvedChanges == Pick(changesMap, orderedChanges)
      ensures err.Some? ==> !err.value.Duplicate?
      ensures err.Some? && !initial ==> err.value == Cyclic && exists c :: IsCycle(Graph(changesMap, resolvedDeps), c)
      ensures err.None? && initial && Separate(old(changesMap), conditionalChangesMap) ==>
        IsPlan(old(changesMap), conditionalChangesMap, fs, acting, resolvedChanges)
      ensures err.Some? && initial && Separate(old(changesMap), conditionalChangesMap) ==>
        IsReason(old(changesMap), conditionalChangesMap, fs, acting, err.value)
      decreases initial
    {
      hide IsPlan, IsReason, IsCycle, FirstPass, Pick, IsOrder, Graph, Separate;
      ghost var u, c := changesMap, conditionalChangesMap;
      if initial {
        acting := {};
      }
      err := ToOrderedChanges();
      if err.Some? {
        if initial {
          FirstOrderCycle(u, c, fs);
        }
        return;
      }
      err := DoResolveChanges(initial, fs);
      if err.Some? {
        return;
      }
      if !additionalResolveRequired || !initial {
        if initial {
          OrderedPassIsPlan(u, c, fs, acting, orderedChanges, changesMap, resolvedDeps, orderedChanges);
        }
        return;
      }
      ghost var seen := orderedChanges;
      err := ResolveChanges(false, fs);
      if err.Some? {
        SecondOrderCycle(u, c, fs, seen, acting, changesMap, resolvedDeps);
      } else {
        OrderedPassIsPlan(u, c, fs, acting, seen, changesMap, resolvedDeps, orderedChanges);
      }
    }

    /** The plan of a change set, or why there is none. */
    method GetChanges(cs: seq<Change>, fs: Fs) returns (r: Resolution)
      requires resolvedDeps == map[] && !additionalResolveRequired
      modifies this
      ensures IsOutcome(cs, fs, acting, r)
    {
      var err := Collect(cs);
      if err.None? {
        err := ResolveChanges(true, fs);
      }
      r := if err.Some? then Failed(err.value) else Plan(resolvedChanges);
    }

    /** Resolves and carries out a change set. Nothing is touched unless the
        whole plan could be made. */
    method Apply(cs: seq<Change>, fs: Fs, answers: seq<bool>) returns (r: Resolution, log: seq<Applied>, end: Fs, ok: bool)
      requires resolvedDeps == map[] && !additionalResolveRequired
      modifies this
      ensures IsOutcome(cs, fs, acting, r)
      ensures r.Failed? ==> end == fs && log == [] && !ok
      ensures r.Plan? ==> IsRun(fs, r.changes, log) && end == StateAt(fs, log, |log|)
      ensures r.Plan? ==> (ok <==> HasFinished(r.changes, log))
    {
      hide IsOutcome, IsRun;
      r := GetChanges(cs, fs);
      if r.Failed? {
        return r, [], fs, false;
      }
      log, end, ok := ApplyChanges(fs, r.changes, answers);
    }
  }

  /** A resolution is a plan, or fails for a reason: conflicting changes, a
      dependency cycle, or an undefined "before change" key. */
  ghost predicate IsOutcome(cs: seq<Change>, fs: Fs, acting: set<Key>, r: Resolution) {
    var u, c := Unconditionals(cs), Conditionals(cs);
    && (r.Failed? && r.error.Duplicate? <==> Conflict(cs))
    && (r.Plan? && Separate(u, c) ==> IsPlan(u, c, fs, acting, r.changes))
    && (r.Failed? && !Conflict(cs) && Separate(u, c) ==> IsReason(u, c, fs, acting, r.error))
  }

  /** No key is both conditional and unconditional. */
  ghost predicate Separate(u: Changes, c: Changes) {
    u.Keys !! c.Keys && WellKeyed(u) && WellKeyed(c)
  }

  ghost predicate IsReason(u: Changes, c: Changes, fs: Fs, acting: set<Key>, e: Error) {
    OnlyActing(u, c, fs, acting) && (HasCycle(u, c, acting, e) || Missing(u, c, fs, acting, e))
  }

  /** A planned change that acts names a "before change" key that no
      conditional change defines. */
  ghost predicate Missing(u: Changes, c: Changes, fs: Fs, acting: set<Key>, e: Error) {
    && e.NotFound? && e.key !in c
    && exists k :: k in Planned(u, c, acting) && Acts(fs, (u + c)[k]) && e.key in (u + c)[k].beforeChange
  }

  ghost predicate HasCycle(u: Changes, c: Changes, acting: set<Key>, e: Error) {
    e == Cyclic && exists cycle :: IsCycle(PlannedGraph(u, c, acting), cycle)
  }

  lemma GatheredDeps(u: Changes, c: Changes, acting: set<Key>, m: Changes, extra: map<Key, seq<Key>>, k: Key)
    requires u.Keys !! c.Keys && Gathered(u, c, acting, m, extra) && m == Planned(u, c, acting)
    ensures DepsOf(m, extra, k) == DepsOf(m, Triggers(u, c, acting), k)
  {
    hide NamedBy, Planned;
  }

  /** What the first pass has gathered is the planned graph. */
  lemma GatheredGraph(u: Changes, c: Changes, acting: set<Key>, m: Changes, extra: map<Key, seq<Key>>)
    requires u.Keys !! c.Keys && Gathered(u, c, acting, m, extra)
    ensures Graph(m, extra) == PlannedGraph(u, c, acting)
  {
    hide NamedBy;
    assert m == Planned(u, c, acting);
    hide Planned, Gathered, DepsOf, Triggers;
    forall k
      ensures DepsOf(m, extra, k) == DepsOf(m, Triggers(u, c, acting), k)
    {
      GatheredDeps(u, c, acting, m, extra, k);
    }
  }

  lemma FirstOrderCycle(u: Changes, c: Changes, fs: Fs)
    requires exists cycle :: IsCycle(Graph(u, map[]), cycle)
    ensures Separate(u, c) ==> IsReason(u, c, fs, {}, Cyclic)
  {
    if Separate(u, c) {
      FirstPassStart(u, c, fs);
      GatheredGraph(u, c, {}, u, map[]);
    }
  }

  lemma SecondOrderCycle(u: Changes, c: Changes, fs: Fs, seen: seq<Key>, acting: set<Key>,
                         m: Changes, extra: map<Key, seq<Key>>)
    requires Separate(u, c) ==> FirstPass(u, c, fs, seen, acting, m, extra)
    requires exists cycle :: IsCycle(Graph(m, extra), cycle)
    ensures Separate(u, c) ==> IsReason(u, c, fs, acting, Cyclic)
  {
    hide Graph, PlannedGraph, IsCycle, NamedBy, Acts, Gathered;
    if Separate(u, c) {
      GatheredGraph(u, c, acting, m, extra);
    }
  }

  /** Everything unconditional was seen in the first pass. */
  lemma AllSeen(u: Changes, order: seq<Key>)
    requires IsOrder(Graph(u, map[]), order)
    ensures forall k :: k in u ==> k in order
  {
    assert forall k :: k in u ==> k in Graph(u, map[]);
    assert forall k :: k in u ==> k in Elements(order);
  }

  /** What the first pass has established once everything was seen. */
  lemma PassFacts(u: Changes, c: Changes, fs: Fs, acting: set<Key>, seen: seq<Key>, m: Changes, extra: map<Key, seq<Key>>)
    requires IsOrder(Graph(u, map[]), seen) && Separate(u, c) && FirstPass(u, c, fs, seen, acting, m, extra)
    ensures Gathered(u, c, acting, m, extra) && WellKeyed(m)
    ensures forall k :: k in u && Acts(fs, u[k]) ==> k in acting
    ensures NamedBy(u + c, acting) <= c.Keys && OnlyActing(u, c, fs, acting)
  {
    hide NamedBy, Acts, IsOrder, Graph;
    AllSeen(u, seen);
    GatheredIsWellKeyed(u, c, acting, m, extra);
  }

  lemma GatheredIsWellKeyed(u: Changes, c: Changes, acting: set<Key>, m: Changes, extra: map<Key, seq<Key>>)
    requires Separate(u, c) && Gathered(u, c, acting, m, extra)
    ensures WellKeyed(m)
  {
    hide NamedBy;
  }

  lemma OrderedPassIsPlan(u: Changes, c: Changes, fs: Fs, acting: set<Key>, seen: seq<Key>,
                          m: Changes, extra: map<Key, seq<Key>>, order: seq<Key>)
    requires IsOrder(Graph(u, map[]), seen)
    requires Separate(u, c) ==> FirstPass(u, c, fs, seen, acting, m, extra)
    requires IsOrder(Graph(m, extra), order)
    ensures Separate(u, c) ==> IsPlan(u, c, fs, acting, Pick(m, order))
  {
    if Separate(u, c) {
      PassFacts(u, c, fs, acting, seen, m, extra);
      hide FirstPass, OnlyActing, Gathered, Separate, WellKeyed, Pick, IsOrder, Graph, NamedBy, Acts, HasKey;
      PlanIsComplete(u, c, acting, m, extra, order);
      PlanIsOrdered(u, c, acting, m, extra, order);
    }
  }

  lemma PlanIsComplete(u: Changes, c: Changes, acting: set<Key>, m: Changes, extra: map<Key, seq<Key>>, order: seq<Key>)
    requires Separate(u, c) && Gathered(u, c, acting, m, extra) && WellKeyed(m) && IsOrder(Graph(m, extra), order)
    ensures var all, named, plan := u + c, NamedBy(u + c, acting), Pick(m, order);
            && (forall i, j :: 0 <= i < j < |plan| ==> plan[i].key != plan[j].key)
            && (forall i :: 0 <= i < |plan| ==>
                  plan[i].key in u.Keys + named && plan[i].key in all && plan[i] == all[plan[i].key])
            && (forall k :: k in u.Keys + named ==> HasKey(plan, k))
  {
    hide NamedBy;
    var plan := Pick(m, order);
    forall i, j | 0 <= i < j < |plan|
      ensures plan[i].key != plan[j].key
    {
      PickDistinct(m, order, i, j);
    }
    forall i | 0 <= i < |plan|
      ensures plan[i].key in m && plan[i] == m[plan[i].key]
    {
      var j := PickAt(m, order, i);
    }
    forall k | k in m
      ensures HasKey(plan, k)
    {
      assert k in Graph(m, extra) && k in Elements(order);
      PickHas(m, order, k);
    }
  }

  lemma PlanIsOrdered(u: Changes, c: Changes, acting: set<Key>, m: Changes, extra: map<Key, seq<Key>>, order: seq<Key>)
    requires Separate(u, c) && Gathered(u, c, acting, m, extra) && WellKeyed(m) && IsOrder(Graph(m, extra), order)
    ensures var named, plan := NamedBy(u + c, acting), Pick(m, order);
            && (forall i, d :: 0 <= i < |plan| && d in plan[i].dependsOn && d in u.Keys + named ==> HasKey(plan[..i], d))
            && (forall i, d :: 0 <= i < |plan| && plan[i].key in acting && d in plan[i].beforeChange ==> HasKey(plan[..i], d))
  {
    var plan := Pick(m, order);
    forall i, d | 0 <= i < |plan| && d in plan[i].dependsOn && d in m
      ensures HasKey(plan[..i], d)
    {
      PickFirst(m, extra, order, i, d);
    }
    forall i, d | 0 <= i < |plan| && plan[i].key in acting && d in plan[i].beforeChange
      ensures HasKey(plan[..i], d)
    {
      var j := PickAt(m, order, i);
      assert d in NamedBy(u + c, acting);
      PickFirst(m, extra, order, i, d);
    }
  }

  lemma PickMore(m: Changes, order: seq<Key>, k: Key)
    ensures Pick(m, order + [k]) == if k in m then Pick(m, order) + [m[k]] else Pick(m, order)
  {
    assert (order + [k])[..|order|] == order;
  }

  lemma PassStart(initial: bool, u: Changes, c: Changes, fs: Fs)
    ensures Separate(u, c) ==> FirstPass(u, c, fs, [], {}, u, map[])
    ensures Pick(u, []) == []
  {
    if Separate(u, c) {
      FirstPassStart(u, c, fs);
    }
  }

  lemma PassSkips(initial: bool, u: Changes, c: Changes, fs: Fs, seen: seq<Key>, acting: set<Key>,
                  m: Changes, extra: map<Key, seq<Key>>, k: Key)
    requires initial && Separate(u, c) ==> FirstPass(u, c, fs, seen, acting, m, extra)
    requires initial && k in m ==> !Acts(fs, m[k])
    ensures initial && Separate(u, c) ==> FirstPass(u, c, fs, seen + [k], acting, m, extra)
  {
    if initial && Separate(u, c) {
      FirstPassSkips(u, c, fs, seen, acting, m, extra, k);
    }
  }

  lemma PassMisses(u: Changes, c: Changes, fs: Fs, seen: seq<Key>, acting: set<Key>,
                   m: Changes, extra: map<Key, seq<Key>>, k: Key, e: Error)
    requires Separate(u, c) ==> FirstPass(u, c, fs, seen, acting, m, extra)
    requires k in m && Acts(fs, m[k]) && e.NotFound? && e.key in m[k].beforeChange && e.key !in c
    ensures Separate(u, c) ==> IsReason(u, c, fs, acting, e)
  {
    hide NamedBy, Acts;
    if Separate(u, c) {
      assert k in Planned(u, c, acting);
    }
  }

  lemma PassTriggers(u: Changes, c: Changes, fs: Fs, seen: seq<Key>, acting: set<Key>,
                     m: Changes, extra: map<Key, seq<Key>>, k: Key, m': Changes, extra': map<Key, seq<Key>>)
    requires Separate(u, c) ==> FirstPass(u, c, fs, seen, acting, m, extra)
    requires k in m && Acts(fs, m[k]) && Triggered(c, m[k], m, extra, m', extra')
    ensures Separate(u, c) ==> FirstPass(u, c, fs, seen + [k], acting + {k}, m', extra')
    ensures m[k].beforeChange == [] ==> m' == m
  {
    if Separate(u, c) {
      assert (u + c)[k].key == k;
      FirstPassTriggers(u, c, fs, seen, acting, m, extra, k, m', extra');
    }
  }

  lemma {:induction false} ConflictLasts(cs: seq<Change>, n: nat)
    requires n <= |cs| && Conflict(cs[..n])
    ensures Conflict(cs)
    decreases |cs| - n
  {
    if n < |cs| {
      assert cs[..n + 1][..n] == cs[..n];
      ConflictLasts(cs, n + 1);
    } else {
      assert cs[..n] == cs;
    }
  }

  // ---- A cycle leaves no plan ----

  lemma {:induction false} CycleNotInPlan(u: Changes, c: Changes, fs: Fs, acting: set<Key>, plan: seq<Change>,
                                          cycle: seq<Key>, n: nat)
    requires IsPlan(u, c, fs, acting, plan) && n <= |plan|
    requires IsCycle(PlannedGraph(u, c, acting), cycle)
    ensures forall i :: 0 <= i < |cycle| ==> !HasKey(plan[..n], cycle[i])
  {
    hide IsPlan, PlannedGraph;
    if n > 0 {
      CycleNotInPlan(u, c, fs, acting, plan, cycle, n - 1);
      forall i | 0 <= i < |cycle|
        ensures !HasKey(plan[..n], cycle[i])
      {
        HasKeyStep(plan, n, cycle[i]);
        if plan[n - 1].key == cycle[i] {
          NextInCycleIsEarlier(u, c, fs, acting, plan, cycle, n - 1, i);
          assert false;
        }
      }
    }
  }

  lemma HasKeyStep(plan: seq<Change>, n: nat, k: Key)
    requires 0 < n <= |plan|
    ensures HasKey(plan[..n], k) <==> HasKey(plan[..n - 1], k) || plan[n - 1].key == k
  {
    assert plan[..n] == plan[..n - 1] + [plan[n - 1]];
    assert plan[..n][n - 1] == plan[n - 1];
    if HasKey(plan[..n - 1], k) {
      var j :| 0 <= j < n - 1 && plan[..n - 1][j].key == k;
      assert plan[..n][j].key == k;
    }
    if HasKey(plan[..n], k) && plan[n - 1].key != k {
      var j :| 0 <= j < n && plan[..n][j].key == k;
      assert plan[..n - 1][j].key == k;
    }
  }

  function After(cycle: seq<Key>, i: nat): Key
    requires i < |cycle|
  {
    cycle[if i + 1 < |cycle| then i + 1 else 0]
  }

  /** A node of a cycle is planned, and so is the next one, on which it depends
      or which it wants done before. */
  lemma CycleNodeIsPlanned(u: Changes, c: Changes, acting: set<Key>, cycle: seq<Key>, i: nat)
    requires IsCycle(PlannedGraph(u, c, acting), cycle) && i < |cycle|
    ensures cycle[i] in Planned(u, c, acting)
    ensures After(cycle, i) in DepsOf(Planned(u, c, acting), Triggers(u, c, acting), cycle[i])
  {
    hide Planned, Triggers;
    assert After(cycle, i) in PlannedGraph(u, c, acting)[cycle[i]];
  }

  lemma NextInCycleIsEarlier(u: Changes, c: Changes, fs: Fs, acting: set<Key>, plan: seq<Change>,
                             cycle: seq<Key>, n: nat, i: nat)
    requires IsPlan(u, c, fs, acting, plan) && n < |plan|
    requires IsCycle(PlannedGraph(u, c, acting), cycle) && i < |cycle| && plan[n].key == cycle[i]
    ensures HasKey(plan[..n], After(cycle, i))
  {
    CycleNodeIsPlanned(u, c, acting, cycle, i);
    CycleNodeIsPlanned(u, c, acting, cycle, if i + 1 < |cycle| then i + 1 else 0);
    hide PlannedGraph, IsCycle, Acts, NamedBy, HasKey, OnlyActing;
    assert plan[n] == (u + c)[cycle[i]];
  }

  lemma PlannedIsInPlan(u: Changes, c: Changes, fs: Fs, acting: set<Key>, plan: seq<Change>, k: Key)
    requires IsPlan(u, c, fs, acting, plan) && k in Planned(u, c, acting)
    ensures HasKey(plan, k)
  {
    hide NamedBy, Acts, OnlyActing, HasKey;
  }

  /** A cycle among the planned changes, through dependencies and "before
      change" steps of acting changes, rules out every plan. */
  lemma CycleMeansNoPlan(u: Changes, c: Changes, fs: Fs, acting: set<Key>, plan: seq<Change>, cycle: seq<Key>)
    requires IsCycle(PlannedGraph(u, c, acting), cycle)
    ensures !IsPlan(u, c, fs, acting, plan)
  {
    hide IsPlan, PlannedGraph, Planned, HasKey;
    if IsPlan(u, c, fs, acting, plan) {
      assert plan[..|plan|] == plan;
      CycleNodeIsPlanned(u, c, acting, cycle, 0);
      PlannedIsInPlan(u, c, fs, acting, plan, cycle[0]);
      CycleNotInPlan(u, c, fs, acting, plan, cycle, |plan|);
    }
  }

  /** So with such a cycle the resolution fails, and nothing is applied. */
  lemma CycleMeansFailure(cs: seq<Change>, fs: Fs, acting: set<Key>, r: Resolution, cycle: seq<Key>)
    requires IsOutcome(cs, fs, acting, r) && Separate(Unconditionals(cs), Conditionals(cs))
    requires IsCycle(PlannedGraph(Unconditionals(cs), Conditionals(cs), acting), cycle)
    ensures r.Failed?
  {
    if r.Plan? {
      CycleMeansNoPlan(Unconditionals(cs), Conditionals(cs), fs, acting, r.changes, cycle);
    }
  }

  // ---- When a change set resolves ----

  /** The unconditional changes that have something to do. */
  function ActingIn(u: Changes, fs: Fs): set<Key> {
    set k | k in u && Acts(fs, u[k])
  }

  /** Conditional changes have no "before change" steps of their own. */
  ghost predicate IsFlat(c: Changes) {
    forall k :: k in c ==> c[k].beforeChange == []
  }

  lemma FlatNames(u: Changes, c: Changes, fs: Fs, acting: set<Key>)
    requires Separate(u, c) && IsFlat(c) && OnlyActing(u, c, fs, acting)
    ensures NamedBy(u + c, acting) <= NamedBy(u + c, ActingIn(u, fs))
  {
    forall d | d in NamedBy(u + c, acting)
      ensures d in NamedBy(u + c, ActingIn(u, fs))
    {
      var k :| k in acting && k in u + c && d in (u + c)[k].beforeChange;
      assert k in ActingIn(u, fs);
    }
  }

  /** A cycle the resolver comes upon is one of the acting changes. */
  lemma FlatCycle(u: Changes, c: Changes, fs: Fs, acting: set<Key>, cycle: seq<Key>)
    requires Separate(u, c) && IsFlat(c) && OnlyActing(u, c, fs, acting)
    requires IsCycle(PlannedGraph(u, c, acting), cycle)
    ensures IsCycle(PlannedGraph(u, c, ActingIn(u, fs)), cycle)
  {
    FlatNames(u, c, fs, acting);
    hide NamedBy, IsCycle, Graph;
    var A := ActingIn(u, fs);
    forall k | k in Planned(u, c, acting)
      ensures k in Planned(u, c, A)
      ensures DepsOf(Planned(u, c, acting), Triggers(u, c, acting), k) <= DepsOf(Planned(u, c, A), Triggers(u, c, A), k)
    {
      assert k in acting && k !in A ==> (u + c)[k].beforeChange == [];
    }
    CycleInLarger(Planned(u, c, acting), Triggers(u, c, acting), Planned(u, c, A), Triggers(u, c, A), cycle);
  }

  /** The other way round, for a resolution in which all of them act. */
  lemma ActingCycle(u: Changes, c: Changes, acting: set<Key>, more: set<Key>, cycle: seq<Key>)
    requires acting <= more && IsCycle(PlannedGraph(u, c, acting), cycle)
    ensures IsCycle(PlannedGraph(u, c, more), cycle)
  {
    assert NamedBy(u + c, acting) <= NamedBy(u + c, more);
    hide NamedBy, IsCycle, Graph;
    CycleInLarger(Planned(u, c, acting), Triggers(u, c, acting), Planned(u, c, more), Triggers(u, c, more), cycle);
  }

  lemma PlanHasNoCycle(u: Changes, c: Changes, fs: Fs, acting: set<Key>, plan: seq<Change>, cycle: seq<Key>)
    requires IsPlan(u, c, fs, acting, plan)
    ensures !IsCycle(PlannedGraph(u, c, ActingIn(u, fs)), cycle)
    ensures NamedBy(u + c, ActingIn(u, fs)) <= c.Keys
  {
    assert ActingIn(u, fs) <= acting;
    if IsCycle(PlannedGraph(u, c, ActingIn(u, fs)), cycle) {
      ActingCycle(u, c, ActingIn(u, fs), acting, cycle);
      CycleMeansNoPlan(u, c, fs, acting, plan, cycle);
    }
  }

  lemma ReasonIsReal(u: Changes, c: Changes, fs: Fs, acting: set<Key>, e: Error)
    requires Separate(u, c) && IsFlat(c) && IsReason(u, c, fs, acting, e)
    ensures !(NamedBy(u + c, ActingIn(u, fs)) <= c.Keys)
            || exists cycle :: IsCycle(PlannedGraph(u, c, ActingIn(u, fs)), cycle)
  {
    if HasCycle(u, c, acting, e) {
      var cycle :| IsCycle(PlannedGraph(u, c, acting), cycle);
      FlatCycle(u, c, fs, acting, cycle);
    } else {
      var k :| k in Planned(u, c, acting) && Acts(fs, (u + c)[k]) && e.key in (u + c)[k].beforeChange;
      assert k in ActingIn(u, fs);
      assert e.key in NamedBy(u + c, ActingIn(u, fs));
    }
  }

  /** When no key is shared and conditional changes are flat, a change set
      resolves exactly when no two changes conflict, every "before change" key
      of a change that acts is defined, and those changes have no cycle. */
  lemma ResolvesExactlyWhen(cs: seq<Change>, fs: Fs, acting: set<Key>, r: Resolution)
    requires IsOutcome(cs, fs, acting, r)
    requires Separate(Unconditionals(cs), Conditionals(cs)) && IsFlat(Conditionals(cs))
    ensures var u, c := Unconditionals(cs), Conditionals(cs);
            r.Plan? <==>
            && !Conflict(cs)
            && NamedBy(u + c, ActingIn(u, fs)) <= c.Keys
            && !exists cycle :: IsCycle(PlannedGraph(u, c, ActingIn(u, fs)), cycle)
  {
    var u, c := Unconditionals(cs), Conditionals(cs);
    hide IsPlan, IsReason, IsCycle, PlannedGraph, NamedBy, ActingIn, Separate, IsFlat;
    if r.Plan? {
      forall cycle
        ensures !IsCycle(PlannedGraph(u, c, ActingIn(u, fs)), cycle)
      {
        PlanHasNoCycle(u, c, fs, acting, r.changes, cycle);
      }
      PlanHasNoCycle(u, c, fs, acting, r.changes, []);
    } else if !Conflict(cs) {
      ReasonIsReal(u, c, fs, acting, r.error);
    }
  }

  // ---- Which changes are collected ----

  ghost predicate IsFirst(cs: seq<Change>, i: nat) {
    i < |cs| && !cs[i].conditional && forall j :: 0 <= j < i && !cs[j].conditional ==> cs[j].key != cs[i].key
  }

  ghost predicate IsLast(cs: seq<Change>, i: nat) {
    i < |cs| && cs[i].conditional && forall j :: i < j < |cs| && cs[j].conditional ==> cs[j].key != cs[i].key
  }

  /** Of the unconditional changes with a key the first one is taken. */
  lemma {:induction false} FirstIsTaken(cs: seq<Change>, i: nat)
    requires IsFirst(cs, i)
    ensures cs[i].key in Unconditionals(cs) && Unconditionals(cs)[cs[i].key] == cs[i]
  {
    var init := cs[..|cs| - 1];
    if i < |cs| - 1 {
      assert IsFirst(init, i);
      FirstIsTaken(init, i);
    } else {
      CollectedAreWellKeyed(init);
    }
  }

  /** Of the conditional ones the last. */
  lemma {:induction false} LastIsTaken(cs: seq<Change>, i: nat)
    requires IsLast(cs, i)
    ensures cs[i].key in Conditionals(cs) && Conditionals(cs)[cs[i].key] == cs[i]
  {
    var init, last := cs[..|cs| - 1], cs[|cs| - 1];
    if i < |cs| - 1 {
      assert IsLast(init, i);
      LastIsTaken(init, i);
      assert last.conditional ==> last.key != cs[i].key;
    }
  }

  /** Two changes ask for different things: another place, another state or
      content there, other dependencies, or another way with errors. Links in
      order are not told apart by their links. */
  predicate AskOtherwise(a: Change, b: Change) {
    || a.path != b.path || a.dependsOn != b.dependsOn || a.ignoreErrors != b.ignoreErrors
    || (a.expected != b.expected && !(a.expected.SymlinksInOrder? && b.expected.SymlinksInOrder?))
  }

  ghost predicate HasConflict(cs: seq<Change>) {
    exists i, j :: AreInConflict(cs, i, j)
  }

  lemma {:induction false} FirstOf(cs: seq<Change>, k: Key) returns (i: nat)
    requires k in Unconditionals(cs)
    ensures IsFirst(cs, i) && cs[i].key == k && Unconditionals(cs)[k] == cs[i]
  {
    var init := cs[..|cs| - 1];
    if k in Unconditionals(init) {
      i := FirstOf(init, k);
    } else {
      i := |cs| - 1;
      forall j | 0 <= j < i && !cs[j].conditional
        ensures cs[j].key != k
      {
        KeyIsTaken(init, j);
      }
    }
    assert IsFirst(cs, i);
    FirstIsTaken(cs, i);
  }

  lemma {:induction false} KeyIsTaken(cs: seq<Change>, j: nat)
    requires j < |cs| && !cs[j].conditional
    ensures cs[j].key in Unconditionals(cs)
  {
    if j < |cs| - 1 {
      KeyIsTaken(cs[..|cs| - 1], j);
    }
  }

  ghost predicate AreInConflict(cs: seq<Change>, i: int, j: int) {
    0 <= i < j < |cs| && IsFirst(cs, i) && !cs[j].conditional && cs[j].key == cs[i].key && AskOtherwise(cs[i], cs[j])
  }

  lemma SameUnlessOtherwise(a: Change, b: Change)
    ensures IsSame(a, b) <==> !AskOtherwise(a, b)
  {
  }

  lemma ConflictStays(init: seq<Change>, last: Change)
    requires HasConflict(init)
    ensures HasConflict(init + [last])
  {
    var cs := init + [last];
    var i, j :| AreInConflict(init, i, j);
    assert IsFirst(cs, i) by {
      hide AskOtherwise;
      assert forall k :: 0 <= k <= i ==> cs[k] == init[k];
    }
    assert cs[i] == init[i] && cs[j] == init[j];
    assert AreInConflict(cs, i, j);
  }

  lemma LastConflicts(init: seq<Change>, last: Change)
    requires !last.conditional && last.key in Unconditionals(init)
    ensures AskOtherwise(Unconditionals(init)[last.key], last) ==> HasConflict(init + [last])
  {
    var cs := init + [last];
    var i := FirstOf(init, last.key);
    assert forall k :: 0 <= k <= i ==> cs[k] == init[k];
    assert IsFirst(cs, i) && cs[|init|] == last;
    hide AskOtherwise;
    assert AskOtherwise(cs[i], last) ==> AreInConflict(cs, i, |init|);
  }

  lemma ConflictWasThere(init: seq<Change>, last: Change)
    requires HasConflict(init + [last])
    ensures HasConflict(init)
            || (!last.conditional && last.key in Unconditionals(init) && AskOtherwise(Unconditionals(init)[last.key], last))
  {
    hide AskOtherwise;
    var cs := init + [last];
    var i, j :| AreInConflict(cs, i, j);
    assert forall k :: 0 <= k <= i ==> cs[k] == init[k];
    assert IsFirst(init, i);
    if j < |init| {
      assert AreInConflict(init, i, j);
    } else {
      FirstIsTaken(init, i);
    }
  }

  /** Collecting fails exactly when a later unconditional change asks otherwise
      than the first one with its key. */
  lemma {:induction false} ConflictExactlyWhen(cs: seq<Change>)
    ensures Conflict(cs) <==> HasConflict(cs)
  {
    hide AskOtherwise, IsSame, HasConflict;
    if cs == [] {
      NoConflict();
    } else {
      var init, last := cs[..|cs| - 1], cs[|cs| - 1];
      assert cs == init + [last];
      ConflictExactlyWhen(init);
      if HasConflict(init) {
        ConflictStays(init, last);
      }
      if !last.conditional && last.key in Unconditionals(init) {
        SameUnlessOtherwise(Unconditionals(init)[last.key], last);
        LastConflicts(init, last);
      }
      if HasConflict(cs) {
        ConflictWasThere(init, last);
      }
    }
  }

  lemma NoConflict()
    ensures !HasConflict([])
  {
  }
}
