/** Topological order of a finite dependency graph, given as a map from each
    node to the nodes that have to come before it. */
module Graphs {
  import opened Wrappers

  ghost predicate IsGraph<K>(deps: map<K, set<K>>) {
    forall k :: k in deps ==> deps[k] <= deps.Keys
  }

  function Elements<K(==)>(s: seq<K>): set<K> {
    set k | k in s
  }

  /** Some nodes, each after its dependencies. */
  ghost predicate IsPartialOrder<K>(deps: map<K, set<K>>, order: seq<K>) {
    && Distinct(order)
    && (forall i :: 0 <= i < |order| ==> order[i] in deps && deps[order[i]] <= Elements(order[..i]))
  }

  /** Every node once, its dependencies before it. */
  ghost predicate IsOrder<K>(deps: map<K, set<K>>, order: seq<K>) {
    IsPartialOrder(deps, order) && Elements(order) == deps.Keys
  }

  /** A way round: each node depends on the next, the last on the first. */
  ghost predicate IsCycle<K>(deps: map<K, set<K>>, c: seq<K>) {
    && c != []
    && (forall i :: 0 <= i < |c| ==> c[i] in deps)
    && (forall i :: 0 <= i < |c| - 1 ==> c[i + 1] in deps[c[i]])
    && c[0] in deps[c[|c| - 1]]
  }

  /** A set of nodes none of which can come first. */
  ghost predicate IsKnot<K>(deps: map<K, set<K>>, s: set<K>) {
    && s != {}
    && s <= deps.Keys
    && (forall k :: k in s ==> deps[k] * s != {})
  }

  lemma AppendNode<K>(deps: map<K, set<K>>, done: seq<K>, k: K)
    requires IsPartialOrder(deps, done) && k in deps && k !in done && deps[k] <= Elements(done)
    ensures IsPartialOrder(deps, done + [k]) && Elements(done + [k]) == Elements(done) + {k}
  {
    var longer := done + [k];
    assert forall i :: 0 <= i <= |done| ==> longer[..i] == done[..i];
    assert done[..|done|] == done;
  }

  /** Picks nodes whose dependencies are done until none is left. */
  method TopologicalOrder<K(==)>(deps: map<K, set<K>>) returns (order: Option<seq<K>>)
    requires IsGraph(deps)
    ensures order.Some? ==> IsOrder(deps, order.value)
    ensures order.None? ==> exists c :: IsCycle(deps, c)
  {
    var done: seq<K> := [];
    var todo := deps.Keys;
    while todo != {}
      invariant todo <= deps.Keys
      invariant IsPartialOrder(deps, done) && Elements(done) == deps.Keys - todo
      decreases |todo|
    {
      if k :| k in todo && deps[k] * todo == {} {
        assert k !in Elements(done);
        assert forall d :: d in deps[k] && d in todo ==> d in deps[k] * todo;
        AppendNode(deps, done, k);
        done := done + [k];
        todo := todo - {k};
      } else {
        ghost var c := KnotHasCycle(deps, todo);
        return None;
      }
    }
    order := Some(done);
  }

  lemma KnotHasCycle<K>(deps: map<K, set<K>>, s: set<K>) returns (c: seq<K>)
    requires IsKnot(deps, s)
    ensures IsCycle(deps, c)
  {
    var k :| k in s;
    c := KnotWalk(deps, s, [k], {k});
  }

  /** Follows dependencies inside the knot until a node comes up again. */
  lemma {:induction false} KnotWalk<K>(deps: map<K, set<K>>, s: set<K>, walk: seq<K>, seen: set<K>) returns (c: seq<K>)
    requires IsKnot(deps, s) && walk != [] && seen <= s
    requires forall k :: k in walk <==> k in seen
    requires forall i :: 0 <= i < |walk| - 1 ==> walk[i + 1] in deps[walk[i]]
    ensures IsCycle(deps, c)
    decreases s - seen
  {
    var last := walk[|walk| - 1];
    assert last in s;
    var next :| next in deps[last] * s;
    if next in seen {
      var j :| 0 <= j < |walk| && walk[j] == next;
      c := walk[j..];
      WalkCloses(deps, walk, j);
    } else {
      var longer := walk + [next];
      assert forall i :: 0 <= i < |longer| - 1 ==> longer[i + 1] in deps[longer[i]];
      c := KnotWalk(deps, s, longer, seen + {next});
    }
  }

  /** A walk that comes back to its `j`th node goes round from there. */
  lemma WalkCloses<K>(deps: map<K, set<K>>, walk: seq<K>, j: nat)
    requires j < |walk| && forall i :: 0 <= i < |walk| ==> walk[i] in deps
    requires forall i :: 0 <= i < |walk| - 1 ==> walk[i + 1] in deps[walk[i]]
    requires walk[j] in deps[walk[|walk| - 1]]
    ensures IsCycle(deps, walk[j..])
  {
    var c := walk[j..];
    forall i | 0 <= i < |c| - 1
      ensures c[i + 1] in deps[c[i]]
    {
      assert c[i] == walk[i + j] && c[i + 1] == walk[i + j + 1];
    }
  }

  /** A node of a cycle would have to come before itself. */
  lemma {:induction false} CycleNotInOrder<K>(deps: map<K, set<K>>, order: seq<K>, c: seq<K>, n: nat)
    requires IsOrder(deps, order) && IsCycle(deps, c) && n <= |order|
    ensures forall i :: 0 <= i < |c| ==> c[i] !in order[..n]
  {
    if n > 0 {
      CycleNotInOrder(deps, order, c, n - 1);
      forall i | 0 <= i < |c|
        ensures c[i] !in order[..n]
      {
        var next := if i + 1 < |c| then c[i + 1] else c[0];
        assert next in deps[c[i]] && next !in order[..n - 1];
        assert order[..n] == order[..n - 1] + [order[n - 1]];
      }
    }
  }

  /** An order rules out every cycle. (When there is none, the sort above
      finds an order.) */
  lemma OrderExcludesCycle<K>(deps: map<K, set<K>>, order: seq<K>, c: seq<K>)
    requires IsOrder(deps, order)
    ensures !IsCycle(deps, c)
  {
    if IsCycle(deps, c) {
      assert order[..|order|] == order && c[0] in Elements(order);
      CycleNotInOrder(deps, order, c, |order|);
    }
  }

  /** Dependencies that always have a smaller rank allow no cycle. */
  lemma {:induction false} RankExcludesCycle<K>(deps: map<K, set<K>>, rank: K -> int, c: seq<K>)
    requires forall k, d :: k in deps && d in deps[k] ==> rank(d) < rank(k)
    ensures !IsCycle(deps, c)
  {
    if IsCycle(deps, c) {
      RankFalls(deps, rank, c, |c| - 1);
    }
  }

  lemma {:induction false} RankFalls<K>(deps: map<K, set<K>>, rank: K -> int, c: seq<K>, n: nat)
    requires forall k, d :: k in deps && d in deps[k] ==> rank(d) < rank(k)
    requires IsCycle(deps, c) && n < |c|
    ensures rank(c[n]) <= rank(c[0])
  {
    if n > 0 {
      RankFalls(deps, rank, c, n - 1);
      assert c[n - 1 + 1] in deps[c[n - 1]];
    }
  }
}
