/** Dependency graphs: orders, walks and cycles, and the topological sort the planning tools use. */
module Topo {
  import opened Basics

  type Name = string

  /** Each node with what it depends on. */
  type Graph = map<Name, set<Name>>

  ghost predicate Closed(g: Graph) { forall n :: n in g ==> g[n] <= g.Keys }

  /** References to unknown nodes are dropped. */
  function Within(raw: Graph): Graph { map n | n in raw :: raw[n] * raw.Keys }

  function Elements<T(==)>(s: seq<T>): set<T> { set x | x in s }

  /** Distinct nodes, each after everything it depends on. */
  ghost predicate InOrder(g: Graph, order: seq<Name>) {
    && NoDuplicates(order)
    && forall i :: 0 <= i < |order| ==> order[i] in g && g[order[i]] <= Elements(order[..i])
  }

  /** An order of the whole graph. */
  ghost predicate IsTopo(g: Graph, order: seq<Name>) { InOrder(g, order) && Elements(order) == g.Keys }

  /** A walk from a node to something it depends on, and so on. */
  ghost predicate Walk(g: Graph, p: seq<Name>) {
    && p != []
    && (forall i :: 0 <= i < |p| ==> p[i] in g)
    && forall i, j :: 0 <= i && j == i + 1 < |p| ==> p[j] in g[p[i]]
  }

  /** The node depends, at some remove, on something that depends on itself. */
  ghost predicate DependsOnCycle(g: Graph, n: Name) { exists p :: Walk(g, p) && p[0] == n && !NoDuplicates(p) }

  ghost predicate Cyclic(g: Graph) { exists p :: Walk(g, p) && |p| > 1 && p[0] == p[|p| - 1] }

  // ----- walks

  lemma {:induction false} Pigeonhole(p: seq<Name>, s: set<Name>)
    requires NoDuplicates(p) && forall x :: x in p ==> x in s
    ensures |p| <= |s|
  {
    if p != [] {
      var front, last := p[..|p| - 1], p[|p| - 1];
      assert forall i :: 0 <= i < |front| ==> front[i] != last;
      Pigeonhole(front, s - {last});
    }
  }

  /** Inside a set where everything depends on something of the set, walks go on for ever. */
  lemma {:induction false} LongWalk(g: Graph, stuck: set<Name>, n: Name, len: nat) returns (p: seq<Name>)
    requires n in stuck && stuck <= g.Keys && forall x :: x in stuck ==> g[x] * stuck != {}
    ensures Walk(g, p) && p[0] == n && |p| == len + 1 && forall x :: x in p ==> x in stuck
    decreases len
  {
    p := [n];
    if len > 0 {
      var d :| d in g[n] * stuck;
      var rest := LongWalk(g, stuck, d, len - 1);
      p := [n] + rest;
    }
  }

  /** So each of them depends on a cycle. */
  lemma StuckDependsOnCycle(g: Graph, stuck: set<Name>, n: Name)
    requires n in stuck && stuck <= g.Keys && forall x :: x in stuck ==> g[x] * stuck != {}
    ensures DependsOnCycle(g, n)
  {
    var p := LongWalk(g, stuck, n, |stuck|);
    if NoDuplicates(p) { Pigeonhole(p, stuck); }
  }

  lemma RepeatIsCycle(g: Graph, p: seq<Name>)
    requires Walk(g, p) && !NoDuplicates(p)
    ensures Cyclic(g)
  {
    var i, j :| 0 <= i < j < |p| && p[i] == p[j];
    var c := p[i..j + 1];
    assert Walk(g, c) && c[0] == c[|c| - 1];
  }

  /** A walk from an ordered node stays in the order and always moves to an earlier place. */
  lemma {:induction false} WalkDescends(g: Graph, order: seq<Name>, p: seq<Name>, k: nat, i: nat) returns (at: nat)
    requires InOrder(g, order) && Walk(g, p) && k < |order| && order[k] == p[0] && i < |p|
    ensures at <= k && order[at] == p[i] && (i > 0 ==> at < k)
    decreases i
  {
    if i == 0 {
      at := k;
    } else {
      assert p[1] in g[order[k]];
      var next: nat :| next < k && order[next] == p[1];
      var rest := p[1..];
      at := WalkDescends(g, order, rest, next, i - 1);
    }
  }

  /** Nothing in an order depends on a cycle. */
  lemma OrderedIsAcyclic(g: Graph, order: seq<Name>, n: Name)
    requires InOrder(g, order) && n in order
    ensures !DependsOnCycle(g, n)
  {
    if DependsOnCycle(g, n) {
      var p :| Walk(g, p) && p[0] == n && !NoDuplicates(p);
      var i, j :| 0 <= i < j < |p| && p[i] == p[j];
      var k: nat :| k < |order| && order[k] == n;
      var a := WalkDescends(g, order, p, k, i);
      var tail := p[i..];
      var b := WalkDescends(g, order, tail, a, j - i);
    }
  }

  lemma CycleIsRepeat(g: Graph)
    requires Cyclic(g)
    ensures exists n :: n in g && DependsOnCycle(g, n)
  {
    var p :| Walk(g, p) && |p| > 1 && p[0] == p[|p| - 1];
    assert DependsOnCycle(g, p[0]);
  }

  // ----- sorting

  function Ready(g: Graph, done: set<Name>): set<Name> { set n | n in g && n !in done && g[n] <= done }

  lemma OneMoreInOrder(g: Graph, order: seq<Name>, n: Name)
    requires InOrder(g, order) && n in Ready(g, Elements(order))
    ensures InOrder(g, order + [n]) && Elements(order + [n]) == Elements(order) + {n}
  {
    var next := order + [n];
    forall i | 0 <= i < |next| ensures next[i] in g && g[next[i]] <= Elements(next[..i]) {
      if i < |order| { assert next[..i] == order[..i]; } else { assert next[..i] == order; }
    }
  }

  /** When nothing is ready, what is left is exactly what depends on a cycle. */
  lemma LeftoverDependsOnCycle(g: Graph, order: seq<Name>)
    requires Closed(g) && InOrder(g, order) && Ready(g, Elements(order)) == {}
    ensures forall n :: n in g ==> (n !in order <==> DependsOnCycle(g, n))
  {
    var left := g.Keys - Elements(order);
    forall x | x in left ensures g[x] * left != {} {
      assert x !in Ready(g, Elements(order));
      var d :| d in g[x] && d !in Elements(order);
      assert d in g[x] * left;
    }
    forall n | n in g ensures n !in order <==> DependsOnCycle(g, n) {
      if n in order { OrderedIsAcyclic(g, order, n); } else { StuckDependsOnCycle(g, left, n); }
    }
  }

  /** Kahn's algorithm: an order of everything, or none and then there is a cycle. */
  method StaticOrder(g: Graph) returns (order: Option<seq<Name>>)
    requires Closed(g)
    ensures order.Some? ==> IsTopo(g, order.value)
    ensures order.Some? <==> !Cyclic(g)
  {
    var placed: seq<Name> := [];
    var done: set<Name> := {};
    var ready := Ready(g, done);
    while ready != {}
      invariant InOrder(g, placed) && done == Elements(placed) && ready == Ready(g, done)
      decreases g.Keys - done
    {
      var n :| n in ready;
      OneMoreInOrder(g, placed, n);
      placed, done := placed + [n], done + {n};
      ready := Ready(g, done);
    }
    LeftoverDependsOnCycle(g, placed);
    if done == g.Keys {
      order := Some(placed);
      if Cyclic(g) { CycleIsRepeat(g); }
    } else {
      order := None;
      ghost var n :| n in g && n !in placed;
      ghost var p :| Walk(g, p) && p[0] == n && !NoDuplicates(p);
      RepeatIsCycle(g, p);
    }
  }
}
