/** The longest dependency chain over the tickets, by summed effort. */
module CriticalPath {
  import opened Basics
  import opened Topo

  type Efforts = map<Name, real>

  /** A dependency chain: each ticket depends on the one before it. */
  ghost predicate Chain(g: Graph, c: seq<Name>) {
    && c != []
    && (forall i :: 0 <= i < |c| ==> c[i] in g)
    && forall i, j :: 0 <= i && j == i + 1 < |c| ==> c[i] in g[c[j]]
  }

  function Cost(e: Efforts, c: seq<Name>): real
    requires forall x :: x in c ==> x in e
  {
    if c == [] then 0.0 else Cost(e, c[..|c| - 1]) + e[c[|c| - 1]]
  }

  function Reversed(s: seq<Name>): seq<Name> { if s == [] then [] else Reversed(s[1..]) + [s[0]] }

  lemma CostOfLonger(e: Efforts, c: seq<Name>, n: Name)
    requires (forall x :: x in c ==> x in e) && n in e
    ensures Cost(e, c + [n]) == Cost(e, c) + e[n]
  {
    assert (c + [n])[..|c|] == c;
  }

  type Links = map<Name, Option<Name>>

  type Traces = map<Name, seq<Name>>

  /** What is known of a ticket the loop has passed: `best` is the cost of the chain ending there
      that `prev` traces back. */
  ghost predicate TracedAt(g: Graph, e: Efforts, best: Efforts, prev: Links, trace: Traces, n: Name)
    requires g.Keys <= e.Keys
  {
    && n in best && n in prev && n in trace
    && Chain(g, trace[n]) && trace[n][|trace[n]| - 1] == n && Cost(e, trace[n]) == best[n]
    && (match prev[n]
        case None => trace[n] == [n]
        case Some(d) => d in trace && d in g && trace[n] == trace[d] + [n])
  }

  ghost predicate Traced(g: Graph, e: Efforts, best: Efforts, prev: Links, trace: Traces, done: set<Name>)
    requires g.Keys <= e.Keys
  {
    && best.Keys == prev.Keys == trace.Keys == done <= g.Keys
    && forall n {:trigger TracedAt(g, e, best, prev, trace, n)} :: n in done ==> TracedAt(g, e, best, prev, trace, n)
  }

  ghost predicate NonNegative(g: Graph, e: Efforts)
    requires g.Keys <= e.Keys
  {
    forall n :: n in g ==> e[n] >= 0.0
  }

  /** No chain ending at a passed ticket costs more than its `best`. */
  ghost predicate Bounded(g: Graph, e: Efforts, best: Efforts, done: set<Name>)
    requires g.Keys <= e.Keys && best.Keys == done
  {
    NonNegative(g, e) ==> forall n :: n in done ==> best[n] >= 0.0 && Bounds(g, e, n, best[n])
  }

  ghost predicate Bounds(g: Graph, e: Efforts, n: Name, bound: real)
    requires g.Keys <= e.Keys
  {
    forall c :: Chain(g, c) && c[|c| - 1] == n ==> Cost(e, c) <= bound
  }

  /** With non-negative efforts the best chain ending at a ticket is the best of one ending at a
      dependency, prolonged. */
  lemma Prolong(g: Graph, e: Efforts, n: Name, best: Efforts, top: real)
    requires g.Keys <= e.Keys && n in g
               && (forall d :: d in g[n] ==> d in g && d in best && Bounds(g, e, d, best[d]) && best[d] <= top)
    requires top >= 0.0
    ensures Bounds(g, e, n, e[n] + top)
  {
    forall c | Chain(g, c) && c[|c| - 1] == n ensures Cost(e, c) <= e[n] + top {
      if |c| > 1 {
        var front := c[..|c| - 1];
        assert Chain(g, front) && front[|front| - 1] in g[n];
        assert Bounds(g, e, front[|front| - 1], best[front[|front| - 1]]);
      } else {
        assert c == [n] && Cost(e, c[..0]) == 0.0;
      }
    }
  }

  /** The costliest dependency, if any. */
  method Choose(deps: set<Name>, best: Efforts) returns (chosen: Option<Name>, cost: real)
    requires deps <= best.Keys
    ensures chosen.None? ==> cost == -1.0 && forall d :: d in deps ==> best[d] <= -1.0
    ensures chosen.Some? ==> chosen.value in deps && cost == best[chosen.value] && cost > -1.0
    ensures forall d :: d in deps ==> best[d] <= cost
  {
    chosen, cost := None, -1.0;
    var rest := deps;
    while rest != {}
      invariant rest <= deps && cost >= -1.0
      invariant chosen.None? ==> cost == -1.0
      invariant chosen.Some? ==> chosen.value in deps && cost == best[chosen.value] && cost > -1.0
      invariant forall d :: d in deps && d !in rest ==> best[d] <= cost
      decreases rest
    {
      var d :| d in rest;
      if best[d] > cost { chosen, cost := Some(d), best[d]; }
      rest := rest - {d};
    }
  }

  lemma ChainGrows(g: Graph, e: Efforts, c: seq<Name>, n: Name)
    requires g.Keys <= e.Keys && Chain(g, c) && n in g && c[|c| - 1] in g[n]
    ensures Chain(g, c + [n]) && Cost(e, c + [n]) == Cost(e, c) + e[n]
  {
    CostOfLonger(e, c, n);
  }

  lemma TraceNew(g: Graph, e: Efforts, best: Efforts, prev: Links, trace: Traces, n: Name, chosen: Option<Name>)
    requires g.Keys <= e.Keys && n in g && n !in trace
    requires chosen.Some? ==>
               chosen.value in g[n] && chosen.value in g && TracedAt(g, e, best, prev, trace, chosen.value)
    ensures var value := e[n] + if chosen.Some? then best[chosen.value] else 0.0;
            var c := if chosen.Some? then trace[chosen.value] + [n] else [n];
            TracedAt(g, e, best[n := value], prev[n := chosen], trace[n := c], n)
  {
    if chosen.Some? {
      ChainGrows(g, e, trace[chosen.value], n);
    } else {
      assert [n][..0] == [] && Cost(e, [n]) == Cost(e, [n][..0]) + e[n];
    }
  }

  lemma TraceOneMore(g: Graph, e: Efforts, best: Efforts, prev: Links, trace: Traces, done: set<Name>,
                     n: Name, value: real, chosen: Option<Name>, c: seq<Name>)
    requires g.Keys <= e.Keys && Traced(g, e, best, prev, trace, done) && n in g && n !in done
    requires TracedAt(g, e, best[n := value], prev[n := chosen], trace[n := c], n)
    ensures Traced(g, e, best[n := value], prev[n := chosen], trace[n := c], done + {n})
  {
    forall m | m in done ensures TracedAt(g, e, best[n := value], prev[n := chosen], trace[n := c], m) {
      assert TracedAt(g, e, best, prev, trace, m);
    }
  }

  lemma BoundOneMore(g: Graph, e: Efforts, best: Efforts, done: set<Name>, n: Name, top: real)
    requires Closed(g) && g.Keys <= e.Keys && best.Keys == done && Bounded(g, e, best, done)
    requires n in g && n !in done && g[n] <= done
    requires forall d :: d in g[n] ==> best[d] <= top
    requires NonNegative(g, e) ==> top >= 0.0
    ensures Bounded(g, e, best[n := e[n] + top], done + {n})
  {
    if NonNegative(g, e) { Prolong(g, e, n, best, top); }
  }

  method PassTicket(g: Graph, e: Efforts, best: Efforts, prev: Links, ghost trace: Traces, ghost done: set<Name>,
                    n: Name)
    returns (best': Efforts, prev': Links, ghost trace': Traces)
    requires Closed(g) && g.Keys <= e.Keys && n in g && n !in done && g[n] <= done
    requires Traced(g, e, best, prev, trace, done) && Bounded(g, e, best, done)
    ensures Traced(g, e, best', prev', trace', done + {n}) && Bounded(g, e, best', done + {n})
  {
    var chosen, cost := Choose(g[n], best);
    var top := if chosen.Some? then cost else 0.0;
    ghost var c := if chosen.Some? then trace[chosen.value] + [n] else [n];
    TraceNew(g, e, best, prev, trace, n, chosen);
    TraceOneMore(g, e, best, prev, trace, done, n, e[n] + top, chosen, c);
    TopCovers(g, e, best, done, n, chosen, top);
    BoundOneMore(g, e, best, done, n, top);
    best', prev', trace' := best[n := e[n] + top], prev[n := chosen], trace[n := c];
  }

  method LongestEndings(g: Graph, e: Efforts, order: seq<Name>)
    returns (best: Efforts, prev: Links, ghost trace: Traces)
    requires Closed(g) && IsTopo(g, order) && g.Keys <= e.Keys
    ensures Traced(g, e, best, prev, trace, g.Keys) && Bounded(g, e, best, g.Keys)
  {
    best, prev, trace := map[], map[], map[];
    for i := 0 to |order|
      invariant Traced(g, e, best, prev, trace, Elements(order[..i]))
      invariant Bounded(g, e, best, Elements(order[..i]))
    {
      assert Elements(order[..i + 1]) == Elements(order[..i]) + {order[i]} by {
        assert order[..i + 1] == order[..i] + [order[i]];
      }
      best, prev, trace := PassTicket(g, e, best, prev, trace, Elements(order[..i]), order[i]);
    }
    assert order[..|order|] == order;
  }

  /** Starting the search at -1 loses nothing: a dependency that costs no more than that is none. */
  lemma TopCovers(g: Graph, e: Efforts, best: Efforts, done: set<Name>, n: Name, chosen: Option<Name>, top: real)
    requires g.Keys <= e.Keys && best.Keys == done && Bounded(g, e, best, done) && n in g && g[n] <= done
    requires chosen.None? ==> top == 0.0 && forall d :: d in g[n] ==> best[d] <= -1.0
    requires chosen.Some? ==> chosen.value in g[n] && top == best[chosen.value]
    requires chosen.Some? ==> forall d :: d in g[n] ==> best[d] <= top
    ensures forall d :: d in g[n] ==> best[d] <= top
    ensures NonNegative(g, e) ==> top >= 0.0
  {
  }

  lemma {:induction false} ReversedLonger(s: seq<Name>, x: Name)
    ensures Reversed(s + [x]) == [x] + Reversed(s)
  {
    if s != [] {
      assert (s + [x])[1..] == s[1..] + [x];
      ReversedLonger(s[1..], x);
    }
  }

  method ReverseOf(s: seq<Name>) returns (r: seq<Name>)
    ensures r == Reversed(s)
  {
    r := [];
    for i := 0 to |s|
      invariant r == Reversed(s[..i])
    {
      assert s[..i + 1] == s[..i] + [s[i]];
      ReversedLonger(s[..i], s[i]);
      r := [s[i]] + r;
    }
    assert s[..|s|] == s;
  }

  function Front(trace: Traces, node: Option<Name>): seq<Name>
  {
    if node.Some? && node.value in trace then trace[node.value] else []
  }

  lemma StepBack(g: Graph, e: Efforts, best: Efforts, prev: Links, trace: Traces, n: Name)
    requires g.Keys <= e.Keys && n in g && Traced(g, e, best, prev, trace, g.Keys)
    ensures trace[n] == Front(trace, prev[n]) + [n] && (prev[n].Some? ==> prev[n].value in g)
  {
    assert TracedAt(g, e, best, prev, trace, n);
  }

  method WalkBack(g: Graph, e: Efforts, best: Efforts, prev: Links, ghost trace: Traces, end: Name)
    returns (chain: seq<Name>)
    requires g.Keys <= e.Keys && end in g && Traced(g, e, best, prev, trace, g.Keys)
    ensures chain == trace[end]
  {
    var back: seq<Name> := [];
    var node := Some(end);
    while node.Some?
      invariant node.Some? ==> node.value in g
      invariant trace[end] == Front(trace, node) + Reversed(back)
      decreases |Front(trace, node)|
    {
      var n := node.value;
      StepBack(g, e, best, prev, trace, n);
      ReversedLonger(back, n);
      assert (Front(trace, prev[n]) + [n]) + Reversed(back) == Front(trace, prev[n]) + ([n] + Reversed(back));
      back := back + [n];
      node := prev[n];
    }
    chain := ReverseOf(back);
  }

  /** The critical path: refused exactly on a cycle; otherwise a real dependency chain and its cost,
      which no dependency chain exceeds when efforts are not negative. */
  /** A chain in the tickets as given: each depends on the one before it. */
  ghost predicate RawChain(raw: Graph, c: seq<Name>) {
    && c != []
    && (forall i :: 0 <= i < |c| ==> c[i] in raw)
    && forall i, j :: 0 <= i && j == i + 1 < |c| ==> c[i] in raw[c[j]]
  }

  /** Dropping references to what is no ticket changes no chain. */
  lemma ChainsAreRaw(raw: Graph, c: seq<Name>)
    ensures Chain(Within(raw), c) <==> RawChain(raw, c)
  {
  }

  method FindCriticalPath(raw: Graph, e: Efforts) returns (path: Option<(seq<Name>, real)>)
    requires raw.Keys <= e.Keys
    ensures path.None? <==> Cyclic(Within(raw))
    ensures path.Some? && raw == map[] ==> path.value == ([], 0.0)
    ensures path.Some? && raw != map[] ==> RawChain(raw, path.value.0) && Cost(e, path.value.0) == path.value.1
    ensures path.Some? && NonNegative(raw, e) ==> forall c :: RawChain(raw, c) ==> Cost(e, c) <= path.value.1
  {
    var g := Within(raw);
    forall c ensures Chain(g, c) <==> RawChain(raw, c) { ChainsAreRaw(raw, c); }
    assert raw != map[] ==> g != map[] by { if raw != map[] { var n :| n in raw; assert n in g; } }
    var order := StaticOrder(g);
    if order.None? { return None; }
    var best, prev, trace := LongestEndings(g, e, order.value);
    if g == map[] {
      forall c ensures !Chain(g, c) { if c != [] { assert c[0] !in g; } }
      return Some(([], 0.0));
    }
    var end := Best(g, best, order.value);
    var chain := WalkBack(g, e, best, prev, trace, end);
    assert TracedAt(g, e, best, prev, trace, end);
    path := Some((chain, best[end]));
    BestBoundsAll(g, e, best, end);
  }

  lemma BestBoundsAll(g: Graph, e: Efforts, best: Efforts, end: Name)
    requires g.Keys <= e.Keys && best.Keys == g.Keys && Bounded(g, e, best, g.Keys)
    requires end in g && forall n :: n in g ==> best[n] <= best[end]
    ensures NonNegative(g, e) ==> forall c :: Chain(g, c) ==> Cost(e, c) <= best[end]
  {
    forall c | Chain(g, c) && NonNegative(g, e) ensures Cost(e, c) <= best[end] {
      var n := c[|c| - 1];
      assert n in g && Bounds(g, e, n, best[n]);
    }
  }

  method Best(g: Graph, best: Efforts, order: seq<Name>) returns (end: Name)
    requires IsTopo(g, order) && best.Keys == g.Keys && g != map[]
    ensures end in g && forall n :: n in g ==> best[n] <= best[end]
  {
    var some :| some in g;
    assert some in Elements(order);
    end := order[0];
    for i := 1 to |order|
      invariant end in g
      invariant forall n :: n in order[..i] ==> best[n] <= best[end]
    {
      if best[order[i]] > best[end] { end := order[i]; }
    }
    assert order[..|order|] == order;
    assert forall n :: n in g ==> n in Elements(order);
  }
}
