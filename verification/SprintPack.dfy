/** Greedy packing of tickets into sprints: dependencies first, critical path first, then cohesion
    and priority, within an effort budget. */
module SprintPack {
  import opened Basics
  import opened Topo

  datatype Priority = High | Medium | Low

  datatype Ticket = Ticket(deps: set<Name>, effort: real, epic: Option<string>, priority: Priority, critical: bool)

  type Tickets = map<Name, Ticket>

  function DepsOf(ts: Tickets): Graph { map n | n in ts :: ts[n].deps * ts.Keys }

  function Rank(p: Priority): nat { match p case High => 0 case Medium => 1 case Low => 2 }

  // ----- the order tickets are considered in

  predicate StringLess(a: string, b: string) {
    b != "" && (a == "" || a[0] < b[0] || (a[0] == b[0] && StringLess(a[1..], b[1..])))
  }

  lemma {:induction false} StringLessIsTransitive(a: string, b: string, c: string)
    requires StringLess(a, b) && StringLess(b, c)
    ensures StringLess(a, c)
  {
    if a != "" && a[0] == b[0] == c[0] { StringLessIsTransitive(a[1..], b[1..], c[1..]); }
  }

  function Flag(b: bool): nat { if b then 1 else 0 }

  /** Critical first, then the sprint's own epic, then priority, then id. */
  predicate Before(ts: Tickets, epic: Option<string>, a: Name, b: Name)
    requires a in ts && b in ts
  {
    var ca, cb := Flag(!ts[a].critical), Flag(!ts[b].critical);
    var ea, eb := Flag(epic.Some? && ts[a].epic != epic), Flag(epic.Some? && ts[b].epic != epic);
    var pa, pb := Rank(ts[a].priority), Rank(ts[b].priority);
    ca < cb || (ca == cb && (ea < eb || (ea == eb && (pa < pb || (pa == pb && StringLess(a, b))))))
  }

  /** They agree up to some place, and there the first is smaller or ends. */
  ghost predicate Spelled(a: string, b: string, k: nat) {
    && k <= |a| && k < |b| && a[..k] == b[..k]
    && (k == |a| || a[k] < b[k])
  }

  lemma {:induction false} StringLessIsLexicographic(a: string, b: string)
    ensures StringLess(a, b) <==> exists k: nat :: Spelled(a, b, k)
  {
    if a != "" && b != "" && a[0] == b[0] {
      StringLessIsLexicographic(a[1..], b[1..]);
      forall k: nat | Spelled(a[1..], b[1..], k) ensures Spelled(a, b, k + 1) {
        assert a[..k + 1] == [a[0]] + a[1..][..k] && b[..k + 1] == [b[0]] + b[1..][..k];
      }
      forall k: nat | Spelled(a, b, k) ensures k > 0 && Spelled(a[1..], b[1..], k - 1) {
        assert k > 0 ==> a[1..][..k - 1] == a[..k][1..] && b[1..][..k - 1] == b[..k][1..];
      }
    } else {
      assert forall k: nat :: 0 < k <= |a| && k <= |b| && a[..k] == b[..k] ==> a[..k][0] == b[..k][0];
      if StringLess(a, b) { assert Spelled(a, b, 0); }
    }
  }

  ghost predicate MoreUrgent(p: Priority, q: Priority) { (p == High && q != High) || (p == Medium && q == Low) }

  /** The sprint has an epic, and the ticket is of another or of none. */
  ghost predicate Foreign(t: Ticket, epic: Option<string>) { epic != None && t.epic != epic }

  /** What comes first: a critical ticket before any other; of two alike in that, one of the sprint's epic;
      then the more urgent; then by id. */
  lemma BeforeIs(ts: Tickets, epic: Option<string>, a: Name, b: Name)
    requires a in ts && b in ts
    ensures Before(ts, epic, a, b) <==>
            var s, t := ts[a], ts[b];
            || (s.critical && !t.critical)
            || (s.critical == t.critical &&
                (|| (!Foreign(s, epic) && Foreign(t, epic))
                 || (Foreign(s, epic) == Foreign(t, epic) &&
                     (MoreUrgent(s.priority, t.priority)
                      || (s.priority == t.priority && exists k: nat :: Spelled(a, b, k))))))
  {
    StringLessIsLexicographic(a, b);
  }

  lemma BeforeIsTransitive(ts: Tickets, epic: Option<string>, a: Name, b: Name, c: Name)
    requires a in ts && b in ts && c in ts && Before(ts, epic, a, b) && Before(ts, epic, b, c)
    ensures Before(ts, epic, a, c)
  {
    if StringLess(a, b) && StringLess(b, c) { StringLessIsTransitive(a, b, c); }
  }

  // ----- sprints

  function Effort(ts: Tickets, sprint: seq<Name>): real
    requires forall n :: n in sprint ==> n in ts
  {
    if sprint == [] then 0.0 else Effort(ts, sprint[..|sprint| - 1]) + ts[sprint[|sprint| - 1]].effort
  }

  /** The epic the sprint settled on: the first one any of its tickets names. */
  function EpicOf(ts: Tickets, sprint: seq<Name>): Option<string>
    requires forall n :: n in sprint ==> n in ts
  {
    if sprint == [] then None
    else
      var before := EpicOf(ts, sprint[..|sprint| - 1]);
      if before.Some? then before else ts[sprint[|sprint| - 1]].epic
  }

  /** No ticket before place `k` names an epic, and the one there does. */
  lemma {:induction false} EpicIsFirst(ts: Tickets, sprint: seq<Name>, epic: string)
    requires forall n :: n in sprint ==> n in ts
    ensures EpicOf(ts, sprint) == Some(epic) <==>
            exists k: nat :: FirstEpic(ts, sprint, k) && ts[sprint[k]].epic == Some(epic)
  {
    if sprint != [] {
      var front := sprint[..|sprint| - 1];
      EpicIsFirst(ts, front, epic);
      EpicOrNone(ts, front);
      assert forall k: nat :: FirstEpic(ts, front, k) <==> k < |front| && FirstEpic(ts, sprint, k);
    }
  }

  ghost predicate FirstEpic(ts: Tickets, sprint: seq<Name>, k: nat)
    requires forall n :: n in sprint ==> n in ts
  {
    && k < |sprint| && ts[sprint[k]].epic != None
    && forall j :: 0 <= j < k ==> ts[sprint[j]].epic == None
  }

  lemma {:induction false} EpicOrNone(ts: Tickets, sprint: seq<Name>)
    requires forall n :: n in sprint ==> n in ts
    ensures EpicOf(ts, sprint) == None <==> forall n :: n in sprint ==> ts[n].epic == None
  {
    if sprint != [] {
      assert sprint == sprint[..|sprint| - 1] + [sprint[|sprint| - 1]];
      EpicOrNone(ts, sprint[..|sprint| - 1]);
    }
  }

  /** The tickets in the order they were placed. */
  function Flat(sprints: seq<seq<Name>>): seq<Name> {
    if sprints == [] then [] else Flat(sprints[..|sprints| - 1]) + sprints[|sprints| - 1]
  }

  predicate Fits(ts: Tickets, budget: real, sprint: seq<Name>, n: Name)
    requires n in ts && forall m :: m in sprint ==> m in ts
  {
    sprint == [] || Effort(ts, sprint) + ts[n].effort <= budget
  }

  ghost predicate Known(ts: Tickets, s: seq<Name>) { forall n :: n in s ==> n in ts }

  /** What a pass places next: a ready ticket that fits, such that no other one comes before it. */
  ghost predicate Picks(ts: Tickets, budget: real, placed: seq<Name>, sprint: seq<Name>, n: Name)
    requires Known(ts, sprint)
  {
    && n in Ready(DepsOf(ts), Elements(placed)) && Fits(ts, budget, sprint, n)
    && forall m :: m in Ready(DepsOf(ts), Elements(placed)) && Fits(ts, budget, sprint, m) ==>
         !Before(ts, EpicOf(ts, sprint), m, n)
  }

  /** The whole of a packing, ticket by ticket and sprint by sprint: every ticket is what the rule
      picks, and a sprint closes only when nothing ready fits. */
  ghost predicate Packed(ts: Tickets, budget: real, sprints: seq<seq<Name>>) {
    forall k :: 0 <= k < |sprints| ==>
      && sprints[k] != [] && Known(ts, sprints[k])
      && (forall j :: 0 <= j < |sprints[k]| ==>
            Picks(ts, budget, Flat(sprints[..k]) + sprints[k][..j], sprints[k][..j], sprints[k][j]))
      && Full(ts, budget, Flat(sprints[..k + 1]), sprints[k])
  }

  ghost predicate Full(ts: Tickets, budget: real, placed: seq<Name>, sprint: seq<Name>)
    requires Known(ts, sprint)
  {
    forall m :: m in Ready(DepsOf(ts), Elements(placed)) ==> !Fits(ts, budget, sprint, m)
  }

  method Pick(ts: Tickets, budget: real, ghost placed: seq<Name>, done: set<Name>, sprint: seq<Name>, spent: real,
              epic: Option<string>)
    returns (pick: Option<Name>)
    requires done == Elements(placed) && Known(ts, sprint) && spent == Effort(ts, sprint) && epic == EpicOf(ts, sprint)
    ensures pick.Some? ==> Picks(ts, budget, placed, sprint, pick.value)
    ensures pick.None? ==> Full(ts, budget, placed, sprint)
  {
    pick := None;
    var ready := Ready(DepsOf(ts), done);
    var rest := ready;
    while rest != {}
      invariant rest <= ready
      invariant pick.Some? ==> pick.value in ready - rest && Fits(ts, budget, sprint, pick.value)
      invariant forall m :: m in ready - rest && Fits(ts, budget, sprint, m) ==>
                  pick.Some? && !Before(ts, epic, m, pick.value)
      decreases rest
    {
      var t :| t in rest;
      if (sprint == [] || spent + ts[t].effort <= budget) && (pick.None? || Before(ts, epic, t, pick.value)) {
        PickedBefore(ts, budget, sprint, epic, ready - rest, pick, t);
        pick := Some(t);
      }
      rest := rest - {t};
    }
  }

  lemma PickedBefore(ts: Tickets, budget: real, sprint: seq<Name>, epic: Option<string>, seen: set<Name>,
                     pick: Option<Name>, t: Name)
    requires Known(ts, sprint) && t in ts && seen <= ts.Keys
               && (pick.Some? ==> pick.value in ts && Before(ts, epic, t, pick.value))
    requires forall m :: m in seen && Fits(ts, budget, sprint, m) ==> pick.Some? && !Before(ts, epic, m, pick.value)
    ensures forall m :: m in seen + {t} && Fits(ts, budget, sprint, m) ==> !Before(ts, epic, m, t)
  {
    BeforeIsIrreflexive(ts, epic, t);
    forall m | m in seen && Fits(ts, budget, sprint, m) ensures !Before(ts, epic, m, t) {
      if Before(ts, epic, m, t) { BeforeIsTransitive(ts, epic, m, t, pick.value); }
    }
  }

  lemma {:induction false} StringLessIsIrreflexive(a: string)
    ensures !StringLess(a, a)
  {
    if a != "" { StringLessIsIrreflexive(a[1..]); }
  }

  lemma BeforeIsIrreflexive(ts: Tickets, epic: Option<string>, a: Name)
    requires a in ts
    ensures !Before(ts, epic, a, a)
  {
    StringLessIsIrreflexive(a);
  }

  ghost predicate PickedInTurn(ts: Tickets, budget: real, before: seq<Name>, sprint: seq<Name>)
    requires Known(ts, sprint)
  {
    forall j :: 0 <= j < |sprint| ==> Picks(ts, budget, before + sprint[..j], sprint[..j], sprint[j])
  }

  lemma PickOneMore(ts: Tickets, budget: real, before: seq<Name>, sprint: seq<Name>, n: Name)
    requires Known(ts, sprint) && PickedInTurn(ts, budget, before, sprint)
    requires Picks(ts, budget, before + sprint, sprint, n)
    ensures Known(ts, sprint + [n]) && PickedInTurn(ts, budget, before, sprint + [n])
  {
    var next := sprint + [n];
    forall j | 0 <= j < |next| ensures Picks(ts, budget, before + next[..j], next[..j], next[j]) {
      if j < |sprint| { assert next[..j] == sprint[..j]; } else { assert next[..j] == sprint; }
    }
  }

  lemma PlaceOneMore(ts: Tickets, before: seq<Name>, sprint: seq<Name>, n: Name)
    requires InOrder(DepsOf(ts), before + sprint) && n in Ready(DepsOf(ts), Elements(before + sprint))
    ensures InOrder(DepsOf(ts), before + (sprint + [n]))
    ensures Elements(before + (sprint + [n])) == Elements(before + sprint) + {n}
  {
    assert before + (sprint + [n]) == (before + sprint) + [n];
    OneMoreInOrder(DepsOf(ts), before + sprint, n);
  }

  lemma SpendOneMore(ts: Tickets, sprint: seq<Name>, n: Name)
    requires Known(ts, sprint) && n in ts
    ensures Known(ts, sprint + [n])
    ensures Effort(ts, sprint + [n]) == Effort(ts, sprint) + ts[n].effort
    ensures EpicOf(ts, sprint + [n]) == if EpicOf(ts, sprint).Some? then EpicOf(ts, sprint) else ts[n].epic
  {
    assert (sprint + [n])[..|sprint|] == sprint;
  }

  method FillSprint(ts: Tickets, budget: real, ghost before: seq<Name>, done: set<Name>)
    returns (sprint: seq<Name>, done': set<Name>)
    requires done == Elements(before) && InOrder(DepsOf(ts), before)
    ensures Known(ts, sprint) && PickedInTurn(ts, budget, before, sprint)
    ensures Full(ts, budget, before + sprint, sprint)
    ensures done' == Elements(before + sprint) && InOrder(DepsOf(ts), before + sprint)
  {
    sprint, done' := [], done;
    var spent, epic := 0.0, None;
    assert before + sprint == before;
    while true
      invariant Known(ts, sprint) && PickedInTurn(ts, budget, before, sprint)
      invariant done' == Elements(before + sprint) && InOrder(DepsOf(ts), before + sprint)
      invariant spent == Effort(ts, sprint) && epic == EpicOf(ts, sprint)
      decreases ts.Keys - done'
    {
      var pick := Pick(ts, budget, before + sprint, done', sprint, spent, epic);
      if pick.None? { break; }
      PickOneMore(ts, budget, before, sprint, pick.value);
      PlaceOneMore(ts, before, sprint, pick.value);
      SpendOneMore(ts, sprint, pick.value);
      sprint, done' := sprint + [pick.value], done' + {pick.value};
      spent := spent + ts[pick.value].effort;
      if epic.None? { epic := ts[pick.value].epic; }
    }
  }

  lemma PackOneMore(ts: Tickets, budget: real, sprints: seq<seq<Name>>, sprint: seq<Name>)
    requires Packed(ts, budget, sprints) && sprint != [] && Known(ts, sprint)
    requires PickedInTurn(ts, budget, Flat(sprints), sprint) && Full(ts, budget, Flat(sprints) + sprint, sprint)
    ensures Packed(ts, budget, sprints + [sprint]) && Flat(sprints + [sprint]) == Flat(sprints) + sprint
  {
    var next := sprints + [sprint];
    assert next[..|sprints|] == sprints;
    forall k | 0 <= k < |next| ensures
      && next[k] != [] && Known(ts, next[k])
      && (forall j :: 0 <= j < |next[k]| ==>
          Picks(ts, budget, Flat(next[..k]) + next[k][..j], next[k][..j], next[k][j]))
      && Full(ts, budget, Flat(next[..k + 1]), next[k])
    {
      if k < |sprints| {
        assert next[..k] == sprints[..k] && next[..k + 1] == sprints[..k + 1];
      } else {
        assert next[..k + 1] == next && next[k] == sprint;
      }
    }
  }

  /** Packing ends; every ticket is placed at most once and after all its dependencies; the ones left
      out are exactly those that depend, at some remove, on a cycle; and every pick follows the rule. */
  method Pack(ts: Tickets, budget: real) returns (sprints: seq<seq<Name>>)
    ensures Packed(ts, budget, sprints)
    ensures InOrder(DepsOf(ts), Flat(sprints))
    ensures DepsComeFirst(ts, Flat(sprints))
    ensures forall n :: n in ts ==> (n !in Flat(sprints) <==> DependsOnCycle(DepsOf(ts), n))
  {
    sprints := [];
    var done: set<Name> := {};
    while done != ts.Keys
      invariant Packed(ts, budget, sprints) && InOrder(DepsOf(ts), Flat(sprints)) && done == Elements(Flat(sprints))
      decreases ts.Keys - done
    {
      var sprint, done' := FillSprint(ts, budget, Flat(sprints), done);
      assert sprint == [] ==> Flat(sprints) + sprint == Flat(sprints) && Ready(DepsOf(ts), done) == {};
      if sprint == [] { break; }
      PackOneMore(ts, budget, sprints, sprint);
      assert sprint[0] in Ready(DepsOf(ts), Elements(Flat(sprints) + sprint[..0])) && sprint[0] in done';
      assert Flat(sprints) + sprint[..0] == Flat(sprints);
      sprints, done := sprints + [sprint], done';
    }
    assert Ready(DepsOf(ts), done) == {};
    LeftoverDependsOnCycle(DepsOf(ts), Flat(sprints));
    InOrderMeans(ts, Flat(sprints));
  }

  /** Whatever a ticket of the order depends on, should it be a ticket at all, stands before it. */
  ghost predicate DepsComeFirst(ts: Tickets, order: seq<Name>) {
    forall k, d :: 0 <= k < |order| && order[k] in ts && d in ts[order[k]].deps && d in ts ==> d in order[..k]
  }

  lemma InOrderMeans(ts: Tickets, order: seq<Name>)
    requires InOrder(DepsOf(ts), order)
    ensures DepsComeFirst(ts, order)
  {
    forall k, d | 0 <= k < |order| && order[k] in ts && d in ts[order[k]].deps && d in ts ensures d in order[..k] {
      assert d in DepsOf(ts)[order[k]] && d in Elements(order[..k]);
    }
  }

  // ----- what a packing is worth

  /** A sprint of two tickets or more is within budget. */
  lemma SprintsKeepTheBudget(ts: Tickets, budget: real, sprints: seq<seq<Name>>, k: nat)
    requires Packed(ts, budget, sprints) && k < |sprints| && |sprints[k]| >= 2
    ensures Effort(ts, sprints[k]) <= budget
  {
    var last := |sprints[k]| - 1;
    assert Picks(ts, budget, Flat(sprints[..k]) + sprints[k][..last], sprints[k][..last], sprints[k][last]);
  }

  ghost predicate NoNegativeEffort(ts: Tickets) { forall n :: n in ts ==> ts[n].effort >= 0.0 }

  lemma {:induction false} EffortAtLeast(ts: Tickets, sprint: seq<Name>)
    requires NoNegativeEffort(ts) && Known(ts, sprint)
    ensures Effort(ts, sprint) >= 0.0 && (sprint != [] ==> Effort(ts, sprint) >= ts[sprint[0]].effort)
  {
    if sprint != [] { EffortAtLeast(ts, sprint[..|sprint| - 1]); }
  }

  /** Two sprints in a row exceed the budget together. */
  lemma NeighboursExceedTheBudget(ts: Tickets, budget: real, sprints: seq<seq<Name>>, k: nat)
    requires Packed(ts, budget, sprints) && NoNegativeEffort(ts) && k + 1 < |sprints|
    ensures Effort(ts, sprints[k]) + Effort(ts, sprints[k + 1]) > budget
  {
    var next := sprints[k + 1];
    assert Picks(ts, budget, Flat(sprints[..k + 1]) + next[..0], next[..0], next[0]);
    assert Flat(sprints[..k + 1]) + next[..0] == Flat(sprints[..k + 1]);
    assert Full(ts, budget, Flat(sprints[..k + 1]), sprints[k]);
    EffortAtLeast(ts, next);
  }

  lemma {:induction false} EffortAdds(ts: Tickets, a: seq<Name>, b: seq<Name>)
    requires Known(ts, a) && Known(ts, b)
    ensures Known(ts, a + b) && Effort(ts, a + b) == Effort(ts, a) + Effort(ts, b)
  {
    if b == [] {
      assert a + b == a;
    } else {
      assert (a + b)[..|a + b| - 1] == a + b[..|b| - 1];
      EffortAdds(ts, a, b[..|b| - 1]);
    }
  }

  function Sum(loads: seq<real>): real {
    if loads == [] then 0.0 else Sum(loads[..|loads| - 1]) + loads[|loads| - 1]
  }

  /** `n` whole budgets. */
  function Budgets(n: nat, budget: real): real { if n == 0 then 0.0 else Budgets(n - 1, budget) + budget }

  lemma Distributes(x: real, budget: real)
    ensures (x + 1.0) * budget == x * budget + budget
  {
  }

  lemma {:induction false} BudgetsMultiply(n: nat, budget: real)
    ensures Budgets(n, budget) == n as real * budget
  {
    if n > 0 {
      BudgetsMultiply(n - 1, budget);
      Distributes((n - 1) as real, budget);
    }
  }

  lemma {:induction false} HeavyPairs(loads: seq<real>, budget: real)
    requires forall k :: 0 <= k < |loads| ==> loads[k] >= 0.0
    requires forall k, l :: 0 <= k && l == k + 1 < |loads| ==> loads[k] + loads[l] > budget
    ensures Sum(loads) >= Budgets(|loads| / 2, budget) && (|loads| >= 2 ==> Sum(loads) > Budgets(|loads| / 2, budget))
    decreases |loads|
  {
    var n := |loads|;
    if n >= 2 {
      var front := loads[..n - 2];
      assert loads[..n - 1][..n - 2] == front;
      assert Sum(loads[..n - 1]) == Sum(front) + loads[n - 2];
      assert Sum(loads) == Sum(front) + loads[n - 2] + loads[n - 1];
      HeavyPairs(front, budget);
      assert n / 2 - 1 == (n - 2) / 2;
    } else if n == 1 {
      assert loads[..0] == [];
    }
  }

  ghost predicate AllKnown(ts: Tickets, sprints: seq<seq<Name>>) {
    forall k :: 0 <= k < |sprints| ==> Known(ts, sprints[k])
  }

  ghost function Loads(ts: Tickets, sprints: seq<seq<Name>>): seq<real>
    requires AllKnown(ts, sprints)
  {
    seq(|sprints|, k requires 0 <= k < |sprints| => Effort(ts, sprints[k]))
  }

  lemma {:induction false} FlatHoldsTheLoads(ts: Tickets, sprints: seq<seq<Name>>)
    requires AllKnown(ts, sprints)
    ensures Known(ts, Flat(sprints)) && Effort(ts, Flat(sprints)) == Sum(Loads(ts, sprints))
  {
    if sprints != [] {
      var front := sprints[..|sprints| - 1];
      FlatHoldsTheLoads(ts, front);
      EffortAdds(ts, Flat(front), sprints[|sprints| - 1]);
      assert Loads(ts, sprints)[..|sprints| - 1] == Loads(ts, front);
    }
  }

  lemma PackedLoads(ts: Tickets, budget: real, sprints: seq<seq<Name>>)
    requires Packed(ts, budget, sprints) && NoNegativeEffort(ts)
    ensures AllKnown(ts, sprints)
    ensures forall k :: 0 <= k < |sprints| ==> Loads(ts, sprints)[k] >= 0.0
    ensures forall k, l :: 0 <= k && l == k + 1 < |sprints| ==> Loads(ts, sprints)[k] + Loads(ts, sprints)[l] > budget
  {
    forall k | 0 <= k < |sprints| ensures Loads(ts, sprints)[k] >= 0.0 { EffortAtLeast(ts, sprints[k]); }
    forall k, l | 0 <= k && l == k + 1 < |sprints| ensures Loads(ts, sprints)[k] + Loads(ts, sprints)[l] > budget {
      NeighboursExceedTheBudget(ts, budget, sprints, k);
    }
  }

  /** No packing wastes half its sprints: `n` sprints, two or more, hold more than `n / 2` budgets of
      work. */
  lemma NoWastefulPacking(ts: Tickets, budget: real, sprints: seq<seq<Name>>)
    requires Packed(ts, budget, sprints) && NoNegativeEffort(ts) && |sprints| >= 2
    ensures Known(ts, Flat(sprints)) && Budgets(|sprints| / 2, budget) < Effort(ts, Flat(sprints))
  {
    PackedLoads(ts, budget, sprints);
    HeavyLoads(ts, budget, sprints);
  }

  lemma HeavyLoads(ts: Tickets, budget: real, sprints: seq<seq<Name>>)
    requires AllKnown(ts, sprints) && |sprints| >= 2
    requires forall k :: 0 <= k < |sprints| ==> Loads(ts, sprints)[k] >= 0.0
    requires forall k, l :: 0 <= k && l == k + 1 < |sprints| ==> Loads(ts, sprints)[k] + Loads(ts, sprints)[l] > budget
    ensures Known(ts, Flat(sprints)) && Budgets(|sprints| / 2, budget) < Effort(ts, Flat(sprints))
  {
    FlatHoldsTheLoads(ts, sprints);
    HeavyPairs(Loads(ts, sprints), budget);
  }
}
