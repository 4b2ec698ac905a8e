/** Closing a ticket or epic once every post that links up to it is terminal. */
module RollUp {
  import opened Basics
  import opened Tracker

  type Posts = map<Id, Post>

  function UpTier(t: Tier): Tier { if t == Issue then Ticket else Epic }

  function Rank(t: Tier): nat { if t == Issue then 2 else if t == Ticket then 1 else 0 }

  /** The upward link a post of tier `t` is found by. */
  function LinkOf(p: Post, t: Tier): Option<Id> {
    if t == Issue then p.ticket else if t == Ticket then p.epic else None
  }

  function Children(posts: Posts, t: Tier, parent: Id): set<Id> {
    set q | q in posts && posts[q].tier == t && LinkOf(posts[q], t) == Some(parent)
  }

  predicate IsTerminal(p: Post) { StatusOf(p).Some? && Terminal(StatusOf(p).value) }

  predicate IsDone(p: Post) { StatusOf(p) == Some(Done) }

  predicate Live(p: Post) { p.open && !IsTerminal(p) }

  const ROLL_NOTE := Comment("platform", true, Prose, {}, [], [], [])

  function CloseParent(p: Post, s: Status): Post {
    p.(labels := [s], open := false, thread := p.thread + [ROLL_NOTE])
  }

  /** Done when some child is, else won't-do. */
  function Verdict(posts: Posts, kids: set<Id>): Status
    requires kids <= posts.Keys
  {
    if exists q :: q in kids && IsDone(posts[q]) then Done else WontDo
  }

  /** The posts after closing the chain above `child`, and the ids closed, lowest first. */
  function RollUpFrom(posts: Posts, child: Id, tier: Tier): (Posts, seq<Id>)
    decreases Rank(tier)
  {
    if child !in posts || LinkOf(posts[child], tier).None? then (posts, [])
    else
      var pid := LinkOf(posts[child], tier).value;
      var kids := Children(posts, tier, pid);
      if pid !in posts || !Live(posts[pid]) || kids == {} || exists q :: q in kids && !IsTerminal(posts[q]) then
          (posts, [])
      else
        var (rest, closed) := RollUpFrom(posts[pid := CloseParent(posts[pid], Verdict(posts, kids))], pid,
            UpTier(tier));
        (rest, [pid] + closed)
  }

  /** Issues link tickets and tickets link epics. */
  ghost predicate WellLinked(posts: Posts) {
    forall p :: p in posts ==>
      && (posts[p].tier == Issue && posts[p].ticket.Some? && posts[p].ticket.value in posts ==>
          posts[posts[p].ticket.value].tier == Ticket)
      && (posts[p].tier == Ticket && posts[p].epic.Some? && posts[p].epic.value in posts ==>
          posts[posts[p].epic.value].tier == Epic)
  }

  /** A live parent whose children, of which it has some, are all terminal. */
  ghost predicate Overdue(posts: Posts, p: Id) {
    && p in posts && Live(posts[p])
    && exists t :: Children(posts, t, p) != {} && forall q :: q in Children(posts, t, p) ==> IsTerminal(posts[q])
  }

  /** Same posts, with the same tiers and links. */
  ghost predicate SameShape(a: Posts, b: Posts) {
    && a.Keys == b.Keys
    && forall p :: p in a ==> a[p].tier == b[p].tier && a[p].ticket == b[p].ticket && a[p].epic == b[p].epic
  }

  lemma ShapeFixesChildren(a: Posts, b: Posts, t: Tier, p: Id)
    requires SameShape(a, b)
    ensures Children(a, t, p) == Children(b, t, p)
  {
  }

  /** When one post changes to terminal and closed, only its own parent can become overdue. */
  lemma OverdueSpreadsUpward(posts: Posts, next: Posts, c: Id, p: Id)
    requires SameShape(posts, next) && c in posts && !Live(next[c])
    requires forall q :: q in posts && q != c ==> next[q] == posts[q]
    ensures Overdue(next, p) ==> Overdue(posts, p) || LinkOf(posts[c], posts[c].tier) == Some(p)
  {
    if Overdue(next, p) && LinkOf(posts[c], posts[c].tier) != Some(p) {
      var t :| Children(next, t, p) != {} && forall q :: q in Children(next, t, p) ==> IsTerminal(next[q]);
      ShapeFixesChildren(posts, next, t, p);
      assert forall q :: q in Children(posts, t, p) ==> q != c && IsTerminal(posts[q]);
    }
  }

  /** A post that just became terminal can make only its own parent overdue, and roll-up from it
      leaves nothing overdue. */
  lemma {:induction false} RollUpClearsOverdue(posts: Posts, child: Id)
    requires WellLinked(posts) && child in posts && IsTerminal(posts[child])
    requires forall p: Id :: Overdue(posts, p) ==> LinkOf(posts[child], posts[child].tier) == Some(p)
    ensures forall p: Id :: !Overdue(RollUpFrom(posts, child, posts[child].tier).0, p)
    decreases Rank(posts[child].tier)
  {
    var tier := posts[child].tier;
    var link := LinkOf(posts[child], tier);
    if link.Some? && link.value in posts {
      var pid := link.value;
      var kids := Children(posts, tier, pid);
      assert child in kids;
      assert forall t, q :: t != tier && q in posts && posts[q].tier == t ==> LinkOf(posts[q], t) != Some(pid);
      assert forall t :: t != tier ==> Children(posts, t, pid) == {};
      if Live(posts[pid]) && forall q :: q in kids ==> IsTerminal(posts[q]) {
        var next := posts[pid := CloseParent(posts[pid], Verdict(posts, kids))];
        forall p: Id ensures Overdue(next, p) ==> LinkOf(next[pid], next[pid].tier) == Some(p) {
          OverdueSpreadsUpward(posts, next, pid, p);
        }
        RollUpClearsOverdue(next, pid);
      }
    }
  }

  /** Closing one issue, whatever labels it is left with, and rolling up from it keeps "no live
      parent is overdue". */
  lemma ClosingKeepsParentsSettled(posts: Posts, i: Id, labels: seq<Status>)
    requires WellLinked(posts) && i in posts && posts[i].tier == Issue
    requires forall p: Id :: !Overdue(posts, p)
    ensures var closed := posts[i := posts[i].(labels := labels, open := false)];
            forall p: Id :: !Overdue(RollUpFrom(closed, i, Issue).0, p)
  {
    var closed := posts[i := posts[i].(labels := labels, open := false)];
    forall p: Id ensures Overdue(closed, p) ==> LinkOf(closed[i], Issue) == Some(p) {
      OverdueSpreadsUpward(posts, closed, i, p);
    }
    if IsTerminal(closed[i]) {
      RollUpClearsOverdue(closed, i);
    } else {
      NoRollUpFromLive(closed, i);
    }
  }

  lemma NoRollUpFromLive(closed: Posts, i: Id)
    requires WellLinked(closed) && i in closed && closed[i].tier == Issue && !IsTerminal(closed[i])
    requires forall p: Id :: Overdue(closed, p) ==> LinkOf(closed[i], Issue) == Some(p)
    ensures RollUpFrom(closed, i, Issue).0 == closed && forall p: Id :: !Overdue(closed, p)
  {
    forall p: Id ensures !Overdue(closed, p) {
      assert LinkOf(closed[i], Issue) == Some(p) ==> i in Children(closed, Issue, p);
      assert LinkOf(closed[i], Issue) == Some(p) && p in closed ==> forall t :: t != Issue ==>
          Children(closed, t, p) == {};
    }
  }

  /** What it takes for roll-up to have closed `p`: it was open and not over, it has children, they all are,
      and it is left done exactly when one of them is, else won't-do. */
  ghost predicate RightlyClosed(before: Posts, after: Posts, p: Id)
    requires p in before && p in after
  {
    && before[p].open && !Over(before[p]) && after[p].tier != Issue && AllOver(after, p)
    && !after[p].open && after[p].thread == before[p].thread + [ROLL_NOTE]
    && after[p].labels == [if SomeDone(after, p) then Done else WontDo]
  }

  ghost predicate AllOver(posts: Posts, p: Id) {
    (exists q :: IsChild(posts, q, p)) && forall q :: IsChild(posts, q, p) ==> Over(posts[q])
  }

  ghost predicate SomeDone(posts: Posts, p: Id) {
    exists q :: IsChild(posts, q, p) && StatusOf(posts[q]) == Some(Done)
  }

  ghost predicate Over(p: Post) { StatusOf(p) in {Some(Done), Some(WontDo), Some(Deprecated)} }

  /** An issue whose ticket link names the ticket `p`, or a ticket whose epic link names the epic `p`. */
  ghost predicate IsChild(posts: Posts, q: Id, p: Id) {
    && p in posts && q in posts
    && ((posts[p].tier == Ticket && posts[q].tier == Issue && posts[q].ticket == Some(p))
        || (posts[p].tier == Epic && posts[q].tier == Ticket && posts[q].epic == Some(p)))
  }

  lemma ChildrenAre(posts: Posts, p: Id)
    requires p in posts && posts[p].tier != Issue
    ensures forall q :: q in Children(posts, if posts[p].tier == Ticket then Issue else Ticket, p) <==>
              IsChild(posts, q, p)
  {
  }

  /** Same shape, and no other post than those closed has changed. */
  ghost predicate Framed(posts: Posts, after: Posts, closed: seq<Id>) {
    SameShape(posts, after) && forall p :: p in posts && p !in closed ==> after[p] == posts[p]
  }

  ghost predicate Below(posts: Posts, closed: seq<Id>, r: nat) {
    forall p :: p in closed ==> p in posts && Rank(posts[p].tier) < r
  }

  lemma FrameOneMore(posts: Posts, next: Posts, after: Posts, pid: Id, more: seq<Id>)
    requires Framed(posts, next, [pid]) && Framed(next, after, more)
    ensures Framed(posts, after, [pid] + more)
  {
    assert pid in [pid];
    forall p | p in posts && p !in [pid] + more ensures after[p] == posts[p] {
      assert p !in [pid] && p !in more;
    }
  }

  lemma RanksOneMore(posts: Posts, next: Posts, pid: Id, more: seq<Id>, r: nat)
    requires pid in posts && Rank(posts[pid].tier) < r && SameShape(posts, next)
    requires Below(next, more, Rank(posts[pid].tier))
    ensures Below(posts, [pid] + more, r)
  {
  }

  lemma {:induction false} FrameIs(posts: Posts, child: Id, tier: Tier)
    requires WellLinked(posts) && child in posts && posts[child].tier == tier
    ensures Framed(posts, RollUpFrom(posts, child, tier).0, RollUpFrom(posts, child, tier).1)
    ensures Below(posts, RollUpFrom(posts, child, tier).1, Rank(tier))
    decreases Rank(tier)
  {
    if RollUpFrom(posts, child, tier).1 != [] {
      var pid, next, more := RollUpUnfolds(posts, child, tier);
      FrameIs(next, pid, UpTier(tier));
      FrameOneMore(posts, next, RollUpFrom(posts, child, tier).0, pid, more);
      RanksOneMore(posts, next, pid, more, Rank(tier));
    }
  }

  lemma RollUpFrame(posts: Posts, child: Id, tier: Tier)
    requires WellLinked(posts) && child in posts && posts[child].tier == tier
    ensures var (after, closed) := RollUpFrom(posts, child, tier);
            && SameShape(posts, after)
            && (forall p :: p in closed ==> p in posts && Rank(posts[p].tier) < Rank(tier))
            && (forall p :: p in posts && p !in closed ==> after[p] == posts[p])
  {
    FrameIs(posts, child, tier);
  }

  lemma VerdictIs(posts: Posts, after: Posts, kids: set<Id>, p: Id)
    requires p in after && kids <= posts.Keys && kids != {} && forall q :: q in kids <==> IsChild(after, q, p)
    requires forall q :: q in kids ==> IsTerminal(posts[q]) && q in after && after[q] == posts[q]
    ensures AllOver(after, p) && Verdict(posts, kids) == if SomeDone(after, p) then Done else WontDo
  {
    var q :| q in kids;
    assert IsChild(after, q, p);
  }

  lemma ClosedParentIsRight(posts: Posts, after: Posts, pid: Id, tier: Tier)
    requires SameShape(posts, after) && pid in posts && tier != Epic && posts[pid].tier == UpTier(tier)
    requires var kids := Children(posts, tier, pid);
             && Live(posts[pid]) && kids != {}
             && (forall q :: q in kids ==> IsTerminal(posts[q]) && after[q] == posts[q])
             && after[pid] == CloseParent(posts[pid], Verdict(posts, kids))
    ensures RightlyClosed(posts, after, pid)
  {
    ShapeFixesChildren(posts, after, tier, pid);
    ChildrenAre(after, pid);
    VerdictIs(posts, after, Children(posts, tier, pid), pid);
  }

  lemma RollUpUnfolds(posts: Posts, child: Id, tier: Tier) returns (pid: Id, next: Posts, more: seq<Id>)
    requires WellLinked(posts) && child in posts && posts[child].tier == tier
    requires RollUpFrom(posts, child, tier).1 != []
    ensures var kids := Children(posts, tier, pid);
            && pid in posts && tier != Epic && posts[pid].tier == UpTier(tier) && Live(posts[pid])
            && kids != {} && (forall q :: q in kids ==> IsTerminal(posts[q]))
            && next == posts[pid := CloseParent(posts[pid], Verdict(posts, kids))] && WellLinked(next)
            && RollUpFrom(posts, child, tier) == (RollUpFrom(next, pid, UpTier(tier)).0, [pid] + more)
            && RollUpFrom(next, pid, UpTier(tier)).1 == more
  {
    pid := LinkOf(posts[child], tier).value;
    next := posts[pid := CloseParent(posts[pid], Verdict(posts, Children(posts, tier, pid)))];
    more := RollUpFrom(next, pid, UpTier(tier)).1;
  }

  ghost predicate AllRightlyClosed(before: Posts, after: Posts, closed: seq<Id>) {
    forall p :: p in closed ==> p in before && p in after && RightlyClosed(before, after, p)
  }

  lemma ClosingOneMore(posts: Posts, next: Posts, after: Posts, pid: Id, more: seq<Id>)
    requires pid in posts && pid in after && pid !in more && RightlyClosed(posts, after, pid)
    requires next.Keys == posts.Keys && forall q :: q in posts && q != pid ==> next[q] == posts[q]
    requires AllRightlyClosed(next, after, more)
    ensures AllRightlyClosed(posts, after, [pid] + more)
  {
    forall p | p in more ensures RightlyClosed(posts, after, p) {
      assert RightlyClosed(next, after, p) && next[p] == posts[p];
    }
  }

  lemma KidsStay(posts: Posts, after: Posts, closed: seq<Id>, pid: Id, tier: Tier)
    requires Framed(posts, after, closed) && Below(posts, closed, Rank(tier))
    ensures forall q :: q in Children(posts, tier, pid) ==> q in after && after[q] == posts[q]
  {
  }

  lemma ParentStays(next: Posts, after: Posts, more: seq<Id>, pid: Id)
    requires Framed(next, after, more) && pid in next && Below(next, more, Rank(next[pid].tier))
    ensures pid !in more && pid in after && after[pid] == next[pid]
  {
  }

  lemma {:induction false} ClosedAreRight(posts: Posts, child: Id, tier: Tier)
    requires WellLinked(posts) && child in posts && posts[child].tier == tier
    ensures var (after, closed) := RollUpFrom(posts, child, tier); AllRightlyClosed(posts, after, closed)
    decreases Rank(tier)
  {
    var (after, closed) := RollUpFrom(posts, child, tier);
    if closed != [] {
      var pid, next, more := RollUpUnfolds(posts, child, tier);
      FrameIs(posts, child, tier);
      FrameIs(next, pid, UpTier(tier));
      KidsStay(posts, after, closed, pid, tier);
      ParentStays(next, after, more, pid);
      ClosedAreRight(next, pid, UpTier(tier));
      ClosedParentIsRight(posts, after, pid, tier);
      ClosingOneMore(posts, next, after, pid, more);
    }
  }

  /** Roll-up touches only the parents it closes: live ones whose children are all terminal. Such
      a parent becomes done exactly when some child is done, else it becomes won't-do. */
  lemma RollUpClosesRightly(posts: Posts, child: Id, tier: Tier)
    requires WellLinked(posts) && child in posts && posts[child].tier == tier
    ensures var (after, closed) := RollUpFrom(posts, child, tier);
            && SameShape(posts, after)
            && AllRightlyClosed(posts, after, closed)
            && (forall p :: p in posts && p !in closed ==> after[p] == posts[p])
  {
    RollUpFrame(posts, child, tier);
    ClosedAreRight(posts, child, tier);
  }

  // ----- links that are not well formed

  /** Roll-up from a child of tier `t` would close `p`. */
  predicate Closable(posts: Posts, t: Tier, p: Id) {
    && p in posts && Live(posts[p]) && Children(posts, t, p) != {}
    && forall q :: q in Children(posts, t, p) ==> IsTerminal(posts[q])
  }

  function Closed(posts: Posts, t: Tier, p: Id): Posts
    requires p in posts
  {
    posts[p := CloseParent(posts[p], Verdict(posts, Children(posts, t, p)))]
  }

  lemma RollUpFromTicket(posts: Posts, t: Id)
    requires t in posts
    ensures RollUpFrom(posts, t, Ticket).1 ==
            if posts[t].epic.Some? && Closable(posts, Ticket, posts[t].epic.value) then [posts[t].epic.value] else []
  {
  }

  /** Roll-up does not look at the tier of what it closes. It closes an issue, although no branch was
      merged, exactly when the finished issue's `Ticket:` link names one that would close, or names a
      post whose `Epic:` link does. */
  lemma ClosesAnIssueIff(posts: Posts, i: Id)
    requires i in posts
    ensures (exists p :: p in RollUpFrom(posts, i, Issue).1 && p in posts && posts[p].tier == Issue) <==>
            match posts[i].ticket
            case None => false
            case Some(t) =>
              && Closable(posts, Issue, t)
              && (posts[t].tier == Issue
                  || match posts[t].epic
                     case None => false
                     case Some(u) =>
                       u in posts && posts[u].tier == Issue && Closable(Closed(posts, Issue, t), Ticket, u))
  {
    if posts[i].ticket.Some? && Closable(posts, Issue, posts[i].ticket.value) {
      var t := posts[i].ticket.value;
      RollUpFromTicket(Closed(posts, Issue, t), t);
      assert RollUpFrom(posts, i, Issue).1 == [t] + RollUpFrom(Closed(posts, Issue, t), t, Ticket).1;
      assert t in RollUpFrom(posts, i, Issue).1;
      if posts[t].epic.Some? && Closable(Closed(posts, Issue, t), Ticket, posts[t].epic.value) {
        assert posts[t].epic.value in RollUpFrom(posts, i, Issue).1;
      }
    }
  }

  /** A witness: an issue whose `Ticket:` link names another live issue
      closes that issue as done, although roll-up never looked at its branch. */
  lemma BadLinkClosesAnIssue(posts: Posts, i: Id, j: Id)
    requires posts.Keys == {i, j} && i != j
    requires posts[i].tier == Issue && posts[i].ticket == Some(j) && IsDone(posts[i])
    requires posts[j].tier == Issue && posts[j].ticket == None && posts[j].epic == None && Live(posts[j])
    ensures IsDone(RollUpFrom(posts, i, Issue).0[j])
  {
    var kids := Children(posts, Issue, j);
    assert kids == {i};
    var next := posts[j := CloseParent(posts[j], Done)];
    assert RollUpFrom(next, j, Ticket) == (next, []);
  }
}
