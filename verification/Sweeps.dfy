/** What landing one branch does to the others: every sibling waiting at a gate is gated afresh on
    a branch that contains the new primary, or parked; and every job brings HEAD home. */
module Sweeps {
  import opened Basics
  import opened Tracker
  import opened Gates
  import opened Advance
  import opened Branches
  import opened Lifecycle
  import opened Safety
  import R = RollUp
  import G = Git

  // ----- readied branches

  lemma ReadiedBranchContainsPrimary(g: G.State, b: G.Branch, primary: G.Branch, luck: Luck)
    requires g.Valid() && b != primary
    ensures var (h, ok) := ReadyBranch(g, b, primary, luck);
            && h.At(primary) == g.At(primary)
            && (ok ==> b in h.branches && h.At(primary) <= h.At(b))
  {
    G.PreparingContains(g, b, primary, luck.toBranch, luck.prepare, luck.back, luck.prepareResolved);
  }

  /** Landing a branch that was just readied never meets a conflict: its resolver is not needed,
      so `landResolved` and `landAborted` make no difference. */
  lemma ReadiedLandingNeedsNoResolver(g: G.State, b: G.Branch, primary: G.Branch, luck: Luck, later: Luck)
    requires g.Valid() && b != primary && primary in g.branches && ReadyBranch(g, b, primary, luck).1
    ensures var h := ReadyBranch(g, b, primary, luck).0;
            && !G.Land(h, b, primary, later.toPrimary, later.land).1.Conflicted?
            && forall r, a :: LandBranch(h, b, primary, later.(landResolved := r, landAborted := a)) ==
                LandBranch(h, b, primary, later)
  {
    ReadyBranchKeeps(g, b, primary, luck);
    ReadiedBranchContainsPrimary(g, b, primary, luck);
    G.PreparedLandingCannotConflict(ReadyBranch(g, b, primary, luck).0, b, primary, later.toPrimary, later.land);
  }

  // ----- the sweep

  /** The thread ends in a fresh gate, and the branch contains primary. */
  ghost predicate Regated(w: World, i: Id) {
    && i in w.posts && w.posts[i].thread != []
    && (var c := w.posts[i].thread[|w.posts[i].thread| - 1]; c.tokens != [] && FreshGate(c, MergeGate, c.tokens[0]))
    && BranchOf(i, w.posts[i]) in w.git.branches
    && w.git.At(w.primary) <= w.git.At(BranchOf(i, w.posts[i]))
  }

  ghost predicate Parked(w: World, i: Id) { i in w.posts && Blocked in w.posts[i].labels }

  lemma ParkParks(w: World, i: Id, e: Tracker.Post)
    requires i in w.posts
    ensures var v := Park(w, i, e);
            v.posts == w.posts[i := v.posts[i]] && v.git == w.git && Blocked in v.posts[i].labels
  {
    RelabelAdds(w.posts[i].labels, e.labels, Blocked);
  }

  lemma OpenGateGates(w: World, i: Id, e: Tracker.Post)
    requires i in w.posts && SameFixed(e, w.posts[i])
    requires BranchOf(i, e) in w.git.branches && w.git.At(w.primary) <= w.git.At(BranchOf(i, e))
    ensures var v := OpenGate(w, i, e); v.posts == w.posts[i := v.posts[i]] && v.git == w.git && Regated(v, i)
  {
  }

  lemma ReadyAndGateSettles(w: World, i: Id, e: Tracker.Post, luck: Luck)
    requires w.git.Valid() && i in w.posts && SameFixed(e, w.posts[i]) && BranchOf(i, e) != w.primary
    ensures var v := ReadyAndGate(w, i, e, luck);
            && (Regated(v, i) || Parked(v, i))
            && v.git.At(w.primary) == w.git.At(w.primary)
            && v.posts == w.posts[i := v.posts[i]]
  {
    var b := BranchOf(i, e);
    var (g, ok) := ReadyBranch(w.git, b, w.primary, luck);
    ReadiedBranchContainsPrimary(w.git, b, w.primary, luck);
    if ok { OpenGateGates(w.(git := g), i, e); } else { ParkParks(w.(git := g), i, e); }
  }

  lemma SettledStays(w: World, v: World, j: Id)
    requires Tame(w, v) && v.git.At(w.primary) == w.git.At(w.primary)
    requires j in v.posts && j in w.posts && v.posts[j] == w.posts[j]
    requires Regated(w, j) || Parked(w, j)
    ensures Regated(v, j) || Parked(v, j)
  {
    assert w.git.At(BranchOf(j, w.posts[j])) <= v.git.At(BranchOf(j, w.posts[j]));
  }

  lemma Seen(w: World, i: Id)
    requires Shape(w) && i in w.mirror
    ensures BranchOf(i, w.mirror[i]) != w.primary && w.git.Valid()
    ensures i in w.posts ==> SameFixed(w.mirror[i], w.posts[i])
  {
    assert SameFixed(w.mirror[i], w.born[i]);
    if i in w.posts { assert SameFixed(w.posts[i], w.born[i]); }
    OtherBranchesAreNotIssues(w.primary, w.mirror[i].title, i);
  }

  lemma SayTouchesOne(w: World, i: Id, n: Note)
    requires i in w.posts
    ensures var v := SayNote(w, i, n);
            && v.posts == w.posts[i := v.posts[i]] && SameFixed(w.posts[i], v.posts[i])
            && v.git == w.git && v.primary == w.primary && v.mirror == w.mirror
  {
  }

  lemma SweptOne(w: World, i: Id, luck: Luck)
    requires i in w.mirror && i in w.posts && SameFixed(w.mirror[i], w.posts[i])
    requires BranchOf(i, w.mirror[i]) != w.primary && w.git.Valid()
    ensures var v := ReadyAndGate(SayNote(w, i, Ack), i, w.mirror[i], luck);
            && (Regated(v, i) || Parked(v, i))
            && v.git.At(w.primary) == w.git.At(w.primary) && i in v.posts && v.posts == w.posts[i := v.posts[i]]
  {
    SayTouchesOne(w, i, Ack);
    SweptFrom(w, SayNote(w, i, Ack), i, w.mirror[i], luck);
  }

  lemma UpdatedTwice(a: R.Posts, b: R.Posts, c: R.Posts, i: Id)
    requires i in b && i in c && b == a[i := b[i]] && c == b[i := c[i]]
    ensures c == a[i := c[i]]
  {
  }

  lemma SweptFrom(w: World, w1: World, i: Id, e: Tracker.Post, luck: Luck)
    requires i in w.posts && i in w1.posts && w1.posts == w.posts[i := w1.posts[i]] && SameFixed(e, w1.posts[i])
    requires w1.git == w.git && w1.primary == w.primary && BranchOf(i, e) != w.primary && w.git.Valid()
    ensures var v := ReadyAndGate(w1, i, e, luck);
            && (Regated(v, i) || Parked(v, i))
            && v.git.At(w.primary) == w.git.At(w.primary) && i in v.posts && v.posts == w.posts[i := v.posts[i]]
  {
    ReadyAndGateSettles(w1, i, e, luck);
    UpdatedTwice(w.posts, w1.posts, ReadyAndGate(w1, i, e, luck).posts, i);
  }

  lemma SweptOthersStay(w: World, v: World, front: seq<Id>, i: Id)
    requires Tame(w, v) && v.git.At(w.primary) == w.git.At(w.primary) && i in w.posts && i in v.posts
    requires v.posts == w.posts[i := v.posts[i]] && AllSettled(w, front) && (Regated(v, i) || Parked(v, i))
    ensures AllSettled(v, front + [i])
  {
    forall j | j in front + [i] ensures Regated(v, j) || Parked(v, j) {
      if j != i { SettledStays(w, v, j); }
    }
  }

  ghost predicate AllSettled(w: World, ids: seq<Id>) {
    forall j :: j in ids ==> Regated(w, j) || Parked(w, j)
  }

  lemma SweepOneMore(w: World, front: seq<Id>, i: Id, luck: Luck)
    requires Good(w) && i in w.mirror && i in w.posts && AllSettled(w, front)
    ensures var v := ReadyAndGate(SayNote(w, i, Ack), i, w.mirror[i], luck);
            AllSettled(v, front + [i]) && v.git.At(w.primary) == w.git.At(w.primary)
  {
    var v := ReadyAndGate(SayNote(w, i, Ack), i, w.mirror[i], luck);
    Seen(w, i);
    SweptOne(w, i, luck);
    SweptIsTame(w, i, luck);
    SweptOthersStay(w, v, front, i);
  }

  lemma {:induction false} SweepSettles(w: World, ids: seq<Id>, lucks: Lucks)
    requires Good(w) && forall i :: i in ids ==> i in w.mirror && i in w.posts
    ensures var v := Sweep(w, ids, lucks); AllSettled(v, ids) && v.git.At(w.primary) == w.git.At(w.primary)
  {
    if ids != [] {
      var front, i := ids[..|ids| - 1], ids[|ids| - 1];
      assert ids == front + [i];
      SweepIsTame(w, front, lucks);
      SweepSettles(w, front, lucks);
      SweepOneMore(Sweep(w, front, lucks), front, i, LuckOf(lucks, i));
    }
  }

  lemma {:induction false} OpenGatesFindsAll(w: World, ids: seq<Id>, exclude: Id)
    ensures forall i :: i in OpenGates(w, ids, exclude) <==> i in ids && i != exclude && AtOpenGate(w, i)
  {
    if ids != [] {
      assert ids == ids[..|ids| - 1] + [ids[|ids| - 1]];
      OpenGatesFindsAll(w, ids[..|ids| - 1], exclude);
    }
  }

  /** Closing an issue and rolling up leaves every other issue as it was. */
  lemma CloseLeavesOtherIssues(w: World, id: Id, e: Tracker.Post, i: Id)
    requires R.WellLinked(w.posts) && e.tier == Issue && (id in w.posts ==> w.posts[id].tier == Issue)
    requires i != id && i in w.posts && w.posts[i].tier == Issue
    ensures var v := CloseAsDone(w, id, e); i in v.posts && v.posts[i] == w.posts[i] && v.mirror == w.mirror
  {
    if id in w.posts {
      var w1 := SetLabel(w, id, e, Done);
      var closed := w1.posts[id := w1.posts[id].(open := false)];
      R.RollUpFrame(closed, id, Issue);
      assert i !in R.RollUpFrom(closed, id, Issue).1;
    }
  }

  lemma RecordLeavesOtherIssues(w: World, id: Id, e: Tracker.Post, tip: set<G.Commit>, seen: Thread, i: Id)
    requires Good(w) && e.tier == Issue && (id in w.posts ==> w.posts[id].tier == Issue)
    requires i != id && i in w.posts && w.posts[i].tier == Issue
    ensures var v := Record(w, id, e, tip, seen);
            i in v.posts && v.posts[i] == w.posts[i] && v.mirror == w.mirror && v.order == w.order
  {
    SayIsTame(w, id, Ack);
    var w1 := SayNote(w, id, Ack);
    CloseLeavesOtherIssues(w1.(log := w1.log + [Landed(id, seen), Closed(id, tip)]), id, e, i);
  }

  lemma SettleRegates(w: World, id: Id, e: Tracker.Post, tip: set<G.Commit>, lucks: Lucks, seen: Thread, i: Id)
    requires Good(w) && e.tier == Issue && (id in w.posts ==> w.posts[id].tier == Issue) && i != id && AtOpenGate(w, i)
    ensures var v := Settle(w, id, e, tip, lucks, seen); Regated(v, i) || Parked(v, i)
  {
    var w1 := Record(w, id, e, tip, seen);
    RecordIsTame(w, id, e, tip, seen);
    RecordLeavesOtherIssues(w, id, e, tip, seen, i);
    OpenGatesFindsAll(w1, w1.order, id);
    SweepSettles(w1, OpenGates(w1, w1.order, id), lucks);
  }

  lemma FailedLandingLogsNothing(w: World, id: Id, e: Tracker.Post, luck: Luck, lucks: Lucks, seen: Thread)
    requires !LandBranch(w.git, BranchOf(id, e), w.primary, luck).1
    ensures MergeBranch(w, id, e, luck, lucks, seen).log == w.log
  {
  }

  lemma LandKeepsGood(w: World, id: Id, e: Tracker.Post, luck: Luck)
    requires Good(w) && BranchOf(id, e) != w.primary
    ensures var g := LandBranch(w.git, BranchOf(id, e), w.primary, luck).0; G.Kept(w.git, g) && Good(w.(git := g))
  {
    LandBranchKeeps(w.git, BranchOf(id, e), w.primary, luck);
    GitIsTame(w, LandBranch(w.git, BranchOf(id, e), w.primary, luck).0);
  }

  lemma ReadyKeepsGood(w: World, id: Id, e: Tracker.Post, luck: Luck)
    requires Good(w)
    ensures Good(w.(git := ReadyBranch(w.git, BranchOf(id, e), w.primary, luck).0))
  {
    ReadyBranchKeeps(w.git, BranchOf(id, e), w.primary, luck);
    GitIsTame(w, ReadyBranch(w.git, BranchOf(id, e), w.primary, luck).0);
  }

  /** The world a gate job merges from: its branch readied first if the job says so. */
  function MergesFrom(w: World, k: nat, luck: Luck): World
    requires k < |w.work| && w.work[k].GateJob? && w.work[k].id in w.mirror
  {
    var j, w1 := w.work[k], w.(work := Drop(w.work, k));
    if j.prepare then w1.(git := ReadyBranch(w.git, BranchOf(j.id, w.mirror[j.id]), w.primary, luck).0) else w1
  }

  lemma ReadyAndGateLogNothing(w: World, id: Id, e: Tracker.Post, luck: Luck)
    ensures Ready(w, id, e, luck).0.log == w.log && OpenGate(Ready(w, id, e, luck).0, id, e).log == w.log
  {
  }

  lemma LoggingJobMerges(w: World, k: nat, luck: Luck, lucks: Lucks)
    requires k < |w.work| && w.work[k].GateJob? && w.work[k].id in w.mirror
    requires RunGate(w, k, luck, lucks).log != w.log
    ensures var j, u := w.work[k], MergesFrom(w, k, luck);
            && RunGate(w, k, luck, lucks) == MergeBranch(u, j.id, w.mirror[j.id], luck, lucks, j.seen)
            && LandBranch(u.git, BranchOf(j.id, w.mirror[j.id]), u.primary, luck).1
  {
    var j, u := w.work[k], MergesFrom(w, k, luck);
    var e := w.mirror[j.id];
    ReadyAndGateLogNothing(w.(work := Drop(w.work, k)), j.id, e, luck);
    assert RunGate(w, k, luck, lucks) == MergeBranch(u, j.id, e, luck, lucks, j.seen);
    if !LandBranch(u.git, BranchOf(j.id, e), u.primary, luck).1 {
      FailedLandingLogsNothing(u, j.id, e, luck, lucks, j.seen);
    }
  }

  /** A gate job that closes its issue settles, from a world with the same tracker. */
  lemma LandingSettles(w: World, k: nat, luck: Luck, lucks: Lucks) returns (u: World)
    requires Good(w) && k < |w.work| && w.work[k].GateJob? && w.work[k].id in w.mirror
    requires RunGate(w, k, luck, lucks).log != w.log
    ensures var j := w.work[k];
            var e := w.mirror[j.id];
            && Good(u) && u == w.(work := u.work, git := u.git)
            && RunGate(w, k, luck, lucks) == Settle(u, j.id, e, u.git.At(BranchOf(j.id, e)), lucks, j.seen)
  {
    var j := w.work[k];
    var e := w.mirror[j.id];
    Seen(w, j.id);
    var from := MergesFrom(w, k, luck);
    LoggingJobMerges(w, k, luck, lucks);
    ReadyKeepsGood(w.(work := Drop(w.work, k)), j.id, e, luck);
    LandKeepsGood(from, j.id, e, luck);
    u := from.(git := LandBranch(from.git, BranchOf(j.id, e), from.primary, luck).0);
  }

  lemma TierSeen(w: World, i: Id)
    requires Shape(w) && i in w.mirror
    ensures i in w.posts ==> w.posts[i].tier == w.mirror[i].tier
  {
    Seen(w, i);
  }

  /** Whenever a gate job closes its issue, every other open issue that the sweep finds at a merge
      gate ends up at a fresh gate on a branch containing the new primary, or blocked. */
  lemma LandingRegatesSiblings(w: World, k: nat, luck: Luck, lucks: Lucks, i: Id)
    requires Good(w) && k < |w.work| && w.work[k].GateJob?
    requires var id := w.work[k].id; id in w.mirror && w.mirror[id].tier == Issue && i != id && AtOpenGate(w, i)
    requires RunGate(w, k, luck, lucks).log != w.log
    ensures var v := RunGate(w, k, luck, lucks); Regated(v, i) || Parked(v, i)
  {
    var j := w.work[k];
    var u := LandingSettles(w, k, luck, lucks);
    TierSeen(w, j.id);
    SettleRegates(u, j.id, w.mirror[j.id], u.git.At(BranchOf(j.id, w.mirror[j.id])), lucks, j.seen, i);
  }

  // ----- gates the sweep does not see

  /** Nothing changes on post `j`. */
  predicate SameAt(a: R.Posts, b: R.Posts, j: Id) { (j in a <==> j in b) && (j in a && j in b ==> a[j] == b[j]) }

  lemma FlagTouchesOne(w: World, i: Id, e: Tracker.Post, s: Status, n: Note, j: Id)
    requires j != i
    ensures SameAt(w.posts, SayNote(SetLabel(w, i, e, s), i, n).posts, j) && SameAt(w.posts, SayNote(w, i, n).posts, j)
  {
  }

  lemma ReadyAndGateTouchesOne(w: World, i: Id, e: Tracker.Post, luck: Luck, j: Id)
    requires j != i
    ensures SameAt(w.posts, ReadyAndGate(w, i, e, luck).posts, j)
  {
    var w1 := w.(git := ReadyBranch(w.git, BranchOf(i, e), w.primary, luck).0);
    FlagTouchesOne(w1, i, e, Blocked, Ack, j);
    FlagTouchesOne(w1, i, e, AwaitingApproval, PureGate, j);
  }

  lemma {:induction false} SweepLeavesTheRest(w: World, ids: seq<Id>, lucks: Lucks, j: Id)
    requires j !in ids
    ensures SameAt(w.posts, Sweep(w, ids, lucks).posts, j)
  {
    if ids != [] {
      var front, i := ids[..|ids| - 1], ids[|ids| - 1];
      assert i in ids;
      SweepLeavesTheRest(w, front, lucks, j);
      var w1 := Sweep(w, front, lucks);
      if i in w1.mirror { ReadyAndGateTouchesOne(SayNote(w1, i, Ack), i, w1.mirror[i], LuckOf(lucks, i), j); }
    }
  }

  function Said(posts: R.Posts, i: Id): nat { if i in posts then |posts[i].thread| else 0 }

  lemma FlagSays(w: World, i: Id, e: Tracker.Post, s: Status, n: Note)
    requires i in w.posts
    ensures var v := SayNote(SetLabel(w, i, e, s), i, n); i in v.posts && Said(v.posts, i) == Said(w.posts, i) + 1
    ensures var v := SayNote(w, i, n); i in v.posts && Said(v.posts, i) == Said(w.posts, i) + 1
  {
  }

  lemma ReadyAndGateSays(w: World, i: Id, e: Tracker.Post, luck: Luck)
    requires i in w.posts
    ensures var v := ReadyAndGate(w, i, e, luck); i in v.posts && Said(v.posts, i) > Said(w.posts, i)
  {
    var (g, ok) := ReadyBranch(w.git, BranchOf(i, e), w.primary, luck);
    var w1 := w.(git := g);
    if ok { FlagSays(w1, i, e, AwaitingApproval, PureGate); } else { FlagSays(w1, i, e, Blocked, Ack); }
  }

  lemma {:induction false} SweepSays(w: World, ids: seq<Id>, lucks: Lucks, j: Id)
    requires j in w.posts
    ensures var v := Sweep(w, ids, lucks);
            && v.mirror == w.mirror && j in v.posts && Said(v.posts, j) >= Said(w.posts, j)
            && (j in ids && j in w.mirror ==> Said(v.posts, j) > Said(w.posts, j))
  {
    if ids != [] {
      var front, i := ids[..|ids| - 1], ids[|ids| - 1];
      assert ids == front + [i];
      SweepSays(w, front, lucks, j);
      var w1 := Sweep(w, front, lucks);
      if i in w1.mirror {
        var w2 := SayNote(w1, i, Ack);
        if i == j { ReadyAndGateSays(w2, i, w1.mirror[i], LuckOf(lucks, i)); }
        else { ReadyAndGateTouchesOne(w2, i, w1.mirror[i], LuckOf(lucks, i), j); }
      }
    }
  }

  /** An open issue whose thread on the tracker carries a merge gate, whatever the mirror shows. */
  predicate TrulyAtGate(w: World, i: Id) {
    && i in w.posts && w.posts[i].open && w.posts[i].tier == Issue
    && StatusOf(w.posts[i]) == Some(AwaitingApproval) && LastMarked(w.posts[i].thread, MergeGate).Some?
  }

  /** The sweep is promised for every other open merge gate; it reaches exactly those whose gate the
      mirror has seen. Any other sibling is left as it was, its gate and its answers included. */
  lemma SweepReachesGateIff(w: World, k: nat, luck: Luck, lucks: Lucks, i: Id)
    requires Good(w) && k < |w.work| && w.work[k].GateJob?
    requires var id := w.work[k].id; id in w.mirror && w.mirror[id].tier == Issue && i != id && TrulyAtGate(w, i)
    requires RunGate(w, k, luck, lucks).log != w.log
    ensures i in RunGate(w, k, luck, lucks).posts
    ensures RunGate(w, k, luck, lucks).posts[i] != w.posts[i] <==>
            i in w.mirror && LastMarked(w.mirror[i].thread, MergeGate).Some?
  {
    var j := w.work[k];
    var e := w.mirror[j.id];
    var u := LandingSettles(w, k, luck, lucks);
    TierSeen(w, j.id);
    var tip := u.git.At(BranchOf(j.id, e));
    var w1 := Record(u, j.id, e, tip, j.seen);
    RecordIsTame(u, j.id, e, tip, j.seen);
    RecordLeavesOtherIssues(u, j.id, e, tip, j.seen, i);
    var ids := OpenGates(w1, w1.order, j.id);
    OpenGatesFindsAll(w1, w1.order, j.id);
    if i in ids { SweepSays(w1, ids, lucks, i); } else { SweepLeavesTheRest(w1, ids, lucks, i); }
  }

  /** A witness: a gate posted and approved since the last sync keeps its approval over a landing. */
  lemma UnseenGateKeepsItsApproval(w: World, k: nat, luck: Luck, lucks: Lucks, i: Id)
    requires Good(w) && k < |w.work| && w.work[k].GateJob?
    requires var id := w.work[k].id; id in w.mirror && w.mirror[id].tier == Issue && i != id && TrulyAtGate(w, i)
    requires RunGate(w, k, luck, lucks).log != w.log
    requires i in w.mirror && w.mirror[i].thread == []
    requires GateSignals(w.cfg, i, w.posts[i].thread, MergeGate).value.approve != []
    ensures i in RunGate(w, k, luck, lucks).posts
    ensures var s := GateSignals(w.cfg, i, RunGate(w, k, luck, lucks).posts[i].thread, MergeGate);
            s.Some? && s.value.approve != []
  {
    SweepReachesGateIff(w, k, luck, lucks, i);
  }

  // ----- how a gate job leaves its own issue

  /** Waiting at a fresh gate, blocked, or done and closed. */
  ghost predicate Rests(w: World, i: Id) {
    && i in w.posts
    && ((Regated(w, i) && StatusOf(w.posts[i]) == Some(AwaitingApproval))
        || w.posts[i].labels == [Blocked]
        || (w.posts[i].labels == [Done] && !w.posts[i].open))
  }

  lemma ParkRests(w: World, i: Id, e: Tracker.Post)
    requires i in w.posts && w.posts[i].labels == e.labels
    ensures Rests(Park(w, i, e), i)
  {
    RelabelAll(e.labels, Blocked);
  }

  lemma OpenGateRelabels(w: World, i: Id, e: Tracker.Post)
    requires i in w.posts && w.posts[i].labels == e.labels
    ensures var v := OpenGate(w, i, e); i in v.posts && StatusOf(v.posts[i]) == Some(AwaitingApproval)
  {
    RelabelAll(e.labels, AwaitingApproval);
  }

  lemma OpenGateRests(w: World, i: Id, e: Tracker.Post)
    requires i in w.posts && w.posts[i].labels == e.labels && SameFixed(e, w.posts[i])
    requires BranchOf(i, e) in w.git.branches && w.git.At(w.primary) <= w.git.At(BranchOf(i, e))
    ensures Rests(OpenGate(w, i, e), i)
  {
    OpenGateGates(w, i, e);
    OpenGateRelabels(w, i, e);
  }

  lemma CloseCloses(w: World, i: Id, e: Tracker.Post)
    requires R.WellLinked(w.posts) && i in w.posts && w.posts[i].tier == e.tier == Issue
               && w.posts[i].labels == e.labels
    ensures var v := CloseAsDone(w, i, e); i in v.posts && v.posts[i].labels == [Done] && !v.posts[i].open
  {
    RelabelAll(e.labels, Done);
    var w1 := SetLabel(w, i, e, Done);
    var closed := w1.posts[i := w1.posts[i].(open := false)];
    R.RollUpFrame(closed, i, Issue);
    assert i !in R.RollUpFrom(closed, i, Issue).1;
  }

  lemma SettleRests(w: World, i: Id, e: Tracker.Post, tip: set<G.Commit>, lucks: Lucks, seen: Thread)
    requires Good(w) && i in w.posts && w.posts[i].tier == e.tier == Issue && w.posts[i].labels == e.labels
    ensures Rests(Settle(w, i, e, tip, lucks, seen), i)
  {
    SayIsTame(w, i, Ack);
    var w1 := SayNote(w, i, Ack);
    CloseCloses(w1.(log := w1.log + [Landed(i, seen), Closed(i, tip)]), i, e);
    var w2 := Record(w, i, e, tip, seen);
    OpenGatesFindsAll(w2, w2.order, i);
    SweepLeavesTheRest(w2, OpenGates(w2, w2.order, i), lucks, i);
  }

  lemma MergeRests(w: World, i: Id, e: Tracker.Post, luck: Luck, lucks: Lucks, seen: Thread)
    requires Good(w) && i in w.posts && w.posts[i].tier == e.tier == Issue && w.posts[i].labels == e.labels
    requires BranchOf(i, e) != w.primary
    ensures Rests(MergeBranch(w, i, e, luck, lucks, seen), i)
  {
    var b := BranchOf(i, e);
    var (g, ok) := LandBranch(w.git, b, w.primary, luck);
    LandBranchKeeps(w.git, b, w.primary, luck);
    GitIsTame(w, g);
    if ok { SettleRests(w.(git := g), i, e, g.At(b), lucks, seen); } else { ParkRests(w.(git := g), i, e); }
  }

  /** A gate job for an issue whose labels the mirror shows leaves it at a fresh gate on a branch that
      contains primary, blocked, or done and closed: whatever git and the resolver do. */
  lemma GateJobRests(w: World, k: nat, luck: Luck, lucks: Lucks)
    requires Good(w) && k < |w.work| && w.work[k].GateJob? && (w.work[k].prepare || w.work[k].merge)
    requires var id := w.work[k].id;
             && id in w.mirror && id in w.posts
             && w.mirror[id].tier == Issue && w.posts[id].labels == w.mirror[id].labels
    ensures Rests(RunGate(w, k, luck, lucks), w.work[k].id)
  {
    var j := w.work[k];
    var e := w.mirror[j.id];
    var b := BranchOf(j.id, e);
    Seen(w, j.id);
    var w1 := w.(work := Drop(w.work, k));
    if j.prepare {
      var (g, ok) := ReadyBranch(w.git, b, w.primary, luck);
      ReadyBranchKeeps(w.git, b, w.primary, luck);
      ReadiedBranchContainsPrimary(w.git, b, w.primary, luck);
      GitIsTame(w1, g);
      if !ok { ParkRests(w1.(git := g), j.id, e); }
      else if j.merge { MergeRests(w1.(git := g), j.id, e, luck, lucks, j.seen); }
      else { OpenGateRests(w1.(git := g), j.id, e); }
    } else {
      MergeRests(w1, j.id, e, luck, lucks, j.seen);
    }
  }

  // ----- HEAD comes home

  predicate Homing(luck: Luck) { luck.back && luck.prepareAborted && luck.landAborted }

  lemma BranchWorkComesHome(g: G.State, b: G.Branch, primary: G.Branch, luck: Luck)
    requires g.Valid() && g.Settled(primary) && Homing(luck)
    ensures ReadyBranch(g, b, primary, luck).0.Settled(primary)
    ensures LandBranch(g, b, primary, luck).0.Settled(primary)
  {
    ReadyBranchKeeps(g, b, primary, luck);
    G.MergeIntoGrows(G.Checkout(g, b, luck.toBranch).0, primary, luck.prepare);
  }

  lemma SweptComesHome(w: World, i: Id, e: Tracker.Post, luck: Luck)
    requires w.git.Valid() && w.git.Settled(w.primary) && Homing(luck)
    ensures var v := ReadyAndGate(SayNote(w, i, Ack), i, e, luck);
            v.git.Valid() && v.git.Settled(w.primary) && v.primary == w.primary
  {
    ReadyBranchKeeps(w.git, BranchOf(i, e), w.primary, luck);
    BranchWorkComesHome(w.git, BranchOf(i, e), w.primary, luck);
  }

  lemma {:induction false} SweepComesHome(w: World, ids: seq<Id>, lucks: Lucks)
    requires w.git.Valid() && w.git.Settled(w.primary) && forall i :: i in lucks ==> Homing(lucks[i])
    ensures var v := Sweep(w, ids, lucks); v.git.Valid() && v.git.Settled(w.primary) && v.primary == w.primary
  {
    if ids != [] {
      SweepComesHome(w, ids[..|ids| - 1], lucks);
      var w1, i := Sweep(w, ids[..|ids| - 1], lucks), ids[|ids| - 1];
      if i in w1.mirror { SweptComesHome(w1, i, w1.mirror[i], LuckOf(lucks, i)); }
    }
  }

  /** When the checkouts back and the aborts succeed, a gate job leaves HEAD on primary with no
      half-finished merge, whatever else goes wrong in it. */
  lemma GateJobComesHome(w: World, k: nat, luck: Luck, lucks: Lucks)
    requires Shape(w) && w.git.Settled(w.primary) && k < |w.work| && w.work[k].GateJob?
    requires Homing(luck) && forall i :: i in lucks ==> Homing(lucks[i])
    ensures RunGate(w, k, luck, lucks).git.Settled(w.primary)
  {
    var j := w.work[k];
    if j.id in w.mirror {
      var e := w.mirror[j.id];
      Seen(w, j.id);
      var w1 := w.(work := Drop(w.work, k));
      if j.prepare {
        ReadyComesHome(w1, j.id, e, luck);
        MergeComesHome(Ready(w1, j.id, e, luck).0, j.id, e, luck, lucks, j.seen);
      } else {
        MergeComesHome(w1, j.id, e, luck, lucks, j.seen);
      }
    }
  }

  lemma ReadyComesHome(w: World, id: Id, e: Tracker.Post, luck: Luck)
    requires w.git.Valid() && w.git.Settled(w.primary) && BranchOf(id, e) != w.primary && Homing(luck)
    ensures var v := Ready(w, id, e, luck).0; v.git.Valid() && v.git.Settled(w.primary) && v.primary == w.primary
  {
    ReadyBranchKeeps(w.git, BranchOf(id, e), w.primary, luck);
    BranchWorkComesHome(w.git, BranchOf(id, e), w.primary, luck);
  }

  lemma MergeComesHome(w: World, id: Id, e: Tracker.Post, luck: Luck, lucks: Lucks, seen: Thread)
    requires w.git.Valid() && w.git.Settled(w.primary) && BranchOf(id, e) != w.primary
    requires Homing(luck) && forall i :: i in lucks ==> Homing(lucks[i])
    ensures MergeBranch(w, id, e, luck, lucks, seen).git.Settled(w.primary)
  {
    var (g, ok) := LandBranch(w.git, BranchOf(id, e), w.primary, luck);
    LandBranchKeeps(w.git, BranchOf(id, e), w.primary, luck);
    BranchWorkComesHome(w.git, BranchOf(id, e), w.primary, luck);
    var w1 := SayNote(w.(git := g), id, Ack);
    var w2 := CloseAsDone(w1.(log := w1.log + [Landed(id, seen), Closed(id, g.At(BranchOf(id, e)))]), id, e);
    SweepComesHome(w2, OpenGates(w2, w2.order, id), lucks);
  }

  lemma WorkComesHome(w: World, j: Job, g: G.State, how: G.Commits)
    requires j.WorkRun? && w.primary in g.branches && g.merging.None?
    ensures WorkOn(w, j, g, how, true).git.Settled(w.primary)
  {
  }

  /** Likewise for an agent run, however it ends. */
  lemma AgentRunComesHome(w: World, k: nat, toBranch: bool, how: G.Commits, end: AgentEnd, again: bool)
    requires w.primary in w.git.branches && w.git.Settled(w.primary) && k < |w.work| && w.work[k].WorkRun?
    ensures RunAgent(w, k, toBranch, how, true, end, again).git.Settled(w.primary)
  {
    var j := w.work[k];
    if j.id in w.mirror {
      WorkComesHome(w, j, G.EnsureOnBranch(w.git, BranchOf(j.id, w.mirror[j.id]), w.primary, toBranch).0, how);
    }
  }
}
