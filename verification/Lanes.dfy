/** The two lanes: control work goes first, so the work lane starts nothing while a result waits to be
    digested. What that buys the review loop, and what it does not. */
module Lanes {
  import opened Basics
  import opened Tracker
  import opened Gates
  import opened Advance
  import opened Lifecycle
  import opened Safety
  import opened Runs
  import opened Landings
  import opened ReviewLoop
  import opened Driving
  import G = Git

  predicate Claims(s: Step) { s.AgentStep? || s.GateStep? }

  /** The work lane claims only when the control lane has nothing claimable; an undigested result is. */
  ghost predicate ControlFirst(ws: seq<World>, steps: seq<Step>) {
    forall m: nat :: m < |steps| && m < |ws| && Claims(steps[m]) ==> ws[m].results == []
  }

  // ----- what a step does to the results

  lemma {:induction false} WritesLeaveQueues(w: World, id: Id, e: Tracker.Post, writes: seq<Write>)
    ensures var v := ApplyWrites(w, id, e, writes);
            v.results == w.results && v.cfg == w.cfg && v.work == w.work && v.primary == w.primary
    decreases |writes|
  {
    if writes != [] { WritesLeaveQueues(ApplyWrite(w, id, e, writes[0]), id, e, writes[1..]); }
  }

  lemma DigestQueues(w: World, k: nat)
    requires Legal(w, DigestStep(k))
    ensures var v := Digest(w, k);
            v.results == Drop(w.results, k) && v.cfg == w.cfg && v.primary == w.primary
  {
    var r := w.results[k];
    if r.id in w.mirror {
      var e := w.mirror[r.id];
      var t := if r.intent.Implement? then AfterImplement(w.cfg, e, r.report) else AfterReview(w.cfg, e, r.report);
      var w1 := w.(results := Drop(w.results, k));
      WritesLeaveQueues(w1, r.id, e, t.writes);
      WritesLeaveQueues(w1.(log := w1.log + [Bounced(r.id)]), r.id, e, t.writes);
    }
  }

  lemma ControlLeavesResults(w: World, id: Id, action: Action)
    ensures Control(w, id, action).results == w.results
  {
    if id in w.mirror {
      var t := ControlCases(w, id, action);
      WritesLeaveQueues(w, id, w.mirror[id], t.writes);
      StartCases(w, id, w.mirror[id]);
    }
  }

  lemma GatingLeavesResults(w: World, id: Id, e: Tracker.Post, luck: Luck)
    ensures OpenGate(w, id, e).results == w.results && Park(w, id, e).results == w.results
    ensures Ready(w, id, e, luck).0.results == w.results
  {
  }

  lemma {:induction false} SweepLeavesResults(w: World, ids: seq<Id>, lucks: Lucks)
    ensures Sweep(w, ids, lucks).results == w.results
  {
    if ids != [] {
      var w1, i := Sweep(w, ids[..|ids| - 1], lucks), ids[|ids| - 1];
      SweepLeavesResults(w, ids[..|ids| - 1], lucks);
      if i in w1.mirror {
        var w2 := SayNote(w1, i, Ack);
        GatingLeavesResults(w2, i, w1.mirror[i], LuckOf(lucks, i));
        GatingLeavesResults(Ready(w2, i, w1.mirror[i], LuckOf(lucks, i)).0, i, w1.mirror[i], LuckOf(lucks, i));
      }
    }
  }

  lemma MergeLeavesResults(w: World, id: Id, e: Tracker.Post, luck: Luck, lucks: Lucks, seen: Thread)
    ensures MergeBranch(w, id, e, luck, lucks, seen).results == w.results
  {
    var (g, ok) := LandBranch(w.git, BranchOf(id, e), w.primary, luck);
    var w1 := w.(git := g);
    if ok {
      var w2 := Record(w1, id, e, g.At(BranchOf(id, e)), seen);
      SweepLeavesResults(w2, OpenGates(w2, w2.order, id), lucks);
    } else {
      GatingLeavesResults(w1, id, e, luck);
    }
  }

  lemma GateJobLeavesResults(w: World, k: nat, luck: Luck, lucks: Lucks)
    requires k < |w.work| && w.work[k].GateJob?
    ensures RunGate(w, k, luck, lucks).results == w.results
  {
    var j := w.work[k];
    if j.id in w.mirror {
      var e, w1 := w.mirror[j.id], w.(work := Drop(w.work, k));
      GatingLeavesResults(w1, j.id, e, luck);
      var w2 := if j.prepare then Ready(w1, j.id, e, luck).0 else w1;
      GatingLeavesResults(w2, j.id, e, luck);
      MergeLeavesResults(w2, j.id, e, luck, lucks, j.seen);
    }
  }

  lemma WorkLeavesResults(w: World, j: Job, g: G.State, how: G.Commits, back: bool)
    requires j.WorkRun?
    ensures var v := WorkOn(w, j, g, how, back); v.results == w.results && v.work == w.work
  {
  }

  lemma HandInAddsOne(w: World, k: nat, failed: bool, end: AgentEnd, again: bool)
    requires k < |w.work| && w.work[k].WorkRun?
    ensures var v, j := HandIn(w, k, failed, end, again), w.work[k];
            || v.results == w.results
            || (end.Finished? && v.results == w.results + [Result(j.id, j.intent, end.report)])
  {
  }

  /** Only an agent run hands a result in, one at a time. */
  lemma AgentHandsInOne(w: World, k: nat, toBranch: bool, how: G.Commits, back: bool, end: AgentEnd, again: bool)
    requires k < |w.work| && w.work[k].WorkRun?
    ensures var v, j := RunAgent(w, k, toBranch, how, back, end, again), w.work[k];
            || v.results == w.results
            || (end.Finished? && v.results == w.results + [Result(j.id, j.intent, end.report)])
  {
    var j := w.work[k];
    if j.id in w.mirror {
      var (g, ok) := G.EnsureOnBranch(w.git, BranchOf(j.id, w.mirror[j.id]), w.primary, toBranch);
      WorkLeavesResults(w, j, g, how, back);
      var u := WorkOn(w, j, g, how, back);
      if ok { HandInAddsOne(u, k, j.intent.Implement? && how.CommitFailed?, end, again); }
    }
  }

  lemma OthersHandInNothing(w: World, s: Step)
    requires Legal(w, s) && !s.AgentStep?
    ensures |Take(w, s).results| <= |w.results| && forall r :: r in Take(w, s).results ==> r in w.results
    ensures s.DigestStep? ==> |Take(w, s).results| < |w.results|
  {
    if s.SyncStep? {
      KeepResultsFilters(w, w.results);
    } else if s.ControlStep? {
      ControlLeavesResults(w, s.id, s.action);
    } else if s.DigestStep? {
      DigestQueues(w, s.k);
    } else if s.GateStep? {
      GateJobLeavesResults(w, s.k, s.luck, s.lucks);
    }
  }

  /** With control work first, at most one result is undigested at any time. */
  lemma {:induction false} OneResultAtMost(ws: seq<World>, steps: seq<Step>, k: nat)
    requires IsRun(ws, steps) && k < |ws| && ControlFirst(ws, steps)
    ensures |ws[k].results| <= 1
  {
    if k > 0 {
      var u, s := ws[k - 1], steps[k - 1];
      OneResultAtMost(ws, steps, k - 1);
      assert StepAt(ws, steps, k - 1);
      if s.AgentStep? {
        assert Claims(s);
        AgentHandsInOne(u, s.k, s.toBranch, s.how, s.back, s.end, s.again);
      } else {
        OthersHandInNothing(u, s);
      }
    }
  }

  // ----- a sync between reviews is enough

  predicate DigestsReview(w: World, s: Step, i: Id) {
    s.DigestStep? && s.k < |w.results| && w.results[s.k].id == i && w.results[s.k].intent.Review?
  }

  predicate StartsReview(w: World, s: Step, i: Id) {
    s.AgentStep? && s.k < |w.work| && w.work[s.k] == WorkRun(i, Review)
  }

  ghost predicate SyncBetween(steps: seq<Step>, a: nat, b: nat) {
    exists m: nat :: a < m < b && m < |steps| && steps[m].SyncStep?
  }

  /** Between the digest of one review of issue `i` and the start of a later one, there is a sync. */
  ghost predicate SyncedReviews(ws: seq<World>, steps: seq<Step>, i: Id) {
    forall a: nat, b: nat ::
      (a < b < |steps| && b < |ws| && DigestsReview(ws[a], steps[a], i) && StartsReview(ws[b], steps[b], i)) ==>
        SyncBetween(steps, a, b)
  }

  /** The mirror shows at least the reviews on record. */
  ghost predicate Fresh(w: World, i: Id) {
    i in w.mirror ==> Attempts(w.posts, i) <= ReviewAttempts(w.mirror[i].thread)
  }

  /** Some review of issue `i` was digested since the last sync. */
  ghost predicate Lagging(ws: seq<World>, steps: seq<Step>, k: nat, i: Id) {
    exists a: nat :: a < k <= |steps| && a < |ws| && DigestsReview(ws[a], steps[a], i) && !SyncBetween(steps, a, k)
  }

  ghost predicate ReviewPending(w: World, i: Id) {
    exists r :: r in w.results && r.id == i && r.intent.Review?
  }

  ghost predicate Current(ws: seq<World>, steps: seq<Step>, k: nat, i: Id)
    requires k < |ws|
  {
    && (Fresh(ws[k], i) || Lagging(ws, steps, k, i))
    && (ReviewPending(ws[k], i) ==> Fresh(ws[k], i))
  }

  lemma StillLagging(ws: seq<World>, steps: seq<Step>, k: nat, i: Id)
    requires k < |steps| && k < |ws| && !steps[k].SyncStep?
    requires Lagging(ws, steps, k, i) || DigestsReview(ws[k], steps[k], i)
    ensures Lagging(ws, steps, k + 1, i)
  {
    if DigestsReview(ws[k], steps[k], i) {
      assert !SyncBetween(steps, k, k + 1);
    } else {
      var a: nat :| a < k <= |steps| && a < |ws| && DigestsReview(ws[a], steps[a], i) && !SyncBetween(steps, a, k);
      assert !SyncBetween(steps, a, k + 1);
    }
  }

  /** A step that is no sync and digests no review of issue `i` leaves the mirror as fresh as it was. */
  lemma StaysFresh(w: World, s: Step, i: Id)
    requires Legal(w, s) && !s.SyncStep? && !DigestsReview(w, s, i) && Undisturbed(w, s, i)
    requires w.posts.Keys <= w.born.Keys && (i in w.mirror ==> i in w.posts)
    ensures Fresh(w, i) ==> Fresh(Take(w, s), i)
  {
    OnlySyncMovesTheMirror(w, s);
    if s.DigestStep? { DigestCounts(w, s.k, i); } else { OtherStepsCount(w, s, i); }
  }

  lemma SyncFreshens(w: World, i: Id)
    ensures Fresh(Sync(w), i)
  {
    if i in w.posts { OwnAttemptsCount(w.posts[i].thread); }
  }

  /** A review starts only on a fresh mirror. */
  lemma StartsFresh(ws: seq<World>, steps: seq<Step>, k: nat, i: Id)
    requires k < |steps| && k < |ws| && Current(ws, steps, k, i) && SyncedReviews(ws, steps, i)
    requires StartsReview(ws[k], steps[k], i)
    ensures Fresh(ws[k], i)
  {
    assert !Lagging(ws, steps, k, i);
  }

  lemma PendingOnlyByRuns(w: World, s: Step, i: Id)
    requires Legal(w, s) && ReviewPending(Take(w, s), i)
    ensures ReviewPending(w, i) || StartsReview(w, s, i)
  {
    if s.AgentStep? {
      AgentHandsInOne(w, s.k, s.toBranch, s.how, s.back, s.end, s.again);
    } else {
      OthersHandInNothing(w, s);
    }
  }

  lemma StepStaysCurrent(ws: seq<World>, steps: seq<Step>, k: nat, i: Id)
    requires StepAt(ws, steps, k) && Undisturbed(ws[k], steps[k], i) && SyncedReviews(ws, steps, i)
    requires |ws[k].results| <= 1 && (i in ws[k].mirror ==> i in ws[k].posts) && Current(ws, steps, k, i)
    requires ws[k].posts.Keys <= ws[k].born.Keys
    ensures Current(ws, steps, k + 1, i)
  {
    var w, s := ws[k], steps[k];
    if s.SyncStep? {
      SyncFreshens(w, i);
    } else if DigestsReview(w, s, i) {
      StillLagging(ws, steps, k, i);
      OthersHandInNothing(w, s);
    } else {
      StaysFresh(w, s, i);
      if Lagging(ws, steps, k, i) { StillLagging(ws, steps, k, i); }
      if ReviewPending(ws[k + 1], i) {
        PendingOnlyByRuns(w, s, i);
        if StartsReview(w, s, i) { StartsFresh(ws, steps, k, i); }
      }
    }
  }

  lemma StartsCurrent(ws: seq<World>, steps: seq<Step>, i: Id)
    requires ws != [] && Init(ws[0])
    ensures Current(ws, steps, 0, i)
  {
  }

  lemma RunStateAt(ws: seq<World>, steps: seq<Step>, k: nat, i: Id)
    requires IsRun(ws, steps) && k < |ws| && ControlFirst(ws, steps) && Untouched(ws, steps, i)
    ensures |ws[k].results| <= 1 && (i in ws[k].mirror ==> i in ws[k].posts) && ws[k].posts.Keys <= ws[k].born.Keys
  {
    RunsKeepInv(ws, steps, k);
    OneResultAtMost(ws, steps, k);
    UndeletedStays(ws, steps, k, i);
  }

  lemma {:induction false} RunsStayCurrent(ws: seq<World>, steps: seq<Step>, k: nat, i: Id)
    requires IsRun(ws, steps) && k < |ws| && ControlFirst(ws, steps) && Untouched(ws, steps, i)
    requires SyncedReviews(ws, steps, i)
    ensures Current(ws, steps, k, i)
  {
    if k == 0 {
      StartsCurrent(ws, steps, i);
    } else {
      RunsStayCurrent(ws, steps, k - 1, i);
      RunStateAt(ws, steps, k - 1, i);
      assert StepAt(ws, steps, k - 1);
      StepStaysCurrent(ws, steps, k - 1, i);
    }
  }

  /** With control work first, a sync between the digest of one review and the start of the next is all
      the bound on bounces needs, besides the issue being left alone. */
  lemma SyncsBoundBounces(ws: seq<World>, steps: seq<Step>, k: nat, i: Id)
    requires IsRun(ws, steps) && k < |ws| && ControlFirst(ws, steps) && Untouched(ws, steps, i)
    requires SyncedReviews(ws, steps, i)
    ensures Bounces(ws[k].log, i) <= Max(0, ws[0].cfg.maxAttempts - 1)
  {
    forall m: nat | m < |steps| && m < |ws| ensures UpToDate(ws[m], steps[m], i) {
      RunsStayCurrent(ws, steps, m, i);
      if DigestsReview(ws[m], steps[m], i) {
        assert ws[m].results[steps[m].k] in ws[m].results;
        assert ReviewPending(ws[m], i);
      }
    }
    BouncesAreBounded(ws, steps, k, i);
  }

  // ----- without one it is not

  lemma BounceLeavesWork(w: World, k: nat)
    requires Legal(w, DigestStep(k)) && w.results[k].intent.Review?
    requires var i := w.results[k].id; i in w.mirror && !IsStale(w, i, w.mirror[i]) && SendsBack(w, k, i)
    ensures Digest(w, k).work == w.work
  {
    var r := w.results[k];
    var e, w1 := w.mirror[r.id], w.(results := Drop(w.results, k));
    ReviewSaysOnce(w.cfg, e, r.report);
    WritesLeaveQueues(w1.(log := w1.log + [Bounced(r.id)]), r.id, e, AfterReview(w.cfg, e, r.report).writes);
  }

  /** A pending review sends the issue back, and a person takes the status label off. */
  lemma BouncedAndStripped(w: World, i: Id, e: Tracker.Post, r: Report) returns (v: World, u: World)
    requires w.cfg.maxAttempts == 2 && i in w.posts && w.posts[i] == e && i in w.mirror && w.mirror[i] == e
    requires e.labels == [InReview] && e.thread == []
    requires w.results == [Result(i, Review, r)] && r.Reviewed? && !r.approve
    ensures Reaches(w, DigestStep(0), v) && Reaches(v, HumanLabel(i, []), u)
    ensures i in u.posts && u.posts[i].labels == [] && u.mirror == w.mirror && u.git == w.git
    ensures u.results == [] && u.cfg == w.cfg && u.primary == w.primary && u.work == w.work
    ensures Bounces(u.log, i) == Bounces(w.log, i) + 1
  {
    DigestCounts(w, 0, i);
    DigestQueues(w, 0);
    assert Drop(w.results, 0) == [];
    BounceLeavesWork(w, 0);
    DigestKeepsPosts(w, 0, i);
    DigestStaysInTheTracker(w, 0);
    v := Digest(w, 0);
    u := Take(v, HumanLabel(i, []));
  }

  /** With the status label off, a mirror that still says `in_review` starts another review. */
  lemma ReviewStartsAgain(u: World, i: Id)
    requires i in u.posts && u.posts[i].labels == [] && i in u.mirror && u.work == []
    requires u.mirror[i].labels == [InReview] && !u.mirror[i].draft
    ensures Control(u, i, OtherEvent) == u.(work := [WorkRun(i, Review)])
  {
  }

  lemma ReviewIsHandedIn(v: World, i: Id, r: Report)
    requires i in v.posts && v.posts[i].labels == [] && i in v.mirror && v.results == []
    requires v.work == [WorkRun(i, Review)] && v.git.merging.None? && v.primary in v.git.branches
    ensures var u := RunAgent(v, 0, true, G.Committed, true, Finished(r), false);
            && u.results == [Result(i, Review, r)] && u.posts == v.posts && u.mirror == v.mirror && u.cfg == v.cfg
            && Bounces(u.log, i) == Bounces(v.log, i)
  {
    LuckyRun(v, 0, i, Review, r);
    AgentCounts(v, 0, true, G.Committed, true, Finished(r), false, i);
  }

  lemma BouncedAgain(u: World, i: Id, r: Report)
    requires i in u.posts && u.posts[i].labels == [] && i in u.mirror && u.mirror[i].thread == []
    requires u.results == [Result(i, Review, r)] && r.Reviewed? && !r.approve && u.cfg.maxAttempts == 2
    ensures Legal(u, DigestStep(0)) && Bounces(Digest(u, 0).log, i) == Bounces(u.log, i) + 1
  {
    DigestCounts(u, 0, i);
  }

  /** From the label being off to the second bounce. */
  lemma SecondRound(u: World, i: Id, r: Report) returns (v: World, x: World, y: World)
    requires i in u.posts && u.posts[i].labels == [] && i in u.mirror && u.work == [] && u.results == []
    requires u.mirror[i].labels == [InReview] && u.mirror[i].thread == [] && !u.mirror[i].draft
    requires u.git.merging.None? && u.primary in u.git.branches
    requires r.Reviewed? && !r.approve && u.cfg.maxAttempts == 2
    ensures Reaches(u, ControlStep(i, OtherEvent), v) && v.results == []
    ensures Reaches(v, AgentStep(0, true, G.Committed, true, Finished(r), false), x)
    ensures Reaches(x, DigestStep(0), y) && Bounces(y.log, i) == Bounces(u.log, i) + 1
  {
    ReviewStartsAgain(u, i);
    v := u.(work := [WorkRun(i, Review)]);
    ReviewIsHandedIn(v, i, r);
    x := RunAgent(v, 0, true, G.Committed, true, Finished(r), false);
    BouncedAgain(x, i, r);
    y := Digest(x, 0);
  }

  /** A witness: a review asks for changes; before the mirror hears of it a person takes the status label
      off; the next control event sends the issue to review again, and that bounces it a second time,
      where two attempts allow one. No result is pending when the work lane claims. */
  lemma LaggingMirrorBouncesTwice(w: World, i: Id, e: Tracker.Post, r: Report)
    returns (v1: World, v2: World, v3: World, v4: World, v5: World)
    requires w.cfg.maxAttempts == 2 && i in w.posts && w.posts[i] == e && i in w.mirror && w.mirror[i] == e
    requires e.labels == [InReview] && e.thread == [] && !e.draft
    requires w.results == [Result(i, Review, r)] && r.Reviewed? && !r.approve && w.work == []
    requires w.git.merging.None? && w.primary in w.git.branches
    ensures Reaches(w, DigestStep(0), v1)
    ensures Reaches(v1, HumanLabel(i, []), v2)
    ensures Reaches(v2, ControlStep(i, OtherEvent), v3) && v3.results == []
    ensures Reaches(v3, AgentStep(0, true, G.Committed, true, Finished(r), false), v4)
    ensures Reaches(v4, DigestStep(0), v5)
    ensures Bounces(v5.log, i) == Bounces(w.log, i) + 2
  {
    v1, v2 := BouncedAndStripped(w, i, e, r);
    v3, v4, v5 := SecondRound(v2, i, r);
  }
}
