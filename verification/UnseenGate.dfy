/** A gate that the sweep after a landing does not see, in a world that satisfies the invariants. */
module UnseenGate {
  import opened Basics
  import opened Tracker
  import opened Gates
  import opened Branches
  import opened Lifecycle
  import opened Safety
  import opened Sweeps
  import opened Landings
  import R = RollUp
  import G = Git

  /** Issue 1 is about to be merged; issue 2 has an approved gate that the mirror has not seen. */
  function TwoGates(t: Title): World {
    var bare := Tracker.Post(Issue, t, [AwaitingApproval], true, [], [], [], None, None, None,
                             false, true, false, false);
    var gate := Comment("platform", true, Prose, {MergeGate}, [1], [1], [Reaction(ThumbsUp, ["ann"])]);
    World(Config(false, false, true, true, 2, 1.0, {"ann"}, {}, false), "main",
          map[1 := bare, 2 := bare.(thread := [gate])], map[1 := bare, 2 := bare], [1, 2],
          map[1 := bare, 2 := bare],
          G.State(map["main" := {}, BranchOf(1, bare) := {0}], "main", None, 1),
          [GateJob(1, false, true, [])], [], 1, [])
  }

  lemma MainIsNoIssue()
    ensures !EndsInNumber("main")
  {
    forall h, d ensures h + "-" + d != "main" {
      assert (h + "-" + d)[|h|] == '-';
    }
  }

  lemma TwoGatesHaveTokens(t: Title)
    ensures var w := TwoGates(t); TokensOk(w.posts, w.apr)
  {
    var w := TwoGates(t);
    forall i: Id, k: nat, n: nat | Bears(w.posts, i, k, n) ensures i == 2 && k == 0 && n == 1 {
      assert i in {1, 2};
    }
  }

  lemma WaitingLabelsAreOk(m: R.Posts, log: Log, g: G.State)
    requires forall i: Id :: i in m ==> m[i].labels == [AwaitingApproval]
    ensures LabelsOk(m, log, g)
  {
  }

  lemma TwoBranchesAreValid(b: G.Branch)
    ensures G.State(map["main" := {}, b := {0}], "main", None, 1).Valid()
  {
  }

  lemma OneDigit(p: Id)
    requires p < 10
    ensures |Decimal(p)| == 1
  {
  }

  lemma TwoGatesAreNamed(t: Title, p: Id)
    requires TitleOk(t) && p in TwoGates(t).born
    ensures WellNamed(p, TwoGates(t).born[p])
  {
    assert p in {1, 2};
    OneDigit(p);
  }

  /** Two issues without links, the mirror showing them as they were filed. */
  lemma LinklessShape(w: World)
    requires w.mirror == w.born && Among(w.posts, w.born)
    requires forall p: Id :: p in w.born ==> WellNamed(p, w.born[p])
    requires forall p: Id :: p in w.posts ==> p in w.order && w.posts[p].ticket == None && w.posts[p].epic == None
    requires w.git.Valid() && w.primary in w.git.branches && !EndsInNumber(w.primary)
    ensures Shape(w)
  {
  }

  lemma TwoGatesAreFiled(t: Title)
    ensures var w := TwoGates(t);
            && Among(w.posts, w.born)
            && forall p: Id :: p in w.posts ==>
                 p in w.order && w.posts[p].ticket == None && w.posts[p].epic == None
  {
    var w := TwoGates(t);
    forall p: Id | p in w.posts ensures p in w.order && p in w.born && SameFixed(w.posts[p], w.born[p])
        && w.posts[p].ticket == None && w.posts[p].epic == None
    {
      assert p in {1, 2};
    }
  }

  lemma TwoGatesHaveShape(t: Title)
    requires TitleOk(t)
    ensures Shape(TwoGates(t))
  {
    var w := TwoGates(t);
    MainIsNoIssue();
    TwoBranchesAreValid(BranchOf(1, w.mirror[1]));
    TwoGatesAreFiled(t);
    forall p: Id | p in w.born ensures WellNamed(p, w.born[p]) { TwoGatesAreNamed(t, p); }
    LinklessShape(w);
  }

  lemma TwoGatesAreGood(t: Title)
    requires TitleOk(t)
    ensures Good(TwoGates(t))
  {
    var w := TwoGates(t);
    TwoGatesHaveShape(t);
    TwoGatesHaveTokens(t);
    WaitingLabelsAreOk(w.posts, w.log, w.git);
    WaitingLabelsAreOk(w.mirror, w.log, w.git);
  }

  lemma IssueOneLands(t: Title)
    ensures var w := TwoGates(t); RunGate(w, 0, SMOOTH, map[]).log != w.log
  {
    var w := TwoGates(t);
    var w1 := w.(work := Drop(w.work, 0));
    LandingLogs(w1, 1, w.mirror[1], SMOOTH, map[], []);
  }

  lemma IssueTwoIsApproved(t: Title)
    ensures var w := TwoGates(t);
            && TrulyAtGate(w, 2)
            && GateSignals(w.cfg, 2, w.posts[2].thread, MergeGate).value.approve != []
  {
    var w := TwoGates(t);
    var gate := w.posts[2].thread[0];
    assert ReactionUsers(w.cfg, gate.reactions, ThumbsUp) != [];
  }

  /** The witness at work: a landing closes issue 1, and the gate of issue 2, posted and approved since the
      last sync, still stands approved. */
  lemma UnseenGateStands(t: Title)
    requires TitleOk(t)
    ensures var w := TwoGates(t);
            && Good(w) && w.work == [GateJob(1, false, true, [])]
            && var v := RunGate(w, 0, SMOOTH, map[]);
               && (exists tip :: Closed(1, tip) in v.log)
               && 2 in v.posts && v.posts[2] == w.posts[2]
               && GateSignals(w.cfg, 2, v.posts[2].thread, MergeGate).value.approve != []
  {
    var w := TwoGates(t);
    TwoGatesAreGood(t);
    IssueOneLands(t);
    IssueTwoIsApproved(t);
    SweepReachesGateIff(w, 0, SMOOTH, map[], 2);
    GateLogsItsLanding(w, 0, SMOOTH, map[]);
  }
}
