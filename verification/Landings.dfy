/** What moves primary, and what puts the label `done` on an issue: in both cases a landing, and
    nothing else the runtime does. */
module Landings {
  import opened Basics
  import opened Tracker
  import opened Advance
  import opened Lifecycle
  import opened Safety
  import opened Sweeps
  import R = RollUp
  import G = Git

  // ----- what stays in the tracker

  lemma {:induction false} WritesStayInTheTracker(w: World, id: Id, e: Tracker.Post, writes: seq<Write>)
    ensures var v := ApplyWrites(w, id, e, writes); v.mirror == w.mirror && v.git == w.git
    decreases |writes|
  {
    if writes != [] { WritesStayInTheTracker(ApplyWrite(w, id, e, writes[0]), id, e, writes[1..]); }
  }

  lemma DecisionsStayInTheTracker(w: World, id: Id, e: Tracker.Post, t: Transition)
    ensures var v := Resolve(w, id, e, t); v.mirror == w.mirror && v.git == w.git
  {
    WritesStayInTheTracker(w, id, e, t.writes);
  }

  /** A control event carries a decision out, starts the issue, schedules a review, or does nothing. */
  lemma ControlCases(w: World, id: Id, action: Action) returns (t: Transition)
    requires id in w.mirror
    ensures var v, e := Control(w, id, action), w.mirror[id];
            v in {Resolve(w, id, e, t), StartIssue(w, id, e), ScheduleRun(w, id, Review), w}
    ensures SaysNoReview(t)
  {
    var e := w.mirror[id];
    var s, stale := StatusOf(e), IsStale(w, id, e);
    if s == Some(AwaitingApproval) {
      t := ResolveApproval(w.cfg, id, e, action, stale, OptionsPosted(w, id));
      ApprovalSaysNoReview(w.cfg, id, e, action, stale, OptionsPosted(w, id));
    } else if s == Some(Blocked) {
      t := ResolveBlocked(w.cfg, id, e, action, stale);
      BlockedSaysNoReview(w.cfg, id, e, action, stale);
    } else {
      t := ResolveAwaitingMerge(w.cfg, id, e, action, stale);
      MergeWaitSaysNoReview(w.cfg, id, e, action, stale);
    }
  }

  /** Starting an issue does nothing, assigns the agent, and then asks, blocks or schedules the run. */
  lemma StartCases(w: World, id: Id, e: Tracker.Post)
    ensures var v, w1 := StartIssue(w, id, e), Assigned(w, id, e);
            || v == w || v == w1 || v == ScheduleRun(w1, id, Implement)
            || v == SayNote(SetLabel(w1, id, e, AwaitingApproval), id, AskGate)
            || v == SayNote(SetLabel(w1, id, e, Blocked), id, Ack)
  {
  }

  lemma FlagStaysInTheTracker(w: World, id: Id, e: Tracker.Post, s: Status, n: Note)
    ensures var v := SayNote(SetLabel(w, id, e, s), id, n); v.mirror == w.mirror && v.git == w.git
  {
  }

  lemma StartStaysInTheTracker(w: World, id: Id, e: Tracker.Post)
    ensures var v := StartIssue(w, id, e); v.mirror == w.mirror && v.git == w.git
  {
    var w1 := Assigned(w, id, e);
    StartCases(w, id, e);
    FlagStaysInTheTracker(w1, id, e, AwaitingApproval, AskGate);
    FlagStaysInTheTracker(w1, id, e, Blocked, Ack);
    assert ScheduleRun(w1, id, Implement).git == w.git;
  }

  lemma ControlStaysInTheTracker(w: World, id: Id, action: Action)
    ensures var v := Control(w, id, action); v.mirror == w.mirror && v.git == w.git
  {
    if id in w.mirror {
      var t := ControlCases(w, id, action);
      DecisionsStayInTheTracker(w, id, w.mirror[id], t);
      StartStaysInTheTracker(w, id, w.mirror[id]);
    }
  }

  lemma DigestStaysInTheTracker(w: World, k: nat)
    requires Legal(w, DigestStep(k))
    ensures var v := Digest(w, k); v.mirror == w.mirror && v.git == w.git
  {
    var r := w.results[k];
    if r.id in w.mirror {
      var e := w.mirror[r.id];
      var t := if r.intent.Implement? then AfterImplement(w.cfg, e, r.report) else AfterReview(w.cfg, e, r.report);
      var w1 := w.(results := Drop(w.results, k));
      DecisionsStayInTheTracker(w1, r.id, e, t);
      DecisionsStayInTheTracker(w1.(log := w1.log + [Bounced(r.id)]), r.id, e, t);
    }
  }

  lemma {:induction false} SweepLeavesTheMirror(w: World, ids: seq<Id>, lucks: Lucks)
    ensures Sweep(w, ids, lucks).mirror == w.mirror
  {
    if ids != [] { SweepLeavesTheMirror(w, ids[..|ids| - 1], lucks); }
  }

  lemma RecordLeavesTheMirror(w: World, id: Id, e: Tracker.Post, tip: set<G.Commit>, seen: Thread)
    ensures Record(w, id, e, tip, seen).mirror == w.mirror
  {
  }

  lemma MergeLeavesTheMirror(w: World, id: Id, e: Tracker.Post, luck: Luck, lucks: Lucks, seen: Thread)
    ensures MergeBranch(w, id, e, luck, lucks, seen).mirror == w.mirror
  {
    var g := LandBranch(w.git, BranchOf(id, e), w.primary, luck).0;
    RecordLeavesTheMirror(w.(git := g), id, e, g.At(BranchOf(id, e)), seen);
    var w1 := Record(w.(git := g), id, e, g.At(BranchOf(id, e)), seen);
    SweepLeavesTheMirror(w1, OpenGates(w1, w1.order, id), lucks);
  }

  lemma GateJobLeavesTheMirror(w: World, k: nat, luck: Luck, lucks: Lucks)
    requires Legal(w, GateStep(k, luck, lucks))
    ensures RunGate(w, k, luck, lucks).mirror == w.mirror
  {
    var j := w.work[k];
    if j.id in w.mirror {
      var e := w.mirror[j.id];
      var w1 := w.(work := Drop(w.work, k));
      MergeLeavesTheMirror(w1, j.id, e, luck, lucks, j.seen);
      MergeLeavesTheMirror(Ready(w1, j.id, e, luck).0, j.id, e, luck, lucks, j.seen);
    }
  }

  lemma OnlySyncMovesTheMirror(w: World, s: Step)
    requires Legal(w, s) && !s.SyncStep?
    ensures Take(w, s).mirror == w.mirror
  {
    match s {
      case ControlStep(id, action) => ControlStaysInTheTracker(w, id, action);
      case DigestStep(k) => DigestStaysInTheTracker(w, k);
      case GateStep(k, luck, lucks) => GateJobLeavesTheMirror(w, k, luck, lucks);
      case _ =>
    }
  }

  lemma MirrorAfter(u: World, s: Step)
    requires Legal(u, s)
    ensures Take(u, s).mirror == if s.SyncStep? then u.posts else u.mirror
  {
    if !s.SyncStep? { OnlySyncMovesTheMirror(u, s); }
  }

  // ----- what moves primary

  lemma SwitchingLeavesPrimary(g: G.State, b: G.Branch, primary: G.Branch, can: bool)
    requires b != primary && g.Valid() && primary in g.branches
    ensures var (h, ok) := G.EnsureOnBranch(g, b, primary, can);
            (ok ==> h.head != primary) && h.At(primary) == g.At(primary)
  {
  }

  lemma HandInLeavesGit(w: World, k: nat, failed: bool, end: AgentEnd, again: bool)
    requires k < |w.work| && w.work[k].WorkRun?
    ensures HandIn(w, k, failed, end, again).git == w.git
  {
  }

  lemma AgentLeavesPrimary(w: World, k: nat, toBranch: bool, how: G.Commits, back: bool, end: AgentEnd, again: bool)
    requires Inv(w) && k < |w.work| && w.work[k].WorkRun?
    ensures RunAgent(w, k, toBranch, how, back, end, again).git.At(w.primary) == w.git.At(w.primary)
  {
    var j := w.work[k];
    if j.id in w.mirror {
      Seen(w, j.id);
      var b := BranchOf(j.id, w.mirror[j.id]);
      SwitchingLeavesPrimary(w.git, b, w.primary, toBranch);
      var (g, ok) := G.EnsureOnBranch(w.git, b, w.primary, toBranch);
      if ok {
        WorkLeavesPrimary(w, j, g, how, back);
        HandInLeavesGit(WorkOn(w, j, g, how, back), k, j.intent.Implement? && how.CommitFailed?, end, again);
      }
    }
  }

  lemma WorkLeavesPrimary(w: World, j: Job, g: G.State, how: G.Commits, back: bool)
    requires j.WorkRun? && g.head != w.primary
    ensures WorkOn(w, j, g, how, back).git.At(w.primary) == g.At(w.primary)
  {
  }

  lemma FailedLandingLeavesPrimary(g: G.State, b: G.Branch, primary: G.Branch, luck: Luck)
    requires !LandBranch(g, b, primary, luck).1
    ensures LandBranch(g, b, primary, luck).0.At(primary) == g.At(primary)
  {
  }

  lemma QuietMergeLeavesPrimary(w: World, id: Id, e: Tracker.Post, luck: Luck, lucks: Lucks, seen: Thread)
    requires MergeBranch(w, id, e, luck, lucks, seen).log == w.log
    ensures MergeBranch(w, id, e, luck, lucks, seen).git.At(w.primary) == w.git.At(w.primary)
  {
    if LandBranch(w.git, BranchOf(id, e), w.primary, luck).1 {
      LandingLogs(w, id, e, luck, lucks, seen);
    } else {
      FailedLandingLeavesPrimary(w.git, BranchOf(id, e), w.primary, luck);
    }
  }

  lemma ReadyIsReadyBranch(w: World, id: Id, e: Tracker.Post, luck: Luck)
    ensures var v := Ready(w, id, e, luck).0;
            v.git == ReadyBranch(w.git, BranchOf(id, e), w.primary, luck).0 && v.primary == w.primary && v.log == w.log
  {
  }

  lemma ReadyLeavesPrimary(w: World, id: Id, e: Tracker.Post, luck: Luck)
    requires w.git.Valid() && BranchOf(id, e) != w.primary
    ensures var v := Ready(w, id, e, luck).0;
            && v.git.At(w.primary) == w.git.At(w.primary) && v.primary == w.primary && v.log == w.log
  {
    ReadyIsReadyBranch(w, id, e, luck);
    ReadiedBranchContainsPrimary(w.git, BranchOf(id, e), w.primary, luck);
  }

  lemma GatingLeavesGit(w: World, id: Id, e: Tracker.Post)
    ensures OpenGate(w, id, e).git == w.git
  {
  }

  lemma QuietGateLeavesPrimary(w: World, k: nat, luck: Luck, lucks: Lucks)
    requires Inv(w) && k < |w.work| && w.work[k].GateJob? && RunGate(w, k, luck, lucks).log == w.log
    ensures RunGate(w, k, luck, lucks).git.At(w.primary) == w.git.At(w.primary)
  {
    var j := w.work[k];
    if j.id in w.mirror {
      var e, w1 := w.mirror[j.id], w.(work := Drop(w.work, k));
      Seen(w, j.id);
      ReadyLeavesPrimary(w1, j.id, e, luck);
      var w2 := if j.prepare then Ready(w1, j.id, e, luck).0 else w1;
      GatingLeavesGit(w2, j.id, e);
      if j.merge && (j.prepare ==> Ready(w1, j.id, e, luck).1) {
        QuietMergeLeavesPrimary(w2, j.id, e, luck, lucks, j.seen);
      }
    }
  }

  lemma {:induction false} SweepLogsNothing(w: World, ids: seq<Id>, lucks: Lucks)
    ensures Sweep(w, ids, lucks).log == w.log
  {
    if ids != [] {
      SweepLogsNothing(w, ids[..|ids| - 1], lucks);
      var w1, i := Sweep(w, ids[..|ids| - 1], lucks), ids[|ids| - 1];
      if i in w1.mirror { ReadyAndGateLogNothing(SayNote(w1, i, Ack), i, w1.mirror[i], LuckOf(lucks, i)); }
    }
  }

  lemma LandingLogs(w: World, id: Id, e: Tracker.Post, luck: Luck, lucks: Lucks, seen: Thread)
    requires LandBranch(w.git, BranchOf(id, e), w.primary, luck).1
    ensures var tip := LandBranch(w.git, BranchOf(id, e), w.primary, luck).0.At(BranchOf(id, e));
            MergeBranch(w, id, e, luck, lucks, seen).log == w.log + [Landed(id, seen), Closed(id, tip)]
  {
    var g := LandBranch(w.git, BranchOf(id, e), w.primary, luck).0;
    var w1 := Record(w.(git := g), id, e, g.At(BranchOf(id, e)), seen);
    SweepLogsNothing(w1, OpenGates(w1, w1.order, id), lucks);
  }

  /** Primary's contents change only when a landing is logged or a person pushes to it. */
  lemma PrimaryMovesByLanding(w: World, s: Step) returns (n: nat)
    requires Inv(w) && Legal(w, s) && !(s.HumanPush? && s.branch == w.primary)
    requires Take(w, s).git.At(w.primary) != w.git.At(w.primary)
    ensures |w.log| <= n < |Take(w, s).log| && Take(w, s).log[n].Landed?
  {
    n := |w.log|;
    match s {
      case ControlStep(id, action) => ControlStaysInTheTracker(w, id, action);
      case DigestStep(k) => DigestStaysInTheTracker(w, k);
      case AgentStep(k, toBranch, how, back, end, again) => AgentLeavesPrimary(w, k, toBranch, how, back, end, again);
      case GateStep(k, luck, lucks) =>
        if RunGate(w, k, luck, lucks).log == w.log {
          QuietGateLeavesPrimary(w, k, luck, lucks);
        } else {
          GateLogsItsLanding(w, k, luck, lucks);
        }
      case _ =>
    }
  }

  lemma GateLogsItsLanding(w: World, k: nat, luck: Luck, lucks: Lucks)
    requires k < |w.work| && w.work[k].GateJob? && RunGate(w, k, luck, lucks).log != w.log
    ensures var id := w.work[k].id;
            exists tip :: RunGate(w, k, luck, lucks).log == w.log + [Landed(id, w.work[k].seen), Closed(id, tip)]
  {
    var j, u := w.work[k], MergesFrom(w, k, luck);
    LoggingJobMerges(w, k, luck, lucks);
    LandingLogs(u, j.id, w.mirror[j.id], luck, lucks, j.seen);
  }

  // ----- what puts `done` on an issue

  predicate ReadsDone(posts: R.Posts, i: Id) { i in posts && Done in posts[i].labels }

  /** Nothing here made issue `i` done. */
  predicate NotMadeDone(a: R.Posts, b: R.Posts, i: Id) {
    i in b ==>
      && i in a && a[i].tier == b[i].tier
      && (b[i].tier == Issue && Done in b[i].labels ==> Done in a[i].labels)
  }

  lemma SayMakesNoneDone(w: World, id: Id, n: Note, i: Id)
    ensures NotMadeDone(w.posts, SayNote(w, id, n).posts, i)
  {
  }

  lemma LabelMakesNoneDone(w: World, id: Id, e: Tracker.Post, s: Status, i: Id)
    requires s != Done
    ensures NotMadeDone(w.posts, SetLabel(w, id, e, s).posts, i)
  {
    if id in w.posts { RelabelAdds(w.posts[id].labels, e.labels, s); }
  }

  lemma FlagMakesNoneDone(w: World, id: Id, e: Tracker.Post, s: Status, n: Note, i: Id)
    requires s != Done
    ensures NotMadeDone(w.posts, SayNote(SetLabel(w, id, e, s), id, n).posts, i)
  {
    LabelMakesNoneDone(w, id, e, s, i);
    SayMakesNoneDone(SetLabel(w, id, e, s), id, n, i);
  }

  lemma LabelKeepsShape(w: World, id: Id, e: Tracker.Post, s: Status)
    requires id in w.posts
    ensures var v := SetLabel(w, id, e, s); id in v.posts && v.posts[id].tier == w.posts[id].tier
    ensures R.SameShape(w.posts, SetLabel(w, id, e, s).posts)
  {
  }

  /** Closing keeps every post, with its tier and links. */
  lemma ClosingKeepsShape(w: World, id: Id, e: Tracker.Post)
    requires R.WellLinked(w.posts) && id in w.posts && w.posts[id].tier == e.tier
    ensures R.SameShape(w.posts, CloseAsDone(w, id, e).posts)
  {
    LabelKeepsShape(w, id, e, Done);
    var w1 := SetLabel(w, id, e, Done);
    var closed := w1.posts[id := w1.posts[id].(open := false)];
    ShapeKeepsLinks(w.posts, closed);
    R.RollUpFrame(closed, id, e.tier);
  }

  lemma RollUpSparesIssues(posts: R.Posts, child: Id, tier: Tier, i: Id)
    requires R.WellLinked(posts) && child in posts && posts[child].tier == tier && i in posts && posts[i].tier == Issue
    ensures i in R.RollUpFrom(posts, child, tier).0 && R.RollUpFrom(posts, child, tier).0[i] == posts[i]
  {
    R.RollUpFrame(posts, child, tier);
    assert i !in R.RollUpFrom(posts, child, tier).1;
  }

  lemma ClosingOthersMakesNoneDone(w: World, id: Id, e: Tracker.Post, i: Id)
    requires R.WellLinked(w.posts) && (id in w.posts ==> w.posts[id].tier == e.tier) && (e.tier == Issue ==> i != id)
    ensures NotMadeDone(w.posts, CloseAsDone(w, id, e).posts, i)
  {
    if id in w.posts {
      ClosingKeepsShape(w, id, e);
      if i in w.posts && w.posts[i].tier == Issue {
        var w1 := SetLabel(w, id, e, Done);
        var closed := w1.posts[id := w1.posts[id].(open := false)];
        assert R.SameShape(w.posts, closed);
        ShapeKeepsLinks(w.posts, closed);
        RollUpSparesIssues(closed, id, e.tier, i);
      }
    }
  }

  lemma ShapeKeepsLinks(a: R.Posts, b: R.Posts)
    requires R.SameShape(a, b) && R.WellLinked(a)
    ensures R.WellLinked(b)
  {
  }

  lemma WriteMakesNoneDone(w: World, id: Id, e: Tracker.Post, write: Write, i: Id)
    requires R.WellLinked(w.posts) && id in w.posts && w.posts[id].tier == e.tier
    requires write != SetStatus(Done) && (e.tier == Issue ==> write != CloseDone)
    ensures NotMadeDone(w.posts, ApplyWrite(w, id, e, write).posts, i)
  {
    match write {
      case SetStatus(s) => LabelMakesNoneDone(w, id, e, s, i);
      case Say(n) => SayMakesNoneDone(w, id, n, i);
      case CloseDone => if e.tier != Issue { ClosingOthersMakesNoneDone(w, id, e, i); }
    }
  }

  lemma WriteKeepsShape(w: World, id: Id, e: Tracker.Post, write: Write)
    requires R.WellLinked(w.posts) && id in w.posts && w.posts[id].tier == e.tier
    ensures R.SameShape(w.posts, ApplyWrite(w, id, e, write).posts)
  {
    if write.CloseDone? { ClosingKeepsShape(w, id, e); } else if write.Say? { SayKeepsShape(w, id, write.note); }
  }

  lemma {:induction false} WritesMakeNoneDone(w: World, id: Id, e: Tracker.Post, writes: seq<Write>, i: Id)
    requires R.WellLinked(w.posts) && id in w.posts && w.posts[id].tier == e.tier
    requires SetStatus(Done) !in writes && (e.tier == Issue ==> CloseDone !in writes)
    ensures NotMadeDone(w.posts, ApplyWrites(w, id, e, writes).posts, i)
    decreases |writes|
  {
    if writes != [] {
      WriteMakesNoneDone(w, id, e, writes[0], i);
      WriteKeepsShape(w, id, e, writes[0]);
      ShapeKeepsLinks(w.posts, ApplyWrite(w, id, e, writes[0]).posts);
      WritesMakeNoneDone(ApplyWrite(w, id, e, writes[0]), id, e, writes[1..], i);
    }
  }

  lemma {:induction false} NoPostNoWrite(w: World, id: Id, e: Tracker.Post, writes: seq<Write>)
    requires id !in w.posts
    ensures ApplyWrites(w, id, e, writes).posts == w.posts
    decreases |writes|
  {
    if writes != [] { NoPostNoWrite(ApplyWrite(w, id, e, writes[0]), id, e, writes[1..]); }
  }

  lemma ResolvingMakesNoneDone(w: World, id: Id, e: Tracker.Post, t: Transition, mayReview: bool, i: Id)
    requires R.WellLinked(w.posts) && (id in w.posts ==> w.posts[id].tier == e.tier) && Restrained(t, e.tier, mayReview)
    ensures NotMadeDone(w.posts, Resolve(w, id, e, t).posts, i)
  {
    if id in w.posts { WritesMakeNoneDone(w, id, e, t.writes, i); } else { NoPostNoWrite(w, id, e, t.writes); }
  }

  lemma StartMakesNoneDone(w: World, id: Id, e: Tracker.Post, i: Id)
    ensures NotMadeDone(w.posts, StartIssue(w, id, e).posts, i)
  {
    var w1, v := Assigned(w, id, e), StartIssue(w, id, e);
    assert NotMadeDone(w.posts, w1.posts, i);
    if v == SayNote(SetLabel(w1, id, e, AwaitingApproval), id, AskGate) {
      FlagMakesNoneDone(w1, id, e, AwaitingApproval, AskGate, i);
    } else if v == SayNote(SetLabel(w1, id, e, Blocked), id, Ack) {
      FlagMakesNoneDone(w1, id, e, Blocked, Ack, i);
    }
  }

  lemma ControlMakesNoneDone(w: World, id: Id, action: Action, i: Id)
    requires R.WellLinked(w.posts) && (id in w.mirror && id in w.posts ==> w.posts[id].tier == w.mirror[id].tier)
    ensures NotMadeDone(w.posts, Control(w, id, action).posts, i)
  {
    if id in w.mirror {
      var e := w.mirror[id];
      var s, stale, posted := StatusOf(e), IsStale(w, id, e), OptionsPosted(w, id);
      ResolutionsAreRestrained(w.cfg, id, e, action, stale, posted);
      if s == Some(AwaitingApproval) {
        ResolvingMakesNoneDone(w, id, e, ResolveApproval(w.cfg, id, e, action, stale, posted), false, i);
      } else if s == Some(Blocked) {
        ResolvingMakesNoneDone(w, id, e, ResolveBlocked(w.cfg, id, e, action, stale), false, i);
      } else if s == Some(AwaitingMerge) {
        ResolvingMakesNoneDone(w, id, e, ResolveAwaitingMerge(w.cfg, id, e, action, stale), false, i);
      } else {
        StartMakesNoneDone(w, id, e, i);
      }
    }
  }

  lemma DigestMakesNoneDone(w: World, k: nat, i: Id)
    requires R.WellLinked(w.posts) && Legal(w, DigestStep(k))
    requires var id := w.results[k].id; id in w.mirror && id in w.posts ==> w.posts[id].tier == w.mirror[id].tier
    ensures NotMadeDone(w.posts, Digest(w, k).posts, i)
  {
    var r := w.results[k];
    if r.id in w.mirror {
      var e := w.mirror[r.id];
      var t := if r.intent.Implement? then AfterImplement(w.cfg, e, r.report) else AfterReview(w.cfg, e, r.report);
      var w1 := w.(results := Drop(w.results, k));
      var w2 := if r.intent.Review? && SetStatus(Todo) in t.writes then w1.(log := w1.log + [Bounced(r.id)]) else w1;
      ReportsAreRestrained(w.cfg, e, r.report);
      ResolvingMakesNoneDone(w2, r.id, e, t, r.intent.Implement?, i);
    }
  }

  lemma ReadyAndGateMakeNoneDone(w: World, id: Id, e: Tracker.Post, luck: Luck, i: Id)
    ensures NotMadeDone(w.posts, Ready(w, id, e, luck).0.posts, i)
    ensures NotMadeDone(w.posts, OpenGate(w, id, e).posts, i)
  {
    FlagMakesNoneDone(w.(git := ReadyBranch(w.git, BranchOf(id, e), w.primary, luck).0), id, e, Blocked, Ack, i);
    FlagMakesNoneDone(w, id, e, AwaitingApproval, PureGate, i);
    SayMakesNoneDone(w, id, PureGate, i);
  }

  lemma {:induction false} SweepMakesNoneDone(w: World, ids: seq<Id>, lucks: Lucks, i: Id)
    ensures NotMadeDone(w.posts, Sweep(w, ids, lucks).posts, i)
  {
    if ids != [] {
      var front, j := ids[..|ids| - 1], ids[|ids| - 1];
      SweepMakesNoneDone(w, front, lucks, i);
      var w1 := Sweep(w, front, lucks);
      if j in w1.mirror { SweptMakesNoneDone(w1, j, w1.mirror[j], LuckOf(lucks, j), i); }
    }
  }

  lemma SweptMakesNoneDone(w: World, j: Id, e: Tracker.Post, luck: Luck, i: Id)
    ensures NotMadeDone(w.posts, ReadyAndGate(SayNote(w, j, Ack), j, e, luck).posts, i)
  {
    var w1 := SayNote(w, j, Ack);
    SayMakesNoneDone(w, j, Ack, i);
    ReadyAndGateMakeNoneDone(w1, j, e, luck, i);
    ReadyAndGateMakeNoneDone(Ready(w1, j, e, luck).0, j, e, luck, i);
  }

  lemma RecordMakesOneDone(w: World, id: Id, e: Tracker.Post, tip: set<G.Commit>, seen: Thread, i: Id)
    requires R.WellLinked(w.posts) && i != id && (id in w.posts ==> w.posts[id].tier == e.tier)
    ensures NotMadeDone(w.posts, Record(w, id, e, tip, seen).posts, i)
  {
    var w1 := SayNote(w, id, Ack);
    SayMakesNoneDone(w, id, Ack, i);
    SayKeepsShape(w, id, Ack);
    ShapeKeepsLinks(w.posts, w1.posts);
    ClosingOthersMakesNoneDone(w1.(log := w1.log + [Landed(id, seen), Closed(id, tip)]), id, e, i);
  }

  lemma SayKeepsShape(w: World, id: Id, n: Note)
    ensures R.SameShape(w.posts, SayNote(w, id, n).posts)
  {
  }

  lemma MergeMakesOneDone(w: World, id: Id, e: Tracker.Post, luck: Luck, lucks: Lucks, seen: Thread, i: Id)
    requires R.WellLinked(w.posts) && (id in w.posts ==> w.posts[id].tier == e.tier)
    requires LandBranch(w.git, BranchOf(id, e), w.primary, luck).1 ==> i != id
    ensures NotMadeDone(w.posts, MergeBranch(w, id, e, luck, lucks, seen).posts, i)
  {
    var (g, ok) := LandBranch(w.git, BranchOf(id, e), w.primary, luck);
    var w1 := w.(git := g);
    if !ok { FlagMakesNoneDone(w1, id, e, Blocked, Ack, i); }
    if ok {
      RecordMakesOneDone(w1, id, e, g.At(BranchOf(id, e)), seen, i);
      var w2 := Record(w1, id, e, g.At(BranchOf(id, e)), seen);
      SweepMakesNoneDone(w2, OpenGates(w2, w2.order, id), lucks, i);
    }
  }

  /** A gate job makes at most its own issue done, and then it closed it. */
  lemma GateMakesOneDone(w: World, k: nat, luck: Luck, lucks: Lucks, i: Id)
    requires R.WellLinked(w.posts) && k < |w.work| && w.work[k].GateJob?
    requires var id := w.work[k].id; id in w.mirror && id in w.posts ==> w.posts[id].tier == w.mirror[id].tier
    requires RunGate(w, k, luck, lucks).log != w.log ==> i != w.work[k].id
    ensures NotMadeDone(w.posts, RunGate(w, k, luck, lucks).posts, i)
  {
    var j := w.work[k];
    if j.id in w.mirror {
      var e, w1, u := w.mirror[j.id], w.(work := Drop(w.work, k)), MergesFrom(w, k, luck);
      ReadyAndGateMakeNoneDone(w1, j.id, e, luck, i);
      ReadyAndGateMakeNoneDone(Ready(w1, j.id, e, luck).0, j.id, e, luck, i);
      if j.merge && (j.prepare ==> Ready(w1, j.id, e, luck).1) {
        if LandBranch(u.git, BranchOf(j.id, e), u.primary, luck).1 {
          LandingLogs(u, j.id, e, luck, lucks, j.seen);
        }
        MergeMakesOneDone(u, j.id, e, luck, lucks, j.seen, i);
      }
    }
  }

  lemma AgentLeavesPosts(w: World, s: Step)
    requires Legal(w, s) && s.AgentStep?
    ensures Take(w, s).posts == w.posts
  {
  }

  lemma PeopleMakeNoneDone(w: World, s: Step, i: Id)
    requires Legal(w, s)
    requires !s.ControlStep? && !s.DigestStep? && !s.AgentStep? && !s.GateStep?
    ensures ReadsDone(Take(w, s).posts, i) ==> ReadsDone(w.posts, i)
  {
  }

  /** An issue comes to read `done` only in a step that closes it. */
  lemma DoneComesByClosing(w: World, s: Step, i: Id) returns (n: nat)
    requires Inv(w) && Legal(w, s)
    requires var v := Take(w, s); ReadsDone(v.posts, i) && v.posts[i].tier == Issue && !ReadsDone(w.posts, i)
    ensures |w.log| <= n < |Take(w, s).log| && Take(w, s).log[n].Closed? && Take(w, s).log[n].id == i
  {
    n := |w.log| + 1;
    forall id: Id | id in w.mirror && id in w.posts ensures w.posts[id].tier == w.mirror[id].tier { TierSeen(w, id); }
    if s.ControlStep? {
      ControlMakesNoneDone(w, s.id, s.action, i);
    } else if s.DigestStep? {
      DigestMakesNoneDone(w, s.k, i);
    } else if s.AgentStep? {
      AgentLeavesPosts(w, s);
    } else if s.GateStep? {
      if RunGate(w, s.k, s.luck, s.lucks).log == w.log || i != w.work[s.k].id {
        GateMakesOneDone(w, s.k, s.luck, s.lucks, i);
      } else {
        GateLogsItsLanding(w, s.k, s.luck, s.lucks);
      }
    } else {
      PeopleMakeNoneDone(w, s, i);
    }
  }
}
