/** Review bounces: no issue goes back to `todo` more often than configured. */
module ReviewLoop {
  import opened Basics
  import opened Tracker
  import opened Gates
  import opened Advance
  import opened Lifecycle
  import opened Safety
  import opened Runs
  import opened Landings
  import Sweeps
  import R = RollUp
  import G = Git

  // ----- the review attempts on record

  /** The platform's own review notes on a post. */
  function Attempts(posts: R.Posts, i: Id): nat {
    if i in posts then MarkedAttempts(posts[i].thread, true) else 0
  }

  predicate Counts(c: Comment) { ReviewAttempt in c.markers && c.platform }

  lemma CommentCounts(t: Thread, c: Comment)
    ensures MarkedAttempts(t + [c], true) == MarkedAttempts(t, true) + if Counts(c) then 1 else 0
  {
    assert (t + [c])[..|t|] == t;
  }

  /** What the runtime counts is at least that. */
  lemma {:induction false} OwnAttemptsCount(t: Thread)
    ensures MarkedAttempts(t, true) <= ReviewAttempts(t)
  {
    if t != [] { OwnAttemptsCount(t[..|t| - 1]); }
  }

  lemma {:induction false} EditKeepsAttempts(t: Thread, k: nat, c: Comment)
    requires k < |t| && Counts(c) == Counts(t[k])
    ensures MarkedAttempts(t[k := c], true) == MarkedAttempts(t, true)
  {
    var u := t[k := c];
    if k < |t| - 1 {
      assert u[..|t| - 1] == t[..|t| - 1][k := c];
      EditKeepsAttempts(t[..|t| - 1], k, c);
    } else {
      assert u[..|t| - 1] == t[..|t| - 1];
    }
  }

  lemma {:induction false} DeleteKeepsAttempts(t: Thread, k: nat)
    requires k < |t| && !Counts(t[k])
    ensures MarkedAttempts(Drop(t, k), true) == MarkedAttempts(t, true)
  {
    var front, last := t[..|t| - 1], t[|t| - 1];
    if k < |t| - 1 {
      assert Drop(t, k) == Drop(front, k) + [last];
      DeleteKeepsAttempts(front, k);
      CommentCounts(Drop(front, k), last);
    } else {
      assert Drop(t, k) == front;
    }
  }

  lemma {:induction false} RollUpKeepsAttempts(posts: R.Posts, child: Id, tier: Tier, i: Id)
    ensures Attempts(R.RollUpFrom(posts, child, tier).0, i) == Attempts(posts, i)
    decreases R.Rank(tier)
  {
    if R.RollUpFrom(posts, child, tier).1 != [] {
      var pid := R.LinkOf(posts[child], tier).value;
      CommentCounts(posts[pid].thread, R.ROLL_NOTE);
      RollUpKeepsAttempts(posts[pid := R.CloseParent(posts[pid], R.Verdict(posts, R.Children(posts, tier, pid)))],
                          pid, R.UpTier(tier), i);
    }
  }

  lemma PostCounts(w: World, id: Id, c: Comment, i: Id)
    ensures Attempts(AddComment(w, id, c).posts, i) ==
            Attempts(w.posts, i) + if i == id && i in w.posts && Counts(c) then 1 else 0
  {
    var v := AddComment(w, id, c);
    if i == id && id in w.posts {
      assert v.posts[i].thread == w.posts[i].thread + [c];
      CommentCounts(w.posts[i].thread, c);
    } else {
      assert i in w.posts ==> v.posts[i] == w.posts[i];
    }
  }

  lemma SayCounts(w: World, id: Id, n: Note, i: Id)
    ensures Attempts(SayNote(w, id, n).posts, i) ==
            Attempts(w.posts, i) + if i == id && i in w.posts && n.ReviewNote? then 1 else 0
  {
    PostCounts(if Mints(n) then w.(apr := w.apr + 1) else w, id, NoteComment(n, w.apr + 1), i);
  }

  lemma CloseKeepsAttempts(w: World, id: Id, e: Tracker.Post, i: Id)
    ensures Attempts(CloseAsDone(w, id, e).posts, i) == Attempts(w.posts, i)
  {
    var w1 := SetLabel(w, id, e, Done);
    if id in w1.posts { RollUpKeepsAttempts(w1.posts[id := w1.posts[id].(open := false)], id, e.tier, i); }
  }

  /** How many of the writes put a review on record. */
  function ReviewNotes(writes: seq<Write>): nat {
    if writes == [] then 0
    else ReviewNotes(writes[1..]) + if writes[0].Say? && writes[0].note.ReviewNote? then 1 else 0
  }

  lemma ReviewNotesOfTwo(a: Write, b: Write)
    ensures ReviewNotes([a, b]) == ReviewNotes([a]) + ReviewNotes([b])
    ensures ReviewNotes([a]) == if a.Say? && a.note.ReviewNote? then 1 else 0
  {
    assert [a, b][1..] == [b] && [a][1..] == [];
  }

  lemma {:induction false} NoReviewNotes(writes: seq<Write>)
    requires forall n :: Say(n) in writes ==> !n.ReviewNote?
    ensures ReviewNotes(writes) == 0
    decreases |writes|
  {
    if writes != [] {
      assert writes[0].Say? ==> Say(writes[0].note) in writes;
      NoReviewNotes(writes[1..]);
    }
  }

  /** The attempts on record grow by the reviews written down, and by nothing else. */
  lemma {:induction false} WritesCount(w: World, id: Id, e: Tracker.Post, writes: seq<Write>, i: Id)
    ensures Attempts(ApplyWrites(w, id, e, writes).posts, i) ==
            Attempts(w.posts, i) + if i == id && i in w.posts then ReviewNotes(writes) else 0
    decreases |writes|
  {
    if writes != [] {
      var w1 := ApplyWrite(w, id, e, writes[0]);
      match writes[0] {
        case SetStatus(_) =>
        case Say(n) => SayCounts(w, id, n, i);
        case CloseDone => CloseKeepsAttempts(w, id, e, i); CloseKeepsIds(w, id, e);
      }
      assert i in w1.posts <==> i in w.posts;
      WritesCount(w1, id, e, writes[1..], i);
    }
  }

  lemma CloseKeepsIds(w: World, id: Id, e: Tracker.Post)
    ensures CloseAsDone(w, id, e).posts.Keys == w.posts.Keys
  {
    var w1 := SetLabel(w, id, e, Done);
    if id in w1.posts { RollUpKeepsIds(w1.posts[id := w1.posts[id].(open := false)], id, e.tier); }
  }

  lemma {:induction false} RollUpKeepsIds(posts: R.Posts, child: Id, tier: Tier)
    ensures R.RollUpFrom(posts, child, tier).0.Keys == posts.Keys
    decreases R.Rank(tier)
  {
    if R.RollUpFrom(posts, child, tier).1 != [] {
      var pid := R.LinkOf(posts[child], tier).value;
      RollUpKeepsIds(posts[pid := R.CloseParent(posts[pid], R.Verdict(posts, R.Children(posts, tier, pid)))],
                     pid, R.UpTier(tier));
    }
  }

  lemma FlagKeepsAttempts(w: World, id: Id, e: Tracker.Post, s: Status, n: Note, i: Id)
    requires !n.ReviewNote?
    ensures var v := SayNote(SetLabel(w, id, e, s), id, n);
            v.log == w.log && Attempts(v.posts, i) == Attempts(w.posts, i)
  {
    SayCounts(SetLabel(w, id, e, s), id, n, i);
  }

  lemma OpenGateKeepsAttempts(w: World, id: Id, e: Tracker.Post, i: Id)
    ensures Attempts(OpenGate(w, id, e).posts, i) == Attempts(w.posts, i)
  {
    FlagKeepsAttempts(w, id, e, AwaitingApproval, PureGate, i);
    SayCounts(w, id, PureGate, i);
  }

  lemma GateWorkKeepsAttempts(w: World, id: Id, e: Tracker.Post, luck: Luck, i: Id)
    ensures Attempts(Ready(w, id, e, luck).0.posts, i) == Attempts(w.posts, i)
    ensures Ready(w, id, e, luck).0.log == w.log
    ensures Attempts(OpenGate(w, id, e).posts, i) == Attempts(w.posts, i)
    ensures Attempts(Park(w, id, e).posts, i) == Attempts(w.posts, i)
  {
    var g := ReadyBranch(w.git, BranchOf(id, e), w.primary, luck).0;
    FlagKeepsAttempts(w.(git := g), id, e, Blocked, Ack, i);
    FlagKeepsAttempts(w, id, e, Blocked, Ack, i);
    OpenGateKeepsAttempts(w, id, e, i);
  }

  lemma {:induction false} SweepKeepsAttempts(w: World, ids: seq<Id>, lucks: Lucks, i: Id)
    ensures Attempts(Sweep(w, ids, lucks).posts, i) == Attempts(w.posts, i)
    ensures Sweep(w, ids, lucks).log == w.log
  {
    if ids != [] {
      var w1, j := Sweep(w, ids[..|ids| - 1], lucks), ids[|ids| - 1];
      SweepKeepsAttempts(w, ids[..|ids| - 1], lucks, i);
      if j in w1.mirror {
        var w2 := SayNote(w1, j, Ack);
        SayCounts(w1, j, Ack, i);
        GateWorkKeepsAttempts(w2, j, w1.mirror[j], LuckOf(lucks, j), i);
        GateWorkKeepsAttempts(Ready(w2, j, w1.mirror[j], LuckOf(lucks, j)).0, j, w1.mirror[j], LuckOf(lucks, j), i);
      }
    }
  }

  function Bounces(log: seq<Event>, i: Id): nat {
    if log == [] then 0 else Bounces(log[..|log| - 1], i) + if log[|log| - 1] == Bounced(i) then 1 else 0
  }

  lemma BounceCounts(log: seq<Event>, ev: Event, i: Id)
    ensures Bounces(log + [ev], i) == Bounces(log, i) + if ev == Bounced(i) then 1 else 0
  {
    assert (log + [ev])[..|log|] == log;
  }

  lemma MergeKeepsAttempts(w: World, id: Id, e: Tracker.Post, luck: Luck, lucks: Lucks, seen: Thread, i: Id)
    ensures var v := MergeBranch(w, id, e, luck, lucks, seen);
            Attempts(v.posts, i) == Attempts(w.posts, i) && Bounces(v.log, i) == Bounces(w.log, i)
  {
    var (g, ok) := LandBranch(w.git, BranchOf(id, e), w.primary, luck);
    var tip := g.At(BranchOf(id, e));
    var w1 := SayNote(w.(git := g), id, Ack);
    var w2 := w1.(log := w1.log + [Landed(id, seen), Closed(id, tip)]);
    assert w2.log == (w.log + [Landed(id, seen)]) + [Closed(id, tip)];
    BounceCounts(w.log, Landed(id, seen), i);
    BounceCounts(w.log + [Landed(id, seen)], Closed(id, tip), i);
    SayCounts(w.(git := g), id, Ack, i);
    CloseKeepsAttempts(w2, id, e, i);
    var w3 := CloseAsDone(w2, id, e);
    SweepKeepsAttempts(w3, OpenGates(w3, w3.order, id), lucks, i);
    GateWorkKeepsAttempts(w.(git := g), id, e, luck, i);
  }

  // ----- one step

  lemma ScheduledIsNoBounce(w: World, id: Id, e: Tracker.Post, t: Transition, i: Id)
    ensures Bounces(Resolve(w, id, e, t).log, i) == Bounces(w.log, i)
    ensures Attempts(Resolve(w, id, e, t).posts, i) == Attempts(ApplyWrites(w, id, e, t.writes).posts, i)
  {
    WritesLogNothing(w, id, e, t.writes);
    BounceCounts(w.log, Scheduled(id, t.merge, e.thread), i);
  }

  /** The step neither bounces issue `i` nor puts a review of it on record. */
  ghost predicate Quiet(w: World, v: World, i: Id) {
    && Bounces(v.log, i) == Bounces(w.log, i) && Attempts(v.posts, i) == Attempts(w.posts, i)
  }

  lemma DecisionCounts(w: World, id: Id, e: Tracker.Post, t: Transition, i: Id)
    ensures var v := Resolve(w, id, e, t);
            && Bounces(v.log, i) == Bounces(w.log, i)
            && Attempts(v.posts, i) ==
                 Attempts(w.posts, i) + if i == id && i in w.posts then ReviewNotes(t.writes) else 0
  {
    ScheduledIsNoBounce(w, id, e, t, i);
    WritesCount(w, id, e, t.writes, i);
  }

  lemma AssignedCounts(w: World, id: Id, e: Tracker.Post, i: Id)
    ensures var v := Assigned(w, id, e); v.log == w.log && Attempts(v.posts, i) == Attempts(w.posts, i)
  {
  }

  lemma StartCounts(w: World, id: Id, e: Tracker.Post, i: Id)
    ensures Quiet(w, StartIssue(w, id, e), i)
  {
    var w1 := Assigned(w, id, e);
    StartCases(w, id, e);
    AssignedCounts(w, id, e, i);
    FlagKeepsAttempts(w1, id, e, AwaitingApproval, AskGate, i);
    FlagKeepsAttempts(w1, id, e, Blocked, Ack, i);
    assert ScheduleRun(w1, id, Implement).posts == w1.posts;
  }

  lemma ControlCounts(w: World, id: Id, action: Action, i: Id)
    ensures Quiet(w, Control(w, id, action), i)
  {
    if id in w.mirror {
      var t := ControlCases(w, id, action);
      NoReviewNotes(t.writes);
      DecisionCounts(w, id, w.mirror[id], t, i);
      StartCounts(w, id, w.mirror[id], i);
    }
  }

  lemma GateJobCounts(w: World, k: nat, luck: Luck, lucks: Lucks, i: Id)
    requires Legal(w, GateStep(k, luck, lucks))
    ensures Quiet(w, RunGate(w, k, luck, lucks), i)
  {
    var j := w.work[k];
    if j.id in w.mirror {
      var e := w.mirror[j.id];
      var w1 := w.(work := Drop(w.work, k));
      if j.prepare {
        var w2 := Ready(w1, j.id, e, luck).0;
        GateWorkKeepsAttempts(w1, j.id, e, luck, i);
        GateWorkKeepsAttempts(w2, j.id, e, luck, i);
        MergeKeepsAttempts(w2, j.id, e, luck, lucks, j.seen, i);
      } else {
        MergeKeepsAttempts(w1, j.id, e, luck, lucks, j.seen, i);
      }
    }
  }

  lemma WorkCounts(w: World, j: Job, g: G.State, how: G.Commits, back: bool, i: Id)
    requires j.WorkRun?
    ensures var v := WorkOn(w, j, g, how, back); Bounces(v.log, i) == Bounces(w.log, i) && v.posts == w.posts
  {
    BounceCounts(w.log, ImplementRan(j.id, g.At(g.head)), i);
  }

  lemma HandInKeeps(w: World, k: nat, failed: bool, end: AgentEnd, again: bool)
    requires k < |w.work| && w.work[k].WorkRun?
    ensures var v := HandIn(w, k, failed, end, again); v.log == w.log && v.posts == w.posts
  {
  }

  lemma AgentCounts(w: World, k: nat, toBranch: bool, how: G.Commits, back: bool, end: AgentEnd, again: bool, i: Id)
    requires k < |w.work| && w.work[k].WorkRun?
    ensures var v := RunAgent(w, k, toBranch, how, back, end, again);
            Bounces(v.log, i) == Bounces(w.log, i) && v.posts == w.posts
  {
    var j := w.work[k];
    if j.id in w.mirror {
      var (g, ok) := G.EnsureOnBranch(w.git, BranchOf(j.id, w.mirror[j.id]), w.primary, toBranch);
      WorkCounts(w, j, g, how, back, i);
      var u := WorkOn(w, j, g, how, back);
      if ok { HandInKeeps(u, k, j.intent.Implement? && how.CommitFailed?, end, again); }
    }
  }

  /** The runtime's own words on issue `i` are left alone, and so is the issue. */
  ghost predicate Undisturbed(u: World, s: Step, i: Id) {
    && (s.HumanDeletePost? ==> s.id != i)
    && ((s.HumanEditComment? || s.HumanDeleteComment?) && s.id == i && i in u.posts && s.k < |u.posts[i].thread| ==>
          !u.posts[i].thread[s.k].platform)
  }

  lemma EditsCount(w: World, s: Step, i: Id)
    requires Legal(w, s) && Edits(s) && Undisturbed(w, s, i)
    ensures Take(w, s).log == w.log && Attempts(Take(w, s).posts, i) == Attempts(w.posts, i)
  {
    if s.id == i {
      var t := w.posts[i].thread;
      match s {
        case HumanComment(_, c) => CommentCounts(t, c);
        case HumanEditComment(_, k, c) => EditKeepsAttempts(t, k, c);
        case HumanDeleteComment(_, k) => DeleteKeepsAttempts(t, k);
        case HumanReact(_, k, rs) => EditKeepsAttempts(t, k, t[k].(reactions := rs));
        case _ =>
      }
    }
  }

  lemma {:induction false} PeopleReviewNothing(t: Thread)
    requires forall c :: c in t ==> !c.platform
    ensures MarkedAttempts(t, true) == 0
  {
    if t != [] {
      assert t[|t| - 1] in t;
      PeopleReviewNothing(t[..|t| - 1]);
    }
  }

  lemma OtherStepsCount(w: World, s: Step, i: Id)
    requires Legal(w, s) && !s.DigestStep? && Undisturbed(w, s, i) && w.posts.Keys <= w.born.Keys
    ensures Quiet(w, Take(w, s), i)
  {
    match s {
      case ControlStep(id, action) => ControlCounts(w, id, action, i);
      case GateStep(k, luck, lucks) => GateJobCounts(w, k, luck, lucks, i);
      case AgentStep(k, toBranch, how, back, end, again) => AgentCounts(w, k, toBranch, how, back, end, again, i);
      case NewPost(_, p) => PeopleReviewNothing(p.thread);
      case _ => if Edits(s) { EditsCount(w, s, i); }
    }
  }

  /** Result `k` is a review of issue `i`, and no reason to drop it is in sight. */
  predicate ActsOnReview(w: World, k: nat, i: Id)
    requires k < |w.results|
  {
    && w.results[k].id == i && w.results[k].intent.Review?
    && i in w.mirror && !IsStale(w, i, w.mirror[i])
  }

  /** It asks for changes, and the mirror shows attempts left. */
  predicate SendsBack(w: World, k: nat, i: Id)
    requires k < |w.results| && w.results[k].report.Reviewed? && i in w.mirror
  {
    !w.results[k].report.approve && ReviewAttempts(w.mirror[i].thread) + 1 < w.cfg.maxAttempts
  }

  lemma ReviewSaysOnce(cfg: Config, e: Tracker.Post, r: Report)
    requires r.Reviewed?
    ensures var t := AfterReview(cfg, e, r);
            && ReviewNotes(t.writes) == 1
            && (SetStatus(Todo) in t.writes <==> !r.approve && ReviewAttempts(e.thread) + 1 < cfg.maxAttempts)
  {
    var t := AfterReview(cfg, e, r);
    assert t.writes[0] == Say(ReviewNote(r.quoted));
    NoReviewNotes(t.writes[1..]);
  }

  /** A digest puts a review on record exactly when it acts on one, and bounces the issue exactly when
      that review sends it back. */
  lemma DigestCounts(w: World, k: nat, i: Id)
    requires Legal(w, DigestStep(k)) && (i in w.mirror ==> i in w.posts)
    ensures var v := Digest(w, k);
            && Attempts(v.posts, i) == Attempts(w.posts, i) + (if ActsOnReview(w, k, i) then 1 else 0)
            && Bounces(v.log, i) ==
                 Bounces(w.log, i) + if ActsOnReview(w, k, i) && SendsBack(w, k, i) then 1 else 0
  {
    var r := w.results[k];
    var w1 := w.(results := Drop(w.results, k));
    if r.id in w.mirror && !IsStale(w, r.id, w.mirror[r.id]) {
      var e := w.mirror[r.id];
      if r.intent.Implement? {
        NoReviewNotes(AfterImplement(w.cfg, e, r.report).writes);
        DecisionCounts(w1, r.id, e, AfterImplement(w.cfg, e, r.report), i);
      } else {
        ReviewSaysOnce(w.cfg, e, r.report);
        BounceCounts(w.log, Bounced(r.id), i);
        DecisionCounts(w1, r.id, e, AfterReview(w.cfg, e, r.report), i);
        DecisionCounts(w1.(log := w1.log + [Bounced(r.id)]), r.id, e, AfterReview(w.cfg, e, r.report), i);
      }
    }
  }

  // ----- whole runs

  /** When a review of issue `i` is digested, the mirror shows at least the platform's own notes. */
  ghost predicate UpToDate(u: World, s: Step, i: Id) {
    s.DigestStep? && s.k < |u.results| && u.results[s.k].id == i && u.results[s.k].intent.Review? && i in u.mirror ==>
      Attempts(u.posts, i) <= ReviewAttempts(u.mirror[i].thread)
  }

  ghost predicate Untouched(ws: seq<World>, steps: seq<Step>, i: Id) {
    forall m: nat :: m < |steps| && m < |ws| ==> Undisturbed(ws[m], steps[m], i)
  }

  ghost predicate Orderly(ws: seq<World>, steps: seq<Step>, i: Id) {
    Untouched(ws, steps, i) && forall m: nat :: m < |steps| && m < |ws| ==> UpToDate(ws[m], steps[m], i)
  }

  /** A post nobody deletes stays, and so what the mirror shows is still there. */
  lemma {:induction false} UndeletedStays(ws: seq<World>, steps: seq<Step>, k: nat, i: Id)
    requires IsRun(ws, steps) && k < |ws| && Untouched(ws, steps, i)
    ensures i in ws[k].mirror ==> i in ws[k].posts
    ensures k > 0 && i in ws[k - 1].posts ==> i in ws[k].posts
  {
    if k > 0 {
      var u, s := ws[k - 1], steps[k - 1];
      UndeletedStays(ws, steps, k - 1, i);
      assert StepAt(ws, steps, k - 1) && Undisturbed(u, s, i);
      RunsKeepInv(ws, steps, k - 1);
      MirrorAfter(u, s);
      if i in u.posts { OnlyDeletionRemoves(u, s, i); }
    }
  }

  lemma PeopleKeepPosts(w: World, s: Step, i: Id)
    requires Legal(w, s) && i in w.posts && !(s.HumanDeletePost? && s.id == i)
    requires !s.ControlStep? && !s.DigestStep? && !s.AgentStep? && !s.GateStep?
    ensures i in Take(w, s).posts
  {
  }

  lemma OnlyDeletionRemoves(w: World, s: Step, i: Id)
    requires Legal(w, s) && i in w.posts && !(s.HumanDeletePost? && s.id == i)
    ensures i in Take(w, s).posts
  {
    if s.ControlStep? {
      ControlKeepsPosts(w, s.id, s.action, i);
    } else if s.DigestStep? {
      DigestKeepsPosts(w, s.k, i);
    } else if s.AgentStep? {
      AgentLeavesPosts(w, s);
    } else if s.GateStep? {
      GateKeepsPosts(w, s.k, s.luck, s.lucks, i);
    } else {
      PeopleKeepPosts(w, s, i);
    }
  }

  lemma {:induction false} WritesKeepPosts(w: World, id: Id, e: Tracker.Post, writes: seq<Write>, i: Id)
    requires i in w.posts
    ensures i in ApplyWrites(w, id, e, writes).posts
    decreases |writes|
  {
    if writes != [] {
      CloseKeepsPosts(w, id, e, i);
      WritesKeepPosts(ApplyWrite(w, id, e, writes[0]), id, e, writes[1..], i);
    }
  }

  lemma CloseKeepsPosts(w: World, id: Id, e: Tracker.Post, i: Id)
    requires i in w.posts
    ensures i in CloseAsDone(w, id, e).posts
  {
    var w1 := SetLabel(w, id, e, Done);
    if id in w1.posts { RollUpKeepsIds(w1.posts[id := w1.posts[id].(open := false)], id, e.tier); }
  }

  lemma FlagKeepsPosts(w: World, id: Id, e: Tracker.Post, s: Status, n: Note, i: Id)
    requires i in w.posts
    ensures i in SayNote(SetLabel(w, id, e, s), id, n).posts
  {
  }

  lemma StartKeepsPosts(w: World, id: Id, e: Tracker.Post, i: Id)
    requires i in w.posts
    ensures i in StartIssue(w, id, e).posts
  {
    var w1 := Assigned(w, id, e);
    StartCases(w, id, e);
    FlagKeepsPosts(w1, id, e, AwaitingApproval, AskGate, i);
    FlagKeepsPosts(w1, id, e, Blocked, Ack, i);
  }

  lemma ControlKeepsPosts(w: World, id: Id, action: Action, i: Id)
    requires i in w.posts
    ensures i in Control(w, id, action).posts
  {
    if id in w.mirror {
      var t := ControlCases(w, id, action);
      WritesKeepPosts(w, id, w.mirror[id], t.writes, i);
      StartKeepsPosts(w, id, w.mirror[id], i);
    }
  }

  lemma DigestKeepsPosts(w: World, k: nat, i: Id)
    requires i in w.posts && Legal(w, DigestStep(k))
    ensures i in Digest(w, k).posts
  {
    var r := w.results[k];
    if r.id in w.mirror {
      var e := w.mirror[r.id];
      var t := if r.intent.Implement? then AfterImplement(w.cfg, e, r.report) else AfterReview(w.cfg, e, r.report);
      var w1 := w.(results := Drop(w.results, k));
      WritesKeepPosts(w1, r.id, e, t.writes, i);
      WritesKeepPosts(w1.(log := w1.log + [Bounced(r.id)]), r.id, e, t.writes, i);
    }
  }

  lemma ReadyKeepsPosts(w: World, id: Id, e: Tracker.Post, luck: Luck, i: Id)
    requires i in w.posts
    ensures i in Ready(w, id, e, luck).0.posts && i in OpenGate(w, id, e).posts && i in Park(w, id, e).posts
  {
  }

  lemma MergeKeepsPosts(w: World, id: Id, e: Tracker.Post, luck: Luck, lucks: Lucks, seen: Thread, i: Id)
    requires i in w.posts
    ensures i in MergeBranch(w, id, e, luck, lucks, seen).posts
  {
    var (g, ok) := LandBranch(w.git, BranchOf(id, e), w.primary, luck);
    var w1 := w.(git := g);
    if ok {
      var tip := g.At(BranchOf(id, e));
      var w2 := SayNote(w1, id, Ack);
      CloseKeepsPosts(w2.(log := w2.log + [Landed(id, seen), Closed(id, tip)]), id, e, i);
      var w3 := Record(w1, id, e, tip, seen);
      Sweeps.SweepSays(w3, OpenGates(w3, w3.order, id), lucks, i);
    } else {
      ReadyKeepsPosts(w1, id, e, luck, i);
    }
  }

  lemma GateKeepsPosts(w: World, k: nat, luck: Luck, lucks: Lucks, i: Id)
    requires k < |w.work| && w.work[k].GateJob? && i in w.posts
    ensures i in RunGate(w, k, luck, lucks).posts
  {
    var j := w.work[k];
    if j.id in w.mirror {
      var e, w1 := w.mirror[j.id], w.(work := Drop(w.work, k));
      ReadyKeepsPosts(w1, j.id, e, luck, i);
      var w2 := if j.prepare then Ready(w1, j.id, e, luck).0 else w1;
      ReadyKeepsPosts(w2, j.id, e, luck, i);
      MergeKeepsPosts(w2, j.id, e, luck, lucks, j.seen, i);
    }
  }

  ghost predicate Bounded(w: World, i: Id) {
    && Bounces(w.log, i) <= Attempts(w.posts, i)
    && Bounces(w.log, i) <= Max(0, w.cfg.maxAttempts - 1)
  }

  lemma StartsBounded(w: World, i: Id)
    requires Init(w)
    ensures Bounded(w, i)
  {
  }

  lemma StepKeepsBounded(ws: seq<World>, steps: seq<Step>, k: nat, i: Id)
    requires StepAt(ws, steps, k) && Bounded(ws[k], i) && ws[k + 1].cfg == ws[k].cfg
    requires ws[k].posts.Keys <= ws[k].born.Keys && (i in ws[k].mirror ==> i in ws[k].posts)
    requires UpToDate(ws[k], steps[k], i) && Undisturbed(ws[k], steps[k], i)
    ensures Bounded(ws[k + 1], i)
  {
    var w, s := ws[k], steps[k];
    if s.DigestStep? { DigestCounts(w, s.k, i); } else { OtherStepsCount(w, s, i); }
  }

  /** Over an issue's whole life, whatever people do in between, review sends it back at most
      max(0, maxAttempts - 1) times, provided each of its reviews is digested on a mirror that shows
      the earlier ones, and nobody deletes the issue or touches the runtime's comments on it. */
  lemma {:induction false} BouncesAreBounded(ws: seq<World>, steps: seq<Step>, k: nat, i: Id)
    requires IsRun(ws, steps) && k < |ws| && Orderly(ws, steps, i)
    ensures Bounces(ws[k].log, i) <= Attempts(ws[k].posts, i)
    ensures Bounces(ws[k].log, i) <= Max(0, ws[0].cfg.maxAttempts - 1)
  {
    if k == 0 {
      StartsBounded(ws[0], i);
    } else {
      BouncesAreBounded(ws, steps, k - 1, i);
      UndeletedStays(ws, steps, k - 1, i);
      RunsKeepInv(ws, steps, k - 1);
      RunsKeepInv(ws, steps, k);
      assert UpToDate(ws[k - 1], steps[k - 1], i) && Undisturbed(ws[k - 1], steps[k - 1], i);
      StepKeepsBounded(ws, steps, k - 1, i);
    }
  }

  // ----- without an up-to-date mirror

  /** A digest sends issue `i` back although, with this review, its attempts are used up on the tracker,
      exactly when the review asks for changes and the mirror still shows attempts left. */
  lemma DigestOverrunsIff(w: World, k: nat, i: Id)
    requires Legal(w, DigestStep(k)) && i in w.mirror && i in w.posts && ActsOnReview(w, k, i)
    ensures var v := Digest(w, k);
            Bounces(v.log, i) > Bounces(w.log, i) && Attempts(v.posts, i) >= w.cfg.maxAttempts <==>
            && !w.results[k].report.approve
            && ReviewAttempts(w.mirror[i].thread) + 1 < w.cfg.maxAttempts <= Attempts(w.posts, i) + 1
  {
    DigestCounts(w, k, i);
  }
}
