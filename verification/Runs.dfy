/** Every step keeps the lifecycle's invariant; what that means for whole runs. */
module Runs {
  import opened Basics
  import opened Tracker
  import opened Advance
  import opened Deps
  import opened Branches
  import opened Lifecycle
  import opened Safety
  import R = RollUp
  import G = Git

  ghost predicate NewEventOk(w: World, ev: Event) {
    match ev
    case Scheduled(id, _, seen) => id in w.mirror && seen == w.mirror[id].thread
    case Closed(id, tip) => id in w.born && w.git.At(BranchOf(id, w.born[id])) <= tip
    case _ => true
  }

  /** What one step, from a world that satisfies the invariant, does at most. */
  ghost predicate Moves(w: World, v: World) {
    && Inv(v) && v.cfg == w.cfg && v.primary == w.primary
    && w.log <= v.log && G.Grows(w.git, v.git) && Among(w.born, v.born)
    && (forall k :: |w.log| <= k < |v.log| ==> NewEventOk(w, v.log[k]))
  }

  // ----- carrying the invariant over writes

  lemma HistoryGrows(cfg: Config, posts: R.Posts, posts': R.Posts, log: Log)
    requires History(cfg, posts, log) && Among(posts, posts')
    ensures History(cfg, posts', log)
  {
    forall k | 0 <= k < |log| ensures EventOk(cfg, posts', log, k) {
      assert EventOk(cfg, posts, log, k);
      if log[k].ImplementRan? {
        var id := log[k].id;
        LaidDownGrows(posts, posts', posts[id], posts'[id], log[..k], log[..k], log[k].base, log[k].base);
      }
    }
  }

  lemma HistoryExtends(cfg: Config, posts: R.Posts, log: Log, log': Log)
    requires History(cfg, posts, log) && log <= log'
    requires forall k :: |log| <= k < |log'| ==> EventOk(cfg, posts, log', k)
    ensures History(cfg, posts, log')
  {
    forall k | 0 <= k < |log'| ensures EventOk(cfg, posts, log', k) {
      if k < |log| {
        assert EventOk(cfg, posts, log, k);
        assert log[..k] == log'[..k] && log[k] == log'[k];
      }
    }
  }

  lemma BranchesGrow(w: World, v: World)
    requires BranchesLaidDown(w) && Among(w.born, v.born) && w.born.Keys == v.born.Keys
    requires w.log <= v.log && G.Kept(w.git, v.git)
    ensures BranchesLaidDown(v)
  {
    forall i: Id | i in v.born && v.born[i].tier == Issue && BranchOf(i, v.born[i]) in v.git.branches
      ensures LaidDown(v.born, v.born[i], v.log, v.git.At(BranchOf(i, v.born[i])))
    {
      var b := BranchOf(i, w.born[i]);
      assert SameFixed(w.born[i], v.born[i]) && w.git.At(b) <= v.git.At(b);
      LaidDownGrows(w.born, v.born, w.born[i], v.born[i], w.log, v.log, w.git.At(b), v.git.At(b));
    }
  }

  lemma JobGrows(w: World, v: World, j: Job)
    requires JobOk(w, j) && Among(w.born, v.born) && w.log <= v.log && G.Grows(w.git, v.git)
    ensures JobOk(v, j)
  {
    if j.WorkRun? && j.intent.Implement? {
      DepsClosedGrows(w.born, v.born, w.born[j.id], v.born[j.id], w.log, v.log);
    }
  }

  lemma JobsGrow(w: World, v: World)
    requires Among(w.born, v.born) && w.log <= v.log && G.Grows(w.git, v.git)
    requires v.work == w.work && v.results == w.results
    requires (forall j :: j in w.work ==> JobOk(w, j)) && (forall r :: r in w.results ==> ResultOk(w, r))
    ensures (forall j :: j in v.work ==> JobOk(v, j)) && (forall r :: r in v.results ==> ResultOk(v, r))
  {
    forall j | j in v.work ensures JobOk(v, j) { JobGrows(w, v, j); }
  }

  lemma FixedStays(w: World, v: World)
    requires Tame(w, v)
    ensures Among(w.born, v.born) && G.Grows(w.git, v.git)
  {
  }

  lemma BranchesStayKnown(w: World, v: World)
    requires BranchesKnown(w) && Among(w.born, v.born)
    requires forall b :: b in v.git.branches && EndsInNumber(b) ==> b in w.git.branches
    ensures BranchesKnown(v)
  {
    forall b | b in v.git.branches && EndsInNumber(b)
      ensures exists i: Id :: i in v.born && b == BranchOf(i, v.born[i])
    {
      var i: Id :| i in w.born && b == BranchOf(i, w.born[i]);
      assert SameFixed(w.born[i], v.born[i]);
    }
  }

  lemma TameMoves(w: World, v: World)
    requires Inv(w) && Tame(w, v) && Good(v) && TipsLanded(v.log, v.git, v.primary)
    requires forall k :: |w.log| <= k < |v.log| ==> EventOk(v.cfg, v.born, v.log, k) && NewEventOk(w, v.log[k])
    ensures Moves(w, v)
  {
    FixedStays(w, v);
    HistoryGrows(w.cfg, w.born, v.born, w.log);
    HistoryExtends(w.cfg, v.born, w.log, v.log);
    BranchesGrow(w, v);
    BranchesStayKnown(w, v);
    JobsGrow(w, v);
  }

  lemma TipsStayLanded(log: Log, g: G.State, h: G.State, primary: G.Branch)
    requires TipsLanded(log, g, primary) && G.Grows(g, h)
    ensures TipsLanded(log, h, primary)
  {
    assert g.At(primary) <= h.At(primary);
  }

  /** Writes that log nothing. */
  lemma QuietMoves(w: World, v: World)
    requires Inv(w) && Tame(w, v) && Good(v) && v.log == w.log
    ensures Moves(w, v)
  {
    TipsStayLanded(w.log, w.git, v.git, w.primary);
    TameMoves(w, v);
  }

  lemma LoggingMoves(w: World, ev: Event)
    requires Inv(w) && !ev.Closed? && NewEventOk(w, ev)
    requires EventOk(w.cfg, w.born, w.log + [ev], |w.log|)
    ensures Moves(w, w.(log := w.log + [ev]))
  {
    var v := w.(log := w.log + [ev]);
    LabelsGrow(w.posts, w.log, w.git, v.log, v.git);
    LabelsGrow(w.mirror, w.log, w.git, v.log, v.git);
    TameMoves(w, v);
  }

  lemma QueueMoves(w: World, work: seq<Job>, results: seq<Result>)
    requires Inv(w)
    requires (forall j :: j in work ==> JobOk(w, j)) && (forall r :: r in results ==> ResultOk(w, r))
    ensures Moves(w, w.(work := work, results := results))
  {
    var v := w.(work := work, results := results);
    forall j | j in work ensures JobOk(v, j) { JobGrows(w, v, j); }
  }

  lemma MovesTransitive(u: World, v: World, w: World)
    requires Moves(u, v) && Moves(v, w)
    requires v.mirror == u.mirror
    requires forall k :: |v.log| <= k < |w.log| ==> !w.log[k].Closed?
    ensures Moves(u, w)
  {
    forall i: Id | i in u.born ensures i in w.born && SameFixed(u.born[i], w.born[i]) {
      assert SameFixed(u.born[i], v.born[i]) && SameFixed(v.born[i], w.born[i]);
    }
    forall b ensures u.git.At(b) <= w.git.At(b) { assert u.git.At(b) <= v.git.At(b) <= w.git.At(b); }
    forall k | |u.log| <= k < |w.log| ensures NewEventOk(u, w.log[k]) {
      if k < |v.log| { assert w.log[k] == v.log[k]; } else { assert NewEventOk(v, w.log[k]); }
    }
  }

  lemma QueueThenMoves(w: World, w1: World, v: World)
    requires w1 == w.(work := w1.work, results := w1.results) && Moves(w1, v)
    ensures Moves(w, v)
  {
    forall k | |w.log| <= k < |v.log| ensures NewEventOk(w, v.log[k]) { assert NewEventOk(w1, v.log[k]); }
  }

  lemma DropKeeps<T>(s: seq<T>, k: nat)
    requires k < |s|
    ensures forall x :: x in Drop(s, k) ==> x in s
  {
  }

  // ----- control events and digested results

  lemma ScheduleGateMoves(w: World, id: Id, e: Tracker.Post, t: Transition)
    requires Inv(w) && id in w.mirror && w.mirror[id] == e
    requires t.merge && !w.cfg.mergeToPrimary ==> Signed(w.cfg, id, e.thread)
    ensures Moves(w, ScheduleGate(w, id, e, t))
    ensures forall k :: |w.log| <= k < |ScheduleGate(w, id, e, t).log| ==> ScheduleGate(w, id, e, t).log[k].Scheduled?
  {
    var ev := Scheduled(id, t.merge, e.thread);
    var w1 := w.(log := w.log + [ev]);
    LoggingMoves(w, ev);
    assert ev in w1.log;
    var work := w.work + [GateJob(id, t.prepare, t.merge, e.thread)];
    forall j | j in work ensures JobOk(w1, j) {
      if j !in w.work { assert j == GateJob(id, t.prepare, t.merge, e.thread); }
    }
    QueueMoves(w1, work, w1.results);
    MovesTransitive(w, w1, w1.(work := work));
    QuietMoves(w, w);
  }

  lemma WritesMove(w: World, id: Id, e: Tracker.Post, t: Transition, mayReview: bool)
    requires Inv(w) && id in w.mirror && w.mirror[id] == e
    requires Restrained(t, e.tier, mayReview) && (mayReview ==> BranchOf(id, e) in w.git.branches)
    ensures var v := ApplyWrites(w, id, e, t.writes);
            Moves(w, v) && v.mirror == w.mirror && v.log == w.log && v.git == w.git
  {
    BranchSeen(w, id);
    WritesAreTame(w, id, e, t.writes);
    QuietMoves(w, ApplyWrites(w, id, e, t.writes));
  }

  lemma ResolveMoves(w: World, id: Id, e: Tracker.Post, t: Transition, mayReview: bool)
    requires Inv(w) && id in w.mirror && w.mirror[id] == e
    requires Restrained(t, e.tier, mayReview) && (mayReview ==> BranchOf(id, e) in w.git.branches)
    requires t.merge && !w.cfg.mergeToPrimary ==> Signed(w.cfg, id, e.thread)
    ensures Moves(w, Resolve(w, id, e, t))
  {
    var w1 := ApplyWrites(w, id, e, t.writes);
    WritesMove(w, id, e, t, mayReview);
    ScheduleGateMoves(w1, id, e, t);
    MovesTransitive(w, w1, ScheduleGate(w1, id, e, t));
  }

  lemma ScheduleRunMoves(w: World, id: Id, intent: Intent)
    requires Inv(w) && JobOk(w, WorkRun(id, intent))
    ensures Moves(w, ScheduleRun(w, id, intent))
  {
    QueueMoves(w, w.work + [WorkRun(id, intent)], w.results);
    QuietMoves(w, w);
  }

  /** Once every dependency reads `done`, every issue among them has been closed. */
  lemma ClearGateMeansClosed(w: World, e: Tracker.Post)
    requires Inv(w)
    requires Select(w.mirror, Enforced(w.mirror, e), Cancelled) == []
               && Select(w.mirror, Enforced(w.mirror, e), Waiting) == []
    ensures DepsClosed(w.born, e, w.log)
  {
    ClearsTheGateIff(w.mirror, e);
    forall d: Id | Num(d) in e.deps ensures d in w.born && (w.born[d].tier == Issue ==> WasClosed(w.log, d)) {
      assert Num(d) in e.deps + ParentRefs(w.mirror, e);
      assert DepStatus(w.mirror, d) == Some(Done);
      assert d in w.mirror && SameFixed(w.mirror[d], w.born[d]) && Done in w.mirror[d].labels;
    }
  }

  lemma AssignedIsTame(w: World, id: Id, e: Tracker.Post)
    requires Good(w)
    ensures var v := Assigned(w, id, e); Tame(w, v) && Good(v) && v.log == w.log
  {
    var v := Assigned(w, id, e);
    if v != w {
      NoNewTokens(w.posts, v.posts, w.apr);
      PostWriteIsTame(w, v, id);
    }
  }

  lemma FlagMoves(w: World, w1: World, id: Id, e: Tracker.Post, s: Status, n: Note)
    requires Inv(w) && Tame(w, w1) && Good(w1) && w1.log == w.log && s != Done && s != InReview
    ensures Moves(w, SayNote(SetLabel(w1, id, e, s), id, n))
  {
    var w2 := SetLabel(w1, id, e, s);
    SetLabelIsTame(w1, id, e, s);
    SayIsTame(w2, id, n);
    TameTransitive(w, w1, w2);
    TameTransitive(w, w2, SayNote(w2, id, n));
    QuietMoves(w, SayNote(w2, id, n));
  }

  lemma ClearedStartMoves(w: World, w1: World, id: Id, e: Tracker.Post)
    requires Inv(w) && id in w.mirror && w.mirror[id] == e && e.tier == Issue
    requires Tame(w, w1) && Good(w1) && w1.log == w.log
    requires Select(w.mirror, Enforced(w.mirror, e), Cancelled) == []
               && Select(w.mirror, Enforced(w.mirror, e), Waiting) == []
    ensures Moves(w, ScheduleRun(w1, id, Implement))
  {
    QuietMoves(w, w1);
    ClearGateMeansClosed(w, e);
    DepsClosedGrows(w.born, w1.born, e, w1.born[id], w.log, w1.log);
    assert SameFixed(w.born[id], w1.born[id]);
    ScheduleRunMoves(w1, id, Implement);
    MovesTransitive(w, w1, ScheduleRun(w1, id, Implement));
  }

  lemma StartMoves(w: World, id: Id)
    requires Inv(w) && id in w.mirror && w.mirror[id].tier == Issue
    ensures Moves(w, StartIssue(w, id, w.mirror[id]))
  {
    var e := w.mirror[id];
    var v := StartIssue(w, id, e);
    var w1 := Assigned(w, id, e);
    AssignedIsTame(w, id, e);
    if v == SayNote(SetLabel(w1, id, e, AwaitingApproval), id, AskGate) {
      FlagMoves(w, w1, id, e, AwaitingApproval, AskGate);
    } else if v == SayNote(SetLabel(w1, id, e, Blocked), id, Ack) {
      FlagMoves(w, w1, id, e, Blocked, Ack);
    } else if v == w {
      QuietMoves(w, w);
    } else if v == w1 {
      QuietMoves(w, w1);
    } else {
      ClearedStartMoves(w, w1, id, e);
    }
  }

  lemma DecisionMoves(w: World, id: Id, action: Action)
    requires Inv(w) && id in w.mirror
    requires var s := StatusOf(w.mirror[id]);
             s == Some(AwaitingApproval) || s == Some(AwaitingMerge) || s == Some(Blocked)
    ensures Moves(w, Control(w, id, action))
  {
    var e := w.mirror[id];
    var stale, posted := IsStale(w, id, e), OptionsPosted(w, id);
    ResolutionsAreRestrained(w.cfg, id, e, action, stale, posted);
    if !w.cfg.mergeToPrimary { MergeNeedsSignature(w.cfg, id, e, action, stale, posted); }
    if StatusOf(e) == Some(AwaitingApproval) {
      ResolveMoves(w, id, e, ResolveApproval(w.cfg, id, e, action, stale, posted), false);
    } else if StatusOf(e) == Some(AwaitingMerge) {
      ResolveMoves(w, id, e, ResolveAwaitingMerge(w.cfg, id, e, action, stale), false);
    } else {
      ResolveMoves(w, id, e, ResolveBlocked(w.cfg, id, e, action, stale), false);
    }
  }

  lemma IdleMoves(w: World, id: Id, action: Action)
    requires Inv(w) && Control(w, id, action) == w
    ensures Moves(w, Control(w, id, action))
  {
    QuietMoves(w, w);
  }

  lemma WorkEventMoves(w: World, id: Id, action: Action)
    requires Inv(w) && id in w.mirror && !w.mirror[id].draft && !IsStale(w, id, w.mirror[id])
    requires var s := StatusOf(w.mirror[id]);
             s != Some(AwaitingApproval) && s != Some(AwaitingMerge) && s != Some(Blocked)
    ensures Moves(w, Control(w, id, action))
  {
    var s := StatusOf(w.mirror[id]);
    if w.mirror[id].tier == Issue && (s == None || s == Some(Todo)) {
      StartMoves(w, id);
    } else if s == Some(InReview) {
      ReviewMoves(w, id);
    } else {
      IdleMoves(w, id, action);
    }
  }

  lemma ControlMoves(w: World, id: Id, action: Action)
    requires Inv(w)
    ensures Moves(w, Control(w, id, action))
  {
    if id !in w.mirror {
      IdleMoves(w, id, action);
    } else {
      var s := StatusOf(w.mirror[id]);
      if s == Some(AwaitingApproval) || s == Some(AwaitingMerge) || s == Some(Blocked) {
        DecisionMoves(w, id, action);
      } else if w.mirror[id].draft || IsStale(w, id, w.mirror[id]) {
        IdleMoves(w, id, action);
      } else {
        WorkEventMoves(w, id, action);
      }
    }
  }

  lemma ReviewMoves(w: World, id: Id)
    requires Inv(w) && id in w.mirror && StatusOf(w.mirror[id]) == Some(InReview)
    ensures Moves(w, ScheduleRun(w, id, Review))
  {
    assert InReview in w.mirror[id].labels;
    assert SameFixed(w.mirror[id], w.born[id]);
    ScheduleRunMoves(w, id, Review);
  }

  lemma ReportMoves(w: World, r: Result, bounce: bool)
    requires Inv(w) && ResultOk(w, r) && r.id in w.mirror && (r.intent.Implement? <==> r.report.Implemented?)
    ensures var e := w.mirror[r.id];
            var t := if r.intent.Implement? then AfterImplement(w.cfg, e, r.report)
                else AfterReview(w.cfg, e, r.report);
            var w1 := if bounce then w.(log := w.log + [Bounced(r.id)]) else w;
            Moves(w, Resolve(w1, r.id, e, t))
  {
    var e := w.mirror[r.id];
    var t := if r.intent.Implement? then AfterImplement(w.cfg, e, r.report) else AfterReview(w.cfg, e, r.report);
    var w1 := if bounce then w.(log := w.log + [Bounced(r.id)]) else w;
    BranchSeen(w, r.id);
    ReportsAreRestrained(w.cfg, e, r.report);
    if !w.cfg.mergeToPrimary { MergeNeedsSignature(w.cfg, r.id, e, OtherEvent, false, false); }
    if bounce { LoggingMoves(w, Bounced(r.id)); } else { QuietMoves(w, w); }
    ResolveMoves(w1, r.id, e, t, r.intent.Implement?);
    ResolveLogs(w1, r.id, e, t);
    MovesTransitive(w, w1, Resolve(w1, r.id, e, t));
  }

  lemma DigestMoves(w: World, k: nat)
    requires Inv(w) && Legal(w, DigestStep(k))
    ensures Moves(w, Digest(w, k))
  {
    var r := w.results[k];
    var w1 := w.(results := Drop(w.results, k));
    DropKeeps(w.results, k);
    QueueMoves(w, w.work, w1.results);
    if r.id in w.mirror && !IsStale(w, r.id, w.mirror[r.id]) {
      assert ResultOk(w, r);
      ReportMoves(w1, r, r.intent.Review? && SetStatus(Todo) in AfterReview(w.cfg, w.mirror[r.id], r.report).writes);
      QueueThenMoves(w, w1, Digest(w, k));
    }
  }

  lemma {:induction false} WritesLogNothing(w: World, id: Id, e: Tracker.Post, writes: seq<Write>)
    ensures ApplyWrites(w, id, e, writes).log == w.log
    decreases |writes|
  {
    if writes != [] { WritesLogNothing(ApplyWrite(w, id, e, writes[0]), id, e, writes[1..]); }
  }

  lemma ResolveLogs(w: World, id: Id, e: Tracker.Post, t: Transition)
    ensures var v := Resolve(w, id, e, t); w.log <= v.log && forall k :: |w.log| <= k < |v.log| ==> v.log[k].Scheduled?
  {
    WritesLogNothing(w, id, e, t.writes);
  }

  // ----- agent runs

  lemma BranchIsNotPrimary(w: World, i: Id)
    requires Shape(w) && i in w.born
    ensures BranchOf(i, w.born[i]) != w.primary
  {
    OtherBranchesAreNotIssues(w.primary, w.born[i].title, i);
  }

  lemma ForkLaysDown(w: World, id: Id, v: World)
    requires Inv(w) && id in w.born && JobOk(w, WorkRun(id, Implement))
    requires var b := BranchOf(id, w.born[id]);
             && b !in w.git.branches && b != w.primary
             && v == w.(git := w.git.(branches := w.git.branches[b := w.git.At(w.primary)], head := b))
    ensures BranchesLaidDown(v) && BranchesKnown(v)
  {
    forall i: Id | i in v.born && v.born[i].tier == Issue && BranchOf(i, v.born[i]) in v.git.branches
      ensures LaidDown(v.born, v.born[i], v.log, v.git.At(BranchOf(i, v.born[i])))
    {
      if BranchOf(i, v.born[i]) == BranchOf(id, w.born[id]) {
        BranchNameInjective(v.born[i].title, i, v.born[id].title, id);
        ClosedIsWithinPrimary(w, w.born[id], w.git.At(w.primary));
      }
    }
  }

  lemma ForkMoves(w: World, id: Id, v: World)
    requires Inv(w) && id in w.born && JobOk(w, WorkRun(id, Implement))
    requires var b := BranchOf(id, w.born[id]);
             && b !in w.git.branches && b != w.primary
             && v == w.(git := w.git.(branches := w.git.branches[b := w.git.At(w.primary)], head := b))
             && w.git.merging.None?
    ensures Moves(w, v)
  {
    ForkLaysDown(w, id, v);
    ForkGrows(w.git, v.git, BranchOf(id, w.born[id]), w.git.At(w.primary));
    GrownIsGood(w, v.git);
    JobsGrow(w, v);
  }

  lemma ForkGrows(g: G.State, h: G.State, b: G.Branch, base: set<G.Commit>)
    requires g.Valid() && b !in g.branches && (forall c :: c in base ==> c < g.next)
    requires h == g.(branches := g.branches[b := base], head := b)
    ensures h.Valid() && G.Grows(g, h)
  {
  }

  lemma GrownIsGood(w: World, g: G.State)
    requires Good(w) && TipsLanded(w.log, w.git, w.primary) && g.Valid() && G.Grows(w.git, g)
    ensures Good(w.(git := g)) && TipsLanded(w.log, g, w.primary)
  {
    LabelsGrow(w.posts, w.log, w.git, w.log, g);
    LabelsGrow(w.mirror, w.log, w.git, w.log, g);
    TipsStayLanded(w.log, w.git, g, w.primary);
  }

  lemma EnsureMoves(w: World, j: Job, allowed: bool)
    requires Inv(w) && j.WorkRun? && JobOk(w, j)
    ensures var b := BranchOf(j.id, w.born[j.id]);
            var (g, ok) := G.EnsureOnBranch(w.git, b, w.primary, allowed);
            Moves(w, w.(git := g)) && (ok ==> b in g.branches)
  {
    var b := BranchOf(j.id, w.born[j.id]);
    var (g, ok) := G.EnsureOnBranch(w.git, b, w.primary, allowed);
    BranchIsNotPrimary(w, j.id);
    if b !in w.git.branches && ok {
      ForkMoves(w, j.id, w.(git := g));
    } else {
      G.CheckoutKeeps(w.git, b, allowed);
      GitIsTame(w, g);
      QuietMoves(w, w.(git := g));
    }
  }

  lemma RanMoves(w: World, id: Id)
    requires Inv(w) && id in w.born && w.born[id].tier == Issue && BranchOf(id, w.born[id]) in w.git.branches
    ensures Moves(w, w.(log := w.log + [ImplementRan(id, w.git.At(BranchOf(id, w.born[id])))]))
  {
    var ev := ImplementRan(id, w.git.At(BranchOf(id, w.born[id])));
    assert (w.log + [ev])[..|w.log|] == w.log;
    LoggingMoves(w, ev);
  }

  lemma CommitMoves(w: World, how: G.Commits, committing: bool, back: bool)
    requires Inv(w)
    ensures Moves(w, w.(git := G.Checkout(if committing then G.CommitAll(w.git, how) else w.git, w.primary, back).0))
  {
    var g := if committing then G.CommitAll(w.git, how) else w.git;
    G.CommitKeeps(w.git, how);
    G.CheckoutKeeps(g, w.primary, back);
    var h := G.Checkout(g, w.primary, back).0;
    KeptTransitive(w.git, g, h);
    GitIsTame(w, h);
    QuietMoves(w, w.(git := h));
  }

  lemma WorkMoves(w: World, j: Job, toBranch: bool, how: G.Commits, back: bool)
    requires Inv(w) && j.WorkRun? && JobOk(w, j)
    requires G.EnsureOnBranch(w.git, BranchOf(j.id, w.born[j.id]), w.primary, toBranch).1
    ensures var b := BranchOf(j.id, w.born[j.id]);
            var v := WorkOn(w, j, G.EnsureOnBranch(w.git, b, w.primary, toBranch).0, how, back);
            Moves(w, v) && b in v.git.branches
  {
    var b := BranchOf(j.id, w.born[j.id]);
    EnsureMoves(w, j, toBranch);
    var w1 := w.(git := G.EnsureOnBranch(w.git, b, w.primary, toBranch).0);
    WorkOnMoves(w1, j, how, back);
    MovesTransitive(w, w1, WorkOn(w1, j, w1.git, how, back));
  }

  lemma WorkOnMoves(w: World, j: Job, how: G.Commits, back: bool)
    requires Inv(w) && j.WorkRun? && j.id in w.born && w.git.head == BranchOf(j.id, w.born[j.id])
    requires j.intent.Implement? ==> w.born[j.id].tier == Issue
    ensures Moves(w, WorkOn(w, j, w.git, how, back)) && WorkOn(w, j, w.git, how, back).mirror == w.mirror
    ensures forall k :: |w.log| <= k < |WorkOn(w, j, w.git, how, back).log| ==>
              !WorkOn(w, j, w.git, how, back).log[k].Closed?
    ensures w.git.branches.Keys <= WorkOn(w, j, w.git, how, back).git.branches.Keys
  {
    if j.intent.Implement? {
      RanMoves(w, j.id);
      var w1 := w.(log := w.log + [ImplementRan(j.id, w.git.At(w.git.head))]);
      CommitMoves(w1, how, true, back);
      MovesTransitive(w, w1, WorkOn(w, j, w.git, how, back));
    } else {
      CommitMoves(w, how, false, back);
    }
  }

  lemma HandInMoves(w: World, ran: World, k: nat, failed: bool, end: AgentEnd, again: bool)
    requires Moves(w, ran) && ran.mirror == w.mirror && k < |ran.work| && ran.work[k].WorkRun?
    requires var id := ran.work[k].id; id in ran.born && BranchOf(id, ran.born[id]) in ran.git.branches
    ensures Moves(w, HandIn(ran, k, failed, end, again))
  {
    var v := HandIn(ran, k, failed, end, again);
    DropKeeps(ran.work, k);
    forall r | r in v.results ensures ResultOk(ran, r) {}
    QueueMoves(ran, v.work, v.results);
    MovesTransitive(w, ran, v);
  }

  lemma BranchSeen(w: World, id: Id)
    requires Shape(w) && id in w.mirror
    ensures id in w.born && BranchOf(id, w.mirror[id]) == BranchOf(id, w.born[id])
    ensures w.born[id].tier == w.mirror[id].tier
  {
    assert SameFixed(w.mirror[id], w.born[id]);
  }

  lemma FreshRunMoves(w: World, s: Step)
    requires Inv(w) && s.AgentStep? && Legal(w, s)
    requires var j := w.work[s.k];
             && j.id in w.mirror && !IsStale(w, j.id, w.mirror[j.id])
             && G.EnsureOnBranch(w.git, BranchOf(j.id, w.mirror[j.id]), w.primary, s.toBranch).1
    ensures Moves(w, Take(w, s))
  {
    var j := w.work[s.k];
    BranchSeen(w, j.id);
    WorkMoves(w, j, s.toBranch, s.how, s.back);
    var ran := WorkOn(w, j, G.EnsureOnBranch(w.git, BranchOf(j.id, w.mirror[j.id]), w.primary, s.toBranch).0, s.how,
        s.back);
    HandInMoves(w, ran, s.k, j.intent.Implement? && s.how.CommitFailed?, s.end, s.again);
  }

  lemma AgentMoves(w: World, s: Step)
    requires Inv(w) && s.AgentStep? && Legal(w, s)
    ensures Moves(w, Take(w, s))
  {
    var j := w.work[s.k];
    DropKeeps(w.work, s.k);
    if j.id !in w.mirror || IsStale(w, j.id, w.mirror[j.id]) {
      QueueMoves(w, Drop(w.work, s.k), w.results);
    } else if G.EnsureOnBranch(w.git, BranchOf(j.id, w.mirror[j.id]), w.primary, s.toBranch).1 {
      FreshRunMoves(w, s);
    } else if s.again {
      QuietMoves(w, w);
    } else {
      QueueMoves(w, Drop(w.work, s.k), w.results);
    }
  }

  // ----- gate jobs

  lemma LandedEventsOk(w: World, v: World, id: Id, seen: Thread)
    requires id in w.born && Scheduled(id, true, seen) in w.log
    requires v.log == w.log + [Landed(id, seen), Closed(id, w.git.At(BranchOf(id, w.born[id])))]
    ensures forall k :: |w.log| <= k < |v.log| ==> EventOk(v.cfg, v.born, v.log, k) && NewEventOk(w, v.log[k])
  {
    var n := |w.log|;
    assert v.log[..n] == w.log && v.log[n].Landed? && v.log[n + 1].Closed?;
    assert EventOk(v.cfg, v.born, v.log, n) && EventOk(v.cfg, v.born, v.log, n + 1);
  }

  lemma TipsLandOn(log: Log, log': Log, g: G.State, h: G.State, primary: G.Branch, id: Id, seen: Thread,
                   tip: set<G.Commit>)
    requires TipsLanded(log, g, primary) && G.Grows(g, h)
    requires log' == log + [Landed(id, seen), Closed(id, tip)] && tip <= h.At(primary)
    ensures TipsLanded(log', h, primary)
  {
    TipsStayLanded(log, g, h, primary);
  }

  lemma LandedMoves(w: World, v: World, id: Id, seen: Thread)
    requires Inv(w) && Tame(w, v) && Good(v) && id in w.born && Scheduled(id, true, seen) in w.log
    requires var tip := w.git.At(BranchOf(id, w.born[id]));
             v.log == w.log + [Landed(id, seen), Closed(id, tip)] && tip <= v.git.At(v.primary)
    ensures Moves(w, v)
  {
    LandedEventsOk(w, v, id, seen);
    TipsLandOn(w.log, v.log, w.git, v.git, w.primary, id, seen, w.git.At(BranchOf(id, w.born[id])));
    TameMoves(w, v);
  }

  lemma MergeMoves(w: World, id: Id, luck: Luck, lucks: Lucks, seen: Thread)
    requires Inv(w) && id in w.mirror && Scheduled(id, true, seen) in w.log
    ensures Moves(w, MergeBranch(w, id, w.mirror[id], luck, lucks, seen))
  {
    var e := w.mirror[id];
    var v := MergeBranch(w, id, e, luck, lucks, seen);
    assert SameFixed(e, w.born[id]);
    BranchIsNotPrimary(w, id);
    MergeIsTame(w, id, e, luck, lucks, seen);
    if v.log == w.log { QuietMoves(w, v); } else { LandedMoves(w, v, id, seen); }
  }

  lemma GateMoves(w: World, k: nat, luck: Luck, lucks: Lucks)
    requires Inv(w) && k < |w.work| && w.work[k].GateJob?
    ensures Moves(w, RunGate(w, k, luck, lucks))
  {
    var j := w.work[k];
    var w1 := w.(work := Drop(w.work, k));
    DropKeeps(w.work, k);
    QueueMoves(w, w1.work, w.results);
    assert JobOk(w, j);
    if j.id in w.mirror && (j.prepare || j.merge) {
      JobRunMoves(w1, j, luck, lucks);
      QueueThenMoves(w, w1, RunGate(w, k, luck, lucks));
    }
  }

  lemma JobRunMoves(w: World, j: Job, luck: Luck, lucks: Lucks)
    requires Inv(w) && j.GateJob? && j.id in w.mirror && (j.prepare || j.merge) && JobOk(w, j)
    ensures var e := w.mirror[j.id];
            var (w2, ok) := Ready(w, j.id, e, luck);
            Moves(w, if !j.prepare then MergeBranch(w, j.id, e, luck, lucks, j.seen) else if !ok then w2
                     else if j.merge then MergeBranch(w2, j.id, e, luck, lucks, j.seen) else OpenGate(w2, j.id, e))
  {
    var e := w.mirror[j.id];
    var (w2, ok) := Ready(w, j.id, e, luck);
    ReadyIsTame(w, j.id, e, luck);
    QuietMoves(w, w2);
    if !j.prepare {
      MergeMoves(w, j.id, luck, lucks, j.seen);
    } else if ok && j.merge {
      MergeMoves(w2, j.id, luck, lucks, j.seen);
      AfterReadyMoves(w, w2, MergeBranch(w2, j.id, e, luck, lucks, j.seen));
    } else if ok {
      OpenGateIsTame(w2, j.id, e);
      QuietMoves(w2, OpenGate(w2, j.id, e));
      MovesTransitive(w, w2, OpenGate(w2, j.id, e));
    }
  }

  /** Readying a branch only grows it, so a tip that contains the readied branch contains the old one. */
  lemma AfterReadyMoves(w: World, w2: World, v: World)
    requires Moves(w, w2) && Moves(w2, v) && w2.mirror == w.mirror && w2.born.Keys == w.born.Keys && w2.log == w.log
    ensures Moves(w, v)
  {
    forall i: Id | i in w.born ensures i in v.born && SameFixed(w.born[i], v.born[i]) {
      assert SameFixed(w.born[i], w2.born[i]) && SameFixed(w2.born[i], v.born[i]);
    }
    forall b ensures w.git.At(b) <= v.git.At(b) { assert w.git.At(b) <= w2.git.At(b) <= v.git.At(b); }
    forall k | |w.log| <= k < |v.log| ensures NewEventOk(w, v.log[k]) {
      assert NewEventOk(w2, v.log[k]);
      if v.log[k].Closed? {
        var i := v.log[k].id;
        assert SameFixed(w.born[i], w2.born[i]);
        var b := BranchOf(i, w.born[i]);
        assert w.git.At(b) <= w2.git.At(b);
      }
    }
  }

  // ----- sync and people

  /** Gone from the tracker, or closed there and still open in the mirror. */
  ghost predicate NewlyGone(w: World, i: Id) {
    i in w.mirror && (i in w.posts ==> !w.posts[i].open && w.mirror[i].open)
  }

  lemma {:induction false} KeepOpenFilters(w: World, work: seq<Job>)
    ensures forall j :: j in KeepOpen(w, work) <==> j in work && !NewlyGone(w, j.id)
  {
    if work != [] {
      assert work == work[..|work| - 1] + [work[|work| - 1]];
      KeepOpenFilters(w, work[..|work| - 1]);
    }
  }

  lemma {:induction false} KeepResultsFilters(w: World, results: seq<Result>)
    ensures |KeepResults(w, results)| <= |results|
    ensures forall r :: r in KeepResults(w, results) <==> r in results && !NewlyGone(w, r.id)
  {
    if results != [] {
      assert results == results[..|results| - 1] + [results[|results| - 1]];
      KeepResultsFilters(w, results[..|results| - 1]);
    }
  }

  lemma SyncMoves(w: World)
    requires Inv(w)
    ensures Moves(w, Sync(w))
  {
    KeepOpenFilters(w, w.work);
    KeepResultsFilters(w, w.results);
    QueueMoves(w, KeepOpen(w, w.work), KeepResults(w, w.results));
    var w1 := w.(work := KeepOpen(w, w.work), results := KeepResults(w, w.results));
    assert Sync(w) == w1.(mirror := w1.posts);
    forall j | j in w1.work ensures JobOk(w1.(mirror := w1.posts), j) { JobGrows(w1, w1.(mirror := w1.posts), j); }
  }

  /** A person changes one post without touching what is fixed. */
  lemma EditMoves(w: World, id: Id, v: World)
    requires Inv(w) && id in w.posts && id in v.posts && v == w.(posts := w.posts[id := v.posts[id]])
    requires SameFixed(w.posts[id], v.posts[id]) && HandWritable(v.posts[id].labels, w.posts[id].labels)
    requires TokensOk(v.posts, v.apr)
    ensures Moves(w, v)
  {
    PostWriteIsTame(w, v, id);
    QuietMoves(w, v);
  }

  /** With one comment gone the later ones move up, and still no number stands twice. */
  lemma DeletingKeepsTokens(posts: R.Posts, posts': R.Posts, apr: nat, id: Id, at: nat)
    requires TokensOk(posts, apr) && id in posts && at < |posts[id].thread|
    requires posts' == posts[id := posts[id].(thread := Drop(posts[id].thread, at))]
    ensures TokensOk(posts', apr)
  {
    forall i: Id, k: nat, n: nat | Bears(posts', i, k, n)
      ensures Bears(posts, i, if i == id && k >= at then k + 1 else k, n)
    {}
  }

  lemma PushGrows(g: G.State, h: G.State, b: G.Branch, commits: set<G.Commit>)
    requires g.Valid() && g.next <= h.next && forall c :: c in commits ==> c < h.next
    requires h == g.(branches := g.branches[b := g.At(b) + commits], next := h.next)
    ensures h.Valid() && G.Grows(g, h)
  {
  }

  lemma PushMoves(w: World, b: G.Branch, commits: set<G.Commit>, next: G.Commit)
    requires Inv(w) && Legal(w, HumanPush(b, commits, next))
    ensures Moves(w, Take(w, HumanPush(b, commits, next)))
  {
    var v := Take(w, HumanPush(b, commits, next));
    PushGrows(w.git, v.git, b, commits);
    GrownIsGood(w, v.git);
    BranchesStayKnown(w, v);
    JobsGrow(w, v);
    forall i: Id | i in v.born && v.born[i].tier == Issue && BranchOf(i, v.born[i]) in v.git.branches
      ensures LaidDown(v.born, v.born[i], v.log, v.git.At(BranchOf(i, v.born[i])))
    {
      OtherBranchesAreNotIssues(w.primary, w.born[i].title, i);
      var c := BranchOf(i, w.born[i]);
      assert w.git.At(c) <= v.git.At(c);
      LaidDownGrows(w.born, v.born, w.born[i], v.born[i], w.log, v.log, w.git.At(c), v.git.At(c));
    }
  }

  lemma NewPostMintsNothing(posts: R.Posts, apr: nat, id: Id, p: Tracker.Post)
    requires TokensOk(posts, apr) && id !in posts && forall c :: c in p.thread ==> !c.platform
    ensures TokensOk(posts[id := p], apr)
  {
    assert forall k :: 0 <= k < |p.thread| ==> p.thread[k] in p.thread && !p.thread[k].platform;
    forall i: Id, k: nat, n: nat | Bears(posts[id := p], i, k, n) ensures Bears(posts, i, k, n) {}
    NoNewTokens(posts, posts[id := p], apr);
  }

  lemma NewPostLabelsOk(posts: R.Posts, log: Log, g: G.State, id: Id, p: Tracker.Post)
    requires LabelsOk(posts, log, g) && HandWritable(p.labels, [])
    ensures LabelsOk(posts[id := p], log, g)
  {
  }

  lemma NewPostIsGood(w: World, id: Id, p: Tracker.Post)
    requires Inv(w) && Legal(w, NewPost(id, p))
    ensures Good(Take(w, NewPost(id, p))) && Among(w.born, w.born[id := p])
  {
    NewPostMintsNothing(w.posts, w.apr, id, p);
    NewPostLabelsOk(w.posts, w.log, w.git, id, p);
    AmongGrows(w.posts, w.born, id, p);
    AmongGrows(w.mirror, w.born, id, p);
    AmongGrows(w.born, w.born, id, p);
  }

  lemma AmongGrows(a: R.Posts, b: R.Posts, id: Id, p: Tracker.Post)
    requires Among(a, b) && id !in b
    ensures Among(a, b[id := p]) && Among(a[id := p], b[id := p]) && id !in a
  {
  }

  /** Ids are never shared, so a new post finds no branch of its own yet. */
  lemma NewPostHasNoBranch(w: World, id: Id, p: Tracker.Post)
    requires Inv(w) && Legal(w, NewPost(id, p))
    ensures BranchOf(id, p) !in w.git.branches
  {
    OtherBranchesAreNotIssues(w.primary, p.title, id);
    if BranchOf(id, p) in w.git.branches {
      var i: Id :| i in w.born && BranchOf(id, p) == BranchOf(i, w.born[i]);
      BranchNameInjective(p.title, id, w.born[i].title, i);
    }
  }

  lemma NewPostMoves(w: World, id: Id, p: Tracker.Post)
    requires Inv(w) && Legal(w, NewPost(id, p))
    ensures Moves(w, Take(w, NewPost(id, p)))
  {
    var v := Take(w, NewPost(id, p));
    NewPostIsGood(w, id, p);
    NewPostHasNoBranch(w, id, p);
    HistoryGrows(w.cfg, w.born, v.born, w.log);
    BranchesStayKnown(w, v);
    JobsGrow(w, v);
    forall i: Id | i in v.born && v.born[i].tier == Issue && BranchOf(i, v.born[i]) in v.git.branches
      ensures LaidDown(v.born, v.born[i], v.log, v.git.At(BranchOf(i, v.born[i])))
    {
      assert i != id && v.born[i] == w.born[i];
      LaidDownGrows(w.born, v.born, v.born[i], v.born[i], w.log, w.log,
                    w.git.At(BranchOf(i, v.born[i])), w.git.At(BranchOf(i, v.born[i])));
    }
  }

  lemma FewerStayLinked(a: R.Posts, id: Id)
    requires R.WellLinked(a)
    ensures R.WellLinked(a - {id})
  {
    var b := a - {id};
    forall p: Id | p in b ensures
      && (b[p].tier == Issue && b[p].ticket.Some? && b[p].ticket.value in b ==> b[b[p].ticket.value].tier == Ticket)
      && (b[p].tier == Ticket && b[p].epic.Some? && b[p].epic.value in b ==> b[b[p].epic.value].tier == Epic)
    {
      assert p in a && b[p] == a[p];
    }
  }

  lemma DeletingPostIsGood(w: World, id: Id)
    requires Good(w) && id in w.posts
    ensures Good(w.(posts := w.posts - {id}))
  {
    var posts := w.posts - {id};
    forall i: Id, k: nat, n: nat | Bears(posts, i, k, n) ensures Bears(w.posts, i, k, n) {}
    NoNewTokens(w.posts, posts, w.apr);
    FewerStayLinked(w.posts, id);
    forall p: Id | p in posts ensures p in w.born && SameFixed(posts[p], w.born[p]) {
      assert p in w.posts && posts[p] == w.posts[p];
    }
  }

  /** A deleted post leaves the tracker; what is known of it stays. */
  lemma DeletePostMoves(w: World, id: Id)
    requires Inv(w) && id in w.posts
    ensures Moves(w, Take(w, HumanDeletePost(id)))
  {
    DeletingPostIsGood(w, id);
    JobsGrow(w, w.(posts := w.posts - {id}));
  }

  predicate Edits(s: Step) {
    || s.HumanComment? || s.HumanEditComment? || s.HumanDeleteComment? || s.HumanReact? || s.HumanReactOnPost?
    || s.HumanLabel? || s.HumanEdit?
  }

  lemma EditsKeepTokens(w: World, s: Step)
    requires TokensOk(w.posts, w.apr) && Legal(w, s) && Edits(s)
    ensures TokensOk(Take(w, s).posts, w.apr)
  {
    var v := Take(w, s);
    if s.HumanDeleteComment? {
      DeletingKeepsTokens(w.posts, v.posts, w.apr, s.id, s.k);
    } else {
      forall i: Id, k: nat, n: nat | Bears(v.posts, i, k, n) ensures Bears(w.posts, i, k, n) {
        assert i == s.id && s.HumanComment? ==> k < |w.posts[s.id].thread|;
      }
      NoNewTokens(w.posts, v.posts, w.apr);
    }
  }

  /** Such a step changes one post, and there only what is not fixed. */
  lemma EditsWriteOne(w: World, s: Step)
    requires Legal(w, s) && Edits(s)
    ensures var v := Take(w, s);
            && s.id in w.posts && s.id in v.posts && v == w.(posts := w.posts[s.id := v.posts[s.id]])
            && SameFixed(w.posts[s.id], v.posts[s.id])
            && HandWritable(v.posts[s.id].labels, w.posts[s.id].labels)
  {
  }

  lemma HumanMoves(w: World, s: Step)
    requires Inv(w) && Legal(w, s) && Edits(s)
    ensures Moves(w, Take(w, s))
  {
    EditsKeepTokens(w, s);
    EditsWriteOne(w, s);
    EditMoves(w, s.id, Take(w, s));
  }

  predicate ByPeople(s: Step) { Edits(s) || s.HumanDeletePost? || s.HumanPush? || s.NewPost? }

  lemma PeopleMove(w: World, s: Step)
    requires Inv(w) && Legal(w, s) && ByPeople(s)
    ensures Moves(w, Take(w, s))
  {
    if s.HumanPush? {
      PushMoves(w, s.branch, s.commits, s.next);
    } else if s.NewPost? {
      NewPostMoves(w, s.id, s.post);
    } else if s.HumanDeletePost? {
      DeletePostMoves(w, s.id);
    } else {
      HumanMoves(w, s);
    }
  }

  lemma LosingMoves(w: World, k: nat)
    requires Inv(w) && k < |w.work|
    ensures Moves(w, w.(work := Drop(w.work, k)))
  {
    DropKeeps(w.work, k);
    QueueMoves(w, Drop(w.work, k), w.results);
  }

  // ----- whole runs

  /** Every possible step keeps the invariant, loses no commit and rewrites no history. */
  lemma StepMoves(w: World, s: Step)
    requires Inv(w) && Legal(w, s)
    ensures Moves(w, Take(w, s))
  {
    if s.SyncStep? {
      SyncMoves(w);
    } else if s.ControlStep? {
      ControlMoves(w, s.id, s.action);
    } else if s.AgentStep? {
      AgentMoves(w, s);
    } else if s.DigestStep? {
      DigestMoves(w, s.k);
    } else if s.GateStep? {
      GateMoves(w, s.k, s.luck, s.lucks);
    } else if s.LoseJob? {
      LosingMoves(w, s.k);
    } else {
      PeopleMove(w, s);
    }
  }

  lemma InitIsGood(w: World)
    requires Init(w)
    ensures Inv(w)
  {
    forall i: Id, k: nat, n: nat ensures !Bears(w.posts, i, k, n) {
      if i in w.posts && k < |w.posts[i].thread| { assert w.posts[i].thread[k] in w.posts[i].thread; }
    }
    forall i: Id | i in w.posts ensures BranchOf(i, w.posts[i]) !in w.git.branches {
      OtherBranchesAreNotIssues(w.primary, w.posts[i].title, i);
    }
  }

  /** The invariant holds all along every run. */
  lemma {:induction false} RunsKeepInv(ws: seq<World>, steps: seq<Step>, k: nat)
    requires IsRun(ws, steps) && k < |ws|
    ensures Inv(ws[k]) && ws[k].cfg == ws[0].cfg && ws[k].primary == ws[0].primary
  {
    if k == 0 {
      InitIsGood(ws[0]);
    } else {
      RunsKeepInv(ws, steps, k - 1);
      assert StepAt(ws, steps, k - 1);
      StepMoves(ws[k - 1], steps[k - 1]);
    }
  }

  lemma RunMoves(ws: seq<World>, steps: seq<Step>, k: nat)
    requires IsRun(ws, steps) && k < |steps|
    ensures Moves(ws[k], ws[k + 1])
  {
    RunsKeepInv(ws, steps, k);
    assert StepAt(ws, steps, k);
    StepMoves(ws[k], steps[k]);
  }

  /** What happened stays in the log, no id is ever given to another post, and no branch loses a
      commit. */
  lemma {:induction false} RunsOnlyGrow(ws: seq<World>, steps: seq<Step>, m: nat, k: nat)
    requires IsRun(ws, steps) && m <= k < |ws|
    ensures ws[m].log <= ws[k].log && Among(ws[m].born, ws[k].born) && forall b :: ws[m].git.At(b) <= ws[k].git.At(b)
    decreases k
  {
    if m < k {
      RunsOnlyGrow(ws, steps, m, k - 1);
      RunMoves(ws, steps, k - 1);
      GrowthChains(ws[m], ws[k - 1], ws[k]);
    }
  }

  lemma GrowthChains(t: World, u: World, v: World)
    requires t.log <= u.log <= v.log && Among(t.born, u.born) && Among(u.born, v.born)
    requires (forall b :: t.git.At(b) <= u.git.At(b)) && forall b :: u.git.At(b) <= v.git.At(b)
    ensures t.log <= v.log && Among(t.born, v.born) && forall b :: t.git.At(b) <= v.git.At(b)
  {
    forall i: Id | i in t.born ensures i in v.born && SameFixed(t.born[i], v.born[i]) {
      assert SameFixed(t.born[i], u.born[i]) && SameFixed(u.born[i], v.born[i]);
    }
    forall b ensures t.git.At(b) <= v.git.At(b) { assert t.git.At(b) <= u.git.At(b) <= v.git.At(b); }
  }

  /** The step that logged event `n` of world `k`. */
  lemma {:induction false} LoggedAt(ws: seq<World>, steps: seq<Step>, k: nat, n: nat) returns (m: nat)
    requires IsRun(ws, steps) && k < |ws| && n < |ws[k].log|
    ensures m < k && |ws[m].log| <= n < |ws[m + 1].log| && NewEventOk(ws[m], ws[k].log[n])
    decreases k
  {
    assert k > 0;
    RunMoves(ws, steps, k - 1);
    if n < |ws[k - 1].log| { m := LoggedAt(ws, steps, k - 1, n); } else { m := k - 1; }
  }
}
