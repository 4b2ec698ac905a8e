/** The implement/review loop left to itself: control event, agent run, digest, again and again, until
    the issue waits for a person, is blocked, or a gate job lands or gates it. */
module Driving {
  import opened Basics
  import opened Tracker
  import opened Gates
  import opened Advance
  import opened Deps
  import opened Lifecycle
  import opened Safety
  import opened Runs
  import opened Sweeps
  import opened ReviewLoop
  import G = Git

  /** What the agent reports in round `n`, when implementing and when reviewing. */
  datatype Agent = Agent(implement: nat -> (Outcome, bool, seq<nat>), review: nat -> (bool, real, seq<nat>))

  function ReportOf(agent: Agent, n: nat, intent: Intent): Report {
    if intent.Implement? then Implemented(agent.implement(n).0, agent.implement(n).1, agent.implement(n).2)
    else Reviewed(agent.review(n).0, agent.review(n).1, agent.review(n).2)
  }

  // ----- one turn

  /** Nothing but the loop itself keeps the issue from being worked on. */
  ghost predicate Startable(w: World, id: Id)
    requires id in w.posts
  {
    var e := w.posts[id];
    && e.tier == Issue && !e.draft && (e.agentAssigned || w.cfg.autoAssign)
    && forall d: Id :: Num(d) in e.deps + ParentRefs(w.posts, e) ==> !Waiting(DepStatus(w.posts, d))
  }

  ghost predicate InLoop(w: World, id: Id) {
    && id in w.posts && Startable(w, id)
    && (StatusOf(w.posts[id]) == Some(Todo) || StatusOf(w.posts[id]) == Some(InReview))
    && !HasGateJob(w.work, id) && !HasWorkRun(w.work, id)
    && w.git.merging.None? && w.primary in w.git.branches
  }

  function RunOf(work: seq<Job>, id: Id): (k: nat)
    requires HasWorkRun(work, id)
    ensures k < |work| && work[k].WorkRun? && work[k].id == id
  {
    if work[0].WorkRun? && work[0].id == id then 0
    else
      assert forall j :: j in work ==> j == work[0] || j in work[1..];
      1 + RunOf(work[1..], id)
  }

  function Controlled(w: World, id: Id): World { Control(Sync(w), id, OtherEvent) }

  function AgentTurn(w: World, id: Id, agent: Agent, n: nat): Step
    requires HasWorkRun(w.work, id)
  {
    var k := RunOf(w.work, id);
    AgentStep(k, true, G.Committed, true, Finished(ReportOf(agent, n, w.work[k].intent)), false)
  }

  /** Sync, the control event, and if it scheduled a run, the run and the digest of its result. */
  ghost function TurnSteps(w: World, id: Id, agent: Agent, n: nat): seq<Step> {
    var u := Controlled(w, id);
    [SyncStep, ControlStep(id, OtherEvent)] +
    if HasWorkRun(u.work, id) then [AgentTurn(u, id, agent, n), DigestStep(|u.results|)] else []
  }

  ghost predicate Reaches(w: World, s: Step, v: World) { Legal(w, s) && v == Take(w, s) }

  /** Possible steps lead from `w` to `v`. */
  ghost predicate Leads(w: World, steps: seq<Step>, v: World)
    decreases |steps|
  {
    if steps == [] then v == w else Legal(w, steps[0]) && Leads(Take(w, steps[0]), steps[1..], v)
  }

  lemma {:induction false} LeadsOn(u: World, a: seq<Step>, v: World, b: seq<Step>, w: World)
    requires Leads(u, a, v) && Leads(v, b, w)
    ensures Leads(u, a + b, w)
    decreases |a|
  {
    if a == [] {
      assert a + b == b;
    } else {
      assert (a + b)[1..] == a[1..] + b;
      LeadsOn(Take(u, a[0]), a[1..], v, b, w);
    }
  }

  lemma {:induction false} LeadsKeepsInv(w: World, steps: seq<Step>, v: World)
    requires Inv(w) && Leads(w, steps, v)
    ensures Inv(v)
    decreases |steps|
  {
    if steps != [] {
      StepMoves(w, steps[0]);
      LeadsKeepsInv(Take(w, steps[0]), steps[1..], v);
    }
  }

  // ----- what the writes of a decision leave

  function Statuses(writes: seq<Write>): seq<Status> {
    if writes == [] then [] else (if writes[0].SetStatus? then [writes[0].status] else []) + Statuses(writes[1..])
  }

  function StatusIn(a: Write): seq<Status> { if a.SetStatus? then [a.status] else [] }

  lemma StatusesOfFew(a: Write, b: Write, c: Write)
    ensures Statuses([a]) == StatusIn(a)
    ensures Statuses([a, b]) == StatusIn(a) + StatusIn(b)
    ensures Statuses([a, b, c]) == StatusIn(a) + StatusIn(b) + StatusIn(c)
  {
    assert [a][1..] == [] && [b][1..] == [] && [c][1..] == [];
    assert [a, b][1..] == [b] && [b, c][1..] == [c] && [a, b, c][1..] == [b, c];
    assert Statuses([b]) == StatusIn(b) && Statuses([c]) == StatusIn(c);
    assert Statuses([b, c]) == StatusIn(b) + Statuses([c]);
  }

  /** The post as it was, but for its labels, thread and assignment. */
  predicate SameBut(a: Tracker.Post, b: Tracker.Post) {
    b == a.(labels := b.labels, thread := b.thread, agentAssigned := b.agentAssigned)
    && (a.agentAssigned ==> b.agentAssigned)
  }

  /** Everything but the post, its jobs, the tokens and the log is as it was. */
  predicate Elsewhere(w: World, v: World, id: Id) {
    && id in w.posts && id in v.posts && v.posts == w.posts[id := v.posts[id]] && SameBut(w.posts[id], v.posts[id])
    && v == w.(posts := v.posts, apr := v.apr, log := v.log, work := v.work)
  }

  lemma OneWritten(w: World, id: Id, e: Tracker.Post, write: Write)
    requires id in w.posts && !write.CloseDone?
    ensures var v := ApplyWrite(w, id, e, write);
            && Elsewhere(w, v, id) && v.work == w.work
            && v.posts[id].labels ==
               if write.Say? then w.posts[id].labels else Relabel(w.posts[id].labels, e.labels, write.status)
  {
  }

  /** Writes with at most one status in them leave the post with just that one, or as it was. */
  lemma {:induction false} StatusWritten(w: World, id: Id, e: Tracker.Post, writes: seq<Write>)
    requires id in w.posts && CloseDone !in writes
    requires |Statuses(writes)| == 0 || (|Statuses(writes)| == 1 && w.posts[id].labels == e.labels)
    ensures var v := ApplyWrites(w, id, e, writes);
            && Elsewhere(w, v, id) && v.work == w.work
            && v.posts[id].labels == if |Statuses(writes)| == 0 then w.posts[id].labels else Statuses(writes)
    decreases |writes|
  {
    if writes != [] {
      OneWritten(w, id, e, writes[0]);
      if writes[0].SetStatus? { RelabelAll(e.labels, writes[0].status); }
      StatusWritten(ApplyWrite(w, id, e, writes[0]), id, e, writes[1..]);
    }
  }

  predicate Lower(a: (nat, nat), b: (nat, nat)) { a.0 < b.0 || (a.0 == b.0 && a.1 < b.1) }

  /** What makes TransitionEnds apply. */
  predicate Ends(t: Transition) {
    && CloseDone !in t.writes
    && ((Statuses(t.writes) == [] && (t.prepare || t.merge))
        || Statuses(t.writes) == [AwaitingApproval] || Statuses(t.writes) == [Blocked])
  }

  lemma ImplementEndsOrReviews(cfg: Config, e: Tracker.Post, r: Report)
    requires e.tier == Issue && r.Implemented?
    ensures var t := AfterImplement(cfg, e, r); Ends(t) || t == Wrote([SetStatus(InReview)])
  {
    StatusesOfFew(SetStatus(Blocked), Say(Ack), CloseDone);
    StatusesOfFew(Say(ReportNote(r.quoted)), SetStatus(Blocked), CloseDone);
    StatusesOfFew(SetStatus(AwaitingApproval), Say(AskGate), CloseDone);
  }

  lemma ReviewEndsOrBounces(cfg: Config, e: Tracker.Post, r: Report)
    requires e.tier == Issue && r.Reviewed?
    ensures var t := AfterReview(cfg, e, r);
            Ends(t) || (t == Wrote([Say(ReviewNote(r.quoted)), SetStatus(Todo)])
                && ReviewAttempts(e.thread) + 1 < cfg.maxAttempts)
  {
    StatusesOfFew(Say(ReviewNote(r.quoted)), SetStatus(AwaitingApproval), Say(CombinedGate));
    StatusesOfFew(Say(ReviewNote(r.quoted)), SetStatus(AwaitingApproval), Say(AskGate));
    StatusesOfFew(Say(ReviewNote(r.quoted)), SetStatus(Blocked), Say(Ack));
  }

  /** Queued gate work for the issue, on the labels the mirror shows. */
  ghost predicate Queued(w: World, id: Id) {
    && id in w.posts && id in w.mirror && w.posts[id].labels == w.mirror[id].labels
    && exists k :: 0 <= k < |w.work| && w.work[k].GateJob? && w.work[k].id == id
        && (w.work[k].prepare || w.work[k].merge)
  }

  /** Waiting for a person, blocked, or with its gate work queued. */
  ghost predicate Ended(w: World, id: Id) {
    && id in w.posts && w.posts[id].tier == Issue
    && (w.posts[id].labels == [AwaitingApproval] || w.posts[id].labels == [Blocked] || Queued(w, id))
  }

  lemma TransitionEnds(w: World, id: Id, e: Tracker.Post, t: Transition)
    requires id in w.posts && w.posts[id].labels == e.labels && w.posts[id].tier == Issue && Ends(t)
    requires id in w.mirror && w.mirror[id] == e && !HasGateJob(w.work, id)
    ensures Ended(Resolve(w, id, e, t), id)
  {
    StatusWritten(w, id, e, t.writes);
    var w1 := ApplyWrites(w, id, e, t.writes);
    if Statuses(t.writes) == [] {
      var v := Resolve(w, id, e, t);
      assert v.work[|w1.work|] == GateJob(id, t.prepare, t.merge, e.thread);
    }
  }

  /** Remaining bounces, then remaining turns of the round. */
  function Turns(w: World, id: Id): (nat, nat)
    requires id in w.posts
  {
    (Max(0, w.cfg.maxAttempts - Attempts(w.posts, id)), if StatusOf(w.posts[id]) == Some(Todo) then 1 else 0)
  }

  // ----- what a digest makes of a report

  ghost predicate MovedOn(w: World, v: World, id: Id) {
    && Elsewhere(w, v, id) && v.work == w.work && Lower(Turns(v, id), Turns(w, id))
    && (StatusOf(v.posts[id]) == Some(Todo) || StatusOf(v.posts[id]) == Some(InReview))
  }

  /** The mirror shows the post's labels and thread. */
  predicate Shown(w: World, id: Id, e: Tracker.Post) {
    && id in w.posts && id in w.mirror && w.mirror[id] == e
    && w.posts[id].labels == e.labels && w.posts[id].thread == e.thread && w.posts[id].tier == e.tier == Issue
    && !HasGateJob(w.work, id)
  }

  lemma ToReview(w: World, id: Id, e: Tracker.Post)
    requires Shown(w, id, e) && StatusOf(e) == Some(Todo)
    ensures MovedOn(w, Resolve(w, id, e, Wrote([SetStatus(InReview)])), id)
  {
    var writes := [SetStatus(InReview)];
    StatusesOfFew(SetStatus(InReview), CloseDone, CloseDone);
    StatusWritten(w, id, e, writes);
    WritesCount(w, id, e, writes, id);
  }

  lemma BackToTodo(w: World, id: Id, e: Tracker.Post, quoted: seq<nat>)
    requires Shown(w, id, e) && ReviewAttempts(e.thread) + 1 < w.cfg.maxAttempts
    ensures MovedOn(w, Resolve(w, id, e, Wrote([Say(ReviewNote(quoted)), SetStatus(Todo)])), id)
  {
    var writes := [Say(ReviewNote(quoted)), SetStatus(Todo)];
    ReviewNotesOfTwo(writes[0], writes[1]);
    StatusesOfFew(Say(ReviewNote(quoted)), SetStatus(Todo), CloseDone);
    StatusWritten(w, id, e, writes);
    WritesCount(w, id, e, writes, id);
    OwnAttemptsCount(e.thread);
  }

  lemma ImplementTurns(w: World, id: Id, e: Tracker.Post, r: Report)
    requires Shown(w, id, e) && StatusOf(e) == Some(Todo) && r.Implemented?
    ensures var v := Resolve(w, id, e, AfterImplement(w.cfg, e, r)); Ended(v, id) || MovedOn(w, v, id)
  {
    var t := AfterImplement(w.cfg, e, r);
    ImplementEndsOrReviews(w.cfg, e, r);
    if Ends(t) { TransitionEnds(w, id, e, t); } else { ToReview(w, id, e); }
  }

  lemma ReviewTurns(w: World, id: Id, e: Tracker.Post, r: Report)
    requires Shown(w, id, e) && r.Reviewed?
    ensures var v := Resolve(w, id, e, AfterReview(w.cfg, e, r)); Ended(v, id) || MovedOn(w, v, id)
  {
    var t := AfterReview(w.cfg, e, r);
    ReviewEndsOrBounces(w.cfg, e, r);
    if Ends(t) { TransitionEnds(w, id, e, t); } else { BackToTodo(w, id, e, r.quoted); }
  }

  /** The digest of the last result, whatever it reports. */
  lemma DigestTurns(w: World, before: World, id: Id, e: Tracker.Post, intent: Intent, report: Report)
    requires Shown(before, id, e) && (intent.Implement? ==> StatusOf(e) == Some(Todo))
    requires intent.Implement? <==> report.Implemented?
    requires w == before.(results := before.results + [Result(id, intent, report)])
    ensures Legal(w, DigestStep(|before.results|))
    ensures var v := Digest(w, |before.results|);
            Ended(v, id) || MovedOn(before.(log := v.log), v, id)
  {
    var k := |before.results|;
    assert Drop(w.results, k) == before.results;
    assert !IsStale(w, id, e);
    if report.Implemented? {
      ImplementTurns(before, id, e, report);
    } else {
      var bounced := before.(log := before.log + [Bounced(id)]);
      ReviewTurns(before, id, e, report);
      ReviewTurns(bounced, id, e, report);
    }
  }

  // ----- what the control event schedules

  /** A run of the right kind was queued last, and no more than the assignment changed. */
  ghost predicate RunQueued(w: World, u: World, id: Id, intent: Intent) {
    && Elsewhere(w, u, id) && u.work == w.work + [WorkRun(id, intent)] && u.log == w.log && u.apr == w.apr
    && u.posts[id].labels == w.posts[id].labels && u.posts[id].thread == w.posts[id].thread
  }

  lemma StartTurns(w: World, id: Id)
    requires id in w.posts && Startable(w, id) && w.mirror == w.posts && StatusOf(w.posts[id]) == Some(Todo)
    requires !HasWorkRun(w.work, id)
    ensures var u := StartIssue(w, id, w.posts[id]);
            (Ended(u, id) && u.work == w.work) || RunQueued(w, u, id, Implement)
  {
    var e := w.posts[id];
    var w1 := Assigned(w, id, e);
    NoneSelectedIff(w.mirror, e, Waiting);
    RelabelAll(e.labels, AwaitingApproval);
    RelabelAll(e.labels, Blocked);
    assert Elsewhere(w, w1, id);
  }

  lemma ControlTurns(w: World, id: Id)
    requires InLoop(w, id) && w.mirror == w.posts
    ensures var u := Control(w, id, OtherEvent);
            || (Ended(u, id) && u.work == w.work)
            || (RunQueued(w, u, id, Implement) && StatusOf(w.posts[id]) == Some(Todo))
            || RunQueued(w, u, id, Review)
  {
    if StatusOf(w.posts[id]) == Some(Todo) { StartTurns(w, id); }
  }

  // ----- a whole turn

  lemma {:induction false} LastRun(a: seq<Job>, id: Id, intent: Intent)
    requires !HasWorkRun(a, id)
    ensures HasWorkRun(a + [WorkRun(id, intent)], id) && RunOf(a + [WorkRun(id, intent)], id) == |a|
  {
    var b := a + [WorkRun(id, intent)];
    assert b[|a|] in b;
    if a != [] {
      assert a[0] in a && b[1..] == a[1..] + [WorkRun(id, intent)];
      forall j | j in a[1..] ensures j in a {}
      LastRun(a[1..], id, intent);
    }
  }

  /** With luck, an agent run commits its work, steps back and hands its report in. */
  lemma LuckyRun(u: World, k: nat, id: Id, intent: Intent, report: Report)
    requires k < |u.work| && u.work[k] == WorkRun(id, intent) && id in u.mirror && !IsStale(u, id, u.mirror[id])
    requires u.git.merging.None? && u.primary in u.git.branches
    ensures var v := RunAgent(u, k, true, G.Committed, true, Finished(report), false);
            && v == u.(git := v.git, log := v.log, work := Drop(u.work, k),
                       results := u.results + [Result(id, intent, report)])
            && v.git.merging.None? && v.primary in v.git.branches
  {
    var (g, ok) := G.EnsureOnBranch(u.git, BranchOf(id, u.mirror[id]), u.primary, true);
    assert ok && g.merging.None? && u.primary in g.branches;
    WorkStays(u, u.work[k], g);
  }

  lemma WorkStays(w: World, j: Job, g: G.State)
    requires j.WorkRun? && g.merging.None? && w.primary in g.branches
    ensures var v := WorkOn(w, j, g, G.Committed, true);
            && v == w.(git := v.git, log := v.log) && v.git.merging.None? && w.primary in v.git.branches
  {
  }

  lemma AgentHandsIn(w: World, u: World, id: Id, intent: Intent, agent: Agent, n: nat)
    requires InLoop(w, id) && w.mirror == w.posts && RunQueued(w, u, id, intent)
    ensures HasWorkRun(u.work, id) && Legal(u, AgentTurn(u, id, agent, n))
    ensures var v := Take(u, AgentTurn(u, id, agent, n));
            && v == u.(git := v.git, log := v.log, work := w.work,
                       results := u.results + [Result(id, intent, ReportOf(agent, n, intent))])
            && v.git.merging.None? && v.primary in v.git.branches
  {
    LastRun(w.work, id, intent);
    var k := |w.work|;
    assert u.work[k] == WorkRun(id, intent) && Drop(u.work, k) == w.work;
    LuckyRun(u, k, id, intent, ReportOf(agent, n, intent));
  }

  lemma StartableStays(w: World, v: World, id: Id)
    requires id in w.posts && id in v.posts && Startable(w, id) && v.cfg == w.cfg
    requires v.posts == w.posts[id := v.posts[id]] && SameBut(w.posts[id], v.posts[id])
    requires StatusOf(w.posts[id]) == Some(Todo) || StatusOf(w.posts[id]) == Some(InReview)
    ensures Startable(v, id)
  {
    var e, f := w.posts[id], v.posts[id];
    assert ParentRefs(v.posts, f) == ParentRefs(w.posts, e);
    forall d: Id | Num(d) in f.deps + ParentRefs(v.posts, f) ensures !Waiting(DepStatus(v.posts, d)) {
      assert Waiting(DepStatus(w.posts, id));
    }
  }

  /** A turn is made of possible steps, and leaves the issue at its end or strictly closer to it. */
  lemma TurnDescends(w: World, id: Id, agent: Agent, n: nat) returns (v: World)
    requires InLoop(w, id)
    ensures Leads(w, TurnSteps(w, id, agent, n), v)
    ensures Ended(v, id) || (InLoop(v, id) && Lower(Turns(v, id), Turns(w, id)))
  {
    var s, u := Sync(w), Controlled(w, id);
    SyncStaysInLoop(w, id);
    ControlTurns(s, id);
    if Ended(u, id) && u.work == s.work {
      v := u;
      TurnStops(w, id, agent, n);
    } else {
      v := TurnRuns(w, id, if RunQueued(s, u, id, Review) then Review else Implement, agent, n);
    }
  }

  lemma SyncStaysInLoop(w: World, id: Id)
    requires InLoop(w, id)
    ensures InLoop(Sync(w), id) && Turns(Sync(w), id) == Turns(w, id)
  {
    KeepOpenFilters(w, w.work);
    var s := Sync(w);
    assert s.posts == w.posts && s.cfg == w.cfg && s.git == w.git && s.primary == w.primary;
  }

  /** The control event itself ended the loop. */
  lemma TurnStops(w: World, id: Id, agent: Agent, n: nat)
    requires !HasWorkRun(Controlled(w, id).work, id)
    ensures Leads(w, TurnSteps(w, id, agent, n), Controlled(w, id))
  {
    var steps := TurnSteps(w, id, agent, n);
    assert steps == [SyncStep, ControlStep(id, OtherEvent)];
    LeadsInTwo(w, Sync(w), steps, Controlled(w, id));
  }

  /** It scheduled a run. */
  lemma TurnRuns(w: World, id: Id, intent: Intent, agent: Agent, n: nat) returns (v: World)
    requires InLoop(w, id) && InLoop(Sync(w), id) && RunQueued(Sync(w), Controlled(w, id), id, intent)
    requires intent.Implement? ==> StatusOf(w.posts[id]) == Some(Todo)
    ensures Leads(w, TurnSteps(w, id, agent, n), v)
    ensures Ended(v, id) || (InLoop(v, id) && Lower(Turns(v, id), Turns(Sync(w), id)))
  {
    var a;
    var s, u, steps := Sync(w), Controlled(w, id), TurnSteps(w, id, agent, n);
    a, v := RunTurns(s, u, id, intent, agent, n);
    assert steps == [SyncStep, ControlStep(id, OtherEvent), AgentTurn(u, id, agent, n), DigestStep(|u.results|)];
    LeadsInFour(w, s, u, a, steps, v);
  }

  lemma LeadsInTwo(w: World, a: World, steps: seq<Step>, v: World)
    requires |steps| == 2 && Reaches(w, steps[0], a) && Reaches(a, steps[1], v)
    ensures Leads(w, steps, v)
  {
    assert Leads(v, steps[1..][1..], v);
  }

  lemma LeadsInFour(w: World, a: World, b: World, c: World, steps: seq<Step>, v: World)
    requires |steps| == 4 && Reaches(w, steps[0], a) && Reaches(a, steps[1], b)
    requires Reaches(b, steps[2], c) && Reaches(c, steps[3], v)
    ensures Leads(w, steps, v)
  {
    LeadsInTwo(w, a, steps[..2], b);
    LeadsInTwo(b, c, steps[2..], v);
    LeadsOn(w, steps[..2], b, steps[2..], v);
    assert steps == steps[..2] + steps[2..];
  }

  /** The agent's run and the digest of what it reports. */
  lemma RunTurns(w: World, u: World, id: Id, intent: Intent, agent: Agent, n: nat) returns (a: World, v: World)
    requires InLoop(w, id) && w.mirror == w.posts && RunQueued(w, u, id, intent)
    requires intent.Implement? ==> StatusOf(w.posts[id]) == Some(Todo)
    ensures HasWorkRun(u.work, id) && Reaches(u, AgentTurn(u, id, agent, n), a)
    ensures Reaches(a, DigestStep(|u.results|), v)
    ensures Ended(v, id) || (InLoop(v, id) && Lower(Turns(v, id), Turns(w, id)))
  {
    AgentHandsIn(w, u, id, intent, agent, n);
    a := Take(u, AgentTurn(u, id, agent, n));
    var before := a.(results := u.results);
    DigestTurns(a, before, id, w.posts[id], intent, ReportOf(agent, n, intent));
    v := Digest(a, |u.results|);
    if !Ended(v, id) { LoopGoesOn(w, before.(log := v.log), v, id); }
  }

  lemma LoopGoesOn(w: World, before: World, v: World, id: Id)
    requires InLoop(w, id) && MovedOn(before, v, id)
    requires id in before.posts && before.posts == w.posts[id := before.posts[id]]
               && SameBut(w.posts[id], before.posts[id])
    requires before.posts[id].labels == w.posts[id].labels && before.posts[id].thread == w.posts[id].thread
    requires before.cfg == w.cfg && before.primary == w.primary && before.work == w.work
    requires before.git.merging.None? && before.primary in before.git.branches
    ensures InLoop(v, id) && Lower(Turns(v, id), Turns(w, id))
  {
    assert Turns(before, id) == Turns(w, id);
    StartableStays(w, v, id);
  }

  // ----- the loop

  /** Whatever the agents report, finitely many possible steps bring the issue to an end. */
  lemma {:induction false} DriveEnds(w: World, id: Id, agent: Agent, n: nat) returns (steps: seq<Step>, v: World)
    requires InLoop(w, id)
    ensures Leads(w, steps, v) && Ended(v, id)
    decreases Turns(w, id).0, Turns(w, id).1
  {
    var u := TurnDescends(w, id, agent, n);
    if Ended(u, id) {
      steps, v := TurnSteps(w, id, agent, n), u;
    } else {
      var rest, x := DriveEnds(u, id, agent, n + 1);
      LeadsOn(w, TurnSteps(w, id, agent, n), u, rest, x);
      steps, v := TurnSteps(w, id, agent, n) + rest, x;
    }
  }

  /** Job `k` is gate work for the issue, and however it goes the issue rests afterwards. */
  ghost predicate WillRest(v: World, id: Id, k: nat) {
    && k < |v.work| && v.work[k].GateJob? && v.work[k].id == id
    && forall luck, lucks :: Rests(RunGate(v, k, luck, lucks), id)
  }

  lemma QueuedJobWillRest(v: World, id: Id, k: nat)
    requires Good(v) && id in v.posts && id in v.mirror && v.posts[id].labels == v.mirror[id].labels
    requires v.posts[id].tier == Issue
    requires k < |v.work| && v.work[k].GateJob? && v.work[k].id == id && (v.work[k].prepare || v.work[k].merge)
    ensures WillRest(v, id, k)
  {
    TierSeen(v, id);
    forall luck, lucks ensures Rests(RunGate(v, k, luck, lucks), id) { GateJobRests(v, k, luck, lucks); }
  }

  /** So the loop, with the gate job it may have queued, ends with the issue waiting for an approval,
      blocked, or done. */
  lemma LoopRests(w: World, id: Id, agent: Agent) returns (steps: seq<Step>, v: World)
    requires Inv(w) && InLoop(w, id)
    ensures Leads(w, steps, v) && Inv(v) && id in v.posts
    ensures || v.posts[id].labels == [AwaitingApproval] || v.posts[id].labels == [Blocked]
            || exists k: nat :: WillRest(v, id, k)
  {
    steps, v := DriveEnds(w, id, agent, 0);
    LeadsKeepsInv(w, steps, v);
    if Queued(v, id) {
      var k: nat :| k < |v.work| && v.work[k].GateJob? && v.work[k].id == id && (v.work[k].prepare || v.work[k].merge);
      QueuedJobWillRest(v, id, k);
    }
  }
}
