/** What a digested report, a control event and a gate job leave behind: the labels and comments on the issue,
    and the work queued. */
module Outcomes {
  import opened Basics
  import opened Tracker
  import opened Gates
  import opened Advance
  import opened Answers
  import opened Deps
  import opened Lifecycle
  import opened Landings
  import G = Git

  /** The platform's comment with these markers, quoting or requesting these APR numbers. */
  function Said(markers: set<Marker>, tokens: seq<nat>, requests: seq<nat>): Comment {
    Comment("platform", true, Prose, markers, tokens, requests, [])
  }

  /** The post now has these labels and says this in addition; nothing else in the tracker changed. */
  ghost predicate Left(w: World, v: World, i: Id, labels: seq<Status>, more: Thread)
    requires i in w.posts
  {
    v.posts == w.posts[i := w.posts[i].(labels := labels, thread := w.posts[i].thread + more)]
  }

  ghost predicate GateQueued(work: seq<Job>, i: Id) {
    exists k :: 0 <= k < |work| && work[k].GateJob? && work[k].id == i
  }

  ghost predicate RunQueued(work: seq<Job>, i: Id) {
    exists k :: 0 <= k < |work| && work[k].WorkRun? && work[k].id == i
  }

  lemma QueuedIs(work: seq<Job>, i: Id)
    ensures HasGateJob(work, i) <==> GateQueued(work, i)
    ensures HasWorkRun(work, i) <==> RunQueued(work, i)
  {
  }

  /** A gate job for the issue is queued, unless there is one. */
  ghost function WithGate(w: World, i: Id, seen: Thread): seq<Job> {
    if GateQueued(w.work, i) then w.work
    else w.work + [GateJob(i, !w.cfg.mergeToPrimary, w.cfg.mergeToPrimary, seen)]
  }

  /** The mirror shows the post, and the tracker no other status of it. */
  ghost predicate Current(w: World, i: Id) {
    i in w.mirror && (i in w.posts ==> StatusOf(w.posts[i]) in {None, StatusOf(w.mirror[i])})
  }

  /** Result `k` is about an issue whose status the mirror shows. */
  ghost predicate ActedOn(w: World, k: nat)
    requires k < |w.results|
  {
    var i := w.results[k].id;
    i in w.posts && Current(w, i) && w.mirror[i].tier == Issue
  }

  /** A result about a post that is gone from the mirror, or has moved on, is dropped. */
  lemma StaleResultsAreDropped(w: World, k: nat)
    requires Legal(w, DigestStep(k)) && !Current(w, w.results[k].id)
    ensures Digest(w, k) == w.(results := w.results[..k] + w.results[k + 1..])
  {
  }

  /** What the platform's gates, requests and prompts carry. */
  lemma NotesCarry(token: nat)
    ensures NoteComment(PureGate, token) == NoteComment(LandGate, token) == Said({MergeGate}, [token], [token])
    ensures NoteComment(CombinedGate, token) == Said({WorkMergeGate}, [token], [token])
    ensures NoteComment(AskGate, token) == Said({}, [token], [token])
    ensures NoteComment(OptionsNote, token) == Said({RejectOptions}, [], [])
    ensures NoteComment(Ack, token) == Said({}, [], [])
  {
  }

  lemma OneWritten(w: World, id: Id, e: Tracker.Post, a: Write)
    ensures ApplyWrites(w, id, e, [a]) == ApplyWrite(w, id, e, a)
  {
    assert [a][1..] == [];
  }

  lemma TwoWritten(w: World, id: Id, e: Tracker.Post, a: Write, b: Write)
    ensures ApplyWrites(w, id, e, [a, b]) == ApplyWrite(ApplyWrite(w, id, e, a), id, e, b)
  {
    assert [a, b][1..] == [b];
    OneWritten(ApplyWrite(w, id, e, a), id, e, b);
  }

  lemma ThreeWritten(w: World, id: Id, e: Tracker.Post, a: Write, b: Write, c: Write)
    ensures ApplyWrites(w, id, e, [a, b, c]) ==
            ApplyWrite(ApplyWrite(ApplyWrite(w, id, e, a), id, e, b), id, e, c)
  {
    assert [a, b, c][1..] == [b, c];
    TwoWritten(ApplyWrite(w, id, e, a), id, e, b, c);
  }

  lemma LabelledOnly(w: World, i: Id, e: Tracker.Post, s: Status)
    requires i in w.posts
    ensures var v := SetLabel(w, i, e, s);
            && Left(w, v, i, Relabel(w.posts[i].labels, e.labels, s), [])
            && v.work == w.work && v.cfg == w.cfg && v.apr == w.apr
  {
    assert w.posts[i].thread + [] == w.posts[i].thread;
  }

  lemma SaidAndLabelled(w: World, i: Id, e: Tracker.Post, n: Note, s: Status)
    requires i in w.posts
    ensures var v := SetLabel(SayNote(w, i, n), i, e, s);
            && Left(w, v, i, Relabel(w.posts[i].labels, e.labels, s), [NoteComment(n, w.apr + 1)])
            && v.work == w.work && v.cfg == w.cfg && v.apr == if Mints(n) then w.apr + 1 else w.apr
  {
    var u := SayNote(w, i, n);
    SaidOnly(w, i, n);
    LabelledOnly(u, i, e, s);
    assert w.posts[i].thread + [NoteComment(n, w.apr + 1)] + [] == w.posts[i].thread + [NoteComment(n, w.apr + 1)];
  }

  lemma LabelledAndSaid(w: World, i: Id, e: Tracker.Post, n: Note, s: Status)
    requires i in w.posts
    ensures var v := SayNote(SetLabel(w, i, e, s), i, n);
            && Left(w, v, i, Relabel(w.posts[i].labels, e.labels, s), [NoteComment(n, w.apr + 1)])
            && v.work == w.work && v.cfg == w.cfg && v.apr == if Mints(n) then w.apr + 1 else w.apr
  {
    LabelledOnly(w, i, e, s);
    SaidOnly(SetLabel(w, i, e, s), i, n);
    assert w.posts[i].thread + [] == w.posts[i].thread;
  }

  lemma SaidOnly(w: World, i: Id, n: Note)
    requires i in w.posts
    ensures var v := SayNote(w, i, n);
            && Left(w, v, i, w.posts[i].labels, [NoteComment(n, w.apr + 1)])
            && v.work == w.work && v.cfg == w.cfg && v.apr == if Mints(n) then w.apr + 1 else w.apr
  {
  }

  lemma SaidLater(w: World, u: World, v: World, i: Id, labels: seq<Status>, a: Comment, b: Comment)
    requires i in w.posts && Left(w, u, i, labels, [a]) && Left(u, v, i, labels, [b])
    ensures Left(w, v, i, labels, [a, b])
  {
    assert w.posts[i].thread + [a] + [b] == w.posts[i].thread + [a, b];
  }

  // ----- a review

  /** A review that approves with enough confidence asks for gate work and leaves the labels. */
  lemma ConfidentReview(w: World, i: Id, e: Tracker.Post, r: Report)
    requires i in w.posts && r.Reviewed? && e.tier == Issue && r.approve && r.confidence >= w.cfg.threshold
    ensures var v := Resolve(w, i, e, AfterReview(w.cfg, e, r));
            && v.work == WithGate(w, i, e.thread)
            && Left(w, v, i, w.posts[i].labels, [Said({ReviewAttempt}, r.quoted, [])])
  {
    QueuedIs(w.work, i);
    OneWritten(w, i, e, Say(ReviewNote(r.quoted)));
    SaidOnly(w, i, ReviewNote(r.quoted));
  }

  /** One that approves without it parks the issue for a person: at a combined gate if merging needs one
      too, else at a plain request. */
  lemma HesitantReview(w: World, i: Id, e: Tracker.Post, r: Report)
    requires i in w.posts && r.Reviewed? && e.tier == Issue && r.approve && r.confidence < w.cfg.threshold
    ensures var v := Resolve(w, i, e, AfterReview(w.cfg, e, r));
            && v.work == w.work
            && Left(w, v, i, Relabel(w.posts[i].labels, e.labels, AwaitingApproval),
                    [Said({ReviewAttempt}, r.quoted, []),
                     Said(if w.cfg.mergeToPrimary then {} else {WorkMergeGate}, [w.apr + 1], [w.apr + 1])])
  {
    var said, ask := ReviewNote(r.quoted), if w.cfg.mergeToPrimary then AskGate else CombinedGate;
    ThreeWritten(w, i, e, Say(said), SetStatus(AwaitingApproval), Say(ask));
    SaidAndLabelled(w, i, e, said, AwaitingApproval);
    var u := SetLabel(SayNote(w, i, said), i, e, AwaitingApproval);
    SaidOnly(u, i, ask);
    SaidLater(w, u, SayNote(u, i, ask), i, u.posts[i].labels,
              NoteComment(said, w.apr + 1), NoteComment(ask, u.apr + 1));
  }

  /** One that asks for changes sends the issue back while attempts are left, and blocks it after. */
  lemma CriticalReview(w: World, i: Id, e: Tracker.Post, r: Report)
    requires i in w.posts && r.Reviewed? && !r.approve
    ensures var v := Resolve(w, i, e, AfterReview(w.cfg, e, r));
            && v.work == w.work
            && if ReviewAttempts(e.thread) + 1 < w.cfg.maxAttempts then
                 Left(w, v, i, Relabel(w.posts[i].labels, e.labels, Todo), [Said({ReviewAttempt}, r.quoted, [])])
               else
                 Left(w, v, i, Relabel(w.posts[i].labels, e.labels, Blocked),
                      [Said({ReviewAttempt}, r.quoted, []), Said({}, [], [])])
  {
    var said := ReviewNote(r.quoted);
    if ReviewAttempts(e.thread) + 1 < w.cfg.maxAttempts {
      TwoWritten(w, i, e, Say(said), SetStatus(Todo));
      SaidAndLabelled(w, i, e, said, Todo);
    } else {
      ThreeWritten(w, i, e, Say(said), SetStatus(Blocked), Say(Ack));
      SaidAndLabelled(w, i, e, said, Blocked);
      var u := SetLabel(SayNote(w, i, said), i, e, Blocked);
      SaidOnly(u, i, Ack);
      SaidLater(w, u, SayNote(u, i, Ack), i, u.posts[i].labels,
                NoteComment(said, w.apr + 1), NoteComment(Ack, u.apr + 1));
    }
  }

  /** What the digest of an issue's review leaves, in all cases. */
  lemma ReviewLeaves(w: World, k: nat)
    requires Legal(w, DigestStep(k)) && w.results[k].intent.Review? && ActedOn(w, k)
    ensures var v, i, r := Digest(w, k), w.results[k].id, w.results[k].report;
            var e, said := w.mirror[i], Said({ReviewAttempt}, r.quoted, []);
            var now := w.posts[i].labels;
            && v.work == (if r.approve && r.confidence >= w.cfg.threshold then WithGate(w, i, e.thread) else w.work)
            && if r.approve then
                 if r.confidence >= w.cfg.threshold then Left(w, v, i, now, [said])
                 else
                   Left(w, v, i, Relabel(now, e.labels, AwaitingApproval),
                        [said, Said(if w.cfg.mergeToPrimary then {} else {WorkMergeGate}, [w.apr + 1], [w.apr + 1])])
               else if ReviewAttempts(e.thread) + 1 < w.cfg.maxAttempts then
                 Left(w, v, i, Relabel(now, e.labels, Todo), [said])
               else
                 Left(w, v, i, Relabel(now, e.labels, Blocked), [said, Said({}, [], [])])
  {
    var r := w.results[k];
    var e, t := w.mirror[r.id], AfterReview(w.cfg, w.mirror[r.id], r.report);
    var w1 := w.(results := Drop(w.results, k));
    var w2 := if SetStatus(Todo) in t.writes then w1.(log := w1.log + [Bounced(r.id)]) else w1;
    if !r.report.approve {
      CriticalReview(w2, r.id, e, r.report);
    } else if r.report.confidence >= w.cfg.threshold {
      ConfidentReview(w2, r.id, e, r.report);
    } else {
      HesitantReview(w2, r.id, e, r.report);
    }
  }

  // ----- an implementation

  lemma StuckImplementation(w: World, i: Id, e: Tracker.Post, r: Report)
    requires i in w.posts && r.Implemented? && (r.recommendSpecChange || r.outcome != Completed)
    ensures var v := Resolve(w, i, e, AfterImplement(w.cfg, e, r));
            && v.work == w.work
            && Left(w, v, i, Relabel(w.posts[i].labels, e.labels, Blocked),
                    [Said({}, if r.recommendSpecChange then [] else r.quoted, [])])
  {
    var said := if r.recommendSpecChange then Ack else ReportNote(r.quoted);
    if r.recommendSpecChange {
      TwoWritten(w, i, e, SetStatus(Blocked), Say(said));
      LabelledAndSaid(w, i, e, said, Blocked);
    } else {
      TwoWritten(w, i, e, Say(said), SetStatus(Blocked));
      SaidAndLabelled(w, i, e, said, Blocked);
    }
  }

  lemma FinishedImplementation(w: World, i: Id, e: Tracker.Post, r: Report)
    requires i in w.posts && r.Implemented? && !r.recommendSpecChange && r.outcome == Completed && e.tier == Issue
    ensures var v, now := Resolve(w, i, e, AfterImplement(w.cfg, e, r)), w.posts[i].labels;
            if e.reviewLabel || w.cfg.reviewOn then
              v.work == w.work && Left(w, v, i, Relabel(now, e.labels, InReview), [])
            else if e.hitl then
              && v.work == w.work
              && Left(w, v, i, Relabel(now, e.labels, AwaitingApproval), [Said({}, [w.apr + 1], [w.apr + 1])])
            else
              v.work == WithGate(w, i, e.thread) && Left(w, v, i, now, [])
  {
    QueuedIs(w.work, i);
    if e.reviewLabel || w.cfg.reviewOn {
      OneWritten(w, i, e, SetStatus(InReview));
      LabelledOnly(w, i, e, InReview);
    } else if e.hitl {
      TwoWritten(w, i, e, SetStatus(AwaitingApproval), Say(AskGate));
      LabelledAndSaid(w, i, e, AskGate, AwaitingApproval);
    } else {
      assert w.posts[i].thread + [] == w.posts[i].thread;
    }
  }

  /** What the digest of an issue's implementation leaves, in all cases. */
  lemma ImplementLeaves(w: World, k: nat)
    requires Legal(w, DigestStep(k)) && w.results[k].intent.Implement? && ActedOn(w, k)
    ensures var v, i, r := Digest(w, k), w.results[k].id, w.results[k].report;
            var e, now := w.mirror[i], w.posts[i].labels;
            if r.recommendSpecChange || r.outcome != Completed then
              && v.work == w.work
              && Left(w, v, i, Relabel(now, e.labels, Blocked),
                      [Said({}, if r.recommendSpecChange then [] else r.quoted, [])])
            else if e.reviewLabel || w.cfg.reviewOn then
              v.work == w.work && Left(w, v, i, Relabel(now, e.labels, InReview), [])
            else if e.hitl then
              && v.work == w.work
              && Left(w, v, i, Relabel(now, e.labels, AwaitingApproval), [Said({}, [w.apr + 1], [w.apr + 1])])
            else
              v.work == WithGate(w, i, e.thread) && Left(w, v, i, now, [])
  {
    var r := w.results[k];
    var w1 := w.(results := Drop(w.results, k));
    if r.report.recommendSpecChange || r.report.outcome != Completed {
      StuckImplementation(w1, r.id, w.mirror[r.id], r.report);
    } else {
      FinishedImplementation(w1, r.id, w.mirror[r.id], r.report);
    }
  }

  // ----- a control event

  /** Only the assignment of the post may have changed, to the agent. */
  ghost predicate AssignedTo(w: World, v: World, i: Id, agent: bool)
    requires i in w.posts
  {
    v == w.(posts := w.posts[i := w.posts[i].(agentAssigned := w.posts[i].agentAssigned || agent)])
  }

  lemma AssignmentIs(w: World, i: Id, e: Tracker.Post)
    requires i in w.posts
    ensures AssignedTo(w, Assigned(w, i, e), i, !e.agentAssigned)
  {
    assert w.posts[i := w.posts[i]] == w.posts;
  }

  /** Which dependencies hold an issue back. */
  ghost predicate SomeCancelled(w: World, e: Tracker.Post) {
    exists d: Id :: Enforces(w.mirror, e, d) && d in w.mirror
      && StatusOf(w.mirror[d]) in {Some(WontDo), Some(Deprecated)}
  }

  ghost predicate AllDone(w: World, e: Tracker.Post) {
    forall d: Id :: Enforces(w.mirror, e, d) ==> d in w.mirror && StatusOf(w.mirror[d]) == Some(Done)
  }

  lemma NotStale(w: World, i: Id)
    requires i in w.mirror
    ensures Current(w, i) <==> !IsStale(w, i, w.mirror[i])
  {
  }

  lemma ControlStarts(w: World, i: Id, e: Tracker.Post, action: Action)
    requires i in w.mirror && w.mirror[i] == e && !IsStale(w, i, e) && e.tier == Issue && !e.draft
    requires StatusOf(e) == None || StatusOf(e) == Some(Todo)
    ensures Control(w, i, action) == StartIssue(w, i, e)
  {
  }

  lemma StartAsks(w: World, i: Id, e: Tracker.Post)
    requires i in w.posts && (e.agentAssigned || w.cfg.autoAssign)
    requires !w.cfg.autoImplement && !Spoken(w.cfg, i, e, ToApprove, ThumbsUp)
    ensures var u, v := Assigned(w, i, e), StartIssue(w, i, e);
            && v.work == w.work
            && Left(u, v, i, Relabel(w.posts[i].labels, e.labels, AwaitingApproval),
                    [Said({}, [w.apr + 1], [w.apr + 1])])
  {
    SpokenIsSignalled(w.cfg, i, e, ToApprove, ThumbsUp);
    AssignmentIs(w, i, e);
    LabelledAndSaid(Assigned(w, i, e), i, e, AskGate, AwaitingApproval);
  }

  lemma StartIsGated(w: World, i: Id, e: Tracker.Post)
    requires i in w.posts && (e.agentAssigned || w.cfg.autoAssign)
    requires w.cfg.autoImplement || Spoken(w.cfg, i, e, ToApprove, ThumbsUp)
    ensures var u, v := Assigned(w, i, e), StartIssue(w, i, e);
            if SomeCancelled(w, e) then
              && v.work == w.work
              && Left(u, v, i, Relabel(w.posts[i].labels, e.labels, Blocked), [Said({}, [], [])])
            else if !AllDone(w, e) then v == u
            else v == u.(work := if RunQueued(w.work, i) then w.work else w.work + [WorkRun(i, Implement)])
  {
    QueuedIs(w.work, i);
    SpokenIsSignalled(w.cfg, i, e, ToApprove, ThumbsUp);
    AssignmentIs(w, i, e);
    NothingIsCancelledIff(w.mirror, e);
    ClearsTheGateIff(w.mirror, e);
    LabelledAndSaid(Assigned(w, i, e), i, e, Ack, Blocked);
  }

  /** An issue to be started: without an assignee nothing happens; with one, and without an approval where
      one is needed, the platform asks; a cancelled dependency blocks it; one that is not done holds it
      back; and only then an implement run is queued. */
  lemma StartLeaves(w: World, i: Id, e: Tracker.Post, action: Action) returns (u: World)
    requires i in w.posts && Current(w, i) && w.mirror[i] == e && e.tier == Issue && !e.draft
    requires StatusOf(e) == None || StatusOf(e) == Some(Todo)
    ensures AssignedTo(w, u, i, !e.agentAssigned)
    ensures var v, now := Control(w, i, action), w.posts[i].labels;
            if !e.agentAssigned && !w.cfg.autoAssign then v == w
            else if !w.cfg.autoImplement && !Spoken(w.cfg, i, e, ToApprove, ThumbsUp) then
              && v.work == w.work
              && Left(u, v, i, Relabel(now, e.labels, AwaitingApproval), [Said({}, [w.apr + 1], [w.apr + 1])])
            else if SomeCancelled(w, e) then
              v.work == w.work && Left(u, v, i, Relabel(now, e.labels, Blocked), [Said({}, [], [])])
            else if !AllDone(w, e) then v == u
            else v == u.(work := if RunQueued(w.work, i) then w.work else w.work + [WorkRun(i, Implement)])
  {
    u := Assigned(w, i, e);
    AssignmentIs(w, i, e);
    NotStale(w, i);
    ControlStarts(w, i, e, action);
    if !e.agentAssigned && !w.cfg.autoAssign {
    } else if !w.cfg.autoImplement && !Spoken(w.cfg, i, e, ToApprove, ThumbsUp) {
      StartAsks(w, i, e);
    } else {
      StartIsGated(w, i, e);
    }
  }

  /** A post in review gets a review run, unless it has one queued. */
  lemma ReviewStarts(w: World, i: Id, action: Action)
    requires Current(w, i) && StatusOf(w.mirror[i]) == Some(InReview) && !w.mirror[i].draft
    ensures Control(w, i, action) ==
            w.(work := if RunQueued(w.work, i) then w.work else w.work + [WorkRun(i, Review)])
  {
    QueuedIs(w.work, i);
  }

  /** Drafts and posts that have moved on are left alone, and so is every post whose status asks for
      nothing. */
  lemma NothingStarts(w: World, i: Id, action: Action)
    requires i in w.mirror && StatusOf(w.mirror[i]) !in {Some(AwaitingApproval), Some(Blocked), Some(AwaitingMerge)}
    requires || w.mirror[i].draft || !Current(w, i)
             || (StatusOf(w.mirror[i]) != Some(InReview)
                 && (w.mirror[i].tier != Issue || StatusOf(w.mirror[i]) !in {None, Some(Todo)}))
    ensures Control(w, i, action) == w
  {
  }

  // ----- an answer

  ghost predicate AskedBefore(w: World, i: Id) {
    i in w.posts && exists c :: c in w.posts[i].thread && RejectOptions in c.markers
  }

  lemma OptionsPostedIs(w: World, i: Id)
    ensures OptionsPosted(w, i) <==> AskedBefore(w, i)
  {
    if i in w.posts { LastMarkedIsLast(w.posts[i].thread, RejectOptions); }
  }

  /** A control event on a parked post is decided on the post as the mirror shows it, by its status, and the
      decision is carried out. */
  lemma AnswersAreCarried(w: World, i: Id, action: Action, options: bool)
    requires i in w.mirror && (options <==> AskedBefore(w, i))
    ensures var v, e, stale := Control(w, i, action), w.mirror[i], !Current(w, i);
            && (StatusOf(e) == Some(AwaitingApproval) ==>
                  v == Resolve(w, i, e, ResolveApproval(w.cfg, i, e, action, stale, options)))
            && (StatusOf(e) == Some(AwaitingMerge) ==>
                  v == Resolve(w, i, e, ResolveAwaitingMerge(w.cfg, i, e, action, stale)))
            && (StatusOf(e) == Some(Blocked) ==> v == Resolve(w, i, e, ResolveBlocked(w.cfg, i, e, action, stale)))
  {
    OptionsPostedIs(w, i);
    NotStale(w, i);
  }

  /** Carrying it out queues the gate work it asks for, on the thread it was decided on, unless there is some
      already. */
  lemma DecisionsQueue(w: World, i: Id, e: Tracker.Post, t: Transition)
    ensures Resolve(w, i, e, t).work ==
            if (t.prepare || t.merge) && !GateQueued(w.work, i) then
              w.work + [GateJob(i, t.prepare, t.merge, e.thread)]
            else w.work
  {
    QueuedIs(w.work, i);
    WritesLeaveWork(w, i, e, t.writes);
  }

  lemma {:induction false} WritesLeaveWork(w: World, i: Id, e: Tracker.Post, writes: seq<Write>)
    ensures ApplyWrites(w, i, e, writes).work == w.work
    decreases |writes|
  {
    if writes != [] { WritesLeaveWork(ApplyWrite(w, i, e, writes[0]), i, e, writes[1..]); }
  }

  /** What is not an issue has no branch: with its work done, or reviewed with confidence, it is closed. */
  lemma OthersAreClosed(cfg: Config, e: Tracker.Post, r: Report)
    requires e.tier != Issue
    ensures r.Reviewed? ==> var t := AfterReview(cfg, e, r);
              && !t.prepare && !t.merge
              && (CloseDone in t.writes <==> r.approve && r.confidence >= cfg.threshold)
    ensures r.Implemented? ==> var t := AfterImplement(cfg, e, r);
              && !t.prepare && !t.merge
              && (CloseDone in t.writes <==>
                    && !r.recommendSpecChange && r.outcome == Completed
                    && !e.reviewLabel && !cfg.reviewOn && !e.hitl)
  {
  }

  // ----- an agent run

  /** What a run does to git: on the issue's branch, forked from primary if need be, an implementation commits
      what the agent did, a review nothing, and then HEAD goes back to primary. */
  ghost predicate WorkedOn(w: World, v: World, j: Job, how: G.Commits, back: bool)
    requires j.WorkRun? && j.id in w.mirror
  {
    var g := G.EnsureOnBranch(w.git, BranchOf(j.id, w.mirror[j.id]), w.primary, true).0;
    if j.intent == Implement then
      && v.git == G.Checkout(G.CommitAll(g, how), w.primary, back).0
      && v.log == w.log + [ImplementRan(j.id, g.At(g.head))]
    else v.git == G.Checkout(g, w.primary, back).0 && v.log == w.log
  }

  lemma HandInLeaves(w: World, u: World, k: nat, how: G.Commits, end: AgentEnd, again: bool)
    requires k < |w.work| && w.work[k].WorkRun? && u.work == w.work && u.results == w.results
    ensures var j, v := w.work[k], HandIn(u, k, w.work[k].intent.Implement? && how.CommitFailed?, end, again);
            var out := w.work[..k] + w.work[k + 1..];
            && v == u.(work := v.work, results := v.results)
            && if end == Interrupted then v.work == w.work && v.results == w.results
               else if end == Failed || (j.intent == Implement && how == G.CommitFailed) then
                 v.work == (if again then w.work else out) && v.results == w.results
               else v.work == out && v.results == w.results + [Result(j.id, j.intent, end.report)]
  {
  }

  lemma WorkLeaves(w: World, j: Job, how: G.Commits, back: bool)
    requires j.WorkRun? && j.id in w.mirror
    ensures var g := G.EnsureOnBranch(w.git, BranchOf(j.id, w.mirror[j.id]), w.primary, true).0;
            var u := WorkOn(w, j, g, how, back);
            WorkedOn(w, u, j, how, back) && u == w.(git := u.git, log := u.log)
  {
  }

  lemma RunIs(w: World, k: nat, toBranch: bool, how: G.Commits, back: bool, end: AgentEnd, again: bool)
    requires k < |w.work| && w.work[k].WorkRun? && w.primary in w.git.branches && Current(w, w.work[k].id)
    ensures var j, v := w.work[k], RunAgent(w, k, toBranch, how, back, end, again);
            if !toBranch || w.git.merging.Some? then v == if again then w else w.(work := Drop(w.work, k))
            else
              var g := G.EnsureOnBranch(w.git, BranchOf(j.id, w.mirror[j.id]), w.primary, true).0;
              v == HandIn(WorkOn(w, j, g, how, back), k, j.intent.Implement? && how.CommitFailed?, end, again)
  {
    var j := w.work[k];
    NotStale(w, j.id);
    G.SwitchingMovesHead(w.git, BranchOf(j.id, w.mirror[j.id]), w.primary, toBranch);
  }

  /** A run of a post that is gone or has moved on is dropped; one that cannot be on its branch is tried
      again if recovery says so; one that was interrupted stays; one that failed stays if recovery says so; and
      one that ended hands its report in. */
  lemma RunLeaves(w: World, k: nat, toBranch: bool, how: G.Commits, back: bool, end: AgentEnd, again: bool)
    requires k < |w.work| && w.work[k].WorkRun? && w.primary in w.git.branches
    ensures var j, v := w.work[k], RunAgent(w, k, toBranch, how, back, end, again);
            var out := w.work[..k] + w.work[k + 1..];
            if !Current(w, j.id) then v == w.(work := out)
            else if !toBranch || w.git.merging.Some? then v == if again then w else w.(work := out)
            else
              && WorkedOn(w, v, j, how, back)
              && v == w.(git := v.git, log := v.log, work := v.work, results := v.results)
              && if end == Interrupted then v.work == w.work && v.results == w.results
                 else if end == Failed || (j.intent == Implement && how == G.CommitFailed) then
                   v.work == (if again then w.work else out) && v.results == w.results
                 else v.work == out && v.results == w.results + [Result(j.id, j.intent, end.report)]
  {
    var j := w.work[k];
    if j.id in w.mirror { NotStale(w, j.id); }
    if Current(w, j.id) {
      RunIs(w, k, toBranch, how, back, end, again);
      WorkLeaves(w, j, how, back);
      var g := G.EnsureOnBranch(w.git, BranchOf(j.id, w.mirror[j.id]), w.primary, true).0;
      HandInLeaves(w, WorkOn(w, j, g, how, back), k, how, end, again);
    }
  }

  // ----- a gate job

  /** When a branch lands, its conflicts resolved if need be. */
  lemma BranchLandsIff(g: G.State, b: G.Branch, primary: G.Branch, luck: Luck)
    requires primary in g.branches
    ensures LandBranch(g, b, primary, luck).1 <==>
            && luck.toPrimary && g.merging == None && b in g.branches && luck.land != G.Refused
            && (|| luck.land == G.Clean || g.At(b) <= g.At(primary) || g.At(primary) <= g.At(b)
                || luck.landResolved)
  {
  }

  /** When primary can be brought into a branch. */
  lemma BranchReadiesIff(g: G.State, b: G.Branch, primary: G.Branch, luck: Luck)
    requires primary in g.branches
    ensures ReadyBranch(g, b, primary, luck).1 <==>
            && luck.toBranch && g.merging == None && b in g.branches && luck.prepare != G.Refused
            && (|| luck.prepare == G.Clean || g.At(primary) <= g.At(b) || g.At(b) <= g.At(primary)
                || luck.prepareResolved)
  {
  }

  /** The branch as the job finds it, readied first if it asks for that. */
  function Readied(w: World, j: Job, b: G.Branch, luck: Luck): (G.State, bool)
    requires j.GateJob?
  {
    if j.prepare then ReadyBranch(w.git, b, w.primary, luck) else (w.git, true)
  }

  /** A gate job whose branch cannot be readied, or cannot be landed, parks its issue; one that is to merge
      records the landing and the closing; one that is only to prepare opens a fresh gate. */
  lemma GateJobLeaves(w: World, k: nat, luck: Luck, lucks: Lucks)
    requires k < |w.work| && w.work[k].GateJob? && w.work[k].id in w.mirror && w.work[k].id in w.posts
    ensures var j, v := w.work[k], RunGate(w, k, luck, lucks);
            var e := w.mirror[j.id];
            var b, now := BranchOf(j.id, e), w.posts[j.id].labels;
            var (g, ready) := Readied(w, j, b, luck);
            var (h, landed) := LandBranch(g, b, w.primary, luck);
            if !j.prepare && !j.merge then v == w.(work := Drop(w.work, k))
            else if !ready || (j.merge && !landed) then
              && Left(w, v, j.id, Relabel(now, e.labels, Blocked), [Said({}, [], [])])
              && v.log == w.log && v.git == (if ready then h else g)
            else if j.merge then v.log == w.log + [Landed(j.id, j.seen), Closed(j.id, h.At(b))]
            else
              && Left(w, v, j.id,
                      if StatusOf(e) == Some(AwaitingApproval) then now else Relabel(now, e.labels, AwaitingApproval),
                      [Said({MergeGate}, [w.apr + 1], [w.apr + 1])])
              && v.log == w.log && v.git == g
  {
    var j := w.work[k];
    var e := w.mirror[j.id];
    var b := BranchOf(j.id, e);
    var (g, ready) := Readied(w, j, b, luck);
    var w1 := w.(work := Drop(w.work, k), git := g);
    if !ready {
      LabelledAndSaid(w1, j.id, e, Ack, Blocked);
    } else if j.merge {
      MergeLeaves(w1, j.id, e, luck, lucks, j.seen);
    } else if j.prepare {
      GatingLeaves(w1, j.id, e);
    }
  }

  lemma MergeLeaves(w: World, i: Id, e: Tracker.Post, luck: Luck, lucks: Lucks, seen: Thread)
    requires i in w.posts
    ensures var v, b := MergeBranch(w, i, e, luck, lucks, seen), BranchOf(i, e);
            var (h, landed) := LandBranch(w.git, b, w.primary, luck);
            if landed then v.log == w.log + [Landed(i, seen), Closed(i, h.At(b))]
            else
              && Left(w, v, i, Relabel(w.posts[i].labels, e.labels, Blocked), [Said({}, [], [])])
              && v.log == w.log && v.git == h
  {
    var (h, landed) := LandBranch(w.git, BranchOf(i, e), w.primary, luck);
    if landed { LandingLogs(w, i, e, luck, lucks, seen); }
    else { LabelledAndSaid(w.(git := h), i, e, Ack, Blocked); }
  }

  lemma GatingLeaves(w: World, i: Id, e: Tracker.Post)
    requires i in w.posts
    ensures var v, now := OpenGate(w, i, e), w.posts[i].labels;
            && Left(w, v, i,
                    if StatusOf(e) == Some(AwaitingApproval) then now else Relabel(now, e.labels, AwaitingApproval),
                    [Said({MergeGate}, [w.apr + 1], [w.apr + 1])])
            && v.log == w.log && v.git == w.git
  {
    if StatusOf(e) == Some(AwaitingApproval) { SaidOnly(w, i, PureGate); }
    else { LabelledAndSaid(w, i, e, PureGate, AwaitingApproval); }
  }
}
