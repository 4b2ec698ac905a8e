/** The runtime itself: handlers that work on the tracker, the mirror, the queues and the git
    repository in place, each proved to do exactly what its lifecycle step says. */
module Runtime {
  import opened Basics
  import opened Tracker
  import opened Gates
  import opened Advance
  import opened Deps
  import opened Lifecycle
  import R = RollUp
  import G = Git

  lemma {:induction false} WithoutOneMore(now: seq<Status>, seen: seq<Status>, x: Status)
    ensures Without(Without(now, seen), [x]) == Without(now, seen + [x])
  {
    if now != [] {
      WithoutOneMore(now[1..], seen, x);
      if now[0] !in seen { assert Without(now, seen)[1..] == Without(now[1..], seen); }
    }
  }

  lemma {:induction false} WithoutNone(now: seq<Status>)
    ensures Without(now, []) == now
  {
    if now != [] { WithoutNone(now[1..]); }
  }

  lemma {:induction false} SpreadGates(w: World, front: seq<Id>, i: Id, exclude: Id)
    ensures OpenGates(w, front + [i], exclude) ==
            OpenGates(w, front, exclude) + if i != exclude && AtOpenGate(w, i) then [i] else []
  {
    assert (front + [i])[..|front|] == front;
  }

  lemma SweepOneMore(w: World, front: seq<Id>, i: Id, lucks: Lucks)
    ensures var w1 := Sweep(w, front, lucks);
            Sweep(w, front + [i], lucks) ==
            if i in w1.mirror then ReadyAndGate(SayNote(w1, i, Ack), i, w1.mirror[i], LuckOf(lucks, i)) else w1
  {
    assert (front + [i])[..|front|] == front;
  }

  lemma {:induction false} WriteOneMore(w: World, id: Id, e: Post, writes: seq<Write>, k: nat)
    requires k < |writes|
    ensures ApplyWrites(w, id, e, writes[..k + 1]) == ApplyWrite(ApplyWrites(w, id, e, writes[..k]), id, e, writes[k])
    decreases k
  {
    if k > 0 {
      var rest := writes[1..];
      WriteOneMore(ApplyWrite(w, id, e, writes[0]), id, e, rest, k - 1);
      assert writes[..k + 1][1..] == rest[..k] && writes[..k][1..] == rest[..k - 1];
    } else {
      assert writes[..1] == [writes[0]] && writes[..1][1..] == [];
    }
  }

  class Runtime {
    const cfg: Config
    const primary: G.Branch
    const repo: G.Repo
    var posts: R.Posts
    var order: seq<Id>
    var mirror: R.Posts
    var work: seq<Job>
    var results: seq<Result>
    var apr: nat
    ghost var log: seq<Event>
    ghost var born: R.Posts

    ghost function Now(): World
      reads this, repo
    {
      World(cfg, primary, posts, born, order, mirror, repo.Now(), work, results, apr, log)
    }

    ghost predicate Valid() reads this, repo { repo.Valid() }

    constructor (cfg: Config, primary: G.Branch, posts: R.Posts, order: seq<Id>)
      ensures Valid() && fresh(repo)
      ensures Now() == World(cfg, primary, posts, posts, order, map[],
                             G.State(map[primary := {}], primary, None, 0), [], [], 0, [])
    {
      this.cfg, this.primary, this.posts, this.order := cfg, primary, posts, order;
      mirror, work, results, apr, log, born := map[], [], [], 0, [], posts;
      repo := new G.Repo(primary);
    }

    predicate MovedOn(id: Id, e: Post)
      reads this
    {
      id in posts && StatusOf(posts[id]).Some? && StatusOf(posts[id]) != StatusOf(e)
    }

    // ----- remote writes

    method SetStatus(id: Id, e: Post, s: Status)
      modifies this`posts
      ensures Now() == SetLabel(old(Now()), id, e, s)
    {
      if id !in posts { return; }
      var labels := posts[id].labels;
      WithoutNone(labels);
      for i := 0 to |e.labels|
        invariant posts == old(posts) && labels == Without(posts[id].labels, e.labels[..i])
      {
        assert e.labels[..i + 1] == e.labels[..i] + [e.labels[i]];
        WithoutOneMore(posts[id].labels, e.labels[..i], e.labels[i]);
        labels := Without(labels, [e.labels[i]]);
      }
      assert e.labels[..|e.labels|] == e.labels;
      if s !in labels { labels := labels + [s]; }
      posts := posts[id := posts[id].(labels := labels)];
    }

    method NextApr() returns (n: nat)
      modifies this`apr
      ensures n == apr == old(apr) + 1
    {
      n := apr + 1;
      apr := n;
    }

    method Comment(id: Id, n: Note)
      modifies this`posts, this`apr
      ensures Now() == SayNote(old(Now()), id, n)
    {
      var token := apr + 1;
      if Mints(n) { token := NextApr(); }
      if id in posts {
        posts := posts[id := posts[id].(thread := posts[id].thread + [NoteComment(n, token)])];
      }
    }

    method RollUpFrom(child: Id, tier: Tier)
      modifies this`posts
      ensures posts == R.RollUpFrom(old(posts), child, tier).0
      decreases R.Rank(tier)
    {
      if child !in posts || R.LinkOf(posts[child], tier).None? { return; }
      var pid := R.LinkOf(posts[child], tier).value;
      if pid !in posts || !R.Live(posts[pid]) { return; }
      var kids := R.Children(posts, tier, pid);
      if kids == {} || exists q :: q in kids && !R.IsTerminal(posts[q]) { return; }
      posts := posts[pid := R.CloseParent(posts[pid], R.Verdict(posts, kids))];
      RollUpFrom(pid, R.UpTier(tier));
    }

    method CloseIssueDone(id: Id, e: Post)
      modifies this`posts
      ensures Now() == CloseAsDone(old(Now()), id, e)
    {
      SetStatus(id, e, Done);
      if id in posts {
        posts := posts[id := posts[id].(open := false)];
        RollUpFrom(id, e.tier);
      }
    }

    method Apply(id: Id, e: Post, writes: seq<Write>)
      modifies this`posts, this`apr
      ensures Now() == ApplyWrites(old(Now()), id, e, writes)
    {
      for i := 0 to |writes|
        invariant Now() == ApplyWrites(old(Now()), id, e, writes[..i])
      {
        WriteOneMore(old(Now()), id, e, writes, i);
        match writes[i] {
          case SetStatus(s) => SetStatus(id, e, s);
          case Say(n) => Comment(id, n);
          case CloseDone => CloseIssueDone(id, e);
        }
      }
      assert writes[..|writes|] == writes;
    }

    // ----- the control lane

    method HasPending(id: Id, gate: bool) returns (found: bool)
      ensures found == if gate then HasGateJob(work, id) else HasWorkRun(work, id)
    {
      found := false;
      for i := 0 to |work|
        invariant !found
        invariant forall j :: j in work[..i] ==> j.id != id || j.GateJob? != gate
      {
        if work[i].id == id && work[i].GateJob? == gate { return true; }
      }
    }

    method ScheduleGateAction(id: Id, e: Post, t: Transition)
      modifies this`work, this`log
      ensures Now() == ScheduleGate(old(Now()), id, e, t)
    {
      if !(t.prepare || t.merge) { return; }
      var pending := HasPending(id, true);
      if pending { return; }
      work := work + [GateJob(id, t.prepare, t.merge, e.thread)];
      log := log + [Scheduled(id, t.merge, e.thread)];
    }

    method ScheduleWorkRun(id: Id, intent: Intent)
      modifies this`work
      ensures Now() == ScheduleRun(old(Now()), id, intent)
    {
      var pending := HasPending(id, false);
      if !pending { work := work + [WorkRun(id, intent)]; }
    }

    method Carry(id: Id, e: Post, t: Transition)
      modifies this`posts, this`apr, this`work, this`log
      ensures Now() == Resolve(old(Now()), id, e, t)
    {
      Apply(id, e, t.writes);
      ScheduleGateAction(id, e, t);
    }

    method StartWork(id: Id, e: Post)
      modifies this`posts, this`apr, this`work
      ensures Now() == StartIssue(old(Now()), id, e)
    {
      if !e.agentAssigned {
        if !cfg.autoAssign { return; }
        if id in posts { posts := posts[id := posts[id].(agentAssigned := true)]; }
      }
      if !cfg.autoImplement && SignalledBy(cfg, id, e, ToApprove, ThumbsUp) == [] {
        SetStatus(id, e, AwaitingApproval);
        Comment(id, AskGate);
        return;
      }
      var cancelled, pending := ClassifyDeps(mirror, e);
      if cancelled != [] {
        SetStatus(id, e, Blocked);
        Comment(id, Ack);
      } else if pending == [] {
        ScheduleWorkRun(id, Implement);
      }
    }

    method RunWork(id: Id, action: Action)
      modifies this`posts, this`apr, this`work, this`log
      ensures Now() == Control(old(Now()), id, action)
    {
      if id !in mirror { return; }
      var e := mirror[id];
      var stale := MovedOn(id, e);
      var status := StatusOf(e);
      if status == Some(AwaitingApproval) {
        var prompt := None;
        if id in posts { prompt := LatestMarkerComment(posts[id].thread, RejectOptions); }
        Carry(id, e, ResolveApproval(cfg, id, e, action, stale, prompt.Some?));
      } else if status == Some(Blocked) {
        Carry(id, e, ResolveBlocked(cfg, id, e, action, stale));
      } else if status == Some(AwaitingMerge) {
        Carry(id, e, ResolveAwaitingMerge(cfg, id, e, action, stale));
      } else if !e.draft && !stale {
        if e.tier == Issue && (status == None || status == Some(Todo)) {
          StartWork(id, e);
        } else if status == Some(InReview) {
          ScheduleWorkRun(id, Review);
        }
      }
    }

    method ProcessWorkResult(k: nat)
      requires k < |results| && (results[k].intent.Implement? <==> results[k].report.Implemented?)
      modifies this`posts, this`apr, this`work, this`log, this`results
      ensures Now() == Digest(old(Now()), k)
    {
      var r := results[k];
      results := results[..k] + results[k + 1..];
      if r.id !in mirror || MovedOn(r.id, mirror[r.id]) { return; }
      var e := mirror[r.id];
      var t := if r.intent.Implement? then AfterImplement(cfg, e, r.report) else AfterReview(cfg, e, r.report);
      if r.intent.Review? && Write.SetStatus(Todo) in t.writes { log := log + [Bounced(r.id)]; }
      Carry(r.id, e, t);
    }

    // ----- the work lane

    method WorkOnBranch(j: Job, how: G.Commits, back: bool)
      requires Valid() && j.WorkRun?
      modifies this`log, repo
      ensures Valid()
      ensures Now() == WorkOn(old(Now()), j, old(repo.Now()), how, back)
    {
      if j.intent.Implement? {
        log := log + [ImplementRan(j.id, repo.Now().At(repo.head))];
        repo.Commit(how);
      }
      var _ := repo.CheckoutRef(primary, back);
    }

    method HandInJob(k: nat, failed: bool, end: AgentEnd, again: bool)
      requires k < |work| && work[k].WorkRun?
      modifies this`work, this`results
      ensures Now() == HandIn(old(Now()), k, failed, end, again)
    {
      if end.Interrupted? { return; }
      if end.Failed? || failed {
        if !again { work := work[..k] + work[k + 1..]; }
        return;
      }
      results := results + [Result(work[k].id, work[k].intent, end.report)];
      work := work[..k] + work[k + 1..];
    }

    method DropJob(k: nat)
      requires k < |work|
      modifies this`work
      ensures work == Drop(old(work), k)
    {
      work := work[..k] + work[k + 1..];
    }

    method RunOnBranch(k: nat, toBranch: bool, how: G.Commits, back: bool, end: AgentEnd, again: bool)
      requires Valid() && k < |work| && work[k].WorkRun? && work[k].id in mirror
      modifies this`work, this`log, this`results, repo
      ensures Valid()
      ensures var j := old(work[k]);
              var (g, ok) := G.EnsureOnBranch(old(repo.Now()), BranchOf(j.id, mirror[j.id]), primary, toBranch);
              Now() == if ok then
                  HandIn(WorkOn(old(Now()), j, g, how, back), k, j.intent.Implement? && how.CommitFailed?, end, again)
                       else if again then old(Now()) else old(Now()).(work := Drop(old(work), k))
    {
      var j := work[k];
      var ok := repo.EnsureOn(BranchOf(j.id, mirror[j.id]), primary, toBranch);
      if ok {
        WorkOnBranch(j, how, back);
        HandInJob(k, j.intent.Implement? && how.CommitFailed?, end, again);
      } else if !again {
        DropJob(k);
      }
    }

    method RunAgentJob(k: nat, toBranch: bool, how: G.Commits, back: bool, end: AgentEnd, again: bool)
      requires Valid() && k < |work| && work[k].WorkRun?
      modifies this`work, this`log, this`results, repo
      ensures Valid()
      ensures Now() == RunAgent(old(Now()), k, toBranch, how, back, end, again)
    {
      var j := work[k];
      if j.id !in mirror || MovedOn(j.id, mirror[j.id]) {
        DropJob(k);
      } else {
        RunOnBranch(k, toBranch, how, back, end, again);
      }
    }

    method ParkUnmerged(id: Id, e: Post)
      modifies this`posts, this`apr
      ensures Now() == Park(old(Now()), id, e)
    {
      SetStatus(id, e, Blocked);
      Comment(id, Ack);
    }

    method ReadyInPlace(b: G.Branch, luck: Luck) returns (ok: bool)
      requires Valid()
      modifies repo
      ensures Valid()
      ensures (repo.Now(), ok) == ReadyBranch(old(repo.Now()), b, primary, luck)
    {
      var r := repo.PrepareBranch(b, primary, luck.toBranch, luck.prepare, luck.back);
      if r.Merged? { return true; }
      ok := false;
      if r.Conflicted? {
        ok := repo.Complete(luck.prepareResolved);
        if !ok { repo.Abort(luck.prepareAborted); }
      }
      var _ := repo.CheckoutRef(primary, luck.back);
    }

    method Prepare(id: Id, e: Post, luck: Luck) returns (ok: bool)
      requires Valid()
      modifies this`posts, this`apr, repo
      ensures Valid()
      ensures (Now(), ok) == Ready(old(Now()), id, e, luck)
    {
      ok := ReadyInPlace(BranchOf(id, e), luck);
      if !ok { ParkUnmerged(id, e); }
    }

    method OpenMergeGate(id: Id, e: Post)
      modifies this`posts, this`apr
      ensures Now() == OpenGate(old(Now()), id, e)
    {
      if StatusOf(e) != Some(AwaitingApproval) { SetStatus(id, e, AwaitingApproval); }
      Comment(id, PureGate);
    }

    method OpenGateIds(exclude: Id) returns (ids: seq<Id>)
      ensures ids == OpenGates(Now(), order, exclude)
    {
      ids := [];
      for k := 0 to |order|
        invariant ids == OpenGates(Now(), order[..k], exclude)
      {
        var i := order[k];
        assert order[..k + 1] == order[..k] + [i];
        SpreadGates(Now(), order[..k], i, exclude);
        if && i != exclude && i in posts && posts[i].open && posts[i].tier == Issue
           && StatusOf(posts[i]) == Some(AwaitingApproval) && i in mirror {
          var gate := LatestMarkerComment(mirror[i].thread, MergeGate);
          if gate.Some? { ids := ids + [i]; }
        }
      }
      assert order[..|order|] == order;
    }

    method ReprepareAll(ids: seq<Id>, lucks: Lucks)
      requires Valid()
      modifies this`posts, this`apr, repo
      ensures Valid()
      ensures Now() == Sweep(old(Now()), ids, lucks)
    {
      for k := 0 to |ids|
        invariant Valid()
        invariant Now() == Sweep(old(Now()), ids[..k], lucks)
      {
        assert ids[..k + 1] == ids[..k] + [ids[k]];
        SweepOneMore(old(Now()), ids[..k], ids[k], lucks);
        if ids[k] in mirror {
          Comment(ids[k], Ack);
          var ok := Prepare(ids[k], mirror[ids[k]], LuckOf(lucks, ids[k]));
          if ok { OpenMergeGate(ids[k], mirror[ids[k]]); }
        }
      }
      assert ids[..|ids|] == ids;
    }

    method LandInPlace(b: G.Branch, luck: Luck) returns (ok: bool)
      requires Valid()
      modifies repo
      ensures Valid()
      ensures (repo.Now(), ok) == LandBranch(old(repo.Now()), b, primary, luck)
    {
      var r := repo.LandBranch(b, primary, luck.toPrimary, luck.land);
      ok := r.Merged?;
      if r.Conflicted? {
        ok := repo.Complete(luck.landResolved);
        if !ok { repo.Abort(luck.landAborted); }
      }
    }

    method RecordMerge(id: Id, e: Post, ghost tip: set<G.Commit>, ghost seen: Thread)
      modifies this`posts, this`apr, this`log
      ensures Now() == Record(old(Now()), id, e, tip, seen)
    {
      Comment(id, Ack);
      log := log + [Landed(id, seen), Closed(id, tip)];
      CloseIssueDone(id, e);
    }

    method ExecuteMerge(id: Id, e: Post, luck: Luck, lucks: Lucks, ghost seen: Thread)
      requires Valid()
      modifies this`posts, this`apr, this`log, repo
      ensures Valid()
      ensures Now() == MergeBranch(old(Now()), id, e, luck, lucks, seen)
    {
      var ok := LandInPlace(BranchOf(id, e), luck);
      if !ok {
        ParkUnmerged(id, e);
        return;
      }
      RecordMerge(id, e, repo.Now().At(BranchOf(id, e)), seen);
      var ids := OpenGateIds(id);
      ReprepareAll(ids, lucks);
    }

    method RunGateJob(k: nat, luck: Luck, lucks: Lucks)
      requires Valid() && k < |work| && work[k].GateJob?
      modifies this`posts, this`apr, this`work, this`log, repo
      ensures Valid()
      ensures Now() == RunGate(old(Now()), k, luck, lucks)
    {
      var j := work[k];
      work := work[..k] + work[k + 1..];
      if j.id !in mirror { return; }
      var e := mirror[j.id];
      if j.prepare {
        var ok := Prepare(j.id, e, luck);
        if !ok { return; }
        if !j.merge {
          OpenMergeGate(j.id, e);
          return;
        }
      }
      if j.merge { ExecuteMerge(j.id, e, luck, lucks, j.seen); }
    }

    // ----- sync

    method OpenJobs() returns (kept: seq<Job>)
      ensures kept == KeepOpen(Now(), work)
    {
      kept := [];
      for k := 0 to |work|
        invariant kept == KeepOpen(Now(), work[..k])
      {
        assert work[..k + 1][..k] == work[..k];
        var j := work[k];
        if j.id !in mirror || (j.id in posts && (!mirror[j.id].open || posts[j.id].open)) { kept := kept + [j]; }
      }
      assert work[..|work|] == work;
    }

    method OpenResults() returns (kept: seq<Result>)
      ensures kept == KeepResults(Now(), results)
    {
      kept := [];
      for k := 0 to |results|
        invariant kept == KeepResults(Now(), results[..k])
      {
        assert results[..k + 1][..k] == results[..k];
        var r := results[k];
        if r.id !in mirror || (r.id in posts && (!mirror[r.id].open || posts[r.id].open)) { kept := kept + [r]; }
      }
      assert results[..|results|] == results;
    }

    method SyncMirror()
      modifies this`mirror, this`work, this`results
      ensures Now() == Sync(old(Now()))
    {
      var jobs := OpenJobs();
      var undigested := OpenResults();
      mirror, work, results := posts, jobs, undigested;
    }
  }
}
