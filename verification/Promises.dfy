/** What the runtime promises, over every run from a fresh install. */
module Promises {
  import opened Basics
  import opened Tracker
  import opened Gates
  import opened Advance
  import opened Lifecycle
  import opened Safety
  import opened Runs
  import opened Sweeps
  import opened Landings
  import R = RollUp
  import G = Git

  /** Before world `k`, among the first `n` events, issue `i` was closed, and everything its branch held
      when the step that closed it began lies in `commits`. */
  ghost predicate LandedIn(ws: seq<World>, k: nat, n: nat, i: Id, commits: set<G.Commit>) {
    exists m: nat, e: nat :: e < n && ClosesAt(ws, k, m, e, i, commits)
  }

  ghost predicate ClosesAt(ws: seq<World>, k: nat, m: nat, e: nat, i: Id, commits: set<G.Commit>) {
    && m < k < |ws| && |ws[m].log| <= e < |ws[m + 1].log| && e < |ws[k].log|
    && ws[k].log[e].Closed? && ws[k].log[e].id == i
    && i in ws[m].born && ws[m].git.At(BranchOf(i, ws[m].born[i])) <= commits
  }

  lemma ClosedMeansLanded(ws: seq<World>, steps: seq<Step>, k: nat, n: nat, i: Id, commits: set<G.Commit>)
    requires IsRun(ws, steps) && k < |ws| && n <= |ws[k].log| && ClosedWithin(ws[k].log[..n], i, commits)
    ensures LandedIn(ws, k, n, i, commits)
  {
    var ev :| ev in ws[k].log[..n] && ev.Closed? && ev.id == i && ev.tip <= commits;
    var e: nat :| e < n && ws[k].log[e] == ev;
    var m := LoggedAt(ws, steps, k, e);
    assert ClosesAt(ws, k, m, e, i, commits);
  }

  /** World `m` is the last before `k` in which the post did not read done. */
  ghost predicate DoneSince(ws: seq<World>, m: nat, k: nat, i: Id) {
    && m < k < |ws| && !ReadsDone(ws[m].posts, i)
    && forall j :: m < j <= k ==> ReadsDone(ws[j].posts, i)
  }

  lemma JustClosed(ws: seq<World>, steps: seq<Step>, m: nat, i: Id) returns (e: nat)
    requires IsRun(ws, steps) && m < |steps| && !ReadsDone(ws[m].posts, i)
    requires ReadsDone(ws[m + 1].posts, i) && ws[m + 1].posts[i].tier == Issue
    ensures ClosesAt(ws, m + 1, m, e, i, ws[m + 1].git.At(ws[0].primary))
  {
    RunsKeepInv(ws, steps, m);
    RunsKeepInv(ws, steps, m + 1);
    assert StepAt(ws, steps, m);
    e := DoneComesByClosing(ws[m], steps[m], i);
    RunMoves(ws, steps, m);
    var ev := ws[m + 1].log[e];
    assert NewEventOk(ws[m], ev) && ev in ws[m + 1].log;
  }

  lemma ClosesAtLater(ws: seq<World>, steps: seq<Step>, k: nat, m: nat, e: nat, i: Id)
    requires IsRun(ws, steps) && k < |steps| && ClosesAt(ws, k, m, e, i, ws[k].git.At(ws[0].primary))
    ensures ClosesAt(ws, k + 1, m, e, i, ws[k + 1].git.At(ws[0].primary))
  {
    RunMoves(ws, steps, k);
    assert ws[k].git.At(ws[0].primary) <= ws[k + 1].git.At(ws[0].primary);
  }

  lemma NothingDoneAtFirst(w: World, i: Id)
    requires Init(w)
    ensures !ReadsDone(w.posts, i)
  {
  }

  /** Done means on primary: in every reachable state, an issue labelled `done` got that label in a step
      that closed it, and whatever its branch held when that step began is on primary. */
  lemma {:induction false} DoneMeansLanded(ws: seq<World>, steps: seq<Step>, k: nat, i: Id) returns (m: nat, e: nat)
    requires IsRun(ws, steps) && k < |ws| && ReadsDone(ws[k].posts, i) && ws[k].posts[i].tier == Issue
    ensures DoneSince(ws, m, k, i) && ClosesAt(ws, k, m, e, i, ws[k].git.At(ws[0].primary))
    decreases k
  {
    NothingDoneAtFirst(ws[0], i);
    if ReadsDone(ws[k - 1].posts, i) {
      TierStays(ws, steps, k - 1, i);
      m, e := DoneMeansLanded(ws, steps, k - 1, i);
      ClosesAtLater(ws, steps, k - 1, m, e, i);
    } else {
      m := k - 1;
      e := JustClosed(ws, steps, m, i);
    }
  }

  lemma TierStays(ws: seq<World>, steps: seq<Step>, k: nat, i: Id)
    requires IsRun(ws, steps) && k + 1 < |ws| && i in ws[k].posts && i in ws[k + 1].posts
    ensures ws[k].posts[i].tier == ws[k + 1].posts[i].tier
  {
    RunsKeepInv(ws, steps, k);
    RunMoves(ws, steps, k);
    assert SameFixed(ws[k].posts[i], ws[k].born[i]) && SameFixed(ws[k].born[i], ws[k + 1].born[i]);
    assert SameFixed(ws[k + 1].posts[i], ws[k + 1].born[i]);
  }

  /** Nothing starts before its dependencies: an implement run begins on a branch that already
      holds what every issue the post depends on was closed with. */
  lemma ImplementsOnTopOfItsDependencies(ws: seq<World>, steps: seq<Step>, k: nat, n: nat, d: Id)
    requires IsRun(ws, steps) && k < |ws| && n < |ws[k].log| && ws[k].log[n].ImplementRan?
    requires var v, id := ws[k], ws[k].log[n].id;
             id in v.born && Num(d) in v.born[id].deps && d in v.born && v.born[d].tier == Issue
    ensures LandedIn(ws, k, n, d, ws[k].log[n].base)
  {
    RunsKeepInv(ws, steps, k);
    assert EventOk(ws[k].cfg, ws[k].born, ws[k].log, n);
    ClosedMeansLanded(ws, steps, k, n, d, ws[k].log[n].base);
  }

  // ----- merges are signed

  /** The mirror shows a moment of the tracker's past. */
  lemma {:induction false} MirrorIsASnapshot(ws: seq<World>, steps: seq<Step>, k: nat, i: Id) returns (m: nat)
    requires IsRun(ws, steps) && k < |ws| && i in ws[k].mirror
    ensures m <= k && i in ws[m].posts && ws[m].posts[i] == ws[k].mirror[i]
    decreases k
  {
    assert StepAt(ws, steps, k - 1);
    MirrorAfter(ws[k - 1], steps[k - 1]);
    if ws[k].mirror == ws[k - 1].mirror { m := MirrorIsASnapshot(ws, steps, k - 1, i); } else { m := k - 1; }
  }

  /** At some moment before world `k` the post carried the thread `seen`. */
  ghost predicate Carried(ws: seq<World>, k: nat, i: Id, seen: Thread) {
    exists m: nat :: m < k < |ws| && i in ws[m].posts && ws[m].posts[i].thread == seen
  }

  /** With `merge_to_primary` off, every merge into primary comes from a job scheduled on a thread
      that the issue really carried at some earlier moment and that an approver had signed: no
      agent result alone causes a merge. */
  lemma MergesAreSigned(ws: seq<World>, steps: seq<Step>, k: nat, n: nat)
    requires IsRun(ws, steps) && k < |ws| && !ws[0].cfg.mergeToPrimary && n < |ws[k].log| && ws[k].log[n].Landed?
    ensures Signed(ws[0].cfg, ws[k].log[n].id, ws[k].log[n].seen)
    ensures Carried(ws, k, ws[k].log[n].id, ws[k].log[n].seen)
  {
    var v := ws[k];
    var ev := v.log[n];
    RunsKeepInv(ws, steps, k);
    assert EventOk(v.cfg, v.born, v.log, n);
    var q: nat :| q < n && v.log[..n][q] == Scheduled(ev.id, true, ev.seen);
    assert EventOk(v.cfg, v.born, v.log, q);
    var l := LoggedAt(ws, steps, k, q);
    var m := MirrorIsASnapshot(ws, steps, l, ev.id);
  }

  ghost predicate SignedLanding(ws: seq<World>, m: nat, n: nat)
    requires m + 1 < |ws|
  {
    && |ws[m].log| <= n < |ws[m + 1].log| && ws[m + 1].log[n].Landed?
    && Signed(ws[0].cfg, ws[m + 1].log[n].id, ws[m + 1].log[n].seen)
    && Carried(ws, m + 1, ws[m + 1].log[n].id, ws[m + 1].log[n].seen)
  }

  /** With `merge_to_primary` off, primary moves at a step only if a person pushes to it or the step
      lands a branch on an approver's signature. */
  lemma PrimaryMovesOnlyWhenSigned(ws: seq<World>, steps: seq<Step>, m: nat) returns (n: nat)
    requires IsRun(ws, steps) && m < |steps| && !ws[0].cfg.mergeToPrimary
    requires ws[m + 1].git.At(ws[0].primary) != ws[m].git.At(ws[0].primary)
    requires !(steps[m].HumanPush? && steps[m].branch == ws[0].primary)
    ensures SignedLanding(ws, m, n)
  {
    RunsKeepInv(ws, steps, m);
    assert StepAt(ws, steps, m);
    n := PrimaryMovesByLanding(ws[m], steps[m]);
    MergesAreSigned(ws, steps, m + 1, n);
  }

  // ----- old gates are void

  /** In every reachable state a command that names only the token of an earlier gate or request, on this
      post or any other, says nothing to the post's current gate, whatever the agents' words quote. */
  lemma OldTokensAreVoid(ws: seq<World>, steps: seq<Step>, k: nat, i: Id, marker: Marker, at: nat,
                         j: Id, l: nat, n: nat, c: Comment, v: Verb)
    requires IsRun(ws, steps) && k < |ws| && i in ws[k].posts
    requires var t := ws[k].posts[i].thread; LastMarked(t, marker) == Some(at) && at < |t| && t[at].platform
    requires marker == MergeGate || marker == WorkMergeGate
    requires Bears(ws[k].posts, j, l, n) && (j != i || l != at)
    requires forall token :: token in IdsOf(c.body, v) ==> token == Apr(n)
    ensures !Commands(ws[0].cfg, c, v, GateTargets(i, ws[k].posts[i].thread[at]))
  {
    RunsKeepInv(ws, steps, k);
    var gate := ws[k].posts[i].thread[at];
    LastMarkedIsLast(ws[k].posts[i].thread, marker);
    assert gate.tokens != [] ==> Bears(ws[k].posts, i, at, gate.tokens[0]);
  }

  // ----- roll-up

  lemma CloseAsRollUp(w: World, id: Id, e: Tracker.Post) returns (closed: R.Posts)
    requires id in w.posts && w.posts[id].tier == e.tier
    ensures id in closed && closed == w.posts[id := w.posts[id].(labels := closed[id].labels, open := false)]
    ensures CloseAsDone(w, id, e).posts == R.RollUpFrom(closed, id, e.tier).0
  {
    var w1 := SetLabel(w, id, e, Done);
    closed := w1.posts[id := w1.posts[id].(open := false)];
  }

  /** Closing an issue leaves no live parent overdue if none was. */
  lemma ClosingSettlesParents(w: World, id: Id, e: Tracker.Post)
    requires R.WellLinked(w.posts) && id in w.posts && w.posts[id].tier == e.tier == Issue
    requires forall p: Id :: !R.Overdue(w.posts, p)
    ensures forall p: Id :: !R.Overdue(CloseAsDone(w, id, e).posts, p)
  {
    var closed := CloseAsRollUp(w, id, e);
    R.ClosingKeepsParentsSettled(w.posts, id, closed[id].labels);
  }

  /** Every parent that closing an issue closes has only terminal children and becomes done exactly
      when some child is done. */
  lemma ParentsCloseRightly(w: World, id: Id, e: Tracker.Post, p: Id)
    requires R.WellLinked(w.posts) && id in w.posts && w.posts[id].tier == e.tier == Issue
    requires p in w.posts && p != id && p in CloseAsDone(w, id, e).posts
    requires CloseAsDone(w, id, e).posts[p] != w.posts[p]
    ensures R.RightlyClosed(w.posts, CloseAsDone(w, id, e).posts, p)
  {
    var closed := CloseAsRollUp(w, id, e);
    ClosedLinks(w, closed, id);
    R.RollUpClosesRightly(closed, id, Issue);
    assert R.RightlyClosed(closed, CloseAsDone(w, id, e).posts, p);
  }

  /** So the done issues of a ticket that is closed this way were all closed by a merge. */
  lemma ParentsCloseOnMergedIssues(w: World, id: Id, e: Tracker.Post, q: Id)
    requires Good(w) && id in w.posts && w.posts[id].tier == e.tier == Issue && WasClosed(w.log, id)
    requires var v := CloseAsDone(w, id, e); q in v.posts && v.posts[q].tier == Issue && R.IsDone(v.posts[q])
    ensures WasClosed(w.log, q)
  {
    CloseIsTame(w, id, e);
  }

  lemma ClosedLinks(w: World, closed: R.Posts, id: Id)
    requires R.WellLinked(w.posts) && id in w.posts && id in closed
    requires closed == w.posts[id := w.posts[id].(labels := closed[id].labels, open := false)]
    ensures R.WellLinked(closed)
  {
    assert Fixed(w.posts, closed);
    FixedKeepsLinks(w.posts, closed);
  }

  // ----- HEAD comes home

  predicate GitObeys(s: Step) {
    match s
    case GateStep(_, luck, lucks) => Homing(luck) && forall i :: i in lucks ==> Homing(lucks[i])
    case AgentStep(_, _, _, back, _, _) => back
    case _ => true
  }

  lemma PeopleLeaveHead(w: World, s: Step)
    requires Legal(w, s) && w.git.Settled(w.primary)
    requires !s.ControlStep? && !s.DigestStep? && !s.AgentStep? && !s.GateStep?
    ensures Take(w, s).git.Settled(w.primary)
  {
  }

  lemma StepComesHome(w: World, s: Step)
    requires Inv(w) && Legal(w, s) && w.git.Settled(w.primary) && GitObeys(s)
    ensures Take(w, s).git.Settled(w.primary)
  {
    if s.ControlStep? {
      ControlStaysInTheTracker(w, s.id, s.action);
    } else if s.DigestStep? {
      DigestStaysInTheTracker(w, s.k);
    } else if s.GateStep? {
      GateJobComesHome(w, s.k, s.luck, s.lucks);
    } else if s.AgentStep? {
      AgentRunComesHome(w, s.k, s.toBranch, s.how, s.end, s.again);
    } else {
      PeopleLeaveHead(w, s);
    }
  }

  /** While git lets the runtime step back and abort, HEAD is on primary with no half-finished
      merge after every step of every run, however its merges and agents fare. */
  lemma {:induction false} RunsComeHome(ws: seq<World>, steps: seq<Step>, k: nat)
    requires IsRun(ws, steps) && k < |ws| && forall s :: s in steps ==> GitObeys(s)
    ensures ws[k].git.Settled(ws[0].primary)
  {
    if k > 0 {
      RunsComeHome(ws, steps, k - 1);
      RunsKeepInv(ws, steps, k - 1);
      assert StepAt(ws, steps, k - 1) && steps[k - 1] in steps;
      StepComesHome(ws[k - 1], steps[k - 1]);
    }
  }
}
