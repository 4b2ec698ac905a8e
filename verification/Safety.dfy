/** What every run of the lifecycle keeps: done means landed on primary, and an implementation
    starts only on top of what it depends on. */
module Safety {
  import opened Basics
  import opened Tracker
  import opened Advance
  import opened Branches
  import opened Lifecycle
  import R = RollUp
  import G = Git

  type Log = seq<Event>

  // ----- what is claimed about a log

  ghost predicate WasClosed(log: Log, i: Id) {
    exists ev :: ev in log && ev.Closed? && ev.id == i
  }

  ghost predicate ClosedWithin(log: Log, i: Id, commits: set<G.Commit>) {
    exists ev :: ev in log && ev.Closed? && ev.id == i && ev.tip <= commits
  }

  /** Every numeric dependency of `e` that is an issue has been closed. */
  ghost predicate DepsClosed(posts: R.Posts, e: Tracker.Post, log: Log) {
    forall d: Id :: Num(d) in e.deps ==> d in posts && (posts[d].tier == Issue ==> WasClosed(log, d))
  }

  /** Every numeric dependency of `e` that is an issue has been closed on a tip that lies in `commits`. */
  ghost predicate LaidDown(posts: R.Posts, e: Tracker.Post, log: Log, commits: set<G.Commit>) {
    forall d: Id :: Num(d) in e.deps ==> d in posts && (posts[d].tier == Issue ==> ClosedWithin(log, d, commits))
  }

  // ----- the invariant

  ghost predicate SameFixed(a: Tracker.Post, b: Tracker.Post) {
    && a.tier == b.tier && a.title == b.title && a.deps == b.deps
    && a.ticket == b.ticket && a.epic == b.epic && a.parent == b.parent
  }

  ghost predicate Fixed(a: R.Posts, b: R.Posts) {
    a.Keys == b.Keys && forall p: Id :: p in a ==> SameFixed(a[p], b[p])
  }

  /** Every post of `a` is one of `b`, with the same fixed parts. */
  ghost predicate Among(a: R.Posts, b: R.Posts) {
    forall p: Id :: p in a ==> p in b && SameFixed(a[p], b[p])
  }

  ghost predicate Shape(w: World) {
    && Among(w.mirror, w.born) && Among(w.posts, w.born)
    && (forall p: Id :: p in w.born ==> WellNamed(p, w.born[p]))
    && (forall p: Id :: p in w.posts ==> p in w.order)
    && R.WellLinked(w.posts)
    && w.git.Valid() && w.primary in w.git.branches && !EndsInNumber(w.primary)
  }

  /** A done issue was closed; a post in review has a branch. */
  ghost predicate LabelsOk(m: R.Posts, log: Log, g: G.State) {
    forall i: Id :: i in m ==>
      && (m[i].tier == Issue && Done in m[i].labels ==> WasClosed(log, i))
      && (InReview in m[i].labels ==> BranchOf(i, m[i]) in g.branches)
  }

  /** Comment `k` on post `i` is a gate or request whose own APR number is `n`. Comments that merely
      pass on an agent's words may quote any number. */
  ghost predicate Bears(posts: R.Posts, i: Id, k: nat, n: nat) {
    i in posts && k < |posts[i].thread| && Asks(posts[i].thread[k]) && n in posts[i].thread[k].tokens
  }

  /** No APR number was minted twice, on any post. */
  ghost predicate TokensOk(posts: R.Posts, apr: nat) {
    && (forall i: Id, k: nat, n: nat :: Bears(posts, i, k, n) ==> n <= apr)
    && (forall i: Id, k: nat, j: Id, l: nat, n: nat :: Bears(posts, i, k, n) && Bears(posts, j, l, n) ==>
        i == j && k == l)
  }

  ghost predicate Good(w: World) {
    Shape(w) && LabelsOk(w.posts, w.log, w.git) && LabelsOk(w.mirror, w.log, w.git) && TokensOk(w.posts, w.apr)
  }

  ghost predicate TipsLanded(log: Log, g: G.State, primary: G.Branch) {
    forall ev :: ev in log && ev.Closed? ==> ev.tip <= g.At(primary)
  }

  /** What must have come before an event for it to happen. */
  ghost predicate EventOk(cfg: Config, posts: R.Posts, log: Log, k: nat)
    requires k < |log|
  {
    match log[k]
    case ImplementRan(id, base) => id in posts && LaidDown(posts, posts[id], log[..k], base)
    case Scheduled(id, merge, seen) => merge && !cfg.mergeToPrimary ==> Signed(cfg, id, seen)
    case Landed(id, seen) => Scheduled(id, true, seen) in log[..k]
    case Closed(id, _) => k > 0 && log[k - 1].Landed? && log[k - 1].id == id
    case Bounced(_) => true
  }

  ghost predicate History(cfg: Config, posts: R.Posts, log: Log) {
    forall k :: 0 <= k < |log| ==> EventOk(cfg, posts, log, k)
  }

  /** A branch that looks like an issue's is the branch of a post. */
  ghost predicate BranchesKnown(w: World) {
    forall b :: b in w.git.branches && EndsInNumber(b) ==> exists i: Id :: i in w.born && b == BranchOf(i, w.born[i])
  }

  ghost predicate BranchesLaidDown(w: World) {
    forall i: Id :: i in w.born && w.born[i].tier == Issue && BranchOf(i, w.born[i]) in w.git.branches ==>
      LaidDown(w.born, w.born[i], w.log, w.git.At(BranchOf(i, w.born[i])))
  }

  ghost predicate JobOk(w: World, j: Job) {
    match j
    case WorkRun(id, Implement) =>
      id in w.born && w.born[id].tier == Issue && DepsClosed(w.born, w.born[id], w.log)
    case WorkRun(id, Review) => id in w.born && BranchOf(id, w.born[id]) in w.git.branches
    case GateJob(id, _, merge, seen) => merge ==> Scheduled(id, true, seen) in w.log
  }

  ghost predicate ResultOk(w: World, r: Result) {
    r.id in w.born && BranchOf(r.id, w.born[r.id]) in w.git.branches
  }

  ghost predicate Inv(w: World) {
    && Good(w) && TipsLanded(w.log, w.git, w.primary) && History(w.cfg, w.born, w.log)
    && BranchesKnown(w) && BranchesLaidDown(w)
    && (forall j :: j in w.work ==> JobOk(w, j))
    && (forall r :: r in w.results ==> ResultOk(w, r))
  }

  // ----- steps that only write the tracker, grow git and close issues

  ghost predicate Tame(w: World, v: World) {
    && v.cfg == w.cfg && v.primary == w.primary && v.order == w.order && v.mirror == w.mirror
    && v.work == w.work && v.results == w.results && v.born == w.born
    && Fixed(w.posts, v.posts) && G.Kept(w.git, v.git)
    && w.log <= v.log
  }

  lemma TameTransitive(u: World, v: World, w: World)
    requires Tame(u, v) && Tame(v, w)
    ensures Tame(u, w)
  {
  }

  lemma LabelsGrow(m: R.Posts, log: Log, g: G.State, log': Log, g': G.State)
    requires LabelsOk(m, log, g) && log <= log' && G.Grows(g, g')
    ensures LabelsOk(m, log', g')
  {
    forall i: Id | WasClosed(log, i) ensures WasClosed(log', i) {
      var ev :| ev in log && ev.Closed? && ev.id == i;
      assert ev in log';
    }
  }

  lemma LaidDownGrows(posts: R.Posts, posts': R.Posts, e: Tracker.Post, e': Tracker.Post, log: Log, log': Log,
                      c: set<G.Commit>, c': set<G.Commit>)
    requires LaidDown(posts, e, log, c) && e.deps == e'.deps && log <= log' && c <= c'
    requires forall p: Id :: p in posts ==> p in posts' && posts'[p].tier == posts[p].tier
    ensures LaidDown(posts', e', log', c')
  {
    forall d: Id | Num(d) in e'.deps
      ensures d in posts' && (posts'[d].tier == Issue ==> ClosedWithin(log', d, c'))
    {
      if posts[d].tier == Issue {
        var ev :| ev in log && ev.Closed? && ev.id == d && ev.tip <= c;
        assert ev in log';
      }
    }
  }

  lemma DepsClosedGrows(posts: R.Posts, posts': R.Posts, e: Tracker.Post, e': Tracker.Post, log: Log, log': Log)
    requires DepsClosed(posts, e, log) && e.deps == e'.deps && log <= log'
    requires forall p: Id :: p in posts ==> p in posts' && posts'[p].tier == posts[p].tier
    ensures DepsClosed(posts', e', log')
  {
    forall d: Id | Num(d) in e'.deps ensures d in posts' && (posts'[d].tier == Issue ==> WasClosed(log', d)) {
      if posts[d].tier == Issue {
        var ev :| ev in log && ev.Closed? && ev.id == d;
        assert ev in log';
      }
    }
  }

  /** Closed issues are landed, so whatever contains primary contains what they were closed on. */
  lemma ClosedIsWithinPrimary(w: World, e: Tracker.Post, commits: set<G.Commit>)
    requires TipsLanded(w.log, w.git, w.primary) && DepsClosed(w.born, e, w.log) && w.git.At(w.primary) <= commits
    ensures LaidDown(w.born, e, w.log, commits)
  {
    forall d: Id | Num(d) in e.deps
      ensures d in w.born && (w.born[d].tier == Issue ==> ClosedWithin(w.log, d, commits))
    {
      if w.born[d].tier == Issue {
        var ev :| ev in w.log && ev.Closed? && ev.id == d;
        assert ev.tip <= commits;
      }
    }
  }

  lemma {:induction false} WithoutKeeps(now: seq<Status>, seen: seq<Status>)
    ensures forall l :: l in Without(now, seen) ==> l in now
  {
    if now != [] { WithoutKeeps(now[1..], seen); }
  }

  lemma RelabelAdds(now: seq<Status>, seen: seq<Status>, s: Status)
    ensures forall l :: l in Relabel(now, seen, s) ==> l in now || l == s
    ensures s in Relabel(now, seen, s)
  {
    WithoutKeeps(now, seen);
  }

  lemma RelabelAll(labels: seq<Status>, s: Status)
    ensures Relabel(labels, labels, s) == [s]
  {
    WithoutAll(labels, labels);
  }

  lemma {:induction false} WithoutAll(now: seq<Status>, seen: seq<Status>)
    requires forall l :: l in now ==> l in seen
    ensures Without(now, seen) == []
  {
    if now != [] { WithoutAll(now[1..], seen); }
  }

  /** Writes that put no new APR number on the platform's comments keep the numbers distinct. */
  lemma NoNewTokens(posts: R.Posts, posts': R.Posts, apr: nat)
    requires TokensOk(posts, apr)
    requires forall i: Id, k: nat, n: nat :: Bears(posts', i, k, n) ==> Bears(posts, i, k, n)
    ensures TokensOk(posts', apr)
  {
  }

  lemma MintingKeepsTokens(posts: R.Posts, posts': R.Posts, apr: nat, id: Id, at: nat)
    requires TokensOk(posts, apr)
    requires forall i: Id, k: nat, n: nat :: Bears(posts', i, k, n) ==>
               Bears(posts, i, k, n) || (i == id && k == at && n == apr + 1)
    ensures TokensOk(posts', apr + 1)
  {
  }

  lemma SayKeepsTokens(w: World, id: Id, n: Note)
    requires TokensOk(w.posts, w.apr)
    ensures var v := SayNote(w, id, n); TokensOk(v.posts, v.apr)
  {
    var v := SayNote(w, id, n);
    if id in w.posts && Mints(n) {
      MintingKeepsTokens(w.posts, v.posts, w.apr, id, |w.posts[id].thread|);
    } else {
      forall i: Id, k: nat, m: nat | Bears(v.posts, i, k, m) ensures Bears(w.posts, i, k, m) {
        assert i == id ==> Asks(v.posts[i].thread[k]);
      }
    }
  }

  /** A write that changes one post, adds no forbidden label, and leaves its fixed parts alone. */
  ghost predicate PostWrite(w: World, v: World, id: Id) {
    && id in w.posts && id in v.posts && v == w.(posts := w.posts[id := v.posts[id]], apr := v.apr)
    && SameFixed(w.posts[id], v.posts[id])
  }

  lemma PostWriteKeepsLabels(w: World, v: World, id: Id)
    requires PostWrite(w, v, id) && LabelsOk(w.posts, w.log, w.git)
    requires v.posts[id].tier == Issue && Done in v.posts[id].labels && Done !in w.posts[id].labels ==>
               WasClosed(w.log, id)
    requires InReview in v.posts[id].labels && InReview !in w.posts[id].labels ==>
               BranchOf(id, w.posts[id]) in w.git.branches
    ensures LabelsOk(v.posts, v.log, v.git)
  {
  }

  lemma PostWriteKeepsShape(w: World, v: World, id: Id)
    requires PostWrite(w, v, id) && Shape(w)
    ensures Fixed(w.posts, v.posts) && Shape(v)
  {
    assert Fixed(w.posts, v.posts);
    FixedKeepsShape(w, v.posts);
  }

  lemma PostWriteIsTame(w: World, v: World, id: Id)
    requires Good(w) && PostWrite(w, v, id) && TokensOk(v.posts, v.apr)
    requires v.posts[id].tier == Issue && Done in v.posts[id].labels && Done !in w.posts[id].labels ==>
               WasClosed(w.log, id)
    requires InReview in v.posts[id].labels && InReview !in w.posts[id].labels ==>
               BranchOf(id, w.posts[id]) in w.git.branches
    ensures Tame(w, v) && Good(v)
  {
    PostWriteKeepsShape(w, v, id);
    PostWriteKeepsLabels(w, v, id);
  }

  lemma SetLabelIsTame(w: World, id: Id, e: Tracker.Post, s: Status)
    requires Good(w)
    requires s == Done && id in w.posts && w.posts[id].tier == Issue ==> WasClosed(w.log, id)
    requires s == InReview && id in w.posts ==> BranchOf(id, w.posts[id]) in w.git.branches
    ensures var v := SetLabel(w, id, e, s); Tame(w, v) && Good(v) && v.log == w.log && v.git == w.git
  {
    if id in w.posts {
      RelabelAdds(w.posts[id].labels, e.labels, s);
      NoNewTokens(w.posts, SetLabel(w, id, e, s).posts, w.apr);
      PostWriteIsTame(w, SetLabel(w, id, e, s), id);
    }
  }

  lemma SayIsTame(w: World, id: Id, n: Note)
    requires Good(w)
    ensures var v := SayNote(w, id, n); Tame(w, v) && Good(v) && v.log == w.log && v.git == w.git
  {
    SayKeepsTokens(w, id, n);
    if id in w.posts { PostWriteIsTame(w, SayNote(w, id, n), id); }
  }

  lemma FixedKeepsLinks(a: R.Posts, b: R.Posts)
    requires Fixed(a, b) && R.WellLinked(a)
    ensures R.WellLinked(b)
  {
    forall p: Id | p in b ensures
      && (b[p].tier == Issue && b[p].ticket.Some? && b[p].ticket.value in b ==> b[b[p].ticket.value].tier == Ticket)
      && (b[p].tier == Ticket && b[p].epic.Some? && b[p].epic.value in b ==> b[b[p].epic.value].tier == Epic)
    {
      assert SameFixed(a[p], b[p]);
    }
  }

  lemma FixedKeepsShape(w: World, posts: R.Posts)
    requires Shape(w) && Fixed(w.posts, posts)
    ensures Shape(w.(posts := posts))
  {
    FixedKeepsLinks(w.posts, posts);
    forall p: Id | p in posts ensures p in w.born && SameFixed(posts[p], w.born[p]) {
      assert SameFixed(w.posts[p], w.born[p]) && SameFixed(w.posts[p], posts[p]);
    }
  }

  lemma FixedIsTame(w: World, posts: R.Posts)
    requires Good(w) && Fixed(w.posts, posts) && LabelsOk(posts, w.log, w.git) && TokensOk(posts, w.apr)
    ensures Tame(w, w.(posts := posts)) && Good(w.(posts := posts))
  {
    FixedKeepsShape(w, posts);
  }

  lemma RollUpIsTame(w: World, id: Id)
    requires Good(w) && id in w.posts
    ensures var v := w.(posts := R.RollUpFrom(w.posts, id, w.posts[id].tier).0); Tame(w, v) && Good(v)
  {
    var tier := w.posts[id].tier;
    RollUpKeepsLabels(w.posts, id, tier, w.log, w.git);
    RollUpKeepsFixed(w.posts, id, tier);
    RollUpKeepsTokens(w.posts, id, tier, w.apr);
    FixedIsTame(w, R.RollUpFrom(w.posts, id, tier).0);
  }

  lemma CloseIsTame(w: World, id: Id, e: Tracker.Post)
    requires Good(w)
    requires id in w.posts ==> w.posts[id].tier == e.tier && (e.tier == Issue ==> WasClosed(w.log, id))
    ensures var v := CloseAsDone(w, id, e); Tame(w, v) && Good(v) && v.log == w.log && v.git == w.git
  {
    if id in w.posts {
      SetLabelIsTame(w, id, e, Done);
      var w1 := SetLabel(w, id, e, Done);
      var w2 := w1.(posts := w1.posts[id := w1.posts[id].(open := false)]);
      NoNewTokens(w1.posts, w2.posts, w.apr);
      PostWriteIsTame(w1, w2, id);
      RollUpIsTame(w2, id);
      TameTransitive(w, w1, w2);
      TameTransitive(w, w2, CloseAsDone(w, id, e));
    }
  }

  lemma ParentKeepsFixed(posts: R.Posts, pid: Id, s: Status)
    requires pid in posts
    ensures Fixed(posts, posts[pid := R.CloseParent(posts[pid], s)])
  {
    var next := posts[pid := R.CloseParent(posts[pid], s)];
    forall p: Id | p in posts ensures SameFixed(posts[p], next[p]) {}
  }

  lemma FixedTwice(a: R.Posts, b: R.Posts, c: R.Posts)
    requires Fixed(a, b) && Fixed(b, c)
    ensures Fixed(a, c)
  {
    forall p: Id | p in a ensures SameFixed(a[p], c[p]) { assert SameFixed(a[p], b[p]) && SameFixed(b[p], c[p]); }
  }

  lemma {:induction false} RollUpKeepsFixed(posts: R.Posts, child: Id, tier: Tier)
    requires R.WellLinked(posts) && child in posts && posts[child].tier == tier
    ensures Fixed(posts, R.RollUpFrom(posts, child, tier).0)
    decreases R.Rank(tier)
  {
    if R.RollUpFrom(posts, child, tier).1 != [] {
      var pid, next, more := R.RollUpUnfolds(posts, child, tier);
      RollUpKeepsFixed(next, pid, R.UpTier(tier));
      ParentKeepsFixed(posts, pid, R.Verdict(posts, R.Children(posts, tier, pid)));
      FixedTwice(posts, next, R.RollUpFrom(posts, child, tier).0);
    }
  }

  lemma {:induction false} RollUpKeepsTokens(posts: R.Posts, child: Id, tier: Tier, apr: nat)
    requires R.WellLinked(posts) && child in posts && posts[child].tier == tier && TokensOk(posts, apr)
    ensures TokensOk(R.RollUpFrom(posts, child, tier).0, apr)
    decreases R.Rank(tier)
  {
    if R.RollUpFrom(posts, child, tier).1 != [] {
      var pid, next, more := R.RollUpUnfolds(posts, child, tier);
      forall i: Id, k: nat, n: nat | Bears(next, i, k, n) ensures Bears(posts, i, k, n) {}
      NoNewTokens(posts, next, apr);
      RollUpKeepsTokens(next, pid, R.UpTier(tier), apr);
    }
  }

  lemma {:induction false} RollUpKeepsLabels(posts: R.Posts, child: Id, tier: Tier, log: Log, g: G.State)
    requires R.WellLinked(posts) && child in posts && posts[child].tier == tier && LabelsOk(posts, log, g)
    ensures LabelsOk(R.RollUpFrom(posts, child, tier).0, log, g)
    decreases R.Rank(tier)
  {
    if R.RollUpFrom(posts, child, tier).1 != [] {
      var pid, next, more := R.RollUpUnfolds(posts, child, tier);
      RollUpKeepsLabels(next, pid, R.UpTier(tier), log, g);
    }
  }

  lemma WriteIsTame(w: World, id: Id, e: Tracker.Post, write: Write)
    requires Good(w) && write != SetStatus(Done)
    requires id in w.posts ==> w.posts[id].tier == e.tier && (e.tier == Issue ==> write != CloseDone)
    requires id in w.posts && write == SetStatus(InReview) ==> BranchOf(id, w.posts[id]) in w.git.branches
    ensures var v := ApplyWrite(w, id, e, write); Tame(w, v) && Good(v) && v.log == w.log && v.git == w.git
  {
    match write {
      case SetStatus(s) => SetLabelIsTame(w, id, e, s);
      case Say(n) => SayIsTame(w, id, n);
      case CloseDone => CloseIsTame(w, id, e);
    }
  }

  lemma {:induction false} WritesAreTame(w: World, id: Id, e: Tracker.Post, writes: seq<Write>)
    requires Good(w) && SetStatus(Done) !in writes
    requires id in w.posts ==> w.posts[id].tier == e.tier && (e.tier == Issue ==> CloseDone !in writes)
    requires id in w.posts && SetStatus(InReview) in writes ==> BranchOf(id, w.posts[id]) in w.git.branches
    ensures var v := ApplyWrites(w, id, e, writes); Tame(w, v) && Good(v) && v.log == w.log && v.git == w.git
    decreases |writes|
  {
    if writes != [] {
      var w1 := ApplyWrite(w, id, e, writes[0]);
      WriteIsTame(w, id, e, writes[0]);
      WritesAreTame(w1, id, e, writes[1..]);
      TameTransitive(w, w1, ApplyWrites(w1, id, e, writes[1..]));
    }
  }

  /** Growing git within its branches is tame. */
  lemma GitIsTame(w: World, g: G.State)
    requires Good(w) && G.Kept(w.git, g)
    ensures Tame(w, w.(git := g)) && Good(w.(git := g))
  {
    LabelsGrow(w.posts, w.log, w.git, w.log, g);
    LabelsGrow(w.mirror, w.log, w.git, w.log, g);
  }

  lemma KeptTransitive(f: G.State, g: G.State, h: G.State)
    requires G.Kept(f, g) && G.Kept(g, h)
    ensures G.Kept(f, h)
  {
    forall b ensures f.At(b) <= h.At(b) { assert f.At(b) <= g.At(b) <= h.At(b); }
  }

  lemma ParkIsTame(w: World, g: G.State, id: Id, e: Tracker.Post)
    requires Good(w) && G.Kept(w.git, g)
    ensures var v := Park(w.(git := g), id, e); Tame(w, v) && Good(v) && v.log == w.log && v.git == g
  {
    GitIsTame(w, g);
    var w1 := w.(git := g);
    SetLabelIsTame(w1, id, e, Blocked);
    var w2 := SetLabel(w1, id, e, Blocked);
    SayIsTame(w2, id, Ack);
    TameTransitive(w1, w2, SayNote(w2, id, Ack));
    TameTransitive(w, w1, SayNote(w2, id, Ack));
  }

  lemma ReadyBranchKeeps(g: G.State, b: G.Branch, primary: G.Branch, luck: Luck)
    requires g.Valid()
    ensures G.Kept(g, ReadyBranch(g, b, primary, luck).0)
  {
    var (g1, r) := G.Prepare(g, b, primary, luck.toBranch, luck.prepare, luck.back);
    G.PrepareKeeps(g, b, primary, luck.toBranch, luck.prepare, luck.back);
    if !r.Merged? {
      G.MergeEndsKeep(g1, luck.prepareResolved);
      G.MergeEndsKeep(g1, luck.prepareAborted);
      var (g2, ok) := G.CompleteMerge(g1, luck.prepareResolved);
      var g3 := if r.Conflicted? && ok then g2
                else if r.Conflicted? then G.AbortMerge(g1, luck.prepareAborted) else g1;
      G.CheckoutKeeps(g3, primary, luck.back);
      KeptTransitive(g, g1, g3);
      KeptTransitive(g, g3, G.Checkout(g3, primary, luck.back).0);
    }
  }

  lemma ReadyIsTame(w: World, id: Id, e: Tracker.Post, luck: Luck)
    requires Good(w)
    ensures var v := Ready(w, id, e, luck).0; Tame(w, v) && Good(v) && v.log == w.log
  {
    ReadyBranchKeeps(w.git, BranchOf(id, e), w.primary, luck);
    var g := ReadyBranch(w.git, BranchOf(id, e), w.primary, luck).0;
    GitIsTame(w, g);
    ParkIsTame(w, g, id, e);
  }

  lemma OpenGateIsTame(w: World, id: Id, e: Tracker.Post)
    requires Good(w)
    ensures var v := OpenGate(w, id, e); Tame(w, v) && Good(v) && v.log == w.log && v.git == w.git
  {
    var w1 := if StatusOf(e) == Some(AwaitingApproval) then w else SetLabel(w, id, e, AwaitingApproval);
    SetLabelIsTame(w, id, e, AwaitingApproval);
    SayIsTame(w1, id, PureGate);
    TameTransitive(w, w1, OpenGate(w, id, e));
  }

  lemma ReadyAndGateIsTame(w: World, id: Id, e: Tracker.Post, luck: Luck)
    requires Good(w)
    ensures var v := ReadyAndGate(w, id, e, luck); Tame(w, v) && Good(v) && v.log == w.log
  {
    ReadyIsTame(w, id, e, luck);
    var (w1, ok) := Ready(w, id, e, luck);
    if ok {
      OpenGateIsTame(w1, id, e);
      TameTransitive(w, w1, OpenGate(w1, id, e));
    }
  }

  lemma SweptIsTame(w: World, i: Id, luck: Luck)
    requires Good(w) && i in w.mirror
    ensures var v := ReadyAndGate(SayNote(w, i, Ack), i, w.mirror[i], luck); Tame(w, v) && Good(v) && v.log == w.log
  {
    var w1 := SayNote(w, i, Ack);
    SayIsTame(w, i, Ack);
    ReadyAndGateIsTame(w1, i, w.mirror[i], luck);
    TameTransitive(w, w1, ReadyAndGate(w1, i, w.mirror[i], luck));
  }

  lemma {:induction false} SweepIsTame(w: World, ids: seq<Id>, lucks: Lucks)
    requires Good(w)
    ensures var v := Sweep(w, ids, lucks); Tame(w, v) && Good(v) && v.log == w.log
  {
    if ids != [] {
      var front, i := ids[..|ids| - 1], ids[|ids| - 1];
      SweepIsTame(w, front, lucks);
      var w1 := Sweep(w, front, lucks);
      if i in w1.mirror {
        SweptIsTame(w1, i, LuckOf(lucks, i));
        TameTransitive(w, w1, Sweep(w, ids, lucks));
      }
    }
  }

  lemma RecordIsTame(w: World, id: Id, e: Tracker.Post, tip: set<G.Commit>, seen: Thread)
    requires Good(w) && (id in w.posts ==> w.posts[id].tier == e.tier)
    ensures var v := Record(w, id, e, tip, seen);
            Tame(w, v) && Good(v) && v.log == w.log + [Landed(id, seen), Closed(id, tip)] && v.git == w.git
  {
    SayIsTame(w, id, Ack);
    var w1 := SayNote(w, id, Ack);
    var w2 := w1.(log := w1.log + [Landed(id, seen), Closed(id, tip)]);
    LabelsGrow(w1.posts, w1.log, w1.git, w2.log, w2.git);
    LabelsGrow(w1.mirror, w1.log, w1.git, w2.log, w2.git);
    assert Tame(w1, w2);
    assert Closed(id, tip) in w2.log;
    CloseIsTame(w2, id, e);
    TameTransitive(w, w1, w2);
    TameTransitive(w, w2, CloseAsDone(w2, id, e));
  }

  lemma SettleIsTame(w: World, id: Id, e: Tracker.Post, tip: set<G.Commit>, lucks: Lucks, seen: Thread)
    requires Good(w) && (id in w.posts ==> w.posts[id].tier == e.tier)
    ensures var v := Settle(w, id, e, tip, lucks, seen);
            Tame(w, v) && Good(v) && v.log == w.log + [Landed(id, seen), Closed(id, tip)]
  {
    var w1 := Record(w, id, e, tip, seen);
    RecordIsTame(w, id, e, tip, seen);
    SweepIsTame(w1, OpenGates(w1, w1.order, id), lucks);
    TameTransitive(w, w1, Settle(w, id, e, tip, lucks, seen));
  }

  /** What a merge leaves: nothing closed, or this issue closed on the tip its branch had, which
      primary now contains. */
  ghost predicate MergeOutcome(w: World, v: World, id: Id, e: Tracker.Post, seen: Thread) {
    || v.log == w.log
    || (var tip := w.git.At(BranchOf(id, e));
        v.log == w.log + [Landed(id, seen), Closed(id, tip)] && tip <= v.git.At(v.primary))
  }

  lemma LandBranchKeeps(g: G.State, b: G.Branch, primary: G.Branch, luck: Luck)
    requires g.Valid() && b != primary
    ensures var (h, ok) := LandBranch(g, b, primary, luck);
            G.Kept(g, h) && h.At(b) == g.At(b) && (ok ==> h.At(b) <= h.At(primary))
  {
    var (g1, r) := G.Land(g, b, primary, luck.toPrimary, luck.land);
    G.LandKeeps(g, b, primary, luck.toPrimary, luck.land);
    G.LandingContains(g, b, primary, luck.toPrimary, luck.land, luck.landResolved);
    if r.Conflicted? {
      G.MergeEndsKeep(g1, luck.landResolved);
      G.MergeEndsKeep(g1, luck.landAborted);
      KeptTransitive(g, g1, LandBranch(g, b, primary, luck).0);
    }
  }

  lemma MergeIsTame(w: World, id: Id, e: Tracker.Post, luck: Luck, lucks: Lucks, seen: Thread)
    requires Good(w) && (id in w.posts ==> w.posts[id].tier == e.tier) && BranchOf(id, e) != w.primary
    ensures var v := MergeBranch(w, id, e, luck, lucks, seen); Tame(w, v) && Good(v) && MergeOutcome(w, v, id, e, seen)
  {
    var b := BranchOf(id, e);
    var (g, ok) := LandBranch(w.git, b, w.primary, luck);
    LandBranchKeeps(w.git, b, w.primary, luck);
    if ok { SettleMoves(w, g, id, e, g.At(b), lucks, seen); } else { ParkIsTame(w, g, id, e); }
  }

  lemma SettleMoves(w: World, g: G.State, id: Id, e: Tracker.Post, tip: set<G.Commit>, lucks: Lucks, seen: Thread)
    requires Good(w) && G.Kept(w.git, g) && tip <= g.At(w.primary)
    requires id in w.posts ==> w.posts[id].tier == e.tier
    ensures var v := Settle(w.(git := g), id, e, tip, lucks, seen);
            && Tame(w, v) && Good(v)
            && v.log == w.log + [Landed(id, seen), Closed(id, tip)] && tip <= v.git.At(v.primary)
  {
    GitIsTame(w, g);
    SettleIsTame(w.(git := g), id, e, tip, lucks, seen);
    TameTransitive(w, w.(git := g), Settle(w.(git := g), id, e, tip, lucks, seen));
  }
}
