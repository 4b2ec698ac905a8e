/** The issue lifecycle as a step system: control events, agent runs, gate jobs, result digestion,
    people, and sync, over a remote tracker, a lagging mirror of it, a git repository and the
    pending work. Each handler is one step; what agents, people and git decide is in the step. */
module Lifecycle {
  import opened Basics
  import opened Tracker
  import opened Gates
  import opened Advance
  import opened Deps
  import opened Branches
  import R = RollUp
  import G = Git

  datatype Intent = Implement | Review

  /** A pending work-lane job. `seen` is the thread the control lane read when it scheduled a gate job. */
  datatype Job =
    | WorkRun(id: Id, intent: Intent)
    | GateJob(id: Id, prepare: bool, merge: bool, seen: Thread)

  datatype Result = Result(id: Id, intent: Intent, report: Report)

  /** What happened so far. */
  datatype Event =
    | Scheduled(id: Id, merge: bool, seen: Thread)
    | Landed(id: Id, seen: Thread)
    | Closed(id: Id, tip: set<G.Commit>)
    | ImplementRan(id: Id, base: set<G.Commit>)
    | Bounced(id: Id)

  datatype World = World(
    cfg: Config,
    primary: G.Branch,
    posts: R.Posts,        // the remote, source of truth
    born: R.Posts,         // every post there ever was, as it was first filed
    order: seq<Id>,        // the remote's listing order
    mirror: R.Posts,       // the local snapshot every decision reads
    git: G.State,
    work: seq<Job>,
    results: seq<Result>,
    apr: nat,
    log: seq<Event>)

  // ----- remote writes

  function Without(now: seq<Status>, seen: seq<Status>): seq<Status> {
    if now == [] then []
    else if now[0] in seen then Without(now[1..], seen) else [now[0]] + Without(now[1..], seen)
  }

  /** Swapping the status label: the labels the caller SAW come off, the new one goes on. */
  function Relabel(now: seq<Status>, seen: seq<Status>, s: Status): seq<Status> {
    var kept := Without(now, seen);
    if s in kept then kept else kept + [s]
  }

  function SetLabel(w: World, id: Id, e: Post, s: Status): World {
    if id !in w.posts then w
    else w.(posts := w.posts[id := w.posts[id].(labels := Relabel(w.posts[id].labels, e.labels, s))])
  }

  function AddComment(w: World, id: Id, c: Comment): World {
    if id !in w.posts then w
    else w.(posts := w.posts[id := w.posts[id].(thread := w.posts[id].thread + [c])])
  }

  predicate Mints(n: Note) { n.AskGate? || n.PureGate? || n.CombinedGate? || n.LandGate? }

  /** The APR numbers an agent's words quote, be they old, current or yet to come. */
  function Quoted(n: Note): seq<nat> { if n.ReportNote? || n.ReviewNote? then n.quoted else [] }

  /** A gate or a request of the platform: a comment whose APR number is its own. */
  predicate Asks(c: Comment) { c.platform && (IsGate(c) || c.requests != []) }

  function NoteComment(n: Note, token: nat): Comment {
    var markers := match n
      case ReviewNote(_) => {ReviewAttempt}
      case OptionsNote => {RejectOptions}
      case PureGate => {MergeGate}
      case LandGate => {MergeGate}
      case CombinedGate => {WorkMergeGate}
      case _ => {};
    var minted := if Mints(n) then [token] else [];
    Comment("platform", true, Prose, markers, if Mints(n) then minted else Quoted(n), minted, [])
  }

  function SayNote(w: World, id: Id, n: Note): World {
    var token := w.apr + 1;
    AddComment(if Mints(n) then w.(apr := token) else w, id, NoteComment(n, token))
  }

  /** close_issue_done: label, close, roll up the parents. */
  function CloseAsDone(w: World, id: Id, e: Post): World {
    var w1 := SetLabel(w, id, e, Done);
    if id !in w1.posts then w1
    else
      var closed := w1.posts[id := w1.posts[id].(open := false)];
      w1.(posts := R.RollUpFrom(closed, id, e.tier).0)
  }

  function ApplyWrite(w: World, id: Id, e: Post, write: Write): World {
    match write
    case SetStatus(s) => SetLabel(w, id, e, s)
    case Say(n) => SayNote(w, id, n)
    case CloseDone => CloseAsDone(w, id, e)
  }

  function ApplyWrites(w: World, id: Id, e: Post, writes: seq<Write>): World
    decreases |writes|
  {
    if writes == [] then w else ApplyWrites(ApplyWrite(w, id, e, writes[0]), id, e, writes[1..])
  }

  /** The remote has left the status the mirror shows. */
  predicate IsStale(w: World, id: Id, e: Post) {
    id in w.posts && StatusOf(w.posts[id]).Some? && StatusOf(w.posts[id]) != StatusOf(e)
  }

  predicate OptionsPosted(w: World, id: Id) {
    id in w.posts && LastMarked(w.posts[id].thread, RejectOptions).Some?
  }

  // ----- scheduling work

  predicate HasGateJob(work: seq<Job>, id: Id) { exists j :: j in work && j.GateJob? && j.id == id }

  predicate HasWorkRun(work: seq<Job>, id: Id) { exists j :: j in work && j.WorkRun? && j.id == id }

  function ScheduleGate(w: World, id: Id, e: Post, t: Transition): World {
    if !(t.prepare || t.merge) || HasGateJob(w.work, id) then w
    else w.(work := w.work + [GateJob(id, t.prepare, t.merge, e.thread)],
            log := w.log + [Scheduled(id, t.merge, e.thread)])
  }

  function ScheduleRun(w: World, id: Id, intent: Intent): World {
    if HasWorkRun(w.work, id) then w else w.(work := w.work + [WorkRun(id, intent)])
  }

  function Resolve(w: World, id: Id, e: Post, t: Transition): World {
    ScheduleGate(ApplyWrites(w, id, e, t.writes), id, e, t)
  }

  // ----- a control event

  function Assigned(w: World, id: Id, e: Post): World {
    if e.agentAssigned || id !in w.posts then w
    else w.(posts := w.posts[id := w.posts[id].(agentAssigned := true)])
  }

  /** An issue that may start: assignment, approval and dependency gates, in that order. */
  function StartIssue(w: World, id: Id, e: Post): World {
    if !e.agentAssigned && !w.cfg.autoAssign then w
    else
      var w1 := Assigned(w, id, e);
      if !w.cfg.autoImplement && SignalledBy(w.cfg, id, e, ToApprove, ThumbsUp) == [] then
        SayNote(SetLabel(w1, id, e, AwaitingApproval), id, AskGate)
      else if Select(w.mirror, Enforced(w.mirror, e), Cancelled) != [] then
        SayNote(SetLabel(w1, id, e, Blocked), id, Ack)
      else if Select(w.mirror, Enforced(w.mirror, e), Waiting) != [] then w1
      else ScheduleRun(w1, id, Implement)
  }

  function Control(w: World, id: Id, action: Action): World {
    if id !in w.mirror then w
    else
      var e := w.mirror[id];
      var status := StatusOf(e);
      var stale := IsStale(w, id, e);
      if status == Some(AwaitingApproval) then
        Resolve(w, id, e, ResolveApproval(w.cfg, id, e, action, stale, OptionsPosted(w, id)))
      else if status == Some(Blocked) then Resolve(w, id, e, ResolveBlocked(w.cfg, id, e, action, stale))
      else if status == Some(AwaitingMerge) then Resolve(w, id, e, ResolveAwaitingMerge(w.cfg, id, e, action, stale))
      else if e.draft || stale then w
      else if e.tier == Issue && (status == None || status == Some(Todo)) then StartIssue(w, id, e)
      else if status == Some(InReview) then ScheduleRun(w, id, Review)
      else w
  }

  // ----- an agent run

  datatype AgentEnd = Interrupted | Failed | Finished(report: Report)

  function BranchOf(id: Id, e: Post): G.Branch { BranchName(e.title, id) }

  function Drop<T>(s: seq<T>, k: nat): seq<T>
    requires k < |s|
  { s[..k] + s[k + 1..] }

  /** The agent works on the checked-out branch, its changes are committed, HEAD goes home. */
  function WorkOn(w: World, j: Job, onBranch: G.State, how: G.Commits, back: bool): World
    requires j.WorkRun?
  {
    if j.intent.Implement? then
      var base := onBranch.At(onBranch.head);
      w.(git := G.Checkout(G.CommitAll(onBranch, how), w.primary, back).0, log := w.log + [ImplementRan(j.id, base)])
    else w.(git := G.Checkout(onBranch, w.primary, back).0)
  }

  /** An interrupted job stays; a failed one stays if the scheduler's recovery retries it (`again`). */
  function HandIn(w: World, k: nat, failed: bool, end: AgentEnd, again: bool): World
    requires k < |w.work| && w.work[k].WorkRun?
  {
    if end.Interrupted? then w
    else if end.Failed? || failed then if again then w else w.(work := Drop(w.work, k))
    else w.(work := Drop(w.work, k), results := w.results + [Result(w.work[k].id, w.work[k].intent, end.report)])
  }

  function RunAgent(w: World, k: nat, toBranch: bool, how: G.Commits, back: bool, end: AgentEnd, again: bool): World
    requires k < |w.work| && w.work[k].WorkRun?
  {
    var j := w.work[k];
    if j.id !in w.mirror || IsStale(w, j.id, w.mirror[j.id]) then w.(work := Drop(w.work, k))
    else
      var (g, ok) := G.EnsureOnBranch(w.git, BranchOf(j.id, w.mirror[j.id]), w.primary, toBranch);
      if ok then HandIn(WorkOn(w, j, g, how, back), k, j.intent.Implement? && how.CommitFailed?, end, again)
      else if again then w else w.(work := Drop(w.work, k))
  }

  /** The control lane digests a finished run exactly once. */
  function Digest(w: World, k: nat): World
    requires k < |w.results| && (w.results[k].intent.Implement? <==> w.results[k].report.Implemented?)
  {
    var r := w.results[k];
    var w1 := w.(results := Drop(w.results, k));
    if r.id !in w.mirror || IsStale(w, r.id, w.mirror[r.id]) then w1
    else
      var e := w.mirror[r.id];
      var t := if r.intent.Implement? then AfterImplement(w.cfg, e, r.report) else AfterReview(w.cfg, e, r.report);
      var w2 := if r.intent.Review? && SetStatus(Todo) in t.writes then w1.(log := w1.log + [Bounced(r.id)]) else w1;
      Resolve(w2, r.id, e, t)
  }

  // ----- a gate job

  /** Everything git and the conflict resolver decide while one branch is prepared and landed. */
  datatype Luck = Luck(
    toBranch: bool, prepare: G.Attempt, prepareResolved: bool, prepareAborted: bool, back: bool,
    toPrimary: bool, land: G.Attempt, landResolved: bool, landAborted: bool)

  const SMOOTH := Luck(true, G.Clean, true, true, true, true, G.Clean, true, true)

  function Park(w: World, id: Id, e: Post): World {
    SayNote(SetLabel(w, id, e, Blocked), id, Ack)
  }

  /** Bring primary into a branch, resolving conflicts if need be, and step back to primary. */
  function ReadyBranch(g: G.State, b: G.Branch, primary: G.Branch, luck: Luck): (G.State, bool) {
    var (g1, r) := G.Prepare(g, b, primary, luck.toBranch, luck.prepare, luck.back);
    if r.Merged? then (g1, true)
    else
      var (g2, ok) := G.CompleteMerge(g1, luck.prepareResolved);
      if r.Conflicted? && ok then (G.Checkout(g2, primary, luck.back).0, true)
      else
        var g3 := if r.Conflicted? then G.AbortMerge(g1, luck.prepareAborted) else g1;
        (G.Checkout(g3, primary, luck.back).0, false)
  }

  /** Merge a branch into primary, resolving conflicts if need be. */
  function LandBranch(g: G.State, b: G.Branch, primary: G.Branch, luck: Luck): (G.State, bool) {
    var (g1, r) := G.Land(g, b, primary, luck.toPrimary, luck.land);
    if !r.Conflicted? then (g1, r.Merged?)
    else
      var (g2, ok) := G.CompleteMerge(g1, luck.landResolved);
      if ok then (g2, true) else (G.AbortMerge(g1, luck.landAborted), false)
  }

  /** A branch that cannot be readied parks its issue. */
  function Ready(w: World, id: Id, e: Post, luck: Luck): (World, bool) {
    var (g, ok) := ReadyBranch(w.git, BranchOf(id, e), w.primary, luck);
    (if ok then w.(git := g) else Park(w.(git := g), id, e), ok)
  }

  function OpenGate(w: World, id: Id, e: Post): World {
    SayNote(if StatusOf(e) == Some(AwaitingApproval) then w else SetLabel(w, id, e, AwaitingApproval), id, PureGate)
  }

  function ReadyAndGate(w: World, id: Id, e: Post, luck: Luck): World
  {
    var (w1, ok) := Ready(w, id, e, luck);
    if ok then OpenGate(w1, id, e) else w1
  }

  /** An open issue waiting at a merge gate, as the sweep finds it. */
  predicate AtOpenGate(w: World, id: Id) {
    && id in w.posts && w.posts[id].open && w.posts[id].tier == Issue
    && StatusOf(w.posts[id]) == Some(AwaitingApproval)
    && id in w.mirror && LastMarked(w.mirror[id].thread, MergeGate).Some?
  }

  function OpenGates(w: World, ids: seq<Id>, exclude: Id): seq<Id> {
    if ids == [] then []
    else
      var i := ids[|ids| - 1];
      OpenGates(w, ids[..|ids| - 1], exclude) + if i != exclude && AtOpenGate(w, i) then [i] else []
  }

  type Lucks = map<Id, Luck>

  function LuckOf(lucks: Lucks, id: Id): Luck { if id in lucks then lucks[id] else SMOOTH }

  /** Primary moved: every other open gate is readied again, one after the other. */
  function Sweep(w: World, ids: seq<Id>, lucks: Lucks): World {
    if ids == [] then w
    else
      var w1 := Sweep(w, ids[..|ids| - 1], lucks);
      var i := ids[|ids| - 1];
      if i in w1.mirror then ReadyAndGate(SayNote(w1, i, Ack), i, w1.mirror[i], LuckOf(lucks, i)) else w1
  }

  /** The branch is on primary: record it and close the issue. */
  function Record(w: World, id: Id, e: Post, tip: set<G.Commit>, seen: Thread): World {
    var w1 := SayNote(w, id, Ack);
    CloseAsDone(w1.(log := w1.log + [Landed(id, seen), Closed(id, tip)]), id, e)
  }

  function Settle(w: World, id: Id, e: Post, tip: set<G.Commit>, lucks: Lucks, seen: Thread): World {
    var w1 := Record(w, id, e, tip, seen);
    Sweep(w1, OpenGates(w1, w1.order, id), lucks)
  }

  function MergeBranch(w: World, id: Id, e: Post, luck: Luck, lucks: Lucks, seen: Thread): World {
    var (g, ok) := LandBranch(w.git, BranchOf(id, e), w.primary, luck);
    if ok then Settle(w.(git := g), id, e, g.At(BranchOf(id, e)), lucks, seen) else Park(w.(git := g), id, e)
  }

  function RunGate(w: World, k: nat, luck: Luck, lucks: Lucks): World
    requires k < |w.work| && w.work[k].GateJob?
  {
    var j := w.work[k];
    var w1 := w.(work := Drop(w.work, k));
    if j.id !in w.mirror then w1
    else
      var e := w.mirror[j.id];
      if j.prepare then
        var (w2, ok) := Ready(w1, j.id, e, luck);
        if !ok then w2
        else if j.merge then MergeBranch(w2, j.id, e, luck, lucks, j.seen)
        else OpenGate(w2, j.id, e)
      else if j.merge then MergeBranch(w1, j.id, e, luck, lucks, j.seen)
      else w1
  }

  // ----- sync and people

  /** Sync finds the post newly closed, or deleted. */
  predicate TornDown(w: World, id: Id) {
    id in w.mirror && (id !in w.posts || (w.mirror[id].open && !w.posts[id].open))
  }

  function KeepOpen(w: World, work: seq<Job>): seq<Job> {
    if work == [] then []
    else
      var j := work[|work| - 1];
      KeepOpen(w, work[..|work| - 1]) + if TornDown(w, j.id) then [] else [j]
  }

  function KeepResults(w: World, results: seq<Result>): seq<Result> {
    if results == [] then []
    else
      var r := results[|results| - 1];
      KeepResults(w, results[..|results| - 1]) + if TornDown(w, r.id) then [] else [r]
  }

  /** The mirror catches up; what is pending for entries found newly closed or deleted is swept, runs,
      gate work and results not yet digested alike. */
  function Sync(w: World): World {
    w.(mirror := w.posts, work := KeepOpen(w, w.work), results := KeepResults(w, w.results))
  }

  datatype Step =
    | SyncStep
    | ControlStep(id: Id, action: Action)
    | AgentStep(k: nat, toBranch: bool, how: G.Commits, back: bool, end: AgentEnd, again: bool)
    | DigestStep(k: nat)
    | GateStep(k: nat, luck: Luck, lucks: Lucks)
    | LoseJob(k: nat)
    | HumanComment(id: Id, comment: Comment)
    | HumanEditComment(id: Id, k: nat, comment: Comment)
    | HumanDeleteComment(id: Id, k: nat)
    | HumanDeletePost(id: Id)
    | HumanReact(id: Id, k: nat, reactions: seq<Reaction>)
    | HumanReactOnPost(id: Id, reactions: seq<Reaction>)
    | HumanLabel(id: Id, labels: seq<Status>)
    | HumanEdit(id: Id, open: bool, draft: bool, agentAssigned: bool)
    | HumanPush(branch: G.Branch, commits: set<G.Commit>, next: G.Commit)
    | NewPost(id: Id, post: Tracker.Post)

  /** Statuses only the runtime may put on: a hand-written `done` or `in_review` is out of scope. */
  predicate HandWritable(labels: seq<Status>, before: seq<Status>) {
    (Done in labels ==> Done in before) && (InReview in labels ==> InReview in before)
  }

  /** The ids a tracker hands out, and titles the parser can produce. */
  predicate WellNamed(id: Id, p: Tracker.Post) { TitleOk(p.title) && |Decimal(id)| <= MAX_SLUG }

  ghost predicate Legal(w: World, s: Step) {
    match s
    case SyncStep => true
    case ControlStep(_, _) => true
    case AgentStep(k, _, _, _, end, _) =>
      && k < |w.work| && w.work[k].WorkRun?
      && (end.Finished? ==> (w.work[k].intent.Implement? <==> end.report.Implemented?))
    case DigestStep(k) => k < |w.results| && (w.results[k].intent.Implement? <==> w.results[k].report.Implemented?)
    case GateStep(k, _, _) => k < |w.work| && w.work[k].GateJob?
    case LoseJob(k) => k < |w.work|
    case HumanComment(id, c) => id in w.posts && !c.platform
    case HumanEditComment(id, k, c) =>
      && id in w.posts && k < |w.posts[id].thread| && c.platform == w.posts[id].thread[k].platform
      && (Asks(c) ==> Asks(w.posts[id].thread[k]) && forall n :: n in c.tokens ==> n in w.posts[id].thread[k].tokens)
    case HumanDeleteComment(id, k) => id in w.posts && k < |w.posts[id].thread|
    case HumanDeletePost(id) => id in w.posts
    case HumanReact(id, k, _) => id in w.posts && k < |w.posts[id].thread|
    case HumanReactOnPost(id, _) => id in w.posts
    case HumanLabel(id, labels) => id in w.posts && HandWritable(labels, w.posts[id].labels)
    case HumanEdit(id, _, _, _) => id in w.posts
    case HumanPush(b, commits, next) =>
      && (b in w.git.branches || !EndsInNumber(b))
      && w.git.next <= next && forall c :: c in commits ==> c < next
    case NewPost(id, p) =>
      && id !in w.born && WellNamed(id, p) && HandWritable(p.labels, [])
      && R.WellLinked(w.posts[id := p])
      && (forall c :: c in p.thread ==> !c.platform)
  }

  ghost function Take(w: World, s: Step): World
    requires Legal(w, s)
  {
    match s
    case SyncStep => Sync(w)
    case ControlStep(id, action) => Control(w, id, action)
    case AgentStep(k, toBranch, how, back, end, again) => RunAgent(w, k, toBranch, how, back, end, again)
    case DigestStep(k) => Digest(w, k)
    case GateStep(k, luck, lucks) => RunGate(w, k, luck, lucks)
    case LoseJob(k) => w.(work := Drop(w.work, k))
    case HumanComment(id, c) => AddComment(w, id, c)
    case HumanEditComment(id, k, c) =>
      w.(posts := w.posts[id := w.posts[id].(thread := w.posts[id].thread[k := c])])
    case HumanDeleteComment(id, k) => w.(posts := w.posts[id := w.posts[id].(thread := Drop(w.posts[id].thread, k))])
    case HumanDeletePost(id) => w.(posts := w.posts - {id})
    case HumanReact(id, k, rs) =>
      var t := w.posts[id].thread;
      w.(posts := w.posts[id := w.posts[id].(thread := t[k := t[k].(reactions := rs)])])
    case HumanReactOnPost(id, rs) => w.(posts := w.posts[id := w.posts[id].(reactions := rs)])
    case HumanLabel(id, labels) => w.(posts := w.posts[id := w.posts[id].(labels := labels)])
    case HumanEdit(id, open, draft, agentAssigned) =>
      w.(posts := w.posts[id := w.posts[id].(open := open, draft := draft, agentAssigned := agentAssigned)])
    case HumanPush(b, commits, next) =>
      w.(git := w.git.(branches := w.git.branches[b := w.git.At(b) + commits], next := next))
    case NewPost(id, p) => w.(posts := w.posts[id := p], born := w.born[id := p], order := w.order + [id])
  }

  /** A fresh install: no issue done or in review, nothing pending, only primary in git. */
  ghost predicate Init(w: World) {
    && w.mirror == map[] && w.work == [] && w.results == [] && w.log == []
    && w.git.Valid() && w.git.branches.Keys == {w.primary} && w.git.Settled(w.primary)
    && (forall p :: p in w.order <==> p in w.posts)
    && !EndsInNumber(w.primary) && w.born == w.posts
    && R.WellLinked(w.posts)
    && forall p :: p in w.posts ==>
         && WellNamed(p, w.posts[p]) && HandWritable(w.posts[p].labels, [])
         && forall c :: c in w.posts[p].thread ==> !c.platform
  }

  ghost predicate StepAt(ws: seq<World>, steps: seq<Step>, k: nat) {
    k < |steps| && k + 1 < |ws| && Legal(ws[k], steps[k]) && ws[k + 1] == Take(ws[k], steps[k])
  }

  /** A run from a fresh install: the worlds passed through, each by a possible step from the one before. */
  ghost predicate IsRun(ws: seq<World>, steps: seq<Step>) {
    && |ws| == |steps| + 1 && Init(ws[0])
    && forall k: nat {:trigger StepAt(ws, steps, k)} :: k < |steps| ==> StepAt(ws, steps, k)
  }
}
