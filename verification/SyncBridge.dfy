/** From the tracker's change stream to queue rows: one live row per remote resource, whatever the
    interleaving of sync, claims, finishes, retries and restarts. */
module SyncBridge {
  import opened Basics
  import opened Queue

  datatype Key =
    | CommentKey(subject: Option<string>)
    | LabelKey(post: Option<string>, name: Option<string>)
    | ReactionKey(subject: Option<string>)
    | EntryReactionKey(subject: Option<string>)
    | EntryKey(post: Option<string>)
    | OtherKey(action: Action, post: Option<string>)

  /** The remote resource a task is about. */
  function KeyOf(t: Task): Key {
    if t.action.CommentAdded? || t.action.CommentUpdated? then CommentKey(t.subject)
    else if t.action.LabelAdded? || t.action.LabelRemoved? then LabelKey(t.post, t.subject)
    else if t.action.ReactionAdded? || t.action.ReactionRemoved? then ReactionKey(t.subject)
    else if t.action.EntryReactionAdded? || t.action.EntryReactionRemoved? then
      EntryReactionKey(t.subject)
    else if t.action.EntryCreated? || t.action.EntryUpdated? || t.action.EntryReopened? then
      EntryKey(t.post)
    else OtherKey(t.action, t.post)
  }

  /** Two tasks are about one remote resource: the same comment, the same label of the same post, the same
      reaction, the same entry. Tasks that sync does not make are told apart by action and post. */
  ghost predicate SameResource(a: Task, b: Task) {
    || ({a.action, b.action} <= {CommentAdded, CommentUpdated} && a.subject == b.subject)
    || ({a.action, b.action} <= {LabelAdded, LabelRemoved} && a.post == b.post && a.subject == b.subject)
    || ({a.action, b.action} <= {ReactionAdded, ReactionRemoved} && a.subject == b.subject)
    || ({a.action, b.action} <= {EntryReactionAdded, EntryReactionRemoved} && a.subject == b.subject)
    || ({a.action, b.action} <= {EntryCreated, EntryUpdated, EntryReopened} && a.post == b.post)
    || (!SyncMade(a.action) && a.action == b.action && a.post == b.post)
  }

  ghost predicate SyncMade(a: Action) {
    a in {CommentAdded, CommentUpdated, LabelAdded, LabelRemoved, ReactionAdded, ReactionRemoved,
          EntryReactionAdded, EntryReactionRemoved, EntryCreated, EntryUpdated, EntryReopened}
  }

  /** The key tells resources apart, no more and no less. */
  lemma KeyIsTheResource(a: Task, b: Task)
    ensures KeyOf(a) == KeyOf(b) <==> SameResource(a, b)
    ensures FromSync(a) <==> SyncMade(a.action)
  {
    assert a.action in {a.action, b.action} && b.action in {a.action, b.action};
  }

  /** Only sync enqueues these. */
  predicate FromSync(t: Task) { !KeyOf(t).OtherKey? }

  // ----- changes

  datatype Resource = Entry | EntryLabel | CommentOn | Reaction | EntryReaction | Elsewhere

  datatype Verb = Create | Update | Delete | State

  /** `post` is the entry, or the comment for a reaction on a comment; `openNow` is the new value of
      a state change; `ours` marks a comment the platform itself wrote. */
  datatype Change = Change(
    resource: Resource, verb: Verb, field: string, openNow: bool, post: string, subject: string, ours: bool)

  predicate IsTeardown(c: Change) {
    c.resource.Entry? && (c.verb.Delete? || (c.verb.State? && c.field == "is_open" && !c.openNow))
  }

  predicate IsOwnComment(c: Change) { c.resource.CommentOn? && (c.verb.Create? || c.verb.Update?) && c.ours }

  function BuildTask(c: Change): Option<Task> {
    var about := (action: Action) => Some(Task(action, Some(c.post), Some(c.subject)));
    match c.resource
    case Entry =>
      if c.verb.Create? then Some(Task(EntryCreated, Some(c.post), None))
      else if c.verb.Update? then
        if c.field == "updated_at" then None else Some(Task(EntryUpdated, Some(c.post), None))
      else if c.verb.State? && c.field == "is_open" && c.openNow then Some(Task(EntryReopened, Some(c.post), None))
      else None
    case EntryLabel =>
      if c.verb.Create? then about(LabelAdded)
      else if c.verb.Delete? then about(LabelRemoved) else None
    case CommentOn =>
      if c.verb.Create? then about(CommentAdded)
      else if c.verb.Update? then about(CommentUpdated) else None
    case Reaction =>
      if c.verb.Create? then about(ReactionAdded)
      else if c.verb.Delete? then about(ReactionRemoved) else None
    case EntryReaction =>
      if c.verb.Create? then about(EntryReactionAdded)
      else if c.verb.Delete? then about(EntryReactionRemoved) else None
    case Elsewhere => None
  }

  // ----- superseding and teardown

  predicate Outdated(r: Row, t: Task) {
    t.post.Some? && r.task.post == t.post && r.status.Pending? && KeyOf(r.task) == KeyOf(t)
  }

  function Stale(t: Task): Row -> bool { (r: Row) => Outdated(r, t) }

  function Spared(t: Task): Row -> bool { (r: Row) => !Outdated(r, t) }

  function Supersede(s: Store, t: Task): Store { s.(rows := Keep(s.rows, Spared(t))) }

  predicate OnComment(t: Task) { t.action.ReactionAdded? || t.action.ReactionRemoved? }

  function ReactionsOn(c: string, seen: seq<Row>): Row -> bool {
    (r: Row) => r.task.post == Some(c) && OnComment(r.task) && r !in seen
  }

  /** The rows a teardown looks at: those of the post, then, per comment of it, the reaction rows. */
  function Swept(rows: seq<Row>, post: string, comments: seq<string>): seq<Row> {
    if comments == [] then Keep(rows, OnPost(post))
    else
      var front, c := Swept(rows, post, comments[..|comments| - 1]), comments[|comments| - 1];
      front + Keep(rows, ReactionsOn(c, front))
  }

  function RemoveAll(s: Store, doomed: seq<Row>): Store {
    if doomed == [] then s
    else
      var r := doomed[|doomed| - 1];
      var s1 := RemoveAll(s, doomed[..|doomed| - 1]);
      if r.status.Pending? then Queue.Apply(s1, Remove(r.id)) else s1
  }

  const CONTROL_CLEANUP := 85
  const CONTROL_DEFAULT := 50

  function CleanupTask(post: string): Task { Task(Cleanup, Some(post), None) }

  function EnqueueCleanups(s: Store, post: string, busy: seq<Row>): Store {
    if busy == [] then s
    else
      Queue.Apply(EnqueueCleanups(s, post, busy[..|busy| - 1]),
          Enqueue(CleanupTask(post), ControlLane, CONTROL_CLEANUP))
  }

  predicate IsRunning(r: Row) { r.status.InProgress? }

  predicate IsWaiting(r: Row) { r.status.Pending? }

  function Running(rows: seq<Row>): seq<Row> { Keep(rows, IsRunning) }

  function Waiting(rows: seq<Row>): seq<Row> { Keep(rows, IsWaiting) }

  function Teardown(s: Store, post: string, comments: seq<string>): Store {
    var swept := Swept(s.rows, post, comments);
    EnqueueCleanups(RemoveAll(s, swept), post, Running(swept))
  }

  function ReplaceWith(s: Store, t: Task): Store {
    Queue.Apply(Supersede(s, t), Enqueue(t, ControlLane, CONTROL_DEFAULT))
  }

  /** One change of a sync, given the entry keys this sync has already enqueued an update for. */
  function Absorb(s: Store, seen: set<Key>, c: Change, comments: seq<string>): (Store, set<Key>) {
    if IsTeardown(c) then (Teardown(s, c.post, comments), seen)
    else if IsOwnComment(c) || BuildTask(c).None? then (s, seen)
    else
      var t := BuildTask(c).value;
      if !t.action.EntryUpdated? then (ReplaceWith(s, t), seen)
      else if KeyOf(t) in seen then (s, seen)
      else (ReplaceWith(s, t), seen + {KeyOf(t)})
  }

  // ----- what these keep

  /** Same rows, except that pending ones may be gone. */
  ghost predicate OnlyPendingGone(s: Store, v: Store) {
    && Sorted(v) && v.next == s.next
    && (forall r :: r in v.rows ==> r in s.rows)
    && (forall r :: r in s.rows && !r.status.Pending? ==> r in v.rows)
  }

  lemma {:induction false} RemoveAllRemoves(s: Store, doomed: seq<Row>)
    requires Sorted(s) && forall r :: r in doomed ==> r in s.rows
    ensures OnlyPendingGone(s, RemoveAll(s, doomed))
    ensures forall r :: r in doomed && r.status.Pending? ==> r !in RemoveAll(s, doomed).rows
  {
    if doomed != [] {
      var front, d := doomed[..|doomed| - 1], doomed[|doomed| - 1];
      RemoveAllRemoves(s, front);
      var s1 := RemoveAll(s, front);
      if d.status.Pending? {
        KeepFilters(s1.rows, NotId(d.id));
        KeepStaysSorted(s1, NotId(d.id));
        forall r | r in s.rows && r.id == d.id ensures r == d { SortedIsUnique(s, r, d); }
      }
    }
  }

  lemma SortedIsUnique(s: Store, r: Row, q: Row)
    requires Sorted(s) && r in s.rows && q in s.rows && r.id == q.id
    ensures r == q
  {
    var i: nat :| i < |s.rows| && s.rows[i] == r;
    var j: nat :| j < |s.rows| && s.rows[j] == q;
  }

  lemma {:induction false} SweptAreRows(rows: seq<Row>, post: string, comments: seq<string>)
    ensures forall r :: r in Swept(rows, post, comments) <==>
              r in rows && (r.task.post == Some(post) ||
                            (OnComment(r.task) && exists c :: c in comments && r.task.post == Some(c)))
  {
    if comments == [] {
      KeepFilters(rows, OnPost(post));
    } else {
      var front, c := comments[..|comments| - 1], comments[|comments| - 1];
      assert comments == front + [c];
      SweptAreRows(rows, post, front);
      KeepFilters(rows, ReactionsOn(c, Swept(rows, post, front)));
    }
  }

  /** Same rows, plus cleanups. */
  ghost predicate OnlyCleanupsAdded(s: Store, v: Store, post: string) {
    && Sorted(v) && s.next <= v.next
    && (forall r :: r in s.rows ==> r in v.rows)
    && (forall r :: r in v.rows && r !in s.rows ==>
        r == Row(r.id, CleanupTask(post), Pending, 0, ControlLane, CONTROL_CLEANUP, None))
  }

  lemma {:induction false} CleanupsAdd(s: Store, post: string, busy: seq<Row>)
    requires Sorted(s)
    ensures OnlyCleanupsAdded(s, EnqueueCleanups(s, post, busy), post)
  {
    if busy != [] { CleanupsAdd(s, post, busy[..|busy| - 1]); }
  }

  /** The row is about the post, or about a reaction on one of its comments. */
  ghost predicate Concerns(r: Row, post: string, comments: seq<string>) {
    || r.task.post == Some(post)
    || (r.task.action in {ReactionAdded, ReactionRemoved} && exists c :: c in comments && r.task.post == Some(c))
  }

  /** A closed or deleted post keeps no pending row, on itself or on its comments' reactions, except the
      cleanups; rows in progress, and all rows about something else, stay as they are. */
  lemma TeardownSweeps(s: Store, post: string, comments: seq<string>)
    requires Sorted(s)
    ensures var v := Teardown(s, post, comments);
            && Sorted(v)
            && (forall r :: r in s.rows ==> (r in v.rows <==> !(r.status.Pending? && Concerns(r, post, comments))))
            && (forall r :: r in v.rows && r !in s.rows ==>
                r == Row(r.id, Task(Cleanup, Some(post), None), Pending, 0, ControlLane, 85, None))
  {
    var swept := Swept(s.rows, post, comments);
    SweptAreRows(s.rows, post, comments);
    RemoveAllRemoves(s, swept);
    CleanupsAdd(RemoveAll(s, swept), post, Running(swept));
    var s1, v := RemoveAll(s, swept), Teardown(s, post, comments);
    forall r | r in s.rows ensures r in swept <==> Concerns(r, post, comments) {}
    forall r | r in s.rows ensures r in v.rows <==> !(r.status.Pending? && Concerns(r, post, comments)) {
      if r in swept && r.status.Pending? {
        RemovedStaysAway(s, s1, v, post, Running(swept), r);
      } else if r.status.Pending? {
        StaysUnlessRemoved(s, swept, r);
      }
    }
  }

  lemma RemovedStaysAway(s: Store, s1: Store, v: Store, post: string, busy: seq<Row>, r: Row)
    requires Sorted(s) && Sorted(s1) && s1.next == s.next && v == EnqueueCleanups(s1, post, busy)
    requires r in s.rows && r !in s1.rows
    ensures r !in v.rows
  {
    FreshCleanups(s1, post, busy);
  }

  lemma {:induction false} FreshCleanups(s: Store, post: string, busy: seq<Row>)
    ensures var v := EnqueueCleanups(s, post, busy);
            v.next >= s.next && forall r :: r in v.rows ==> r in s.rows || r.id >= s.next
  {
    if busy != [] { FreshCleanups(s, post, busy[..|busy| - 1]); }
  }

  // ----- what a change does to the queue

  /** What sync has to have seen for a task of this action to be made. */
  function SeenFor(a: Action): (Resource, Verb) {
    match a
    case EntryCreated => (Entry, Create)
    case EntryUpdated => (Entry, Update)
    case EntryReopened => (Entry, State)
    case LabelAdded => (EntryLabel, Create)
    case LabelRemoved => (EntryLabel, Delete)
    case CommentAdded => (CommentOn, Create)
    case CommentUpdated => (CommentOn, Update)
    case ReactionAdded => (Reaction, Create)
    case ReactionRemoved => (Reaction, Delete)
    case EntryReactionAdded => (EntryReaction, Create)
    case EntryReactionRemoved => (EntryReaction, Delete)
    case _ => (Elsewhere, Create)
  }

  /** A change calls for a task of action `a`: the time stamp of an entry alone does not, nor does a change
      of state other than its being opened again. */
  ghost predicate CallsFor(c: Change, a: Action) {
    && SyncMade(a) && SeenFor(a) == (c.resource, c.verb)
    && (a.EntryUpdated? ==> c.field != "updated_at")
    && (a.EntryReopened? ==> c.field == "is_open" && c.openNow)
  }

  /** A task is made exactly when the change calls for one, and it says what changed and where. */
  lemma TasksSayWhatChanged(c: Change)
    ensures BuildTask(c).Some? <==> exists a :: CallsFor(c, a)
    ensures BuildTask(c).Some? ==> var t := BuildTask(c).value;
              && CallsFor(c, t.action) && t.post == Some(c.post)
              && t.subject == if c.resource.Entry? then None else Some(c.subject)
  {
    if BuildTask(c).Some? { assert CallsFor(c, BuildTask(c).value.action); }
    forall a | CallsFor(c, a) ensures BuildTask(c).Some? {}
  }

  lemma ActionsAreNotBlank(c: Change)
    requires BuildTask(c).Some?
    ensures var t := BuildTask(c).value; FromSync(t) && !IsBlank(t.action) && t.post == Some(c.post)
  {
  }

  /** A change absorbed by replacing: what goes is exactly what was pending about the same resource of the
      same post, and what comes is one task for the change, pending in the control lane. */
  lemma AbsorbReplaces(s: Store, seen: set<Key>, c: Change, comments: seq<string>)
    requires Sorted(s) && !IsTeardown(c) && !IsOwnComment(c) && BuildTask(c).Some?
    requires BuildTask(c).value.action.EntryUpdated? ==> KeyOf(BuildTask(c).value) !in seen
    ensures var t, v := BuildTask(c).value, Absorb(s, seen, c, comments).0;
            && (forall r :: r in s.rows ==> (r !in v.rows <==>
                  r.status.Pending? && r.task.post == Some(c.post) && SameResource(r.task, t)))
            && (forall r :: (r in v.rows && r !in s.rows) <==>
                  r == Row(s.next, t, Pending, 0, ControlLane, 50, None))
  {
    var t, v := BuildTask(c).value, Absorb(s, seen, c, comments).0;
    TasksSayWhatChanged(c);
    ActionsAreNotBlank(c);
    KeepFilters(s.rows, Spared(t));
    forall a { KeyIsTheResource(a, t); }
    var added := Row(s.next, t, Pending, 0, ControlLane, CONTROL_DEFAULT, None);
    assert v.rows == Keep(s.rows, Spared(t)) + [added];
    assert added !in s.rows;
    assert forall a :: KeyOf(a) == KeyOf(t) <==> SameResource(a, t);
  }

  /** What a change does not touch: the platform's own comments, what calls for no task, and an entry already
      updated in this sync leave the queue as it is; closing or deleting an entry tears it down. */
  lemma AbsorbSpares(s: Store, seen: set<Key>, c: Change, comments: seq<string>)
    ensures c.resource.Entry? && (c.verb.Delete? || (c.verb.State? && c.field == "is_open" && !c.openNow)) ==>
              Absorb(s, seen, c, comments) == (Teardown(s, c.post, comments), seen)
    ensures c.resource.CommentOn? && c.ours ==> Absorb(s, seen, c, comments) == (s, seen)
    ensures !c.resource.Entry? && (forall a :: !CallsFor(c, a)) ==> Absorb(s, seen, c, comments) == (s, seen)
    ensures c.resource.Entry? && c.verb.Update? && EntryKey(Some(c.post)) in seen ==>
              Absorb(s, seen, c, comments) == (s, seen)
    ensures Absorb(s, seen, c, comments).1 ==
            if c.resource.Entry? && c.verb.Update? && c.field != "updated_at" then seen + {EntryKey(Some(c.post))}
            else seen
  {
    TasksSayWhatChanged(c);
    if BuildTask(c).Some? { assert CallsFor(c, BuildTask(c).value.action); }
  }

  // ----- the system: one control thread, one work thread, restarts

  datatype Control = Idle | Syncing(seen: set<Key>) | Handling(id: nat)

  datatype System = System(store: Store, control: Control, job: Option<nat>)

  const BOOT := System(EMPTY, Idle, None)

  /** How a claimed row ends: completed, put back by its handler, or failed and put back by recovery. */
  datatype Ending =
    | Ended(success: bool, error: Option<string>)
    | PutBack(notBefore: Option<Time>)
    | Retried(error: Option<string>, notBefore: Option<Time>)

  datatype Step =
    | StartSync
    | SyncChange(change: Change, comments: seq<string>)
    | EndSync
    | ControlClaim(now: Time)
    | ControlFinish(ending: Ending)
    | WorkClaim(now: Time)
    | WorkFinish(ending: Ending)
    | Schedule(task: Task, lane: Lane, priority: int)
    | Restart

  function Finish(s: Store, id: nat, e: Ending): Store {
    match e
    case Ended(success, error) => Queue.Apply(s, Complete(id, success, error))
    case PutBack(notBefore) => Queue.Apply(s, Requeue(id, notBefore))
    case Retried(error, notBefore) => Queue.Apply(Queue.Apply(s, Complete(id, false, error)), Requeue(id, notBefore))
  }

  function Claimed(s: Store, lane: Lane, now: Time): Option<nat> {
    var k := Best(s.rows, lane, now);
    if k.None? then None else Some(s.rows[k.value].id)
  }

  /** `home` says where a remote resource lives: a comment or reaction id belongs to one parent.
      Handlers and workers schedule only work of their own. */
  ghost predicate Possible(y: System, step: Step, home: Key -> Option<string>) {
    match step
    case StartSync => y.control.Idle?
    case SyncChange(c, _) => y.control.Syncing?
        && (BuildTask(c).Some? ==> home(KeyOf(BuildTask(c).value)) == Some(c.post))
    case EndSync => y.control.Syncing?
    case ControlClaim(_) => y.control.Idle?
    case ControlFinish(_) => y.control.Handling?
    case WorkClaim(_) => y.job.None?
    case WorkFinish(_) => y.job.Some?
    case Schedule(t, _, _) => !FromSync(t)
    case Restart => true
  }

  ghost function Next(y: System, step: Step): System
    requires step.ControlFinish? ==> y.control.Handling?
    requires step.SyncChange? ==> y.control.Syncing?
    requires step.WorkFinish? ==> y.job.Some?
  {
    match step
    case StartSync => y.(control := Syncing({}))
    case SyncChange(c, comments) =>
      var (s, seen) := Absorb(y.store, y.control.seen, c, comments);
      y.(store := s, control := Syncing(seen))
    case EndSync => y.(control := Idle)
    case ControlClaim(now) =>
      var id := Claimed(y.store, ControlLane, now);
      y.(store := Queue.Apply(y.store, Claim(ControlLane, now)),
         control := if id.Some? then Handling(id.value) else Idle)
    case ControlFinish(e) => y.(store := Finish(y.store, y.control.id, e), control := Idle)
    case WorkClaim(now) =>
      y.(store := Queue.Apply(y.store, Claim(WorkLane, now)), job := Claimed(y.store, WorkLane, now))
    case WorkFinish(e) => y.(store := Finish(y.store, y.job.value, e), job := None)
    case Schedule(t, lane, priority) => y.(store := Queue.Apply(y.store, Enqueue(t, lane, priority)))
    case Restart => System(Queue.Apply(y.store, ResetInProgress), Idle, None)
  }

  ghost function After(steps: seq<Step>, home: Key -> Option<string>): System {
    if steps == [] then BOOT
    else
      var y, step := After(steps[..|steps| - 1], home), steps[|steps| - 1];
      if Possible(y, step, home) then Next(y, step) else y
  }

  // ----- one live row per resource

  predicate LiveSync(r: Row) { FromSync(r.task) && (r.status.Pending? || r.status.InProgress?) }

  ghost predicate OneLive(rows: seq<Row>) {
    forall r, q :: r in rows && q in rows && LiveSync(r) && LiveSync(q) && KeyOf(r.task) == KeyOf(q.task) ==>
        r.id == q.id
  }

  ghost predicate Placed(rows: seq<Row>, home: Key -> Option<string>) {
    forall r :: r in rows && FromSync(r.task) ==>
      r.lane.ControlLane? && r.task.post.Some? && r.task.post == home(KeyOf(r.task))
  }

  function Holder(y: System, lane: Lane): Option<nat> {
    if lane.WorkLane? then y.job else if y.control.Handling? then Some(y.control.id) else None
  }

  /** A row in progress is the one its lane's thread is working on, and that one is in progress. */
  ghost predicate Held(y: System) {
    && (forall r :: r in y.store.rows && r.status.InProgress? ==> Holder(y, r.lane) == Some(r.id))
    && forall lane :: Holder(y, lane).Some? ==>
         exists r :: r in y.store.rows && r.id == Holder(y, lane).value && r.lane == lane && r.status.InProgress?
  }

  ghost predicate Inv(y: System, home: Key -> Option<string>) {
    Sorted(y.store) && OneLive(y.store.rows) && Placed(y.store.rows, home) && Held(y)
  }

  /** Rows change only in status, attempts and due time, and a row that is live already was. */
  ghost predicate Restated(s: Store, v: Store) {
    && Sorted(v) && |v.rows| == |s.rows|
    && forall i :: 0 <= i < |s.rows| ==>
         v.rows[i].id == s.rows[i].id && v.rows[i].task == s.rows[i].task && v.rows[i].lane == s.rows[i].lane
         && (LiveSync(v.rows[i]) ==> LiveSync(s.rows[i]))
  }

  lemma RestatedRow(s: Store, v: Store, r: Row) returns (q: Row)
    requires Restated(s, v) && r in v.rows
    ensures q in s.rows && q.id == r.id && q.task == r.task && q.lane == r.lane && (LiveSync(r) ==> LiveSync(q))
  {
    var i: nat :| i < |v.rows| && v.rows[i] == r;
    q := s.rows[i];
  }

  lemma RestatingKeeps(s: Store, v: Store, home: Key -> Option<string>)
    requires Restated(s, v) && OneLive(s.rows) && Placed(s.rows, home)
    ensures OneLive(v.rows) && Placed(v.rows, home)
  {
    forall r, q | r in v.rows && q in v.rows && LiveSync(r) && LiveSync(q) && KeyOf(r.task) == KeyOf(q.task)
      ensures r.id == q.id
    {
      var r' := RestatedRow(s, v, r);
      var q' := RestatedRow(s, v, q);
    }
    forall r | r in v.rows && FromSync(r.task)
      ensures r.lane.ControlLane? && r.task.post.Some? && r.task.post == home(KeyOf(r.task))
    {
      var r' := RestatedRow(s, v, r);
    }
  }

  lemma HeldKeeps(y: System, z: System)
    requires Held(y) && z.control == y.control && z.job == y.job
    requires forall r: Row :: r.status.InProgress? ==> (r in z.store.rows <==> r in y.store.rows)
    ensures Held(z)
  {
    forall lane | Holder(z, lane).Some?
      ensures exists r :: r in z.store.rows && r.id == Holder(z, lane).value && r.lane == lane && r.status.InProgress?
    {
      assert Holder(y, lane) == Holder(z, lane);
      var r :| r in y.store.rows && r.id == Holder(y, lane).value && r.lane == lane && r.status.InProgress?;
      assert r in z.store.rows;
    }
  }

  /** Enqueueing a task after superseding: its key is live nowhere else, provided no control row is
      in progress. */
  lemma ReplacingKeeps(y: System, t: Task, home: Key -> Option<string>)
    requires Inv(y, home) && !y.control.Handling? && FromSync(t) && t.post.Some? && t.post == home(KeyOf(t))
               && !IsBlank(t.action)
    ensures Inv(y.(store := ReplaceWith(y.store, t)), home)
  {
    var s := y.store;
    var p := Spared(t);
    KeepFilters(s.rows, p);
    KeepStaysSorted(s, p);
    var s1, v := Supersede(s, t), ReplaceWith(s, t);
    ApplyStaysSorted(s1, Enqueue(t, ControlLane, CONTROL_DEFAULT));
    forall r | r in s1.rows && LiveSync(r) ensures KeyOf(r.task) != KeyOf(t) {
      assert r.lane.ControlLane? && Holder(y, ControlLane) == None;
    }
    HeldKeeps(y, y.(store := v));
  }

  lemma FewerLiveKeeps(s: Store, v: Store, home: Key -> Option<string>)
    requires OneLive(s.rows) && Placed(s.rows, home)
    requires forall r :: r in v.rows && FromSync(r.task) ==> r in s.rows
    ensures OneLive(v.rows) && Placed(v.rows, home)
  {
  }

  lemma TeardownKeeps(y: System, post: string, comments: seq<string>, home: Key -> Option<string>)
    requires Inv(y, home)
    ensures Inv(y.(store := Teardown(y.store, post, comments)), home)
  {
    TeardownSweeps(y.store, post, comments);
    FewerLiveKeeps(y.store, Teardown(y.store, post, comments), home);
    HeldKeeps(y, y.(store := Teardown(y.store, post, comments)));
  }

  /** Beginning, continuing or ending a sync touches no row. */
  lemma PhaseKeeps(y: System, z: System, home: Key -> Option<string>)
    requires Inv(y, home) && z == y.(control := z.control) && !y.control.Handling? && !z.control.Handling?
    ensures Inv(z, home)
  {
    forall lane | Holder(z, lane).Some?
      ensures exists r :: r in z.store.rows && r.id == Holder(z, lane).value && r.lane == lane && r.status.InProgress?
    {
      assert Holder(y, lane) == Holder(z, lane);
    }
  }

  /** One lane's holder changes; elsewhere the same rows are in progress. */
  lemma HeldMoves(y: System, z: System, lane: Lane)
    requires Held(y) && (forall l :: l != lane ==> Holder(z, l) == Holder(y, l))
    requires forall r: Row :: r.status.InProgress? && r.lane != lane ==> (r in z.store.rows <==> r in y.store.rows)
    requires forall r :: r in z.store.rows && r.status.InProgress? && r.lane == lane ==> Holder(z, lane) == Some(r.id)
    requires Holder(z, lane).Some? ==>
               exists r :: r in z.store.rows && r.id == Holder(z, lane).value && r.lane == lane && r.status.InProgress?
    ensures Held(z)
  {
    forall l | l != lane && Holder(z, l).Some?
      ensures exists r :: r in z.store.rows && r.id == Holder(z, l).value && r.lane == l && r.status.InProgress?
    {
      var r :| r in y.store.rows && r.id == Holder(y, l).value && r.lane == l && r.status.InProgress?;
      assert r in z.store.rows;
    }
  }

  /** Rows outside `lane` are untouched. */
  lemma OtherLanesKept(s: Store, v: Store, lane: Lane)
    requires |v.rows| == |s.rows|
    requires forall i :: 0 <= i < |s.rows| ==>
               v.rows[i].lane == s.rows[i].lane && (s.rows[i].lane != lane ==> v.rows[i] == s.rows[i])
    ensures forall r: Row :: r.lane != lane ==> (r in v.rows <==> r in s.rows)
  {
    forall r: Row | r.lane != lane ensures r in v.rows <==> r in s.rows {
      if r in v.rows {
        var i: nat :| i < |v.rows| && v.rows[i] == r;
        assert s.rows[i] == r;
      }
      if r in s.rows {
        var i: nat :| i < |s.rows| && s.rows[i] == r;
        assert v.rows[i] == r;
      }
    }
  }

  lemma ClaimKeeps(y: System, lane: Lane, now: Time, home: Key -> Option<string>, z: System)
    requires Inv(y, home) && Holder(y, lane) == None
    requires z.store == Queue.Apply(y.store, Claim(lane, now)) && Holder(z, lane) == Claimed(y.store, lane, now)
    requires forall l :: l != lane ==> Holder(z, l) == Holder(y, l)
    ensures Inv(z, home)
  {
    ClaimRestates(y.store, lane, now);
    RestatingKeeps(y.store, z.store, home);
    ClaimTakesTheFirst(y.store.rows, lane, now);
    var k := Best(y.store.rows, lane, now);
    if k.Some? { assert z.store.rows[k.value] in z.store.rows; }
    HeldMoves(y, z, lane);
  }

  lemma ClaimRestates(s: Store, lane: Lane, now: Time)
    requires Sorted(s)
    ensures var v := Queue.Apply(s, Claim(lane, now));
            Restated(s, v) && forall r: Row :: r.lane != lane ==> (r in v.rows <==> r in s.rows)
  {
    ClaimTakesTheFirst(s.rows, lane, now);
    ApplyStaysSorted(s, Claim(lane, now));
    OtherLanesKept(s, Queue.Apply(s, Claim(lane, now)), lane);
  }

  lemma FinishRestates(s: Store, id: nat, e: Ending)
    requires Sorted(s) && forall i :: 0 <= i < |s.rows| && s.rows[i].id == id ==> s.rows[i].status.InProgress?
    ensures Restated(s, Finish(s, id, e))
    ensures forall i :: 0 <= i < |s.rows| ==>
              if s.rows[i].id == id then !Finish(s, id, e).rows[i].status.InProgress?
              else Finish(s, id, e).rows[i] == s.rows[i]
  {
  }

  lemma FinishKeeps(y: System, lane: Lane, e: Ending, home: Key -> Option<string>, z: System)
    requires Inv(y, home) && Holder(y, lane).Some?
    requires z.store == Finish(y.store, Holder(y, lane).value, e) && Holder(z, lane) == None
    requires forall l :: l != lane ==> Holder(z, l) == Holder(y, l)
    ensures Inv(z, home)
  {
    var id := Holder(y, lane).value;
    var h :| h in y.store.rows && h.id == id && h.lane == lane && h.status.InProgress?;
    forall i | 0 <= i < |y.store.rows| && y.store.rows[i].id == id ensures y.store.rows[i] == h {
      SortedIsUnique(y.store, y.store.rows[i], h);
    }
    FinishRestates(y.store, id, e);
    RestatingKeeps(y.store, z.store, home);
    OtherLanesKept(y.store, z.store, lane);
    HeldMoves(y, z, lane);
  }

  lemma RestartKeeps(y: System, home: Key -> Option<string>)
    requires Inv(y, home)
    ensures Inv(Next(y, Restart), home)
  {
    RestatingKeeps(y.store, Next(y, Restart).store, home);
  }

  lemma AnotherRowKeeps(rows: seq<Row>, r: Row, home: Key -> Option<string>)
    requires OneLive(rows) && Placed(rows, home) && !FromSync(r.task)
    ensures OneLive(rows + [r]) && Placed(rows + [r], home)
  {
  }

  lemma ScheduleKeeps(y: System, t: Task, lane: Lane, priority: int, home: Key -> Option<string>)
    requires Inv(y, home) && !FromSync(t)
    ensures Inv(Next(y, Schedule(t, lane, priority)), home)
  {
    var z := Next(y, Schedule(t, lane, priority));
    ApplyStaysSorted(y.store, Enqueue(t, lane, priority));
    if z.store != y.store { AnotherRowKeeps(y.store.rows, z.store.rows[|y.store.rows|], home); }
    HeldKeeps(y, z);
  }

  lemma SyncChangeKeeps(y: System, c: Change, comments: seq<string>, home: Key -> Option<string>)
    requires Inv(y, home) && Possible(y, SyncChange(c, comments), home)
    ensures Inv(Next(y, SyncChange(c, comments)), home)
  {
    var z := Next(y, SyncChange(c, comments));
    if IsTeardown(c) {
      TeardownKeeps(y, c.post, comments, home);
    } else if z.store != y.store {
      ActionsAreNotBlank(c);
      ReplacingKeeps(y, BuildTask(c).value, home);
    }
    PhaseKeeps(y.(store := z.store), z, home);
  }

  lemma StepKeeps(y: System, step: Step, home: Key -> Option<string>)
    requires Inv(y, home) && Possible(y, step, home)
    ensures Inv(Next(y, step), home)
  {
    match step {
      case SyncChange(c, comments) => SyncChangeKeeps(y, c, comments, home);
      case ControlClaim(now) => ClaimKeeps(y, ControlLane, now, home, Next(y, step));
      case ControlFinish(e) => FinishKeeps(y, ControlLane, e, home, Next(y, step));
      case WorkClaim(now) => ClaimKeeps(y, WorkLane, now, home, Next(y, step));
      case WorkFinish(e) => FinishKeeps(y, WorkLane, e, home, Next(y, step));
      case Schedule(t, lane, priority) => ScheduleKeeps(y, t, lane, priority, home);
      case Restart => RestartKeeps(y, home);
      case StartSync => PhaseKeeps(y, Next(y, step), home);
      case EndSync => PhaseKeeps(y, Next(y, step), home);
    }
  }

  /** Over every interleaving of sync, both threads, retries and restarts there is at most one live
      row per remote resource. */
  lemma {:induction false} AtMostOneLiveRow(steps: seq<Step>, home: Key -> Option<string>)
    ensures Inv(After(steps, home), home)
    ensures OneLive(After(steps, home).store.rows)
  {
    if steps != [] {
      var y, step := After(steps[..|steps| - 1], home), steps[|steps| - 1];
      AtMostOneLiveRow(steps[..|steps| - 1], home);
      if Possible(y, step, home) { StepKeeps(y, step, home); }
    }
  }

  /** It rests on one thread doing both: absorbing a change while a row about the same resource is
      being handled leaves two live rows. */
  lemma SyncWhileHandlingBreaksIt(now: Time)
    ensures var c := Change(Entry, Create, "", true, "7", "", false);
            var s := Queue.Apply(Queue.Apply(EMPTY, Enqueue(BuildTask(c).value, ControlLane, CONTROL_DEFAULT)),
                Claim(ControlLane, now));
            !OneLive(Absorb(s, {}, c, []).0.rows)
  {
    var t := Task(EntryCreated, Some("7"), None);
    var s1 := Queue.Apply(EMPTY, Enqueue(t, ControlLane, CONTROL_DEFAULT));
    assert s1.rows == [Row(0, t, Pending, 0, ControlLane, CONTROL_DEFAULT, None)];
    assert Best(s1.rows, ControlLane, now) == Some(0);
    var s := Queue.Apply(s1, Claim(ControlLane, now));
    var r := Started(s1.rows[0]);
    assert s.rows == [r];
    KeepFilters(s.rows, Spared(t));
    var v := ReplaceWith(s, t);
    var q := Row(1, t, Pending, 0, ControlLane, CONTROL_DEFAULT, None);
    assert r in v.rows && q in v.rows;
  }

  // ----- the tally of a sync

  datatype Tally = Tally(enqueued: nat, superseded: nat, coalesced: nat, cleanups: nat, ignored: nat)

  function Counted(t: Tally, s: Store, seen: set<Key>, c: Change, comments: seq<string>): Tally {
    if IsTeardown(c) then
      var swept := Swept(s.rows, c.post, comments);
      t.(superseded := t.superseded + |Waiting(swept)|, cleanups := t.cleanups + |Running(swept)|)
    else if IsOwnComment(c) || BuildTask(c).None? then t.(ignored := t.ignored + 1)
    else
      var task := BuildTask(c).value;
      if task.action.EntryUpdated? && KeyOf(task) in seen then t.(coalesced := t.coalesced + 1)
      else t.(enqueued := t.enqueued + 1, superseded := t.superseded + |Keep(s.rows, Stale(task))|)
  }

  type Comments = map<string, seq<string>>

  function CommentsOf(of: Comments, post: string): seq<string> { if post in of then of[post] else [] }

  function Sync(s: Store, changes: seq<Change>, of: Comments): (Store, set<Key>, Tally) {
    if changes == [] then (s, {}, Tally(0, 0, 0, 0, 0))
    else
      var (s1, seen, t) := Sync(s, changes[..|changes| - 1], of);
      var c := changes[|changes| - 1];
      var (s2, seen2) := Absorb(s1, seen, c, CommentsOf(of, c.post));
      (s2, seen2, Counted(t, s1, seen, c, CommentsOf(of, c.post)))
  }

  function Teardowns(changes: seq<Change>): nat {
    if changes == [] then 0
    else Teardowns(changes[..|changes| - 1]) + if IsTeardown(changes[|changes| - 1]) then 1 else 0
  }

  lemma {:induction false} KeepSplits(rows: seq<Row>, p: Row -> bool, q: Row -> bool)
    requires forall r :: r in rows ==> p(r) != q(r)
    ensures |Keep(rows, p)| + |Keep(rows, q)| == |rows|
  {
    if rows != [] {
      assert rows == rows[..|rows| - 1] + [rows[|rows| - 1]];
      KeepSplits(rows[..|rows| - 1], p, q);
    }
  }

  ghost predicate Distinct(rows: seq<Row>) { forall i, j :: 0 <= i < j < |rows| ==> rows[i] != rows[j] }

  lemma {:induction false} KeepDistinct(rows: seq<Row>, p: Row -> bool)
    requires Distinct(rows)
    ensures Distinct(Keep(rows, p))
  {
    if rows != [] {
      KeepDistinct(rows[..|rows| - 1], p);
      KeepFilters(rows[..|rows| - 1], p);
    }
  }

  lemma DistinctJoins(a: seq<Row>, b: seq<Row>)
    requires Distinct(a) && Distinct(b) && forall r :: r in b ==> r !in a
    ensures Distinct(a + b)
  {
    var c := a + b;
    forall i, j | 0 <= i < j < |c| ensures c[i] != c[j] {
      if i < |a| <= j { assert c[i] in a && c[j] in b; }
    }
  }

  lemma {:induction false} SweptDistinct(s: Store, post: string, comments: seq<string>)
    requires Sorted(s)
    ensures Distinct(Swept(s.rows, post, comments))
  {
    if comments == [] {
      KeepDistinct(s.rows, OnPost(post));
    } else {
      var front, c := comments[..|comments| - 1], comments[|comments| - 1];
      SweptDistinct(s, post, front);
      var p := ReactionsOn(c, Swept(s.rows, post, front));
      KeepDistinct(s.rows, p);
      KeepFilters(s.rows, p);
      DistinctJoins(Swept(s.rows, post, front), Keep(s.rows, p));
    }
  }

  lemma {:induction false} WithoutOneRow(s: Store, r: Row)
    requires Sorted(s) && r in s.rows
    ensures |Without(s.rows, r.id)| == |s.rows| - 1
    decreases |s.rows|
  {
    var front, last := s.rows[..|s.rows| - 1], s.rows[|s.rows| - 1];
    assert s.rows == front + [last];
    if last.id == r.id {
      SortedIsUnique(s, r, last);
      WithoutNothing(front, r.id);
    } else {
      assert Without(s.rows, r.id) == Without(front, r.id) + [last];
      WithoutOneRow(s.(rows := front), r);
    }
  }

  lemma {:induction false} WithoutNothing(rows: seq<Row>, id: nat)
    requires forall q :: q in rows ==> q.id != id
    ensures Without(rows, id) == rows
  {
    if rows != [] {
      assert rows[|rows| - 1] in rows;
      WithoutNothing(rows[..|rows| - 1], id);
    }
  }

  lemma {:induction false} RemoveAllCounts(s: Store, doomed: seq<Row>)
    requires Sorted(s) && Distinct(doomed) && forall r :: r in doomed ==> r in s.rows
    ensures |RemoveAll(s, doomed).rows| == |s.rows| - |Waiting(doomed)|
  {
    if doomed != [] {
      var front, d := doomed[..|doomed| - 1], doomed[|doomed| - 1];
      assert doomed == front + [d];
      RemoveAllCounts(s, front);
      RemoveAllRemoves(s, front);
      if d.status.Pending? {
        StaysUnlessRemoved(s, front, d);
        WithoutOneRow(RemoveAll(s, front), d);
      }
    }
  }

  lemma {:induction false} StaysUnlessRemoved(s: Store, doomed: seq<Row>, d: Row)
    requires Sorted(s) && d in s.rows && d !in doomed && forall r :: r in doomed ==> r in s.rows
    ensures d in RemoveAll(s, doomed).rows
  {
    if doomed != [] {
      var front, r := doomed[..|doomed| - 1], doomed[|doomed| - 1];
      StaysUnlessRemoved(s, front, d);
      KeepFilters(RemoveAll(s, front).rows, NotId(r.id));
      if r.id == d.id { SortedIsUnique(s, r, d); }
    }
  }

  lemma {:induction false} CleanupsCount(s: Store, post: string, busy: seq<Row>)
    ensures |EnqueueCleanups(s, post, busy).rows| == |s.rows| + |busy|
  {
    if busy != [] { CleanupsCount(s, post, busy[..|busy| - 1]); }
  }

  lemma AbsorbCounts(t: Tally, s: Store, seen: set<Key>, c: Change, comments: seq<string>)
    requires Sorted(s)
    ensures var v, u := Absorb(s, seen, c, comments).0, Counted(t, s, seen, c, comments);
            && Sorted(v)
            && |v.rows| + u.superseded + t.enqueued + t.cleanups == |s.rows| + t.superseded + u.enqueued + u.cleanups
  {
    if IsTeardown(c) {
      var swept := Swept(s.rows, c.post, comments);
      SweptAreRows(s.rows, c.post, comments);
      SweptDistinct(s, c.post, comments);
      RemoveAllCounts(s, swept);
      RemoveAllRemoves(s, swept);
      CleanupsCount(RemoveAll(s, swept), c.post, Running(swept));
      CleanupsAdd(RemoveAll(s, swept), c.post, Running(swept));
    } else if BuildTask(c).Some? {
      var task := BuildTask(c).value;
      ActionsAreNotBlank(c);
      KeepSplits(s.rows, Spared(task), Stale(task));
      KeepStaysSorted(s, Spared(task));
      ApplyStaysSorted(Supersede(s, task), Enqueue(task, ControlLane, CONTROL_DEFAULT));
    }
  }

  /** What a tally counts for one change. */
  lemma CountedIs(t: Tally, s: Store, seen: set<Key>, c: Change, comments: seq<string>)
    ensures var u := Counted(t, s, seen, c, comments);
            if c.resource.Entry? && (c.verb.Delete? || (c.verb.State? && c.field == "is_open" && !c.openNow)) then
              u == t.(superseded := u.superseded, cleanups := u.cleanups)
            else if (c.resource.CommentOn? && c.ours) || forall a :: !CallsFor(c, a) then
              u == t.(ignored := t.ignored + 1)
            else if c.resource.Entry? && c.verb.Update? && EntryKey(Some(c.post)) in seen then
              u == t.(coalesced := t.coalesced + 1)
            else u == t.(enqueued := t.enqueued + 1, superseded := u.superseded)
  {
    TasksSayWhatChanged(c);
    if BuildTask(c).Some? { assert CallsFor(c, BuildTask(c).value.action); }
  }

  /** Every change of a sync is torn down, ignored, coalesced or enqueued. */
  lemma {:induction false} EveryChangeIsTallied(s: Store, changes: seq<Change>, of: Comments)
    ensures var t := Sync(s, changes, of).2; |changes| == Teardowns(changes) + t.ignored + t.coalesced + t.enqueued
  {
    if changes != [] { EveryChangeIsTallied(s, changes[..|changes| - 1], of); }
  }

  /** And the tally accounts for every row that came or went. */
  lemma {:induction false} TheTallyAddsUp(s: Store, changes: seq<Change>, of: Comments)
    requires Sorted(s)
    ensures var (v, _, t) := Sync(s, changes, of);
            Sorted(v) && |v.rows| + t.superseded == |s.rows| + t.enqueued + t.cleanups
  {
    if changes != [] {
      var front, c := changes[..|changes| - 1], changes[|changes| - 1];
      TheTallyAddsUp(s, front, of);
      var (s1, seen, t) := Sync(s, front, of);
      AbsorbCounts(t, s1, seen, c, CommentsOf(of, c.post));
    }
  }
}
