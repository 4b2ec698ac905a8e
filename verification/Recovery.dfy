/** What happens after a task fails: retries with growing delays, an error post whose closing stops
    them, and an agent that is engaged when the failure looks real. */
module Recovery {
  import opened Basics
  import opened Queue

  datatype Policy = Policy(enabled: bool, maxRetries: int)

  const ENGAGE_AFTER := 3

  function Min(a: int, b: int): int { if a < b then a else b }

  /** The delay after `attempts` runs; the last value repeats. */
  function RetryDelay(attempts: int): nat { if attempts <= 1 then 60 else if attempts == 2 then 300 else 900 }

  /** The delays from the first failure up to the failure of attempt `n`. */
  function DelaysUpTo(n: int): nat
    decreases if n > 1 then n else 0
  {
    if n <= 1 then 0 else DelaysUpTo(n - 1) + RetryDelay(n - 1)
  }

  /** What the error post announces: seconds from the first failure until the agent is engaged. */
  function AgentEta(maxRetries: int): nat { DelaysUpTo(Min(ENGAGE_AFTER, maxRetries + 1)) }

  /** The error post of a task, as recovery finds it. */
  datatype Post = NoPost | OpenPost | ClosedPost

  /** `retryIn` is the delay of the next run, if there is one; `engage` sends the agent. */
  datatype Reaction = Reaction(post: Post, retryIn: Option<nat>, engage: bool)

  /** `postable`: should there be no post yet, writing one succeeds. */
  function OnFailure(p: Policy, resolving: bool, attempts: int, retryable: bool, found: Post,
                     postable: bool): Reaction {
    if resolving || !p.enabled then Reaction(found, None, false)
    else
      var exhausted := !retryable || attempts > p.maxRetries;
      var created := found.NoPost? && postable;
      var post := if created then OpenPost else found;
      if post.ClosedPost? then Reaction(post, None, false)
      else if exhausted then Reaction(post, None, post.OpenPost?)
      else
        Reaction(post, Some(RetryDelay(attempts)),
                 post.OpenPost? && (attempts == ENGAGE_AFTER || (created && attempts > ENGAGE_AFTER)))
  }

  // ----- the life of a task that only ever fails retryably

  /** What the world does around attempt `n`: whether an error post can be written after it fails,
      whether someone has closed the post before the next attempt is claimed, and how long after it
      was due the next attempt has run and failed. */
  datatype Luck = Luck(postable: bool, closedNext: bool, late: nat)

  /** `runs` are the times the task's own handler ran, `engaged` those the agent was sent for. */
  datatype Life = Life(runs: seq<nat>, engaged: seq<nat>)

  /** The next attempt, should there be one: its error post and how long after this failure it fails. */
  function NextAttempt(p: Policy, n: nat, found: Post, l: Luck): Option<(Post, nat)> {
    var r := OnFailure(p, false, n, true, found, l.postable);
    // a queued retry whose error post was closed never reaches its handler
    if r.retryIn.None? || r.post.ClosedPost? || (r.post.OpenPost? && l.closedNext) then None
    else Some((r.post, r.retryIn.value + l.late))
  }

  function Since(p: Policy, n: nat, now: nat, found: Post, luck: nat -> Luck): Life
    decreases Max(0, p.maxRetries + 1 - n)
  {
    var sent := if OnFailure(p, false, n, true, found, luck(n).postable).engage then [now] else [];
    var next := NextAttempt(p, n, found, luck(n));
    if next.None? then Life([now], sent)
    else
      var rest := Since(p, n + 1, now + next.value.1, next.value.0, luck);
      Life([now] + rest.runs, sent + rest.engaged)
  }

  /** From the failure of the first run on. */
  function LifeOf(p: Policy, luck: nat -> Luck): Life { Since(p, 1, 0, NoPost, luck) }

  lemma RetriesAreNumbered(p: Policy, n: nat, found: Post, l: Luck)
    ensures NextAttempt(p, n, found, l).Some? ==> n <= p.maxRetries
  {
  }

  lemma SinceUnfolds(p: Policy, n: nat, now: nat, found: Post, luck: nat -> Luck)
    ensures var next := NextAttempt(p, n, found, luck(n));
            Since(p, n, now, found, luck).runs == [now] +
              if next.None? then [] else Since(p, n + 1, now + next.value.1, next.value.0, luck).runs
  {
  }

  lemma {:induction false} SinceIsBounded(p: Policy, n: nat, now: nat, found: Post, luck: nat -> Luck)
    ensures |Since(p, n, now, found, luck).runs| <= Max(1, p.maxRetries + 2 - n)
    decreases Max(0, p.maxRetries + 1 - n)
  {
    RetriesAreNumbered(p, n, found, luck(n));
    SinceUnfolds(p, n, now, found, luck);
    var next := NextAttempt(p, n, found, luck(n));
    if next.Some? { SinceIsBounded(p, n + 1, now + next.value.1, next.value.0, luck); }
  }

  /** At most maxRetries + 1 runs, whatever people and the tracker do. */
  lemma RunsAreBounded(p: Policy, luck: nat -> Luck)
    ensures |LifeOf(p, luck).runs| <= Max(1, p.maxRetries + 1)
  {
    SinceIsBounded(p, 1, 0, NoPost, luck);
  }

  /** How late the attempts up to `n` were in all. */
  function LateUpTo(luck: nat -> Luck, n: int): nat
    decreases if n > 1 then n else 0
  {
    if n <= 1 then 0 else LateUpTo(luck, n - 1) + luck(n - 1).late
  }

  /** When attempt `n` failed, from the first failure on. */
  function FailedAt(luck: nat -> Luck, n: int): nat { DelaysUpTo(n) + LateUpTo(luck, n) }

  /** With an open post from attempt `n` on, nothing cuts the life short. */
  lemma {:induction false} OpenLife(p: Policy, n: nat, luck: nat -> Luck)
    requires p.enabled && n >= 2 && n <= p.maxRetries + 1
    requires forall k: nat :: !luck(k).closedNext
    ensures var life, last := Since(p, n, FailedAt(luck, n), OpenPost, luck), FailedAt(luck, p.maxRetries + 1);
            && |life.runs| == p.maxRetries + 2 - n
            && life.engaged ==
                (if n <= ENGAGE_AFTER <= p.maxRetries then [FailedAt(luck, ENGAGE_AFTER), last] else [last])
    decreases p.maxRetries + 1 - n
  {
    var r := OnFailure(p, false, n, true, OpenPost, luck(n).postable);
    if n <= p.maxRetries {
      assert r.retryIn == Some(RetryDelay(n)) && r.post.OpenPost?;
      assert FailedAt(luck, n + 1) == FailedAt(luck, n) + RetryDelay(n) + luck(n).late;
      OpenLife(p, n + 1, luck);
    } else {
      assert r == Reaction(OpenPost, None, true);
    }
  }

  /** With the post written after the first failure and left open: all maxRetries + 1 runs happen; the
      agent is first engaged when the post announced, or later by just as much as the attempts ran
      late; and it is engaged twice when there are at least three retries and once otherwise. */
  lemma EngagedAsAnnounced(p: Policy, luck: nat -> Luck)
    requires p.enabled && luck(1).postable && forall k: nat :: !luck(k).closedNext
    ensures var life := LifeOf(p, luck);
            && |life.runs| == Max(1, p.maxRetries + 1)
            && life.engaged != []
            && life.engaged[0] == AgentEta(p.maxRetries) + LateUpTo(luck, Min(ENGAGE_AFTER, p.maxRetries + 1))
            && |life.engaged| == if p.maxRetries >= 3 then 2 else 1
  {
    if p.maxRetries >= 1 { OpenLife(p, 2, luck); }
  }

  /** Closing the post between two attempts stops the task there. */
  lemma ClosingStopsRetries(p: Policy, n: nat, now: nat, luck: nat -> Luck)
    requires luck(n).closedNext
    ensures Since(p, n, now, OpenPost, luck).runs == [now]
  {
  }

  /** A failure that cannot be retried is never put back, and engages the agent at once if its post is, or
      can be, open; without recovery, or for the agent's own task, nothing happens. */
  lemma HopelessFailures(p: Policy, resolving: bool, attempts: int, found: Post, postable: bool)
    ensures var r := OnFailure(p, resolving, attempts, false, found, postable);
            && r.retryIn == None
            && (r.engage <==> p.enabled && !resolving && (found == OpenPost || (found == NoPost && postable)))
    ensures forall retryable :: !p.enabled || resolving ==>
              OnFailure(p, resolving, attempts, retryable, found, postable) == Reaction(found, None, false)
  {
  }

  /** A failure that can: it is put back exactly while attempts are left and no one closed its post, first
      after a minute, then five, then fifteen. */
  lemma RetriesWait(p: Policy, attempts: int, found: Post, postable: bool)
    requires p.enabled && attempts >= 1
    ensures var r := OnFailure(p, false, attempts, true, found, postable);
            && (r.retryIn.Some? <==> attempts <= p.maxRetries && found != ClosedPost)
            && (r.retryIn.Some? ==>
                  r.retryIn.value == if attempts == 1 then 60 else if attempts == 2 then 5 * 60 else 15 * 60)
            && (r.post == if found == NoPost && postable then OpenPost else found)
            && (r.engage <==>
                  r.post == OpenPost &&
                  (|| attempts > p.maxRetries || attempts == 3
                   || (found == NoPost && attempts > 3)))
  {
  }

  // ----- recovery as it runs

  datatype ErrorPost = ErrorPost(open: bool, comments: nat)

  function PostOf(posts: map<nat, ErrorPost>, id: nat): Post {
    if id !in posts then NoPost else if posts[id].open then OpenPost else ClosedPost
  }

  const WORK_DEFAULT := 50

  function ResolveTask(id: nat): Task { Task(PlatformError, None, None) }

  /** The store after recovery reacted to the failure of row `id`. */
  function Reacted(s: Store, id: nat, r: Reaction, now: Time): Store {
    var s1 := if r.retryIn.Some? then Apply(s, Requeue(id, Some(now + r.retryIn.value))) else s;
    if r.engage then Apply(s1, Enqueue(ResolveTask(id), WorkLane, WORK_DEFAULT)) else s1
  }

  /** A reaction carried out: the row is put back for its delay, and the agent's task is queued for the work
      lane behind whatever is there. */
  lemma ReactedIs(s: Store, id: nat, r: Reaction, now: Time)
    ensures var v := Reacted(s, id, r, now);
            var agent := Row(s.next, Task(PlatformError, None, None), Pending, 0, WorkLane, 50, None);
            && |v.rows| == |s.rows| + (if r.engage then 1 else 0)
            && (r.engage ==> v.rows[|s.rows|] == agent)
            && forall i :: 0 <= i < |s.rows| ==>
                 v.rows[i] == if r.retryIn != None && s.rows[i].id == id then
                     s.rows[i].(status := Pending, notBefore := Some(now + r.retryIn.value))
                   else s.rows[i]
  {
  }

  class Desk {
    const db: Database
    const policy: Policy
    var posts: map<nat, ErrorPost>   // by failed task

    constructor (db: Database, policy: Policy)
      ensures this.db == db && this.policy == policy && posts == map[]
    {
      this.db, this.policy, posts := db, policy, map[];
    }

    /** A finished row that failed: the decision, carried out on the queue and the tracker. */
    method AfterFailure(row: Row, retryable: bool, now: Time, postable: bool) returns (r: Reaction)
      modifies this`posts, db
      ensures r == OnFailure(policy, row.task.action.PlatformError?, row.attempts, retryable,
                old(PostOf(posts, row.id)), postable)
      ensures db.Now() == Reacted(old(db.Now()), row.id, r, now)
      ensures PostOf(posts, row.id) == r.post
      ensures forall id :: id != row.id ==> PostOf(posts, id) == old(PostOf(posts, id))
    {
      var found := PostOf(posts, row.id);
      if row.task.action.PlatformError? || !policy.enabled { return Reaction(found, None, false); }
      var exhausted := !retryable || row.attempts > policy.maxRetries;
      var created := found.NoPost? && postable;
      if created { posts := posts[row.id := ErrorPost(true, 0)]; }
      var post := PostOf(posts, row.id);
      if post.ClosedPost? { return Reaction(post, None, false); }
      if !created && post.OpenPost? {
        posts := posts[row.id := posts[row.id].(comments := posts[row.id].comments + 1)];
      }
      if exhausted {
        r := Reaction(post, None, post.OpenPost?);
      } else {
        var delay := RetryDelay(row.attempts);
        db.RequeueTask(row.id, Some(now + delay));
        var engage := row.attempts == ENGAGE_AFTER || (created && row.attempts > ENGAGE_AFTER);
        r := Reaction(post, Some(delay), post.OpenPost? && engage);
      }
      if r.engage { var _ := db.EnqueueTask(ResolveTask(row.id), WorkLane, WORK_DEFAULT); }
    }

    /** A success after failures closes the error post. */
    method AfterRecovery(row: Row)
      modifies this`posts
      ensures PostOf(posts, row.id) ==
              if !row.task.action.PlatformError? && old(PostOf(posts, row.id)).OpenPost? then ClosedPost
              else old(PostOf(posts, row.id))
      ensures forall id :: id != row.id ==> PostOf(posts, id) == old(PostOf(posts, id))
    {
      if !row.task.action.PlatformError? && row.id in posts && posts[row.id].open {
        posts := posts[row.id := ErrorPost(false, posts[row.id].comments + 1)];
      }
    }
  }
}
