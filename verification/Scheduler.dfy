/** The two scheduler lanes: who may claim when, and how a finished task leaves the queue. */
module Scheduler {
  import opened Basics
  import opened Queue
  import opened Recovery
  import Bridge = SyncBridge

  const MIN_PARK := 60
  const DEFAULT_PARK := 900

  datatype State = Running | Paused | Stopped

  /** What a handler returns. `quotaUntil` is the provider's own reset time, if it stated one. */
  datatype Outcome =
    | NoOutcome
    | Finished(success: bool, error: Option<string>, retryable: bool)
    | PutBack(after: nat)
    | QuotaHit(quotaUntil: Option<Time>)

  /** How an outcome ends the row, given recovery's reaction to a failure. */
  function EndingOf(o: Outcome, r: Reaction, now: Time): Bridge.Ending {
    match o
    case NoOutcome => Bridge.PutBack(None)
    case PutBack(after) => Bridge.PutBack(if after > 0 then Some(now + after) else None)
    case QuotaHit(until) => Bridge.PutBack(Some(if until.Some? then until.value else now + DEFAULT_PARK))
    case Finished(success, error, _) =>
      if !success && r.retryIn.Some? then Bridge.Retried(error, Some(now + r.retryIn.value))
          else Bridge.Ended(success, error)
  }

  /** How a task's row reads once its outcome is in: put back at once, after the wait it asks for, or when
      the provider's quota is said to be back, a quarter of an hour on if it does not say; else ended, or put
      back after the delay recovery set. */
  lemma OutcomeLeaves(s: Store, id: nat, o: Outcome, r: Reaction, now: Time)
    ensures var v := Bridge.Finish(s, id, EndingOf(o, r, now));
            match o
            case NoOutcome => OnlyRow(s.rows, v.rows, id, Waits(None))
            case PutBack(after) => OnlyRow(s.rows, v.rows, id, Waits(if after == 0 then None else Some(now + after)))
            case QuotaHit(until) =>
              OnlyRow(s.rows, v.rows, id, Waits(if until == None then Some(now + 15 * 60) else until))
            case Finished(success, error, _) =>
              if !success && r.retryIn.Some? then
                OnlyRow(s.rows, v.rows, id, Waits(Some(now + r.retryIn.value)))
              else
                OnlyRow(s.rows, v.rows, id, (q: Row) => q.(status := if success then Succeeded else Failed))
  {
    if o.Finished? {
      EndingsSay(s, id, o.success, o.error, None);
    } else {
      EndingsSay(s, id, true, None, EndingOf(o, r, now).notBefore);
    }
  }

  function Waits(t: Option<Time>): Row -> Row { (q: Row) => q.(status := Pending, notBefore := t) }

  class Loop {
    const db: Database
    const desk: Desk
    var state: State
    var pausedUntil: Time

    ghost predicate Valid() reads this, desk { desk.db == db }

    constructor (db: Database, desk: Desk)
      requires desk.db == db
      ensures Valid() && this.db == db && this.desk == desk && state == Running && pausedUntil == 0
    {
      this.db, this.desk, state, pausedUntil := db, desk, Running, 0;
    }

    /** The quota circuit: open until its time, then closed for good. */
    method QuotaCircuitOpen(now: Time) returns (open: bool)
      modifies this`pausedUntil
      ensures open <==> now < old(pausedUntil)
      ensures pausedUntil == if open then old(pausedUntil) else 0
    {
      if pausedUntil == 0 { return false; }
      if now >= pausedUntil {
        pausedUntil := 0;
        return false;
      }
      open := true;
    }

    /** One look of the work lane: it claims only while running, outside a quota park, and when no
        control row could be claimed; and then what it claims is the first due work row. */
    method WorkTick(now: Time) returns (claimed: Option<Row>)
      modifies this`pausedUntil, db
      ensures claimed.Some? ==>
                state == Running && old(pausedUntil) <= now && Best(old(db.rows), ControlLane, now).None?
      ensures claimed.None? ==> db.Now() == old(db.Now())
      ensures claimed.Some? ==> db.Now() == Apply(old(db.Now()), Claim(WorkLane, now))
      ensures claimed.None? && state == Running && old(pausedUntil) <= now
                && Best(old(db.rows), ControlLane, now).None? ==>
                Best(old(db.rows), WorkLane, now).None?
    {
      if state != Running { return None; }
      var parked := QuotaCircuitOpen(now);
      if parked { return None; }
      var ready := db.ReadyCount(ControlLane, now);
      if ready > 0 { return None; }
      claimed := db.ClaimNext(WorkLane, now);
    }

    /** A task that hit the provider's quota is put back for the reset time and parks the work lane
        at least a minute; recovery never hears of it. */
    method OpenQuotaCircuit(id: nat, until: Option<Time>, now: Time)
      modifies this`pausedUntil, db
      ensures db.Now() == Apply(old(db.Now()), Requeue(id, Some(if until.Some? then until.value else now + 15 * 60)))
      ensures pausedUntil ==
              if until.None? then now + 15 * 60 else if until.value < now + 60 then now + 60 else until.value
    {
      var park, notBefore := DEFAULT_PARK, now + DEFAULT_PARK;
      if until.Some? {
        park := if until.value < now + MIN_PARK then MIN_PARK else until.value - now;
        notBefore := until.value;
      }
      db.RequeueTask(id, Some(notBefore));
      pausedUntil := now + park;
    }

    /** However a task ends, its row leaves the queue by one of the endings the sync bridge allows;
        the only row recovery ever adds is the resolve agent's. */
    method FinishTask(row: Row, o: Outcome, now: Time, postable: bool) returns (r: Reaction)
      requires Valid()
      modifies this`pausedUntil, db, desk`posts
      ensures Valid()
      ensures var s := Bridge.Finish(old(db.Now()), row.id, EndingOf(o, r, now));
              db.Now() == if r.engage then Apply(s, Enqueue(ResolveTask(row.id), WorkLane, Recovery.WORK_DEFAULT))
                  else s
      ensures r.engage || r.retryIn.Some? ==> o.Finished? && !o.success
      ensures o.Finished? && !o.success ==>
                r == OnFailure(desk.policy, row.task.action.PlatformError?, row.attempts, o.retryable,
                    old(PostOf(desk.posts, row.id)), postable)
    {
      r := Reaction(NoPost, None, false);
      match o {
        case NoOutcome => db.RequeueTask(row.id, None);
        case QuotaHit(until) => OpenQuotaCircuit(row.id, until, now);
        case PutBack(after) =>
          if after > 0 { db.RequeueTask(row.id, Some(now + after)); } else { db.RequeueTask(row.id, None); }
        case Finished(success, error, retryable) =>
          db.CompleteTask(row.id, success, error);
          if !success {
            r := desk.AfterFailure(row, retryable, now, postable);
          } else if row.attempts > 1 {
            desk.AfterRecovery(row);
          }
      }
    }
  }
}
