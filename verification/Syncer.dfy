/** Sync as it runs: loops over changes and rows that supersede, tear down and enqueue, and the
    registry through which a teardown reaches a running task. */
module Syncer {
  import opened Basics
  import opened Queue
  import opened SyncBridge

  // ----- the cancellation registry

  /** The registered tasks, and whether each was cancelled. */
  type Events = map<nat, bool>

  datatype Signal = Register(id: nat) | Cancel(id: nat) | Clear(id: nat) | CancelAll

  function Signalled(events: Events, s: Signal): Events {
    match s
    case Register(id) => if id in events then events else events[id := false]
    case Cancel(id) => events[id := true]
    case Clear(id) => events - {id}
    case CancelAll => map id | id in events :: true
  }

  function Heard(signals: seq<Signal>): Events {
    if signals == [] then map[] else Signalled(Heard(signals[..|signals| - 1]), signals[|signals| - 1])
  }

  predicate Fired(events: Events, id: nat) { id in events && events[id] }

  /** The `k`th signal cancels task `id`: by name at any time, or with everything registered then. */
  ghost predicate Cancels(signals: seq<Signal>, k: nat, id: nat)
    requires k < |signals|
  {
    signals[k] == Cancel(id) || (signals[k].CancelAll? && id in Heard(signals[..k]))
  }

  /** A task sees its cancellation exactly when it was cancelled since it was last cleared, also if
      the cancellation came before the task registered. */
  lemma {:induction false} CancellationIsSeen(signals: seq<Signal>, id: nat)
    ensures Fired(Heard(signals), id) <==>
            exists k: nat :: k < |signals| && Cancels(signals, k, id) && Clear(id) !in signals[k..]
  {
    if signals != [] {
      var n, front := |signals| - 1, signals[..|signals| - 1];
      CancellationIsSeen(front, id);
      assert forall k: nat :: k < n ==> front[..k] == signals[..k] && front[k] == signals[k];
      assert forall k: nat :: k <= n ==> signals[k..] == front[k..] + [signals[n]];
      assert signals[n..] == [signals[n]];
      if signals[n].CancelAll? && id in Heard(front) { assert Cancels(signals, n, id); }
      if signals[n] == Cancel(id) { assert Cancels(signals, n, id); }
      if Fired(Heard(front), id) && signals[n] != Clear(id) {
        var k: nat :| k < n && Cancels(front, k, id) && Clear(id) !in front[k..];
        assert Cancels(signals, k, id);
      }
      forall k: nat | k < n && Cancels(signals, k, id) ensures Cancels(front, k, id) {}
    }
  }

  class Registry {
    var events: Events

    constructor ()
      ensures events == map[]
    {
      events := map[];
    }

    method RegisterTask(id: nat) returns (cancelled: bool)
      modifies this
      ensures events == Signalled(old(events), Register(id)) && cancelled == Fired(events, id)
    {
      if id !in events { events := events[id := false]; }
      cancelled := events[id];
    }

    method CancelTask(id: nat)
      modifies this
      ensures events == Signalled(old(events), Cancel(id))
    {
      events := events[id := true];
    }

    method ClearTask(id: nat)
      modifies this
      ensures events == Signalled(old(events), Clear(id))
    {
      events := events - {id};
    }
  }

  // ----- filtering twice

  lemma KeepLast(rows: seq<Row>, x: Row, p: Row -> bool)
    ensures Keep(rows + [x], p) == Keep(rows, p) + if p(x) then [x] else []
  {
    assert (rows + [x])[..|rows|] == rows;
  }

  lemma {:induction false} KeepThen(rows: seq<Row>, p: Row -> bool, q: Row -> bool, both: Row -> bool)
    requires forall r :: r in rows ==> both(r) == (p(r) && q(r))
    ensures Keep(Keep(rows, p), q) == Keep(rows, both)
  {
    if rows != [] {
      var front, last := rows[..|rows| - 1], rows[|rows| - 1];
      assert rows == front + [last];
      KeepThen(front, p, q, both);
      KeepLast(front, last, p);
      KeepLast(front, last, both);
      KeepLast(Keep(front, p), last, q);
      assert !p(last) ==> Keep(rows, p) == Keep(front, p);
    }
  }

  lemma {:induction false} KeepSame(rows: seq<Row>, p: Row -> bool, q: Row -> bool)
    requires forall r :: r in rows ==> p(r) == q(r)
    ensures Keep(rows, p) == Keep(rows, q)
  {
    if rows != [] {
      assert rows == rows[..|rows| - 1] + [rows[|rows| - 1]];
      KeepSame(rows[..|rows| - 1], p, q);
    }
  }

  lemma {:induction false} KeepAll(rows: seq<Row>, p: Row -> bool)
    requires forall r :: r in rows ==> p(r)
    ensures Keep(rows, p) == rows
  {
    if rows != [] {
      assert rows == rows[..|rows| - 1] + [rows[|rows| - 1]];
      KeepAll(rows[..|rows| - 1], p);
    }
  }

  /** Spared so far: not both outdated and among the rows already looked at. */
  function SparedSoFar(t: Task, done: seq<Row>): Row -> bool { (r: Row) => !(Outdated(r, t) && r in done) }

  lemma RemoveOneMore(s: Store, t: Task, done: seq<Row>, r: Row)
    requires Sorted(s) && r in s.rows
    ensures Keep(s.rows, SparedSoFar(t, done + [r])) ==
            if Outdated(r, t) then Without(Keep(s.rows, SparedSoFar(t, done)), r.id)
                else Keep(s.rows, SparedSoFar(t, done))
  {
    if Outdated(r, t) {
      forall q | q in s.rows ensures SparedSoFar(t, done + [r])(q) == (SparedSoFar(t, done)(q) && NotId(r.id)(q)) {
        if q.id == r.id { SortedIsUnique(s, q, r); }
      }
      KeepThen(s.rows, SparedSoFar(t, done), NotId(r.id), SparedSoFar(t, done + [r]));
    } else {
      KeepSame(s.rows, SparedSoFar(t, done), SparedSoFar(t, done + [r]));
    }
  }

  // ----- sync

  class Syncer {
    const db: Database
    const registry: Registry
    var seen: set<Key>
    var tally: Tally

    constructor (db: Database, registry: Registry)
      ensures this.db == db && this.registry == registry
    {
      this.db, this.registry := db, registry;
      seen, tally := {}, Tally(0, 0, 0, 0, 0);
    }

    method RemoveIfStale(r: Row, t: Task, ghost s: Store, ghost done: seq<Row>) returns (removed: bool)
      requires Sorted(s) && r in s.rows && t.post.Some? && r.task.post == t.post
      requires db.Now() == s.(rows := Keep(s.rows, SparedSoFar(t, done)))
      modifies db
      ensures db.Now() == s.(rows := Keep(s.rows, SparedSoFar(t, done + [r])))
      ensures removed == Outdated(r, t)
    {
      RemoveOneMore(s, t, done, r);
      removed := r.status.Pending? && KeyOf(r.task) == KeyOf(t);
      if removed { db.RemoveTask(r.id); }
    }

    method RemoveStale(found: seq<Row>, t: Task) returns (removed: nat)
      requires Sorted(db.Now()) && t.post.Some?
      requires forall r :: r in found ==> r in db.rows && r.task.post == t.post
      modifies db
      ensures db.Now() == old(db.Now()).(rows := Keep(old(db.rows), SparedSoFar(t, found)))
      ensures removed == |Keep(found, Stale(t))|
    {
      ghost var s := db.Now();
      KeepAll(s.rows, SparedSoFar(t, []));
      removed := 0;
      for i := 0 to |found|
        invariant db.Now() == s.(rows := Keep(s.rows, SparedSoFar(t, found[..i])))
        invariant removed == |Keep(found[..i], Stale(t))|
      {
        PrefixGrows(found, i);
        KeepLast(found[..i], found[i], Stale(t));
        var gone := RemoveIfStale(found[i], t, s, found[..i]);
        if gone { removed := removed + 1; }
      }
      assert found[..|found|] == found;
    }

    method SupersedeRows(t: Task) returns (removed: nat)
      requires Sorted(db.Now())
      modifies db
      ensures db.Now() == Supersede(old(db.Now()), t)
      ensures removed == |Keep(old(db.rows), Stale(t))|
    {
      ghost var rows := db.rows;
      if t.post.None? {
        KeepAll(rows, Spared(t));
        KeepNothing(rows, Stale(t));
        return 0;
      }
      var found := db.TasksFor(t.post.value);
      KeepFilters(rows, OnPost(t.post.value));
      removed := RemoveStale(found, t);
      KeepSame(rows, SparedSoFar(t, found), Spared(t));
      KeepThen(rows, OnPost(t.post.value), Stale(t), Stale(t));
    }

    method SweptRows(post: string, comments: seq<string>) returns (swept: seq<Row>)
      requires Sorted(db.Now())
      ensures swept == Swept(db.rows, post, comments)
    {
      swept := db.TasksFor(post);
      for i := 0 to |comments|
        invariant swept == Swept(db.rows, post, comments[..i])
      {
        assert comments[..i + 1][..i] == comments[..i];
        var found := db.TasksFor(comments[i]);
        var before := swept;
        for j := 0 to |found|
          invariant swept == before + Keep(found[..j], ReactionsOn(comments[i], before))
        {
          assert found[..j + 1][..j] == found[..j];
          KeepFilters(db.rows, OnPost(comments[i]));
          assert found[j] in found;
          if OnComment(found[j].task) && found[j] !in before { swept := swept + [found[j]]; }
        }
        assert found[..|found|] == found;
        KeepThen(db.rows, OnPost(comments[i]), ReactionsOn(comments[i], before), ReactionsOn(comments[i], before));
      }
      assert comments[..|comments|] == comments;
    }

    method RemovePending(swept: seq<Row>) returns (busy: seq<Row>)
      modifies db, this`tally
      ensures db.Now() == RemoveAll(old(db.Now()), swept) && busy == Running(swept)
      ensures tally == old(tally).(superseded := old(tally).superseded + |Waiting(swept)|)
    {
      busy := [];
      for i := 0 to |swept|
        invariant db.Now() == RemoveAll(old(db.Now()), swept[..i]) && busy == Running(swept[..i])
        invariant tally == old(tally).(superseded := old(tally).superseded + |Waiting(swept[..i])|)
      {
        assert swept[..i + 1] == swept[..i] + [swept[i]] && swept[..i + 1][..i] == swept[..i];
        KeepLast(swept[..i], swept[i], IsRunning);
        KeepLast(swept[..i], swept[i], IsWaiting);
        if swept[i].status.Pending? {
          db.RemoveTask(swept[i].id);
          tally := tally.(superseded := tally.superseded + 1);
        } else if swept[i].status.InProgress? {
          busy := busy + [swept[i]];
        }
      }
      assert swept[..|swept|] == swept;
    }

    method CleanUpAfter(post: string, busy: seq<Row>)
      modifies db, registry, this`tally
      ensures db.Now() == EnqueueCleanups(old(db.Now()), post, busy)
      ensures tally == old(tally).(cleanups := old(tally).cleanups + |busy|)
      ensures forall r :: r in busy ==> Fired(registry.events, r.id)
    {
      for i := 0 to |busy|
        invariant db.Now() == EnqueueCleanups(old(db.Now()), post, busy[..i])
        invariant tally == old(tally).(cleanups := old(tally).cleanups + i)
        invariant forall r :: r in busy[..i] ==> Fired(registry.events, r.id)
      {
        assert busy[..i + 1] == busy[..i] + [busy[i]] && busy[..i + 1][..i] == busy[..i];
        registry.CancelTask(busy[i].id);
        var _ := db.EnqueueTask(CleanupTask(post), ControlLane, CONTROL_CLEANUP);
        tally := tally.(cleanups := tally.cleanups + 1);
      }
      assert busy[..|busy|] == busy;
    }

    /** Pending rows of a closed or deleted post go; running ones are interrupted and cleaned up after. */
    method TeardownPost(post: string, comments: seq<string>)
      requires Sorted(db.Now())
      modifies db, registry, this`tally
      ensures db.Now() == Teardown(old(db.Now()), post, comments)
      ensures var swept := Swept(old(db.rows), post, comments);
              && tally == old(tally).(superseded := old(tally).superseded + |Waiting(swept)|,
                                      cleanups := old(tally).cleanups + |Running(swept)|)
              && forall r :: r in swept && r.status.InProgress? ==> Fired(registry.events, r.id)
    {
      var swept := SweptRows(post, comments);
      var busy := RemovePending(swept);
      KeepFilters(swept, IsRunning);
      CleanUpAfter(post, busy);
    }

    method SyncOne(c: Change, comments: seq<string>)
      requires Sorted(db.Now())
      modifies db, registry, this`tally, this`seen
      ensures Sorted(db.Now())
      ensures (db.Now(), seen) == Absorb(old(db.Now()), old(seen), c, comments)
      ensures tally == Counted(old(tally), old(db.Now()), old(seen), c, comments)
    {
      AbsorbCounts(tally, db.Now(), seen, c, comments);
      if IsTeardown(c) {
        TeardownPost(c.post, comments);
        return;
      }
      var built := BuildTask(c);
      if IsOwnComment(c) || built.None? {
        tally := tally.(ignored := tally.ignored + 1);
        return;
      }
      var t := built.value;
      if t.action.EntryUpdated? {
        if KeyOf(t) in seen {
          tally := tally.(coalesced := tally.coalesced + 1);
          return;
        }
        seen := seen + {KeyOf(t)};
      }
      var removed := SupersedeRows(t);
      var _ := db.EnqueueTask(t, ControlLane, CONTROL_DEFAULT);
      tally := tally.(enqueued := tally.enqueued + 1, superseded := tally.superseded + removed);
    }

    method SyncToDb(changes: seq<Change>, of: Comments)
      requires Sorted(db.Now())
      modifies db, registry, this`tally, this`seen
      ensures Sorted(db.Now())
      ensures (db.Now(), seen, tally) == Sync(old(db.Now()), changes, of)
    {
      seen, tally := {}, Tally(0, 0, 0, 0, 0);
      for i := 0 to |changes|
        invariant Sorted(db.Now())
        invariant (db.Now(), seen, tally) == Sync(old(db.Now()), changes[..i], of)
      {
        assert changes[..i + 1][..i] == changes[..i];
        SyncOne(changes[i], CommentsOf(of, changes[i].post));
      }
      assert changes[..|changes|] == changes;
    }
  }

  lemma {:induction false} KeepNothing(rows: seq<Row>, p: Row -> bool)
    requires forall r :: r in rows ==> !p(r)
    ensures Keep(rows, p) == []
  {
    if rows != [] {
      assert rows == rows[..|rows| - 1] + [rows[|rows| - 1]];
      KeepNothing(rows[..|rows| - 1], p);
    }
  }
}
