/** The durable two-lane task queue: rows in a table, each operation one transaction. */
module Queue {
  import opened Basics

  type Time = nat

  datatype Lane = ControlLane | WorkLane

  datatype RowStatus = Pending | InProgress | Succeeded | Failed

  /** The actions sync derives from changes, teardown's own, and whatever else is enqueued. */
  datatype Action =
    | CommentAdded | CommentUpdated | LabelAdded | LabelRemoved | ReactionAdded | ReactionRemoved
    | EntryReactionAdded | EntryReactionRemoved | EntryCreated | EntryUpdated | EntryReopened
    | Cleanup | PlatformError | OtherAction(name: string)

  /** What a task is about; `subject` is the comment id, label or reaction id of its payload. */
  datatype Task = Task(action: Action, post: Option<string>, subject: Option<string>)

  datatype Row = Row(
    id: nat, task: Task, status: RowStatus, attempts: nat, lane: Lane, priority: int, notBefore: Option<Time>)

  datatype Store = Store(rows: seq<Row>, next: nat, errors: seq<(nat, string)>)

  const EMPTY := Store([], 0, [])

  datatype Op =
    | Enqueue(task: Task, lane: Lane, priority: int)
    | Claim(lane: Lane, now: Time)
    | Complete(id: nat, success: bool, error: Option<string>)
    | Requeue(id: nat, notBefore: Option<Time>)
    | Remove(id: nat)
    | ResetInProgress

  predicate Space(c: char) { c in " \t\n\r" }

  predicate IsBlank(a: Action) { a.OtherAction? && forall c :: c in a.name ==> Space(c) }

  predicate Due(r: Row, lane: Lane, now: Time) {
    r.status.Pending? && r.lane == lane && (r.notBefore.None? || r.notBefore.value <= now)
  }

  /** Where the row to claim is: highest priority first, then oldest. */
  function Best(rows: seq<Row>, lane: Lane, now: Time): (k: Option<nat>)
    ensures k.Some? ==> k.value < |rows|
  {
    if rows == [] then None
    else
      var b, last := Best(rows[..|rows| - 1], lane, now), rows[|rows| - 1];
      if Due(last, lane, now) && (b.None? || rows[b.value].priority < last.priority) then Some(|rows| - 1) else b
  }

  function WithStatus(rows: seq<Row>, id: nat, status: RowStatus): seq<Row> {
    seq(|rows|, i requires 0 <= i < |rows| => if rows[i].id == id then rows[i].(status := status) else rows[i])
  }

  function Requeued(rows: seq<Row>, id: nat, notBefore: Option<Time>): seq<Row> {
    seq(|rows|, i requires 0 <= i < |rows| =>
      if rows[i].id == id then rows[i].(status := Pending, notBefore := notBefore) else rows[i])
  }

  function Reclaimed(rows: seq<Row>): seq<Row> {
    seq(|rows|, i requires 0 <= i < |rows| =>
      if rows[i].status.InProgress? then rows[i].(status := Pending) else rows[i])
  }

  function Keep(rows: seq<Row>, p: Row -> bool): seq<Row> {
    if rows == [] then []
    else Keep(rows[..|rows| - 1], p) + if p(rows[|rows| - 1]) then [rows[|rows| - 1]] else []
  }

  function NotId(id: nat): Row -> bool { (r: Row) => r.id != id }

  function Without(rows: seq<Row>, id: nat): seq<Row> { Keep(rows, NotId(id)) }

  function OnPost(post: string): Row -> bool { (r: Row) => r.task.post == Some(post) }

  function Started(r: Row): Row { r.(status := InProgress, attempts := r.attempts + 1) }

  function Apply(s: Store, op: Op): Store {
    match op
    case Enqueue(task, lane, priority) =>
      if IsBlank(task.action) then s
      else s.(rows := s.rows + [Row(s.next, task, Pending, 0, lane, priority, None)], next := s.next + 1)
    case Claim(lane, now) =>
      var k := Best(s.rows, lane, now);
      if k.None? then s else s.(rows := s.rows[k.value := Started(s.rows[k.value])])
    case Complete(id, success, error) =>
      s.(rows := WithStatus(s.rows, id, if success then Succeeded else Failed),
         errors := s.errors + if !success && error.Some? then [(id, error.value)] else [])
    case Requeue(id, notBefore) => s.(rows := Requeued(s.rows, id, notBefore))
    case Remove(id) => s.(rows := Without(s.rows, id))
    case ResetInProgress => s.(rows := Reclaimed(s.rows))
  }

  function Run(ops: seq<Op>): Store {
    if ops == [] then EMPTY else Apply(Run(ops[..|ops| - 1]), ops[|ops| - 1])
  }

  // ----- claim order

  ghost predicate Precedes(rows: seq<Row>, j: nat, k: nat)
    requires j < |rows| && k < |rows|
  {
    rows[j].priority > rows[k].priority || (rows[j].priority == rows[k].priority && j < k)
  }

  /** A pending row of the lane whose time, should it have one, has come. */
  ghost predicate Claimable(r: Row, lane: Lane, now: Time) {
    && r.status == Pending && r.lane == lane
    && match r.notBefore { case None => true case Some(t) => now >= t }
  }

  /** A claim takes the first due row of its lane, and fails only when there is none. */
  lemma {:induction false} ClaimTakesTheFirst(rows: seq<Row>, lane: Lane, now: Time)
    ensures match Best(rows, lane, now)
            case None => forall j :: 0 <= j < |rows| ==> !Claimable(rows[j], lane, now)
            case Some(k) =>
              && Claimable(rows[k], lane, now)
              && forall j: nat :: j < |rows| && j != k && Claimable(rows[j], lane, now) ==> Precedes(rows, k, j)
  {
    if rows != [] { ClaimTakesTheFirst(rows[..|rows| - 1], lane, now); }
  }

  /** The due rows that are claimed before row `k`. */
  ghost function Ahead(rows: seq<Row>, k: nat, lane: Lane, now: Time): set<nat>
    requires k < |rows|
  {
    set j: nat | j < |rows| && Due(rows[j], lane, now) && Precedes(rows, j, k)
  }

  function Claims(rows: seq<Row>, lane: Lane, now: Time, n: nat): seq<Row>
    decreases n
  {
    if n == 0 then rows
    else
      var k := Best(rows, lane, now);
      Claims(if k.None? then rows else rows[k.value := Started(rows[k.value])], lane, now, n - 1)
  }

  lemma ClaimMovesUp(rows: seq<Row>, k: nat, lane: Lane, now: Time)
    requires k < |rows| && Due(rows[k], lane, now) && Best(rows, lane, now) != Some(k)
    ensures var b := Best(rows, lane, now);
            b.Some? && var rows' := rows[b.value := Started(rows[b.value])];
            && Due(rows'[k], lane, now)
            && b.value in Ahead(rows, k, lane, now)
            && Ahead(rows', k, lane, now) == Ahead(rows, k, lane, now) - {b.value}
  {
    ClaimTakesTheFirst(rows, lane, now);
  }

  /** With nothing new becoming due, a due row waits for exactly as many claims as there are rows
      ahead of it: no earlier claim takes it and the next one does. */
  lemma {:induction false} ClaimedInTurn(rows: seq<Row>, k: nat, lane: Lane, now: Time, n: nat)
    requires k < |rows| && Due(rows[k], lane, now) && n <= |Ahead(rows, k, lane, now)|
    ensures |Claims(rows, lane, now, n)| == |rows|
    ensures Best(Claims(rows, lane, now, n), lane, now) == Some(k) <==> n == |Ahead(rows, k, lane, now)|
    decreases n
  {
    ClaimTakesTheFirst(rows, lane, now);
    var b := Best(rows, lane, now);
    if b == Some(k) {
      assert Ahead(rows, k, lane, now) == {};
    } else {
      ClaimMovesUp(rows, k, lane, now);
      if n > 0 { ClaimedInTurn(rows[b.value := Started(rows[b.value])], k, lane, now, n - 1); }
    }
  }

  // ----- what each operation does to a row

  /** Enqueueing adds one pending row, unless the action is blank; then it does nothing. */
  lemma EnqueueAdds(s: Store, t: Task, lane: Lane, priority: int)
    ensures var v := Apply(s, Enqueue(t, lane, priority));
            if t.action.OtherAction? && forall c :: c in t.action.name ==> c in {' ', '\t', '\n', '\r'} then v == s
            else v == s.(rows := s.rows + [Row(s.next, t, Pending, 0, lane, priority, None)], next := s.next + 1)
  {
  }

  /** The rows before and after differ in row `id` only, there as `changed` says. */
  ghost predicate OnlyRow(rows: seq<Row>, rows': seq<Row>, id: nat, changed: Row -> Row) {
    && |rows'| == |rows|
    && forall i :: 0 <= i < |rows| ==> rows'[i] == if rows[i].id == id then changed(rows[i]) else rows[i]
  }

  /** Completing says how it went and keeps the error of a failure; putting back makes a row pending and
      says not before when. */
  lemma EndingsSay(s: Store, id: nat, success: bool, error: Option<string>, notBefore: Option<Time>)
    ensures var v := Apply(s, Complete(id, success, error));
            && OnlyRow(s.rows, v.rows, id, (r: Row) => r.(status := if success then Succeeded else Failed))
            && v.errors == (if error.Some? && !success then s.errors + [(id, error.value)] else s.errors)
    ensures var v := Apply(s, Requeue(id, notBefore));
            && OnlyRow(s.rows, v.rows, id, (r: Row) => r.(status := Pending, notBefore := notBefore))
            && v.errors == s.errors
  {
  }

  /** A claim takes its row in hand and counts the attempt; a restart makes what was in hand pending again,
      with its attempts. */
  lemma HandlingSays(s: Store, lane: Lane, now: Time)
    requires forall i, j :: 0 <= i < j < |s.rows| ==> s.rows[i].id != s.rows[j].id
    ensures var k, v := Best(s.rows, lane, now), Apply(s, Claim(lane, now));
            if k.None? then v == s
            else
              OnlyRow(s.rows, v.rows, s.rows[k.value].id,
                      (r: Row) => r.(status := InProgress, attempts := r.attempts + 1))
    ensures var v := Apply(s, ResetInProgress);
            && |v.rows| == |s.rows|
            && forall i :: 0 <= i < |s.rows| ==>
                 v.rows[i] == s.rows[i].(status := if s.rows[i].status.InProgress? then Pending else s.rows[i].status)
  {
  }

  // ----- conservation

  predicate HasId(rows: seq<Row>, id: nat) { exists r :: r in rows && r.id == id }

  ghost predicate Sorted(s: Store) {
    && (forall i, j :: 0 <= i < j < |s.rows| ==> s.rows[i].id < s.rows[j].id)
    && forall i :: 0 <= i < |s.rows| ==> s.rows[i].id < s.next
  }

  /** The ids a run took away with Remove. */
  ghost function RemovedBy(ops: seq<Op>): set<nat> {
    if ops == [] then {}
    else
      var front, op := ops[..|ops| - 1], ops[|ops| - 1];
      RemovedBy(front) + if op.Remove? && HasId(Run(front).rows, op.id) then {op.id} else {}
  }

  predicate Takes(s: Store, op: Op, id: nat) {
    op.Claim? && Best(s.rows, op.lane, op.now).Some? && s.rows[Best(s.rows, op.lane, op.now).value].id == id
  }

  /** How often a run claimed row `id`. */
  function ClaimsOf(ops: seq<Op>, id: nat): nat {
    if ops == [] then 0
    else
      var front, op := ops[..|ops| - 1], ops[|ops| - 1];
      ClaimsOf(front, id) + if Takes(Run(front), op, id) then 1 else 0
  }

  function ErrorsIn(ops: seq<Op>): seq<(nat, string)> {
    if ops == [] then []
    else
      var op := ops[|ops| - 1];
      ErrorsIn(ops[..|ops| - 1]) + if op.Complete? && !op.success && op.error.Some? then [(op.id, op.error.value)]
          else []
  }

  lemma {:induction false} KeepFilters(rows: seq<Row>, p: Row -> bool)
    ensures forall r :: r in Keep(rows, p) <==> r in rows && p(r)
  {
    if rows != [] {
      assert rows == rows[..|rows| - 1] + [rows[|rows| - 1]];
      KeepFilters(rows[..|rows| - 1], p);
    }
  }

  lemma {:induction false} KeepStaysSorted(s: Store, p: Row -> bool)
    requires Sorted(s)
    ensures Sorted(s.(rows := Keep(s.rows, p)))
    decreases |s.rows|
  {
    if s.rows != [] {
      var front, last := s.rows[..|s.rows| - 1], s.rows[|s.rows| - 1];
      KeepStaysSorted(s.(rows := front), p);
      KeepFilters(front, p);
      var out := Keep(front, p);
      forall i | 0 <= i < |out| ensures out[i].id < last.id { assert out[i] in front; }
      OneMoreStaysSorted(s.(rows := out), last);
    }
  }

  lemma OneMoreStaysSorted(s: Store, last: Row)
    requires Sorted(s) && last.id < s.next && forall i :: 0 <= i < |s.rows| ==> s.rows[i].id < last.id
    ensures Sorted(s.(rows := s.rows + [last]))
  {
  }

  lemma ApplyStaysSorted(s: Store, op: Op)
    requires Sorted(s)
    ensures Sorted(Apply(s, op))
  {
    if op.Remove? { KeepStaysSorted(s, NotId(op.id)); }
  }

  lemma RestatingKeepsIds(rows: seq<Row>, rows': seq<Row>, id: nat)
    requires |rows'| == |rows| && forall i :: 0 <= i < |rows| ==> rows'[i].id == rows[i].id
    ensures HasId(rows', id) <==> HasId(rows, id)
  {
    if HasId(rows, id) {
      var i: nat :| i < |rows| && rows[i].id == id;
      assert rows'[i] in rows';
    }
    if HasId(rows', id) {
      var i: nat :| i < |rows| && rows'[i].id == id;
      assert rows[i] in rows;
    }
  }

  /** Every operation but Remove keeps the rows there are. */
  lemma ApplyKeepsIds(s: Store, op: Op, id: nat)
    requires Sorted(s) && !(op.Remove? && op.id == id)
    ensures HasId(Apply(s, op).rows, id) <==> HasId(s.rows, id) || (s.next <= id < Apply(s, op).next)
  {
    if op.Remove? {
      KeepFilters(s.rows, NotId(op.id));
    } else if op.Enqueue? {
      var row := Row(s.next, op.task, Pending, 0, op.lane, op.priority, None);
      assert row in s.rows + [row];
    } else {
      RestatingKeepsIds(s.rows, Apply(s, op).rows, id);
    }
  }

  /** Nothing is lost and nothing appears from nowhere: in every run, each id ever handed out is
      on exactly one row (so in exactly one status) or was removed, never both, and no other id
      exists. */
  lemma {:induction false} RowsAreConserved(ops: seq<Op>, id: nat)
    ensures Sorted(Run(ops))
    ensures id < Run(ops).next <==> HasId(Run(ops).rows, id) || id in RemovedBy(ops)
    ensures !(HasId(Run(ops).rows, id) && id in RemovedBy(ops))
  {
    if ops != [] {
      var front, op := ops[..|ops| - 1], ops[|ops| - 1];
      RowsAreConserved(front, id);
      ApplyStaysSorted(Run(front), op);
      if op.Remove? && op.id == id {
        KeepFilters(Run(front).rows, NotId(id));
      } else {
        ApplyKeepsIds(Run(front), op, id);
      }
    }
  }

  /** A row's attempts are exactly the times it was claimed. */
  lemma {:induction false} AttemptsAreClaims(ops: seq<Op>)
    ensures forall i :: 0 <= i < |Run(ops).rows| ==> Run(ops).rows[i].attempts == ClaimsOf(ops, Run(ops).rows[i].id)
    ensures forall id :: id >= Run(ops).next ==> ClaimsOf(ops, id) == 0
  {
    if ops != [] {
      var front, op := ops[..|ops| - 1], ops[|ops| - 1];
      var s, v := Run(front), Run(ops);
      AttemptsAreClaims(front);
      RowsAreConserved(front, 0);
      forall i | 0 <= i < |v.rows| ensures v.rows[i].attempts == ClaimsOf(ops, v.rows[i].id) {
        if op.Remove? {
          KeepFilters(s.rows, NotId(op.id));
          assert v.rows[i] in v.rows;
        } else if i < |s.rows| {
          AttemptsMove(s, op, i);
        }
      }
    }
  }

  /** Only a claim counts an attempt, and only for the row it takes. */
  lemma AttemptsMove(s: Store, op: Op, i: nat)
    requires Sorted(s) && i < |s.rows| && !op.Remove?
    ensures var v := Apply(s, op);
            && i < |v.rows| && v.rows[i].id == s.rows[i].id
            && v.rows[i].attempts == s.rows[i].attempts + if Takes(s, op, s.rows[i].id) then 1 else 0
  {
  }

  /** The error table is the list of reported failures, in order: no operation, not even removing
      the task, drops one. */
  lemma {:induction false} ErrorsAreKept(ops: seq<Op>)
    ensures Run(ops).errors == ErrorsIn(ops)
  {
    if ops != [] { ErrorsAreKept(ops[..|ops| - 1]); }
  }

  ghost function DueAmong(rows: seq<Row>, n: nat, lane: Lane, now: Time): set<nat>
    requires n <= |rows|
  {
    set k: nat | k < n && Due(rows[k], lane, now)
  }

  // ----- the store those operations specify

  class Database {
    var rows: seq<Row>
    var next: nat
    var errors: seq<(nat, string)>

    ghost function Now(): Store reads this { Store(rows, next, errors) }

    constructor ()
      ensures Now() == EMPTY
    {
      rows, next, errors := [], 0, [];
    }

    /** Refused (`None`) for a blank action. */
    method EnqueueTask(task: Task, lane: Lane, priority: int) returns (id: Option<nat>)
      modifies this
      ensures Now() == Apply(old(Now()), Enqueue(task, lane, priority))
      ensures id == if IsBlank(task.action) then None else Some(old(next))
    {
      if IsBlank(task.action) { return None; }
      id := Some(next);
      rows := rows + [Row(next, task, Pending, 0, lane, priority, None)];
      next := next + 1;
    }

    method ClaimNext(lane: Lane, now: Time) returns (claimed: Option<Row>)
      modifies this
      ensures Now() == Apply(old(Now()), Claim(lane, now))
      ensures var k := Best(old(rows), lane, now); claimed == if k.None? then None else Some(rows[k.value])
    {
      var best: Option<nat> := None;
      for i := 0 to |rows|
        invariant rows == old(rows)
        invariant best == Best(rows[..i], lane, now)
      {
        assert rows[..i + 1][..i] == rows[..i];
        if Due(rows[i], lane, now) && (best.None? || rows[best.value].priority < rows[i].priority) { best := Some(i); }
      }
      assert rows[..|rows|] == rows;
      if best.None? { return None; }
      rows := rows[best.value := Started(rows[best.value])];
      claimed := Some(rows[best.value]);
    }

    method CompleteTask(id: nat, success: bool, error: Option<string>)
      modifies this
      ensures Now() == Apply(old(Now()), Complete(id, success, error))
    {
      var status := if success then Succeeded else Failed;
      for i := 0 to |rows|
        invariant |rows| == |old(rows)| && next == old(next) && errors == old(errors)
        invariant forall k :: 0 <= k < i ==> rows[k] == WithStatus(old(rows), id, status)[k]
        invariant forall k :: i <= k < |rows| ==> rows[k] == old(rows)[k]
      {
        if rows[i].id == id { rows := rows[i := rows[i].(status := status)]; }
      }
      assert rows == WithStatus(old(rows), id, status);
      if !success && error.Some? { errors := errors + [(id, error.value)]; }
    }

    method RequeueTask(id: nat, notBefore: Option<Time>)
      modifies this
      ensures Now() == Apply(old(Now()), Requeue(id, notBefore))
    {
      for i := 0 to |rows|
        invariant |rows| == |old(rows)| && next == old(next) && errors == old(errors)
        invariant forall k :: 0 <= k < i ==> rows[k] == Requeued(old(rows), id, notBefore)[k]
        invariant forall k :: i <= k < |rows| ==> rows[k] == old(rows)[k]
      {
        if rows[i].id == id { rows := rows[i := rows[i].(status := Pending, notBefore := notBefore)]; }
      }
      assert rows == Requeued(old(rows), id, notBefore);
    }

    method RemoveTask(id: nat)
      modifies this
      ensures Now() == Apply(old(Now()), Remove(id))
    {
      var kept: seq<Row> := [];
      for i := 0 to |rows|
        invariant rows == old(rows) && next == old(next) && errors == old(errors)
        invariant kept == Keep(rows[..i], NotId(id))
      {
        assert rows[..i + 1][..i] == rows[..i];
        if rows[i].id != id { kept := kept + [rows[i]]; }
      }
      assert rows[..|rows|] == rows;
      rows := kept;
    }

    /** Startup reclaim; lists what was orphaned. */
    method Reset() returns (ids: seq<nat>)
      modifies this
      ensures Now() == Apply(old(Now()), ResetInProgress)
      ensures forall id :: id in ids <==> exists r :: r in old(rows) && r.id == id && r.status.InProgress?
      ensures forall r :: r in rows ==> !r.status.InProgress?
    {
      ids := [];
      for i := 0 to |rows|
        invariant |rows| == |old(rows)| && next == old(next) && errors == old(errors)
        invariant forall k :: 0 <= k < i ==> rows[k] == Reclaimed(old(rows))[k]
        invariant forall k :: i <= k < |rows| ==> rows[k] == old(rows)[k]
        invariant forall id :: id in ids <==>
                    exists k :: 0 <= k < i && old(rows)[k].id == id && old(rows)[k].status.InProgress?
      {
        if rows[i].status.InProgress? {
          ids := ids + [rows[i].id];
          rows := rows[i := rows[i].(status := Pending)];
        }
      }
      assert rows == Reclaimed(old(rows));
    }

    method TasksFor(post: string) returns (found: seq<Row>)
      ensures found == Keep(rows, OnPost(post))
    {
      found := [];
      for i := 0 to |rows|
        invariant found == Keep(rows[..i], OnPost(post))
      {
        assert rows[..i + 1][..i] == rows[..i];
        if rows[i].task.post == Some(post) { found := found + [rows[i]]; }
      }
      assert rows[..|rows|] == rows;
    }

    /** How many rows could be claimed right now: zero exactly when a claim would come back empty. */
    method ReadyCount(lane: Lane, now: Time) returns (n: nat)
      ensures n == |DueAmong(rows, |rows|, lane, now)|
      ensures n == 0 <==> Best(rows, lane, now).None?
    {
      n := 0;
      for i := 0 to |rows|
        invariant n == |DueAmong(rows, i, lane, now)|
      {
        assert DueAmong(rows, i + 1, lane, now) ==
               DueAmong(rows, i, lane, now) + if Due(rows[i], lane, now) then {i} else {};
        if Due(rows[i], lane, now) { n := n + 1; }
      }
      ClaimTakesTheFirst(rows, lane, now);
      if Best(rows, lane, now).Some? { assert Best(rows, lane, now).value in DueAmong(rows, |rows|, lane, now); }
    }

    method IsIdle() returns (idle: bool)
      ensures idle <==> forall r :: r in rows ==> r.status.Succeeded? || r.status.Failed?
    {
      idle := true;
      for i := 0 to |rows|
        invariant idle
        invariant forall k :: 0 <= k < i ==> rows[k].status.Succeeded? || rows[k].status.Failed?
      {
        if rows[i].status.Pending? || rows[i].status.InProgress? { return false; }
      }
    }
  }
}
