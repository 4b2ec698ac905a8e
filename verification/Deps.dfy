/** The dependency gate: which dependencies of an issue are cancelled, which are still pending. */
module Deps {
  import opened Basics
  import opened Tracker
  import opened RollUp

  /** A dependency that cannot be resolved has no status. */
  function DepStatus(mirror: Posts, d: Id): Option<Status> {
    if d in mirror then StatusOf(mirror[d]) else None
  }

  predicate Cancelled(s: Option<Status>) { s == Some(WontDo) || s == Some(Deprecated) }

  predicate Waiting(s: Option<Status>) { s != Some(Done) && !Cancelled(s) }

  function Numeric(refs: seq<Ref>): seq<Id> {
    if refs == [] then []
    else
      var r := refs[|refs| - 1];
      Numeric(refs[..|refs| - 1]) + if r.Num? then [r.id] else []
  }

  lemma {:induction false} NumericFindsAll(refs: seq<Ref>)
    ensures forall d: Id :: d in Numeric(refs) <==> Num(d) in refs
  {
    if refs != [] {
      var front, r := refs[..|refs| - 1], refs[|refs| - 1];
      assert refs == front + [r];
      NumericFindsAll(front);
    }
  }

  function ParentRefs(mirror: Posts, e: Post): seq<Ref> {
    if e.parent.Some? && e.parent.value in mirror then mirror[e.parent.value].deps else []
  }

  /** `d` is enforced: the issue names it, or the post it hangs under does. */
  ghost predicate Enforces(mirror: Posts, e: Post, d: Id) {
    || Num(d) in e.deps
    || (e.parent.Some? && e.parent.value in mirror && Num(d) in mirror[e.parent.value].deps)
  }

  /** The enforced dependencies: the issue's own, then its parent ticket's, each once. */
  function Enforced(mirror: Posts, e: Post): seq<Id> {
    Dedupe(Numeric(e.deps + ParentRefs(mirror, e)))
  }

  function Select(mirror: Posts, ids: seq<Id>, want: Option<Status> -> bool): seq<(Id, Option<Status>)> {
    if ids == [] then []
    else
      var d := ids[|ids| - 1];
      var s := DepStatus(mirror, d);
      Select(mirror, ids[..|ids| - 1], want) + if want(s) then [(d, s)] else []
  }

  lemma {:induction false} SelectFindsAll(mirror: Posts, ids: seq<Id>, want: Option<Status> -> bool)
    ensures forall d: Id, s :: (d, s) in Select(mirror, ids, want) <==> d in ids && s == DepStatus(mirror, d) && want(s)
  {
    if ids != [] {
      var front, d := ids[..|ids| - 1], ids[|ids| - 1];
      assert ids == front + [d];
      SelectFindsAll(mirror, front, want);
    }
  }

  lemma NoneSelectedIff(mirror: Posts, e: Post, want: Option<Status> -> bool)
    ensures Select(mirror, Enforced(mirror, e), want) == [] <==>
            forall d: Id :: Num(d) in e.deps + ParentRefs(mirror, e) ==> !want(DepStatus(mirror, d))
  {
    var refs, ids := e.deps + ParentRefs(mirror, e), Enforced(mirror, e);
    NumericFindsAll(refs);
    DedupeKeepsMembers(Numeric(refs));
    SelectFindsAll(mirror, ids, want);
    var found := Select(mirror, ids, want);
    if found == [] {
      forall d: Id | Num(d) in refs ensures !want(DepStatus(mirror, d)) {
        assert (d, DepStatus(mirror, d)) !in found;
      }
    } else {
      var (d, s) := found[0];
      assert (d, s) in found;
    }
  }

  lemma EnforcedAre(mirror: Posts, e: Post)
    ensures forall d: Id :: Enforces(mirror, e, d) <==> Num(d) in e.deps + ParentRefs(mirror, e)
  {
  }

  /** An issue clears the gate exactly when every enforced dependency reads `done`. */
  lemma ClearsTheGateIff(mirror: Posts, e: Post)
    ensures Select(mirror, Enforced(mirror, e), Cancelled) == []
              && Select(mirror, Enforced(mirror, e), Waiting) == [] <==>
            forall d: Id :: Enforces(mirror, e, d) ==> d in mirror && StatusOf(mirror[d]) == Some(Done)
  {
    EnforcedAre(mirror, e);
    NoneSelectedIff(mirror, e, Cancelled);
    NoneSelectedIff(mirror, e, Waiting);
    assert forall d: Id :: !Cancelled(DepStatus(mirror, d)) && !Waiting(DepStatus(mirror, d)) <==>
                           d in mirror && StatusOf(mirror[d]) == Some(Done);
  }

  /** Nothing is held back exactly when every enforced dependency is done or cancelled. */
  lemma NothingWaitsIff(mirror: Posts, e: Post)
    ensures Select(mirror, Enforced(mirror, e), Waiting) == [] <==>
            forall d: Id :: Enforces(mirror, e, d) ==>
              d in mirror && StatusOf(mirror[d]) in {Some(Done), Some(WontDo), Some(Deprecated)}
  {
    EnforcedAre(mirror, e);
    NoneSelectedIff(mirror, e, Waiting);
    assert forall d: Id :: !Waiting(DepStatus(mirror, d)) <==>
                           d in mirror && StatusOf(mirror[d]) in {Some(Done), Some(WontDo), Some(Deprecated)};
  }

  /** Nothing is cancelled exactly when no enforced dependency reads `wont_do` or `deprecated`. */
  lemma NothingIsCancelledIff(mirror: Posts, e: Post)
    ensures Select(mirror, Enforced(mirror, e), Cancelled) == [] <==>
            forall d: Id :: Enforces(mirror, e, d) && d in mirror ==>
              StatusOf(mirror[d]) !in {Some(WontDo), Some(Deprecated)}
  {
    EnforcedAre(mirror, e);
    NoneSelectedIff(mirror, e, Cancelled);
    assert forall d: Id :: Cancelled(DepStatus(mirror, d)) <==>
                           d in mirror && StatusOf(mirror[d]) in {Some(WontDo), Some(Deprecated)};
  }

  ghost predicate Classified(mirror: Posts, ids: seq<Id>, seen: seq<Id>,
                             cancelled: seq<(Id, Option<Status>)>, pending: seq<(Id, Option<Status>)>)
  {
    && seen == Dedupe(ids)
    && cancelled == Select(mirror, seen, Cancelled)
    && pending == Select(mirror, seen, Waiting)
  }

  method CheckDep(mirror: Posts, d: Id, ghost ids: seq<Id>, seen: seq<Id>,
                  cancelled: seq<(Id, Option<Status>)>, pending: seq<(Id, Option<Status>)>)
    returns (seen': seq<Id>, cancelled': seq<(Id, Option<Status>)>, pending': seq<(Id, Option<Status>)>)
    requires Classified(mirror, ids, seen, cancelled, pending)
    ensures Classified(mirror, ids + [d], seen', cancelled', pending')
  {
    seen', cancelled', pending' := seen, cancelled, pending;
    DedupeKeepsMembers(ids);
    assert (ids + [d])[..|ids|] == ids;
    if d in seen { return; }
    seen' := seen + [d];
    assert (seen + [d])[..|seen|] == seen;
    var s := DepStatus(mirror, d);
    if Cancelled(s) { cancelled' := cancelled + [(d, s)]; }
    else if s != Some(Done) { pending' := pending + [(d, s)]; }
  }

  /** The classification as the dispatcher computes it. */
  method ClassifyDeps(mirror: Posts, e: Post)
    returns (cancelled: seq<(Id, Option<Status>)>, pending: seq<(Id, Option<Status>)>)
    ensures cancelled == Select(mirror, Enforced(mirror, e), Cancelled)
    ensures pending == Select(mirror, Enforced(mirror, e), Waiting)
  {
    var refs := e.deps + ParentRefs(mirror, e);
    var seen: seq<Id> := [];
    cancelled, pending := [], [];
    for i := 0 to |refs|
      invariant Classified(mirror, Numeric(refs[..i]), seen, cancelled, pending)
    {
      ghost var ids := Numeric(refs[..i]);
      assert refs[..i + 1][..i] == refs[..i];
      if refs[i].Num? {
        assert Numeric(refs[..i + 1]) == ids + [refs[i].id];
        seen, cancelled, pending := CheckDep(mirror, refs[i].id, ids, seen, cancelled, pending);
      } else {
        assert Numeric(refs[..i + 1]) == ids;
      }
    }
    assert refs[..|refs|] == refs;
  }
}
