/** Spec-change requests: the plan an agent leaves is classified by what it would touch, and nothing
    but the request itself is touched before a person approves. */
module SpecChange {
  import opened Basics
  import Tracker

  type Id = Tracker.Id

  /** What one entry of a plan changes: a post by id, or something that cannot be tied to one. */
  datatype Target = On(id: Id) | Elsewhere

  datatype Plan = Plan(
    creates: nat, settles: nat, closes: set<Id>, deletes: set<Id>,
    edits: seq<Target>, comments: seq<Target>, labels: seq<Target>,
    linksOk: bool,     // every dependency reference is one the gate enforces
    staged: bool)      // spec documents were staged beside the plan

  datatype Kind = Propose | Direct | Nothing | Refused

  predicate TouchesOthers(p: Plan, request: Id) {
    exists t :: t in p.edits + p.comments + p.labels && t != On(request)
  }

  method ScanForOthers(p: Plan, request: Id) returns (found: bool)
    ensures found == TouchesOthers(p, request)
  {
    var entries := p.edits + p.comments;
    for i := 0 to |entries|
      invariant forall t :: t in entries[..i] ==> t == On(request)
    {
      assert entries[..i + 1] == entries[..i] + [entries[i]];
      if entries[i] != On(request) {
        assert entries[i] in p.edits + p.comments + p.labels;
        return true;
      }
    }
    for i := 0 to |p.labels|
      invariant forall t :: t in p.labels[..i] ==> t == On(request)
    {
      assert p.labels[..i + 1] == p.labels[..i] + [p.labels[i]];
      if p.labels[i] != On(request) {
        assert p.labels[i] in p.edits + p.comments + p.labels;
        return true;
      }
    }
    assert entries[..|entries|] == entries && p.labels[..|p.labels|] == p.labels;
    found := false;
  }

  function Classify(plan: Option<Plan>, request: Id): Kind {
    if plan.None? then Nothing
    else
      var p := plan.value;
      if !p.linksOk then Refused
      else if p.staged || p.creates > 0 || p.settles > 0 || p.closes != {} || p.deletes != {}
          || TouchesOthers(p, request) then
        Propose
      else if p.comments != [] || p.labels != [] then Direct
      else Nothing
  }

  /** Everything executing the plan changes on the tracker. */
  function Mutations(p: Plan): set<Target> {
    (set t | t in p.edits + p.comments + p.labels) +
    (set i | i in p.closes :: On(i)) + (set i | i in p.deletes :: On(i)) +
    (if p.creates > 0 then {Elsewhere} else {})
  }

  /** A plan is applied without approval exactly when it says something, has no document to promote or
      settle, retires nothing, and every change it makes is to the request itself. */
  lemma DirectIff(plan: Option<Plan>, request: Id)
    ensures Classify(plan, request).Direct? <==>
            && plan.Some? && plan.value.linksOk && !plan.value.staged && plan.value.settles == 0
            && plan.value.closes == {} && plan.value.deletes == {}
            && Mutations(plan.value) <= {On(request)}
            && (plan.value.comments != [] || plan.value.labels != [])
  {
    if plan.Some? {
      var p := plan.value;
      if TouchesOthers(p, request) {
        var t :| t in p.edits + p.comments + p.labels && t != On(request);
        assert t in Mutations(p);
      }
      if p.creates > 0 { assert Elsewhere in Mutations(p); }
    }
  }

  /** What a plan is otherwise: refused for a dependency the gate would not enforce; proposed when it
      changes anything else than the request, or would promote, settle or retire something; nothing when it is
      silent. */
  lemma ClassifyIs(plan: Option<Plan>, request: Id)
    ensures var kind := Classify(plan, request);
            && (kind.Refused? <==> plan.Some? && !plan.value.linksOk)
            && (kind.Propose? <==>
                  && plan.Some? && plan.value.linksOk
                  && (|| plan.value.staged || plan.value.settles > 0 || plan.value.closes != {}
                      || plan.value.deletes != {} || !(Mutations(plan.value) <= {On(request)})))
  {
    DirectIff(plan, request);
    if plan.Some? {
      var p := plan.value;
      if TouchesOthers(p, request) {
        var t :| t in p.edits + p.comments + p.labels && t != On(request);
        assert t in Mutations(p);
      }
      if p.creates > 0 { assert Elsewhere in Mutations(p); }
    }
  }

  // ----- one request over time

  datatype ReqStatus = Open | AwaitingInput | AwaitingApproval | Done | Rejected | OtherStatus(name: string)

  datatype Signal = Quiet | Approve | Reject

  datatype FollowUp = ToPropose | ToApply(finalize: bool)

  datatype Request = Request(
    id: Id,
    remote: seq<ReqStatus>,       // the status labels on the tracker, in order
    mirror: seq<ReqStatus>,
    plan: Option<Plan>,
    script: bool,
    job: bool,                    // an agent run is queued or running
    result: bool,                 // its result is waiting to be digested
    follow: seq<FollowUp>,
    promoted: bool,               // staged documents were copied into the live spec
    touched: set<Target>,         // every post changed by applying plans
    finalizers: nat,              // applies queued that end the request
    approved: bool)               // an approval was resolved

  function Status(labels: seq<ReqStatus>): Option<ReqStatus> { if labels == [] then None else Some(labels[0]) }

  function Dropped(labels: seq<ReqStatus>, s: ReqStatus): seq<ReqStatus> {
    if labels == [] then [] else (if labels[0] == s then [] else [labels[0]]) + Dropped(labels[1..], s)
  }

  /** The first status label the mirror shows comes off, the new one goes on. */
  function Relabelled(remote: seq<ReqStatus>, seen: seq<ReqStatus>, s: ReqStatus): seq<ReqStatus> {
    var kept := if seen == [] then remote else Dropped(remote, seen[0]);
    if s in kept then kept else kept + [s]
  }

  predicate Terminal(s: Option<ReqStatus>) { s == Some(Done) || s == Some(Rejected) }

  /** Work an approval must still apply. */
  predicate HasWork(r: Request) {
    r.script && r.plan.Some? &&
    (r.plan.value.creates > 0 || r.plan.value.edits != [] || r.plan.value.labels != [] || r.plan.value.comments != []
     || r.plan.value.closes != {} || r.plan.value.deletes != {})
  }

  function Resolve(r: Request, s: Signal): Request {
    if s.Quiet? || Terminal(Status(r.remote)) then r
    else if s.Reject? then r.(remote := Relabelled(r.remote, r.mirror, Rejected))
    else
      var r1 := r.(remote := Relabelled(r.remote, r.mirror, Done),
                   promoted := r.promoted || (r.plan.Some? && r.plan.value.staged),
                   approved := true);
      if HasWork(r) then r1.(follow := r1.follow + [ToApply(true)], finalizers := r1.finalizers + 1) else r1
  }

  /** The labels a swap leaves: what stood there, without the one the mirror shows first, and the new one. */
  lemma {:induction false} DroppedIs(labels: seq<ReqStatus>, s: ReqStatus)
    ensures forall l :: l in Dropped(labels, s) <==> l in labels && l != s
  {
    if labels != [] { DroppedIs(labels[1..], s); }
  }

  /** An answer to a parked request: an approval leaves it done, promotes what was staged and queues one
      finalizing apply if a plan is there that changes anything; a rejection leaves it rejected and does
      nothing else; and neither does anything to a request that is over. */
  lemma AnswersLeave(r: Request, s: Signal)
    requires Status(r.mirror) == Some(AwaitingApproval)
    ensures var v, over := Resolve(r, s), Status(r.remote) in {Some(Done), Some(Rejected)};
            && (s.Quiet? || over ==> v == r)
            && (!over && !s.Quiet? ==> forall l :: l in v.remote <==>
                  l == (if s.Approve? then Done else Rejected) || (l in r.remote && l != AwaitingApproval))
            && (!over && s.Reject? ==> v == r.(remote := v.remote))
            && (!over && s.Approve? ==>
                  var work := r.script && r.plan.Some? && Mutations(r.plan.value) != {};
                  && v == r.(remote := v.remote, approved := true, promoted := v.promoted,
                             follow := if work then r.follow + [ToApply(true)] else r.follow,
                             finalizers := if work then r.finalizers + 1 else r.finalizers)
                  && (v.promoted <==> r.promoted || (r.plan.Some? && r.plan.value.staged)))
  {
    DroppedIs(r.remote, AwaitingApproval);
    if r.plan.Some? { ChangesIff(r.plan.value); }
  }

  lemma ChangesIff(p: Plan)
    ensures Mutations(p) != {} <==>
            p.creates > 0 || p.edits != [] || p.labels != [] || p.comments != [] || p.closes != {} || p.deletes != {}
  {
    if p.creates > 0 { assert Elsewhere in Mutations(p); }
    if p.edits != [] { assert p.edits[0] in Mutations(p); }
    if p.labels != [] { assert p.labels[0] in Mutations(p); }
    if p.comments != [] { assert p.comments[0] in Mutations(p); }
    if p.closes != {} {
      var i :| i in p.closes;
      assert On(i) in Mutations(p);
    }
    if p.deletes != {} {
      var i :| i in p.deletes;
      assert On(i) in Mutations(p);
    }
  }

  predicate Actionable(s: Option<ReqStatus>, wake: bool) {
    if Terminal(s) then false
    else if s == Some(AwaitingInput) || s == Some(AwaitingApproval) then wake
    else true
  }

  /** A control event about the request; `wake` is a new or edited comment. */
  function OnEvent(r: Request, s: Signal, wake: bool): Request {
    if Status(r.mirror) == Some(AwaitingApproval) && !s.Quiet? then Resolve(r, s)
    else if !Actionable(Status(r.mirror), wake) || r.follow != [] || r.job then r
    else r.(job := true)
  }

  /** An event that answers no parked request queues an agent run exactly when the request is not over, a
      comment wakes it if it waits for one, and nothing else is under way. */
  lemma EventsWake(r: Request, s: Signal, wake: bool)
    requires s.Quiet? || Status(r.mirror) != Some(AwaitingApproval)
    ensures var waits := Status(r.mirror) in {Some(AwaitingInput), Some(AwaitingApproval)};
            var over := Status(r.mirror) in {Some(Done), Some(Rejected)};
            OnEvent(r, s, wake) == r.(job := r.job || (!over && (waits ==> wake) && r.follow == []))
  {
  }

  datatype Step =
    | Event(signal: Signal, wake: bool)
    | Sync
    | AgentWrites(plan: Option<Plan>, script: bool)
    | AgentFinishes
    | DigestResult
    | RunPropose(posted: bool)
    | RunApply(touching: set<Target>, labels: seq<ReqStatus>, finished: bool)

  /** Results are digested before events. A running agent may rewrite its plan at any time, also while
      events arrive. An apply touches at most what the plan says; should it fail it stays queued. */
  ghost predicate Possible(r: Request, s: Step) {
    match s
    case Event(_, _) => !r.result
    case Sync => true
    case AgentWrites(_, _) => r.job && !r.result
    case AgentFinishes => r.job && !r.result
    case DigestResult => r.result
    case RunPropose(_) => r.follow != [] && r.follow[0].ToPropose?
    case RunApply(touching, _, _) =>
      r.follow != [] && r.follow[0].ToApply?
          && (if r.plan.Some? then touching <= Mutations(r.plan.value) else touching == {})
  }

  ghost function Next(r: Request, s: Step): Request
    requires Possible(r, s)
  {
    match s
    case Event(signal, wake) => OnEvent(r, signal, wake)
    case Sync => r.(mirror := r.remote)
    case AgentWrites(plan, script) => r.(plan := plan, script := script)
    case AgentFinishes => r.(job := false, result := true)
    case DigestResult =>
      var r1 := r.(result := false);
      (match Classify(r.plan, r.id)
       case Propose => r1.(follow := r1.follow + [ToPropose])
       case Direct => r1.(follow := r1.follow + [ToApply(false)])
       case _ => r1)
    case RunPropose(posted) =>
      r.(follow := r.follow[1..], remote := if posted then r.remote else [AwaitingApproval])
    case RunApply(touching, labels, finished) =>
      r.(touched := r.touched + touching, remote := labels, follow := if finished then r.follow[1..] else r.follow)
  }

  /** A digested result queues what its plan calls for: a proposal, or an apply that does not end the request. */
  lemma ResultsQueue(r: Request)
    requires r.result
    ensures var v, kind := Next(r, DigestResult), Classify(r.plan, r.id);
            && v == r.(result := false, follow := v.follow)
            && v.follow == r.follow + if kind == Propose then [ToPropose] else if kind == Direct then [ToApply(false)]
                                      else []
  {
  }

  ghost predicate Fresh(r: Request) {
    && !r.job && !r.result && r.follow == [] && !r.promoted && r.touched == {} && r.finalizers == 0 && !r.approved
  }

  ghost function After(r: Request, steps: seq<Step>): Request {
    if steps == [] then r
    else
      var u, s := After(r, steps[..|steps| - 1]), steps[|steps| - 1];
      if Possible(u, s) then Next(u, s) else u
  }

  /** Until an approval: live spec untouched, only the request touched, a queued apply is for the plan
      on disk and that plan is direct, and nothing can rewrite it meanwhile. */
  ghost predicate Gated(r: Request) {
    !r.approved ==>
      && !r.promoted && r.finalizers == 0 && r.touched <= {On(r.id)}
      && (r.result ==> !r.job && r.follow == [])
      && (r.job ==> r.follow == [])
      && |r.follow| <= 1
      && forall f :: f in r.follow ==> f == ToPropose || (f == ToApply(false) && Classify(r.plan, r.id).Direct?)
  }

  lemma StepKeepsGated(r: Request, s: Step)
    requires Gated(r) && Possible(r, s)
    ensures Gated(Next(r, s)) && Next(r, s).id == r.id
  {
    if !r.approved {
      DirectIff(r.plan, r.id);
      if r.follow != [] { assert r.follow[0] in r.follow; }
    }
  }

  /** Plan-first: before an approval is resolved no run has changed the live spec or any post but the
      request, and none is queued that would. */
  lemma {:induction false} NothingBeforeApproval(r: Request, steps: seq<Step>)
    requires Fresh(r)
    ensures Gated(After(r, steps)) && After(r, steps).id == r.id
    ensures !After(r, steps).approved ==> !After(r, steps).promoted && After(r, steps).touched <= {On(r.id)}
  {
    if steps != [] {
      NothingBeforeApproval(r, steps[..|steps| - 1]);
      var u, s := After(r, steps[..|steps| - 1]), steps[|steps| - 1];
      if Possible(u, s) { StepKeepsGated(u, s); }
    }
  }

  // ----- duplicate events on a stale mirror

  function Events(r: Request, signals: seq<Signal>): Request {
    if signals == [] then r else OnEvent(Events(r, signals[..|signals| - 1]), signals[|signals| - 1], true)
  }

  /** Nothing but `awaiting_approval`, or something that ends the request, would be read off the
      tracker once that label is gone. */
  predicate Clean(remote: seq<ReqStatus>) {
    var kept := Dropped(remote, AwaitingApproval);
    kept == [] || Terminal(Status(kept))
  }

  /** The first answer settles a clean request: the tracker then reads done or rejected. */
  lemma FirstAnswerSettles(r: Request, s: Signal)
    requires Status(r.mirror) == Some(AwaitingApproval) && Clean(r.remote) && !s.Quiet?
    ensures Terminal(Status(OnEvent(r, s, true).remote))
  {
  }

  /** Over any events on a stale mirror after parking: at most one finalizing apply is queued, and none
      once a rejection was the first answer. */
  lemma {:induction false} AtMostOneFinalizer(r: Request, signals: seq<Signal>)
    requires Status(r.mirror) == Some(AwaitingApproval) && Clean(r.remote) && r.finalizers == 0
               && !Terminal(Status(r.remote))
    ensures var v := Events(r, signals);
            && v.mirror == r.mirror && v.finalizers <= 1
            && (v.finalizers == 1 ==> Terminal(Status(v.remote)))
            && (Terminal(Status(v.remote)) || (v.remote == r.remote && v.finalizers == 0))
  {
    if signals != [] {
      AtMostOneFinalizer(r, signals[..|signals| - 1]);
      var u, s := Events(r, signals[..|signals| - 1]), signals[|signals| - 1];
      if !s.Quiet? && u.remote == r.remote { FirstAnswerSettles(u, s); }
    }
  }

  lemma {:induction false} NoneAfterRejection(r: Request, signals: seq<Signal>)
    requires Status(r.mirror) == Some(AwaitingApproval) && Clean(r.remote) && r.finalizers == 0
               && !Terminal(Status(r.remote))
    ensures Events(Resolve(r, Reject), signals).finalizers == 0
    ensures Terminal(Status(Events(Resolve(r, Reject), signals).remote))
              && Events(Resolve(r, Reject), signals).mirror == r.mirror
  {
    FirstAnswerSettles(r, Reject);
    if signals != [] { NoneAfterRejection(r, signals[..|signals| - 1]); }
  }

  lemma ApprovedAfterRejection(r: Request)
    requires Status(r.mirror) == Some(AwaitingApproval) && !Terminal(Status(r.remote)) && HasWork(r)
               && r.finalizers == 0 && !Clean(r.remote)
    ensures Events(Resolve(r, Reject), [Approve]).finalizers == 1
  {
    var u := Resolve(r, Reject);
    assert [Approve][..0] == [] && Events(u, [Approve]) == OnEvent(Events(u, []), Approve, true);
  }

  /** A rejection is final, whatever events follow on the stale mirror, exactly when the request is clean:
      otherwise an approval that comes after it queues the apply all the same. */
  lemma RejectionIsFinalIff(r: Request)
    requires Status(r.mirror) == Some(AwaitingApproval) && !Terminal(Status(r.remote)) && HasWork(r)
               && r.finalizers == 0
    ensures (forall signals :: Events(Resolve(r, Reject), signals).finalizers == 0) <==> Clean(r.remote)
  {
    if Clean(r.remote) {
      forall signals ensures Events(Resolve(r, Reject), signals).finalizers == 0 { NoneAfterRejection(r, signals); }
    } else {
      ApprovedAfterRejection(r);
    }
  }

  /** The re-read of the tracker protects a request exactly when it is clean: otherwise a label the
      mirror had not seen is still read first, and a second approval queues the creating apply again. */
  lemma DuplicateApprovalIsHarmlessIff(r: Request)
    requires Status(r.mirror) == Some(AwaitingApproval) && !Terminal(Status(r.remote)) && HasWork(r)
               && r.finalizers == 0
    ensures Events(r, [Approve, Approve]).finalizers <= 1 <==> Clean(r.remote)
  {
    var twice := [Approve, Approve];
    assert twice[..1] == [Approve] && [Approve][..0] == [];
    assert Events(r, [Approve]) == OnEvent(Events(r, []), Approve, true);
    var r1 := Events(r, [Approve]);
    assert r1 == Resolve(r, Approve);
    assert Events(r, twice) == OnEvent(r1, Approve, true);
  }

  /** A witness: the tracker says `awaiting_input` beside `awaiting_approval`, the mirror only the
      latter, and two approvals queue the creating apply twice. */
  lemma DuplicateApprovalAppliesTwice(r: Request)
    requires r.mirror == [AwaitingApproval] && r.remote == [AwaitingInput, AwaitingApproval]
    requires r.script && r.plan == Some(Plan(1, 0, {}, {}, [], [], [], true, false)) && r.finalizers == 0
    ensures Events(r, [Approve, Approve]).finalizers == 2
  {
    var twice := [Approve, Approve];
    assert twice[..1] == [Approve] && [Approve][..0] == [];
    assert [AwaitingInput, AwaitingApproval][1..] == [AwaitingApproval] && [AwaitingApproval][1..] == [];
    assert Dropped([AwaitingApproval], AwaitingApproval) == [];
    assert Dropped([AwaitingInput, AwaitingApproval], AwaitingApproval) == [AwaitingInput];
    var r1 := OnEvent(r, Approve, true);
    assert Events(r, [Approve]) == r1;
    assert r1.remote == [AwaitingInput, Done];
    assert Events(r, twice) == OnEvent(r1, Approve, true);
  }
}
