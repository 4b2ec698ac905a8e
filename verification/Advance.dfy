/** What an agent's report or a human signal means for an entity's lifecycle: the decisions of
    advance.py, as the remote writes they make and the git work they ask for. */
module Advance {
  import opened Basics
  import opened Tracker
  import opened Gates

  /** The comments the platform posts. Those that pass on an agent's words bear whatever APR numbers
      these quote; the last four mint an APR token. */
  datatype Note =
    | Ack | ReportNote(quoted: seq<nat>) | ReviewNote(quoted: seq<nat>) | OptionsNote
    | AskGate | PureGate | CombinedGate | LandGate

  datatype Write = SetStatus(status: Status) | Say(note: Note) | CloseDone

  /** `applied` is false only when nothing happened and the event falls through. */
  datatype Transition = Transition(writes: seq<Write>, prepare: bool, merge: bool, applied: bool)

  const NOTHING := Transition([], false, false, false)
  const STALE := Transition([], false, false, true)

  function Wrote(writes: seq<Write>): Transition { Transition(writes, false, false, true) }

  datatype Action = CommentEvent | OtherEvent

  datatype Outcome = Completed | CannotProceed | NeedsInput

  datatype Report =
    | Implemented(outcome: Outcome, recommendSpecChange: bool, quoted: seq<nat>)
    | Reviewed(approve: bool, confidence: real, quoted: seq<nat>)

  // ----- the end of work

  function SettleOrMerge(cfg: Config, tier: Tier, before: seq<Write>): Transition {
    if tier != Issue then Wrote(before + [CloseDone])
    else if !cfg.mergeToPrimary then Transition(before, true, false, true)
    else Transition(before, false, true, true)
  }

  function AfterImplement(cfg: Config, e: Post, r: Report): Transition
    requires r.Implemented?
  {
    if r.recommendSpecChange then Wrote([SetStatus(Blocked), Say(Ack)])
    else if r.outcome != Completed then Wrote([Say(ReportNote(r.quoted)), SetStatus(Blocked)])
    else if e.reviewLabel || cfg.reviewOn then Wrote([SetStatus(InReview)])
    else if e.hitl then Wrote([SetStatus(AwaitingApproval), Say(AskGate)])
    else SettleOrMerge(cfg, e.tier, [])
  }

  function AfterReview(cfg: Config, e: Post, r: Report): Transition
    requires r.Reviewed?
  {
    var attempt := ReviewAttempts(e.thread) + 1;
    var said := Say(ReviewNote(r.quoted));
    if r.approve && r.confidence >= cfg.threshold then SettleOrMerge(cfg, e.tier, [said])
    else if r.approve then
      Wrote([said, SetStatus(AwaitingApproval),
             Say(if !cfg.mergeToPrimary && e.tier == Issue then CombinedGate else AskGate)])
    else if attempt < cfg.maxAttempts then Wrote([said, SetStatus(Todo)])
    else Wrote([said, SetStatus(Blocked), Say(Ack)])
  }

  // ----- human signals on a parked post

  /** What a command may name to be heard by a plain gate: the post, a requested token, or a
      token the platform itself mentioned. */
  function LiveTargets(id: Id, thread: Thread): set<Token> {
    {PostNo(id)} +
    (set c, n | c in thread && n in c.requests :: Apr(n)) +
    (set c, n | c in thread && c.platform && n in c.tokens :: Apr(n))
  }

  function LastRequest(thread: Thread): Option<nat> {
    if thread == [] then None
    else
      var c := thread[|thread| - 1];
      if c.platform && c.requests != [] then Some(|thread| - 1) else LastRequest(thread[..|thread| - 1])
  }

  lemma {:induction false} LastRequestInRange(thread: Thread)
    ensures LastRequest(thread).Some? ==>
              LastRequest(thread).value < |thread| && thread[LastRequest(thread).value].requests != []
  {
    if thread != [] { LastRequestInRange(thread[..|thread| - 1]); }
  }

  /** Reactions count on the latest request comment, or on the post when nothing was asked. */
  function GateReactionUsers(cfg: Config, e: Post, kind: ReactionKind): seq<Name> {
    LastRequestInRange(e.thread);
    var k := LastRequest(e.thread);
    ReactionUsers(cfg, if k.Some? then e.thread[k.value].reactions else e.reactions, kind)
  }

  function SignalledBy(cfg: Config, id: Id, e: Post, v: Verb, kind: ReactionKind): seq<Name> {
    CommandAuthors(cfg, e.thread, v, LiveTargets(id, e.thread)) + GateReactionUsers(cfg, e, kind)
  }

  function ResolveDirective(thread: Thread, isComment: bool, rejected: bool, optionsPosted: bool): Transition {
    var kind := if isComment then HumanDirective(thread) else NoDirective;
    if kind.RetryIt? || kind.Guidance? then Wrote([SetStatus(Todo), Say(Ack)])
    else if (kind.BareReject? || rejected) && !optionsPosted then Wrote([Say(OptionsNote)])
    else NOTHING
  }

  function ResolvePureGate(s: Signals): Transition {
    if s.approve != [] || s.merge != [] then Transition([Say(Ack)], true, true, true)
    else if s.reject != [] then Wrote([Say(Ack), SetStatus(AwaitingMerge), Say(LandGate)])
    else NOTHING
  }

  function ResolveCombinedGate(s: Signals, thread: Thread, isComment: bool, optionsPosted: bool): Transition {
    if s.merge != [] then Transition([Say(Ack)], true, true, true)
    else if s.approve != [] then Transition([Say(Ack)], true, false, true)
    else ResolveDirective(thread, isComment, s.reject != [], optionsPosted)
  }

  function ResolvePlainGate(cfg: Config, id: Id, e: Post, isComment: bool, optionsPosted: bool): Transition {
    if SignalledBy(cfg, id, e, ToApprove, ThumbsUp) != [] || SignalledBy(cfg, id, e, ToMerge, Heart) != [] then
      if ReviewAttempts(e.thread) > 0 then
        var t := SettleOrMerge(cfg, e.tier, []);
        t.(writes := t.writes + [Say(Ack)])
      else Wrote([SetStatus(Todo), Say(Ack)])
    else ResolveDirective(e.thread, isComment, SignalledBy(cfg, id, e, ToReject, ThumbsDown) != [], optionsPosted)
  }

  /** `stale`: the remote has left the status this decision was made on. `optionsPosted`: the
      reject-options prompt is already on the remote post. */
  function ResolveApproval(cfg: Config, id: Id, e: Post, action: Action, stale: bool, optionsPosted: bool): Transition {
    if StatusOf(e) != Some(AwaitingApproval) then NOTHING
    else
      var pure := GateSignals(cfg, id, e.thread, MergeGate);
      var combined := if pure.Some? then None else GateSignals(cfg, id, e.thread, WorkMergeGate);
      if && !(pure.Some? && pure.value.Any()) && !(combined.Some? && combined.value.Any())
         && SignalledBy(cfg, id, e, ToApprove, ThumbsUp) == [] && SignalledBy(cfg, id, e, ToMerge, Heart) == []
         && SignalledBy(cfg, id, e, ToReject, ThumbsDown) == [] && action.OtherEvent? then NOTHING
      else if stale then STALE
      else if pure.Some? then ResolvePureGate(pure.value)
      else if combined.Some? then ResolveCombinedGate(combined.value, e.thread, action.CommentEvent?, optionsPosted)
      else ResolvePlainGate(cfg, id, e, action.CommentEvent?, optionsPosted)
  }

  function ResolveAwaitingMerge(cfg: Config, id: Id, e: Post, action: Action, stale: bool): Transition {
    var s := GateSignals(cfg, id, e.thread, MergeGate);
    if StatusOf(e) != Some(AwaitingMerge) then NOTHING
    else if !(s.Some? && s.value.Any()) && action.OtherEvent? then NOTHING
    else if stale then STALE
    else if s.Some? && (s.value.approve != [] || s.value.merge != []) then Transition([Say(Ack)], true, true, true)
    else if action.CommentEvent? && HumanDirective(e.thread) in {RetryIt, Guidance} then
      Wrote([SetStatus(Todo), Say(Ack)])
    else NOTHING
  }

  function ResolveBlocked(cfg: Config, id: Id, e: Post, action: Action, stale: bool): Transition {
    if StatusOf(e) != Some(Blocked) || action.OtherEvent? then NOTHING
    else if stale then STALE
    else
      var over := Override(cfg, id, e.thread);
      if over.Some? then
        if e.tier != Issue then Wrote([CloseDone, Say(Ack)])
        else Transition([Say(Ack)], true, over.value.ToMerge? || cfg.mergeToPrimary, true)
      else if HumanDirective(e.thread) in {RetryIt, Guidance} then Wrote([SetStatus(Todo), Say(Ack)])
      else NOTHING
  }

  // ----- which gate is read

  predicate IsGate(c: Comment) { MergeGate in c.markers || WorkMergeGate in c.markers }

  /** The newest gate of the thread is a combined one, and nobody has answered it. */
  ghost predicate NewestUnanswered(cfg: Config, id: Id, thread: Thread) {
    && LastMarked(thread, WorkMergeGate).Some?
    && (LastMarked(thread, MergeGate).Some? ==>
          LastMarked(thread, MergeGate).value < LastMarked(thread, WorkMergeGate).value)
    && !GateSignals(cfg, id, thread, WorkMergeGate).value.Any()
  }

  /** An issue whose newest gate is unanswered is merged all the same exactly when an older pure gate
      carries an approval or a merge signal: that one is looked up first. */
  lemma UnansweredGateMergesIff(cfg: Config, id: Id, e: Post, action: Action, optionsPosted: bool)
    requires StatusOf(e) == Some(AwaitingApproval) && NewestUnanswered(cfg, id, e.thread)
    ensures ResolveApproval(cfg, id, e, action, false, optionsPosted).merge <==>
            var pure := GateSignals(cfg, id, e.thread, MergeGate);
            pure.Some? && (pure.value.approve != [] || pure.value.merge != [])
  {
    var combined := GateSignals(cfg, id, e.thread, WorkMergeGate).value;
    var t := ResolveCombinedGate(combined, e.thread, action.CommentEvent?, optionsPosted);
    assert !t.merge;
  }

  /** A witness, whatever the work: an approved pure gate, then (say, after a
      rework) a combined gate that nobody has answered. The old approval merges it. */
  lemma OlderPureGateAnswersForNewerCombinedGate(cfg: Config, id: Id, e: Post, pure: Comment, combined: Comment)
    requires StatusOf(e) == Some(AwaitingApproval) && e.thread == [pure, combined]
    requires pure.platform && combined.platform
    requires pure.markers == {MergeGate} && combined.markers == {WorkMergeGate}
    requires combined.reactions == [] && Reacted(cfg, pure.reactions, ThumbsUp)
    ensures ResolveApproval(cfg, id, e, OtherEvent, false, false).merge
    ensures var s := GateSignals(cfg, id, e.thread, WorkMergeGate); s.Some? && !s.value.Any()
  {
    var t := e.thread;
    assert t[..1] == [pure];
    SomeoneReactedIff(cfg, pure.reactions, ThumbsUp);
    LastMarkedIsLast(t, MergeGate);
    LastMarkedIsLast(t, WorkMergeGate);
    forall v, targets ensures CommandAuthors(cfg, t, v, targets) == [] {
      CommandAuthorsExist(cfg, t, v, targets);
    }
  }

  // ----- merging needs a signature

  /** The comment bears the marker of a pure or of a combined merge gate. */
  ghost predicate BearsGate(c: Comment) { MergeGate in c.markers || WorkMergeGate in c.markers }

  /** What a command may name to address some gate of this post: its number, or a gate's first token. */
  ghost function GateTokens(id: Id, thread: Thread): set<Token> {
    {PostNo(id)} + (set g | g in thread && BearsGate(g) && g.tokens != [] :: Apr(g.tokens[0]))
  }

  ghost predicate GreenLit(cfg: Config, g: Comment) {
    Reacted(cfg, g.reactions, ThumbsUp) || Reacted(cfg, g.reactions, Heart)
  }

  /** An approver left a thumbs-up or a heart on a gate comment, or wrote an approve or merge command
      naming the post or a gate's token. */
  ghost predicate Signed(cfg: Config, id: Id, thread: Thread) {
    || (exists g :: g in thread && BearsGate(g) && GreenLit(cfg, g))
    || Ordered(cfg, thread, ToApprove, GateTokens(id, thread))
    || Ordered(cfg, thread, ToMerge, GateTokens(id, thread))
  }

  lemma CommandSigns(cfg: Config, id: Id, thread: Thread, v: Verb, targets: set<Token>)
    requires v != ToReject && targets <= GateTokens(id, thread)
    requires CommandAuthors(cfg, thread, v, targets) != []
    ensures Signed(cfg, id, thread)
  {
    SomeoneOrderedIff(cfg, thread, v, targets);
    var u :| Orders(cfg, thread, v, targets, u);
    assert Orders(cfg, thread, v, GateTokens(id, thread), u);
  }

  lemma GateSignalSigns(cfg: Config, id: Id, thread: Thread, marker: Marker)
    requires marker in {MergeGate, WorkMergeGate}
    requires var s := GateSignals(cfg, id, thread, marker); s.Some? && (s.value.approve != [] || s.value.merge != [])
    ensures Signed(cfg, id, thread)
  {
    LastMarkedIsLast(thread, marker);
    var gate := thread[LastMarked(thread, marker).value];
    var targets := GateTargets(id, gate);
    assert gate in thread && BearsGate(gate);
    assert targets <= GateTokens(id, thread);
    SomeoneReactedIff(cfg, gate.reactions, ThumbsUp);
    SomeoneReactedIff(cfg, gate.reactions, Heart);
    if CommandAuthors(cfg, thread, ToApprove, targets) != [] {
      CommandSigns(cfg, id, thread, ToApprove, targets);
    } else if CommandAuthors(cfg, thread, ToMerge, targets) != [] {
      CommandSigns(cfg, id, thread, ToMerge, targets);
    }
  }

  lemma ApprovalMergeNeedsSignature(cfg: Config, id: Id, e: Post, action: Action, stale: bool, optionsPosted: bool)
    requires !cfg.mergeToPrimary
    ensures ResolveApproval(cfg, id, e, action, stale, optionsPosted).merge ==> Signed(cfg, id, e.thread)
  {
    if ResolveApproval(cfg, id, e, action, stale, optionsPosted).merge {
      var pure := GateSignals(cfg, id, e.thread, MergeGate).Some?;
      GateSignalSigns(cfg, id, e.thread, if pure then MergeGate else WorkMergeGate);
    }
  }

  lemma BlockedMergeNeedsSignature(cfg: Config, id: Id, e: Post, action: Action, stale: bool)
    requires !cfg.mergeToPrimary
    ensures ResolveBlocked(cfg, id, e, action, stale).merge ==> Signed(cfg, id, e.thread)
  {
    if ResolveBlocked(cfg, id, e, action, stale).merge {
      CommandSigns(cfg, id, e.thread, ToMerge, {PostNo(id)});
    }
  }

  lemma ReportsNeverMerge(cfg: Config, e: Post)
    requires !cfg.mergeToPrimary
    ensures forall r: Report :: r.Implemented? ==> !AfterImplement(cfg, e, r).merge
    ensures forall r: Report :: r.Reviewed? ==> !AfterReview(cfg, e, r).merge
  {
  }

  /** With `merge_to_primary` off, a human signal resolves to a merge only if the thread carries
      an approver's signature, and an agent's report never resolves to one. */
  lemma MergeNeedsSignature(cfg: Config, id: Id, e: Post, action: Action, stale: bool, optionsPosted: bool)
    requires !cfg.mergeToPrimary
    ensures ResolveApproval(cfg, id, e, action, stale, optionsPosted).merge ==> Signed(cfg, id, e.thread)
    ensures ResolveAwaitingMerge(cfg, id, e, action, stale).merge ==> Signed(cfg, id, e.thread)
    ensures ResolveBlocked(cfg, id, e, action, stale).merge ==> Signed(cfg, id, e.thread)
    ensures forall r: Report :: r.Implemented? ==> !AfterImplement(cfg, e, r).merge
    ensures forall r: Report :: r.Reviewed? ==> !AfterReview(cfg, e, r).merge
  {
    ApprovalMergeNeedsSignature(cfg, id, e, action, stale, optionsPosted);
    if ResolveAwaitingMerge(cfg, id, e, action, stale).merge {
      GateSignalSigns(cfg, id, e.thread, MergeGate);
    }
    BlockedMergeNeedsSignature(cfg, id, e, action, stale);
    ReportsNeverMerge(cfg, e);
  }

  // ----- what the decisions may write

  /** It labels no issue done, and sends none to review unless it may. */
  predicate Restrained(t: Transition, tier: Tier, mayReview: bool) {
    && SetStatus(Done) !in t.writes
    && (tier == Issue ==> CloseDone !in t.writes)
    && (!mayReview ==> SetStatus(InReview) !in t.writes)
  }

  /** It puts no review on record. */
  ghost predicate SaysNoReview(t: Transition) { forall n :: Say(n) in t.writes ==> !n.ReviewNote? }

  lemma DirectiveSaysNoReview(thread: Thread, isComment: bool, rejected: bool, optionsPosted: bool)
    ensures SaysNoReview(ResolveDirective(thread, isComment, rejected, optionsPosted))
  {
  }

  lemma SettlingSaysNoReview(cfg: Config, tier: Tier)
    ensures var t := SettleOrMerge(cfg, tier, []); SaysNoReview(t) && SaysNoReview(t.(writes := t.writes + [Say(Ack)]))
  {
  }

  lemma GateResolversSayNoReview(cfg: Config, id: Id, e: Post, s: Signals, isComment: bool, optionsPosted: bool)
    ensures SaysNoReview(ResolvePureGate(s))
    ensures SaysNoReview(ResolveCombinedGate(s, e.thread, isComment, optionsPosted))
    ensures SaysNoReview(ResolvePlainGate(cfg, id, e, isComment, optionsPosted))
  {
    DirectiveSaysNoReview(e.thread, isComment, s.reject != [], optionsPosted);
    DirectiveSaysNoReview(e.thread, isComment, SignalledBy(cfg, id, e, ToReject, ThumbsDown) != [], optionsPosted);
    SettlingSaysNoReview(cfg, e.tier);
  }

  lemma ApprovalSaysNoReview(cfg: Config, id: Id, e: Post, action: Action, stale: bool, optionsPosted: bool)
    ensures SaysNoReview(ResolveApproval(cfg, id, e, action, stale, optionsPosted))
  {
    var t := ResolveApproval(cfg, id, e, action, stale, optionsPosted);
    if t != NOTHING && t != STALE {
      var pure, combined := GateSignals(cfg, id, e.thread, MergeGate), GateSignals(cfg, id, e.thread, WorkMergeGate);
      var s := if pure.Some? then pure.value else if combined.Some? then combined.value else Signals(0, [], [], []);
      GateResolversSayNoReview(cfg, id, e, s, action.CommentEvent?, optionsPosted);
    }
  }

  lemma MergeWaitSaysNoReview(cfg: Config, id: Id, e: Post, action: Action, stale: bool)
    ensures SaysNoReview(ResolveAwaitingMerge(cfg, id, e, action, stale))
  {
  }

  lemma BlockedSaysNoReview(cfg: Config, id: Id, e: Post, action: Action, stale: bool)
    ensures SaysNoReview(ResolveBlocked(cfg, id, e, action, stale))
  {
  }

  lemma GateResolversAreRestrained(cfg: Config, id: Id, e: Post, s: Signals, isComment: bool, optionsPosted: bool)
    ensures Restrained(ResolvePureGate(s), e.tier, false)
    ensures Restrained(ResolveCombinedGate(s, e.thread, isComment, optionsPosted), e.tier, false)
    ensures Restrained(ResolvePlainGate(cfg, id, e, isComment, optionsPosted), e.tier, false)
  {
    forall rejected ensures Restrained(ResolveDirective(e.thread, isComment, rejected, optionsPosted), e.tier, false) {
      var d := ResolveDirective(e.thread, isComment, rejected, optionsPosted);
    }
  }

  /** No decision labels an issue done: only a merge can. */
  lemma ResolutionsAreRestrained(cfg: Config, id: Id, e: Post, action: Action, stale: bool, optionsPosted: bool)
    ensures Restrained(ResolveApproval(cfg, id, e, action, stale, optionsPosted), e.tier, false)
    ensures Restrained(ResolveAwaitingMerge(cfg, id, e, action, stale), e.tier, false)
    ensures Restrained(ResolveBlocked(cfg, id, e, action, stale), e.tier, false)
  {
    var t := ResolveApproval(cfg, id, e, action, stale, optionsPosted);
    if t != NOTHING && t != STALE {
      var pure, combined := GateSignals(cfg, id, e.thread, MergeGate), GateSignals(cfg, id, e.thread, WorkMergeGate);
      if pure.Some? {
        GateResolversAreRestrained(cfg, id, e, pure.value, action.CommentEvent?, optionsPosted);
      } else if combined.Some? {
        GateResolversAreRestrained(cfg, id, e, combined.value, action.CommentEvent?, optionsPosted);
      } else {
        GateResolversAreRestrained(cfg, id, e, Signals(0, [], [], []), action.CommentEvent?, optionsPosted);
      }
    }
  }

  lemma ReportsAreRestrained(cfg: Config, e: Post, r: Report)
    ensures r.Implemented? ==> Restrained(AfterImplement(cfg, e, r), e.tier, true)
    ensures r.Reviewed? ==> Restrained(AfterReview(cfg, e, r), e.tier, false)
  {
  }
}
