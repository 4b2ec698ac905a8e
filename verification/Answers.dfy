/** The runtime's own gate comments, and what answering each of them does. */
module Answers {
  import opened Basics
  import opened Tracker
  import opened Gates
  import opened Advance
  import opened Lifecycle

  // ----- a status swap

  lemma {:induction false} WithoutIsFilter(now: seq<Status>, seen: seq<Status>)
    ensures forall l :: l in Without(now, seen) <==> l in now && l !in seen
    ensures NoDuplicates(now) ==> NoDuplicates(Without(now, seen))
  {
    if now != [] {
      WithoutIsFilter(now[1..], seen);
      if NoDuplicates(now) {
        assert now[0] !in now[1..];
        assert NoDuplicates(now[1..]);
      }
    }
  }

  /** A swap leaves the new status alone on the post exactly when the mirror had seen every other
      status label the post carries; a label added since the last sync survives beside it. */
  lemma SwapLeavesOneStatusIff(now: seq<Status>, seen: seq<Status>, s: Status)
    requires NoDuplicates(now)
    ensures Relabel(now, seen, s) == [s] <==> forall l :: l in now && l != s ==> l in seen
  {
    WithoutIsFilter(now, seen);
    var kept := Without(now, seen);
    if forall l :: l in now && l != s ==> l in seen {
      assert |kept| > 1 ==> kept[0] != kept[1];
      forall i | 0 <= i < |kept| ensures kept[i] == s { assert kept[i] in kept; }
      assert kept == [] || kept == [s];
    } else {
      var l :| l in now && l != s && l !in seen;
      assert l in kept && l in Relabel(now, seen, s);
    }
  }

  /** A witness: a `blocked` that a person added after the last sync stays on, ahead of the new status, and is
      what the runtime reads next. */
  lemma SwapLeavesTwoStatuses(p: Post)
    ensures Relabel([Todo, Blocked], [Todo], InReview) == [Blocked, InReview]
    ensures p.labels == [Blocked, InReview] ==> StatusOf(p) == Some(Blocked)
  {
    assert [Todo, Blocked][1..] == [Blocked] && [Blocked][1..] == [];
    assert Without([Blocked], [Todo]) == [Blocked] + Without([], [Todo]);
  }

  // ----- answering a gate

  /** An approver reacted on the gate comment, or wrote a command naming the post or the gate's token,
      anywhere in the thread. */
  ghost predicate Answered(cfg: Config, id: Id, thread: Thread, at: nat, v: Verb, kind: ReactionKind)
    requires at < |thread|
  {
    || Reacted(cfg, thread[at].reactions, kind)
    || Ordered(cfg, thread, v, {PostNo(id)} + if thread[at].tokens == [] then {} else {Apr(thread[at].tokens[0])})
  }

  lemma GateHearsAnswers(cfg: Config, id: Id, thread: Thread, marker: Marker, at: nat)
    requires LastMarked(thread, marker) == Some(at)
    ensures at < |thread|
    ensures var s := GateSignals(cfg, id, thread, marker);
            && s.Some?
            && (s.value.approve != [] <==> Answered(cfg, id, thread, at, ToApprove, ThumbsUp))
            && (s.value.merge != [] <==> Answered(cfg, id, thread, at, ToMerge, Heart))
            && (s.value.reject != [] <==> Answered(cfg, id, thread, at, ToReject, ThumbsDown))
  {
    LastMarkedIsLast(thread, marker);
    forall v { SomeoneOrderedIff(cfg, thread, v, GateTargets(id, thread[at])); }
    forall kind { SomeoneReactedIff(cfg, thread[at].reactions, kind); }
    assert forall v :: CommandAuthors(cfg, thread, v, GateTargets(id, thread[at])) != [] <==>
                       Ordered(cfg, thread, v, GateTargets(id, thread[at]));
    assert forall kind :: ReactionUsers(cfg, thread[at].reactions, kind) != [] <==>
                          Reacted(cfg, thread[at].reactions, kind);
  }

  ghost predicate Accepted(cfg: Config, id: Id, thread: Thread, at: nat)
    requires at < |thread|
  {
    Answered(cfg, id, thread, at, ToApprove, ThumbsUp) || Answered(cfg, id, thread, at, ToMerge, Heart)
  }

  /** Comment `at` is the last that bears the marker of a pure merge gate. */
  ghost predicate LastGate(thread: Thread, at: nat) {
    && at < |thread| && MergeGate in thread[at].markers
    && forall i :: at < i < |thread| ==> MergeGate !in thread[i].markers
  }

  /** A pure merge gate: an approval or a merge answer merges; a rejection alone parks the issue
      awaiting a merge by hand; with no answer the issue waits. */
  lemma PureGateAnswers(cfg: Config, id: Id, e: Post, at: nat, action: Action, optionsPosted: bool)
    requires StatusOf(e) == Some(AwaitingApproval) && LastMarked(e.thread, MergeGate) == Some(at) && at < |e.thread|
    ensures var t := ResolveApproval(cfg, id, e, action, false, optionsPosted);
            var yes, no := Accepted(cfg, id, e.thread, at), Answered(cfg, id, e.thread, at, ToReject, ThumbsDown);
            && (t.merge <==> yes) && (t.prepare <==> yes)
            && (SetStatus(AwaitingMerge) in t.writes <==> !yes && no)
            && (Say(LandGate) in t.writes <==> !yes && no)
            && (t == NOTHING <==> !yes && !no)
  {
    GateHearsAnswers(cfg, id, e.thread, MergeGate, at);
  }

  /** Comment `k` is the last one a person wrote that is not blank. */
  ghost predicate LastWord(thread: Thread, k: nat) {
    && k < |thread| && !thread[k].body.Blank? && !thread[k].platform
    && forall i :: k < i < |thread| ==> thread[i].body.Blank? || thread[i].platform
  }

  /** The last word asks for more work: `retry`, prose, a merge command, or a rejection that says more. */
  ghost predicate WantsWork(thread: Thread) {
    exists k: nat :: LastWord(thread, k) && AsksForWork(thread[k].body)
  }

  predicate AsksForWork(b: Body) {
    b.Retry? || b.Prose? || b.Merge? || (b.Reject? && exists t :: t in b.ids && t.Word?)
  }

  /** The last word is a rejection and nothing more. */
  ghost predicate BareNo(thread: Thread) {
    exists k: nat :: LastWord(thread, k) && thread[k].body.Reject? && forall t :: t in thread[k].body.ids ==> !t.Word?
  }

  lemma DirectiveIs(thread: Thread)
    ensures HumanDirective(thread) in {RetryIt, Guidance} <==> WantsWork(thread)
    ensures HumanDirective(thread) == BareReject <==> BareNo(thread)
  {
    LatestHumanIsHuman(thread);
    var k := LatestHuman(thread);
    if k.Some? {
      assert LastWord(thread, k.value);
      assert forall m: nat :: LastWord(thread, m) ==> m == k.value;
    }
  }

  /** A combined gate, if the thread has no pure one: a merge answer merges; an approval alone readies
      the branch without merging; otherwise prose or `retry` sends the issue back to work, and a bare
      rejection asks what to do, once. */
  lemma CombinedGateAnswers(cfg: Config, id: Id, e: Post, at: nat, action: Action, optionsPosted: bool)
    requires StatusOf(e) == Some(AwaitingApproval) && LastMarked(e.thread, MergeGate).None?
    requires LastMarked(e.thread, WorkMergeGate) == Some(at) && at < |e.thread|
    ensures var t := ResolveApproval(cfg, id, e, action, false, optionsPosted);
            var merge := Answered(cfg, id, e.thread, at, ToMerge, Heart);
            var approve := Answered(cfg, id, e.thread, at, ToApprove, ThumbsUp);
            var no := Answered(cfg, id, e.thread, at, ToReject, ThumbsDown);
            var work, bare := action.CommentEvent? && WantsWork(e.thread), action.CommentEvent? && BareNo(e.thread);
            && (t.merge <==> merge) && (t.prepare <==> merge || approve)
            && (SetStatus(Todo) in t.writes <==> !merge && !approve && work)
            && (Say(OptionsNote) in t.writes <==> !merge && !approve && !work && (bare || no) && !optionsPosted)
  {
    DirectiveIs(e.thread);
    GateHearsAnswers(cfg, id, e.thread, WorkMergeGate, at);
    var s := GateSignals(cfg, id, e.thread, WorkMergeGate).value;
    CombinedIsRead(cfg, id, e, action, optionsPosted, s);
    CombinedDecides(s, e.thread, action.CommentEvent?, optionsPosted);
  }

  lemma CombinedDecides(s: Signals, thread: Thread, isComment: bool, optionsPosted: bool)
    ensures var t := ResolveCombinedGate(s, thread, isComment, optionsPosted);
            var d := if isComment then HumanDirective(thread) else NoDirective;
            && (t.merge <==> s.merge != []) && (t.prepare <==> s.merge != [] || s.approve != [])
            && (SetStatus(Todo) in t.writes <==> s.merge == [] && s.approve == [] && d in {RetryIt, Guidance})
            && (Say(OptionsNote) in t.writes <==>
                  && s.merge == [] && s.approve == [] && d !in {RetryIt, Guidance}
                  && (d == BareReject || s.reject != []) && !optionsPosted)
  {
  }

  lemma CombinedIsRead(cfg: Config, id: Id, e: Post, action: Action, optionsPosted: bool, s: Signals)
    requires StatusOf(e) == Some(AwaitingApproval) && LastMarked(e.thread, MergeGate).None?
    requires GateSignals(cfg, id, e.thread, WorkMergeGate) == Some(s)
    ensures ResolveApproval(cfg, id, e, action, false, optionsPosted) ==
            ResolveCombinedGate(s, e.thread, action.CommentEvent?, optionsPosted)
  {
  }

  /** `k` is the platform's latest comment that carries an approval request. */
  ghost predicate LatestAsk(thread: Thread, k: nat) {
    && k < |thread| && thread[k].platform && thread[k].requests != []
    && forall i :: k < i < |thread| ==> !(thread[i].platform && thread[i].requests != [])
  }

  lemma {:induction false} LastRequestIsLatest(thread: Thread)
    ensures match LastRequest(thread)
            case Some(k) => LatestAsk(thread, k)
            case None => forall k: nat :: !LatestAsk(thread, k)
  {
    if thread != [] {
      var c := thread[|thread| - 1];
      if !(c.platform && c.requests != []) {
        var front := thread[..|thread| - 1];
        LastRequestIsLatest(front);
        forall k: nat | LatestAsk(thread, k) ensures LatestAsk(front, k) {}
      }
    }
  }

  /** A command to a plain request may name the post, a token some comment requests, or a token that
      stands in the platform's own words. */
  ghost predicate Addresses(id: Id, thread: Thread, t: Token) {
    || t == PostNo(id)
    || (t.Apr? && exists c :: c in thread && (t.n in c.requests || (c.platform && t.n in c.tokens)))
  }

  lemma LiveTargetsAre(id: Id, thread: Thread, t: Token)
    ensures t in LiveTargets(id, thread) <==> Addresses(id, thread, t)
  {
  }

  ghost predicate Addressed(cfg: Config, id: Id, thread: Thread, v: Verb, c: Comment) {
    && c.author != "" && MayApprove(cfg, c.author) && !c.platform
    && exists t :: Names(c.body, v, t) && Addresses(id, thread, t)
  }

  /** What a plain request is answered by: an approver's command addressed to it, or an approver's
      reaction on the latest request, on the post itself if nothing was asked. */
  ghost predicate Spoken(cfg: Config, id: Id, e: Post, v: Verb, kind: ReactionKind) {
    || (exists c :: c in e.thread && Addressed(cfg, id, e.thread, v, c))
    || (exists k: nat :: LatestAsk(e.thread, k) && Reacted(cfg, e.thread[k].reactions, kind))
    || ((forall k: nat :: !LatestAsk(e.thread, k)) && Reacted(cfg, e.reactions, kind))
  }

  lemma LiveOrdersAre(cfg: Config, id: Id, thread: Thread, v: Verb)
    ensures Ordered(cfg, thread, v, LiveTargets(id, thread)) <==>
            exists c :: c in thread && Addressed(cfg, id, thread, v, c)
  {
    var targets := LiveTargets(id, thread);
    forall t { LiveTargetsAre(id, thread, t); }
    if Ordered(cfg, thread, v, targets) {
      var u :| Orders(cfg, thread, v, targets, u);
      var c, t :| c in thread && c.author == u && !c.platform && Names(c.body, v, t) && t in targets;
      assert Addresses(id, thread, t);
    }
    forall c | c in thread && Addressed(cfg, id, thread, v, c) ensures Ordered(cfg, thread, v, targets) {
      var t :| Names(c.body, v, t) && Addresses(id, thread, t);
      assert t in targets && Orders(cfg, thread, v, targets, c.author);
    }
  }

  lemma SpokenIsSignalled(cfg: Config, id: Id, e: Post, v: Verb, kind: ReactionKind)
    ensures SignalledBy(cfg, id, e, v, kind) != [] <==> Spoken(cfg, id, e, v, kind)
  {
    SomeoneOrderedIff(cfg, e.thread, v, LiveTargets(id, e.thread));
    LiveOrdersAre(cfg, id, e.thread, v);
    AskIsReactedIff(cfg, e, kind);
  }

  lemma AskIsReactedIff(cfg: Config, e: Post, kind: ReactionKind)
    ensures GateReactionUsers(cfg, e, kind) != [] <==>
            || (exists k: nat :: LatestAsk(e.thread, k) && Reacted(cfg, e.thread[k].reactions, kind))
            || ((forall k: nat :: !LatestAsk(e.thread, k)) && Reacted(cfg, e.reactions, kind))
  {
    LastRequestIsLatest(e.thread);
    LastRequestInRange(e.thread);
    var k := LastRequest(e.thread);
    SomeoneReactedIff(cfg, if k.Some? then e.thread[k.value].reactions else e.reactions, kind);
    assert k.Some? ==> forall m: nat :: LatestAsk(e.thread, m) ==> m == k.value;
  }

  lemma PlainIsRead(cfg: Config, id: Id, e: Post, action: Action, optionsPosted: bool)
    requires StatusOf(e) == Some(AwaitingApproval)
    requires LastMarked(e.thread, MergeGate).None? && LastMarked(e.thread, WorkMergeGate).None?
    ensures ResolveApproval(cfg, id, e, action, false, optionsPosted) ==
            ResolvePlainGate(cfg, id, e, action.CommentEvent?, optionsPosted)
  {
  }

  /** A plain request: a yes sends the post back to work when it was never reviewed, and on when it was:
      an issue to its branch, merged if the configuration merges on its own and readied for a gate if
      not, any other post to done. Without a yes, prose or `retry` sends it back to work. */
  lemma PlainGateAnswers(cfg: Config, id: Id, e: Post, action: Action, optionsPosted: bool)
    requires StatusOf(e) == Some(AwaitingApproval)
    requires LastMarked(e.thread, MergeGate).None? && LastMarked(e.thread, WorkMergeGate).None?
    ensures var t := ResolveApproval(cfg, id, e, action, false, optionsPosted);
            var yes := Spoken(cfg, id, e, ToApprove, ThumbsUp) || Spoken(cfg, id, e, ToMerge, Heart);
            var work := action.CommentEvent? && WantsWork(e.thread);
            var reviewed := exists c :: c in e.thread && ReviewAttempt in c.markers;
            && (t.merge <==> yes && reviewed && e.tier == Issue && cfg.mergeToPrimary)
            && (t.prepare <==> yes && reviewed && e.tier == Issue && !cfg.mergeToPrimary)
            && (CloseDone in t.writes <==> yes && reviewed && e.tier != Issue)
            && (SetStatus(Todo) in t.writes <==> (yes && !reviewed) || (!yes && work))
  {
    DirectiveIs(e.thread);
    ReviewedIff(e.thread);
    SpokenIsSignalled(cfg, id, e, ToApprove, ThumbsUp);
    SpokenIsSignalled(cfg, id, e, ToMerge, Heart);
    PlainIsRead(cfg, id, e, action, optionsPosted);
    PlainDecides(cfg, id, e, action.CommentEvent?, optionsPosted);
  }

  lemma PlainDecides(cfg: Config, id: Id, e: Post, isComment: bool, optionsPosted: bool)
    ensures var t := ResolvePlainGate(cfg, id, e, isComment, optionsPosted);
            var d := if isComment then HumanDirective(e.thread) else NoDirective;
            var reviewed := ReviewAttempts(e.thread) > 0;
            var yes := || SignalledBy(cfg, id, e, ToApprove, ThumbsUp) != []
                       || SignalledBy(cfg, id, e, ToMerge, Heart) != [];
            && (t.merge <==> yes && reviewed && e.tier == Issue && cfg.mergeToPrimary)
            && (t.prepare <==> yes && reviewed && e.tier == Issue && !cfg.mergeToPrimary)
            && (CloseDone in t.writes <==> yes && reviewed && e.tier != Issue)
            && (SetStatus(Todo) in t.writes <==> (yes && !reviewed) || (!yes && d in {RetryIt, Guidance}))
  {
    var rejected := SignalledBy(cfg, id, e, ToReject, ThumbsDown) != [];
    var t := ResolveDirective(e.thread, isComment, rejected, optionsPosted);
    assert !t.merge && !t.prepare;
  }

  lemma {:induction false} ReviewedIff(thread: Thread)
    ensures ReviewAttempts(thread) > 0 <==> exists c :: c in thread && ReviewAttempt in c.markers
  {
    if thread != [] {
      assert thread == thread[..|thread| - 1] + [thread[|thread| - 1]];
      ReviewedIff(thread[..|thread| - 1]);
    }
  }

  /** An issue parked for a merge by hand: an approval or a merge answer to its gate merges it after all;
      without one, a person's last word that asks for work sends it back. */
  lemma MergeWaitAnswers(cfg: Config, id: Id, e: Post, action: Action)
    requires StatusOf(e) == Some(AwaitingMerge)
    ensures var t := ResolveAwaitingMerge(cfg, id, e, action, false);
            var yes := exists at: nat :: LastGate(e.thread, at) && Accepted(cfg, id, e.thread, at);
            && (t.merge <==> yes) && (t.prepare <==> yes)
            && (SetStatus(Todo) in t.writes <==> !yes && action.CommentEvent? && WantsWork(e.thread))
  {
    DirectiveIs(e.thread);
    LastMarkedIsLast(e.thread, MergeGate);
    var at := LastMarked(e.thread, MergeGate);
    assert forall k: nat :: LastGate(e.thread, k) <==> at == Some(k);
    if at.Some? { GateHearsAnswers(cfg, id, e.thread, MergeGate, at.value); }
  }

  /** The last word is a command of kind `v` naming the post, and some approver's command is one too. */
  ghost predicate Overrides(cfg: Config, id: Id, thread: Thread, v: Verb) {
    && (exists k: nat :: LastWord(thread, k) && Names(thread[k].body, v, PostNo(id)))
    && Ordered(cfg, thread, v, {PostNo(id)})
  }

  lemma OverrideIs(cfg: Config, id: Id, thread: Thread)
    ensures Override(cfg, id, thread) == Some(ToMerge) <==> Overrides(cfg, id, thread, ToMerge)
    ensures Override(cfg, id, thread) == Some(ToApprove) <==> Overrides(cfg, id, thread, ToApprove)
    ensures Override(cfg, id, thread) != Some(ToReject)
  {
    LatestHumanIsHuman(thread);
    SomeoneOrderedIff(cfg, thread, ToMerge, {PostNo(id)});
    SomeoneOrderedIff(cfg, thread, ToApprove, {PostNo(id)});
    var k := LatestHuman(thread);
    if k.Some? {
      assert LastWord(thread, k.value);
      assert forall m: nat :: LastWord(thread, m) ==> m == k.value;
      var b := thread[k.value].body;
      assert forall v :: Hits(b, v, {PostNo(id)}) <==> PostNo(id) in IdsOf(b, v);
    }
  }

  /** A blocked post and a new comment: an override sends an issue to its branch, merging it if it says so
      or merging needs no asking, and closes any other post; else a last word that asks for work sends the
      post back. */
  lemma BlockedAnswers(cfg: Config, id: Id, e: Post)
    requires StatusOf(e) == Some(Blocked)
    ensures var t := ResolveBlocked(cfg, id, e, CommentEvent, false);
            var merge, approve := Overrides(cfg, id, e.thread, ToMerge), Overrides(cfg, id, e.thread, ToApprove);
            && (t.prepare <==> e.tier == Issue && (merge || approve))
            && (t.merge <==> e.tier == Issue && (merge || (approve && cfg.mergeToPrimary)))
            && (CloseDone in t.writes <==> e.tier != Issue && (merge || approve))
            && (SetStatus(Todo) in t.writes <==> !merge && !approve && WantsWork(e.thread))
    ensures ResolveBlocked(cfg, id, e, OtherEvent, false) == NOTHING
  {
    DirectiveIs(e.thread);
    OverrideIs(cfg, id, e.thread);
  }

  /** An answer to a post that has moved on since does nothing. */
  lemma StaleAnswersDoNothing(cfg: Config, id: Id, e: Post, action: Action, optionsPosted: bool)
    ensures var t := ResolveApproval(cfg, id, e, action, true, optionsPosted);
            t.writes == [] && !t.prepare && !t.merge
    ensures var t := ResolveAwaitingMerge(cfg, id, e, action, true); t.writes == [] && !t.prepare && !t.merge
    ensures var t := ResolveBlocked(cfg, id, e, action, true); t.writes == [] && !t.prepare && !t.merge
  {
  }
}
