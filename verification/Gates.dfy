/** Reading human signals off a thread: who may approve, whose reactions and commands count
    towards a gate, and which comment is the gate. */
module Gates {
  import opened Basics
  import opened Tracker

  // ----- approvers, reactions, commands

  predicate IsApprover(cfg: Config, name: Name) {
    if cfg.approvers != {} then name in cfg.approvers
    else cfg.allowAny && name != "" && name !in cfg.bots
  }

  /** Who may approve: those on the list; without a list, if the configuration lets anybody, anyone with a
      name but the platform's own accounts. */
  ghost predicate MayApprove(cfg: Config, name: Name) {
    || name in cfg.approvers
    || (cfg.approvers == {} && cfg.allowAny && name != "" && name !in cfg.bots)
  }

  lemma ApproversAre(cfg: Config)
    ensures forall u :: IsApprover(cfg, u) <==> MayApprove(cfg, u)
  {
  }

  function ApprovingUsers(cfg: Config, users: seq<Name>): seq<Name> {
    if users == [] then []
    else
      var u := users[|users| - 1];
      ApprovingUsers(cfg, users[..|users| - 1]) + if u != "" && IsApprover(cfg, u) then [u] else []
  }

  /** The approvers among those who left reaction `kind`. */
  function ReactionUsers(cfg: Config, reactions: seq<Reaction>, kind: ReactionKind): seq<Name> {
    if reactions == [] then []
    else
      var r := reactions[|reactions| - 1];
      ReactionUsers(cfg, reactions[..|reactions| - 1], kind) +
      if r.kind == kind then ApprovingUsers(cfg, r.users) else []
  }

  /** `u` is an approver who left reaction `kind`. */
  ghost predicate Reacts(cfg: Config, reactions: seq<Reaction>, kind: ReactionKind, u: Name) {
    && u != "" && MayApprove(cfg, u)
    && exists r :: r in reactions && r.kind == kind && u in r.users
  }

  ghost predicate Reacted(cfg: Config, reactions: seq<Reaction>, kind: ReactionKind) {
    exists u :: Reacts(cfg, reactions, kind, u)
  }

  lemma {:induction false} ApprovingUsersAre(cfg: Config, users: seq<Name>, u: Name)
    ensures u in ApprovingUsers(cfg, users) <==> u in users && u != "" && IsApprover(cfg, u)
  {
    if users != [] {
      assert users == users[..|users| - 1] + [users[|users| - 1]];
      ApprovingUsersAre(cfg, users[..|users| - 1], u);
    }
  }

  /** Whose reactions count: exactly the approvers'. */
  lemma {:induction false} ReactionUsersAre(cfg: Config, reactions: seq<Reaction>, kind: ReactionKind, u: Name)
    ensures u in ReactionUsers(cfg, reactions, kind) <==> Reacts(cfg, reactions, kind, u)
  {
    ApproversAre(cfg);
    if reactions != [] {
      var front, last := reactions[..|reactions| - 1], reactions[|reactions| - 1];
      assert reactions == front + [last];
      ReactionUsersAre(cfg, front, kind, u);
      ApprovingUsersAre(cfg, last.users, u);
      assert Reacts(cfg, reactions, kind, u) <==>
        Reacts(cfg, front, kind, u) || (last.kind == kind && u in last.users && u != "" && IsApprover(cfg, u));
    }
  }

  lemma SomeoneReactedIff(cfg: Config, reactions: seq<Reaction>, kind: ReactionKind)
    ensures ReactionUsers(cfg, reactions, kind) != [] <==> Reacted(cfg, reactions, kind)
  {
    var users := ReactionUsers(cfg, reactions, kind);
    if users != [] { ReactionUsersAre(cfg, reactions, kind, users[0]); }
    forall u | Reacts(cfg, reactions, kind, u) ensures users != [] { ReactionUsersAre(cfg, reactions, kind, u); }
  }

  function IdsOf(b: Body, v: Verb): seq<Token> {
    match (b, v)
    case (Approve(ids), ToApprove) => ids
    case (Merge(ids), ToMerge) => ids
    case (Reject(ids), ToReject) => ids
    case _ => []
  }

  predicate Hits(b: Body, v: Verb, targets: set<Token>) {
    exists t :: t in IdsOf(b, v) && t in targets
  }

  /** `c` is an approver's own command of kind `v` naming one of `targets`. */
  predicate Commands(cfg: Config, c: Comment, v: Verb, targets: set<Token>) {
    c.author != "" && IsApprover(cfg, c.author) && !c.platform && Hits(c.body, v, targets)
  }

  /** The comment is a command of kind `v` that names `t`. */
  predicate Names(b: Body, v: Verb, t: Token) {
    match v
    case ToApprove => b.Approve? && t in b.ids
    case ToMerge => b.Merge? && t in b.ids
    case ToReject => b.Reject? && t in b.ids
  }

  /** `u` is an approver who wrote a command of kind `v` naming one of `targets`. */
  ghost predicate Orders(cfg: Config, thread: Thread, v: Verb, targets: set<Token>, u: Name) {
    && u != "" && MayApprove(cfg, u)
    && exists c, t :: c in thread && c.author == u && !c.platform && Names(c.body, v, t) && t in targets
  }

  ghost predicate Ordered(cfg: Config, thread: Thread, v: Verb, targets: set<Token>) {
    exists u :: Orders(cfg, thread, v, targets, u)
  }

  function CommandAuthors(cfg: Config, thread: Thread, v: Verb, targets: set<Token>): seq<Name> {
    if thread == [] then []
    else
      var c := thread[|thread| - 1];
      CommandAuthors(cfg, thread[..|thread| - 1], v, targets) + if Commands(cfg, c, v, targets) then [c.author] else []
  }

  lemma {:induction false} CommandAuthorsExist(cfg: Config, thread: Thread, v: Verb, targets: set<Token>)
    ensures CommandAuthors(cfg, thread, v, targets) != [] <==>
            exists c :: c in thread && Commands(cfg, c, v, targets)
  {
    if thread != [] {
      var front, last := thread[..|thread| - 1], thread[|thread| - 1];
      assert thread == front + [last];
      CommandAuthorsExist(cfg, front, v, targets);
    }
  }

  lemma CommandNames(cfg: Config, c: Comment, v: Verb, targets: set<Token>)
    ensures Commands(cfg, c, v, targets) <==>
            && c.author != "" && IsApprover(cfg, c.author) && !c.platform
            && exists t :: Names(c.body, v, t) && t in targets
  {
    if Hits(c.body, v, targets) {
      var t :| t in IdsOf(c.body, v) && t in targets;
      assert Names(c.body, v, t);
    }
    forall t | Names(c.body, v, t) && t in targets ensures Hits(c.body, v, targets) {
      assert t in IdsOf(c.body, v);
    }
  }

  /** Whose commands count: exactly those of approvers who name a target. */
  lemma {:induction false} CommandAuthorsAre(cfg: Config, thread: Thread, v: Verb, targets: set<Token>, u: Name)
    ensures u in CommandAuthors(cfg, thread, v, targets) <==> Orders(cfg, thread, v, targets, u)
  {
    ApproversAre(cfg);
    if thread != [] {
      var front, last := thread[..|thread| - 1], thread[|thread| - 1];
      assert thread == front + [last];
      CommandAuthorsAre(cfg, front, v, targets, u);
      CommandNames(cfg, last, v, targets);
      assert Orders(cfg, thread, v, targets, u) <==>
        Orders(cfg, front, v, targets, u) || (last.author == u && Commands(cfg, last, v, targets));
    }
  }

  lemma SomeoneOrderedIff(cfg: Config, thread: Thread, v: Verb, targets: set<Token>)
    ensures CommandAuthors(cfg, thread, v, targets) != [] <==> Ordered(cfg, thread, v, targets)
  {
    var authors := CommandAuthors(cfg, thread, v, targets);
    if authors != [] { CommandAuthorsAre(cfg, thread, v, targets, authors[0]); }
    forall u | Orders(cfg, thread, v, targets, u) ensures authors != [] {
      CommandAuthorsAre(cfg, thread, v, targets, u);
    }
  }

  // ----- the gate comment

  /** Where the last comment bearing `marker` is. */
  function LastMarked(thread: Thread, marker: Marker): Option<nat> {
    if thread == [] then None
    else if marker in thread[|thread| - 1].markers then Some(|thread| - 1)
    else LastMarked(thread[..|thread| - 1], marker)
  }

  lemma {:induction false} LastMarkedIsLast(thread: Thread, marker: Marker)
    ensures match LastMarked(thread, marker)
            case None => forall i :: 0 <= i < |thread| ==> marker !in thread[i].markers
            case Some(k) =>
              && k < |thread| && marker in thread[k].markers
              && forall i :: k < i < |thread| ==> marker !in thread[i].markers
  {
    if thread != [] && marker !in thread[|thread| - 1].markers {
      LastMarkedIsLast(thread[..|thread| - 1], marker);
    }
  }

  /** What a command must name to address this gate: the post, or the gate's own token. */
  function GateTargets(id: Id, gate: Comment): set<Token> {
    {PostNo(id)} + if gate.tokens != [] then {Apr(gate.tokens[0])} else {}
  }

  datatype Signals = Signals(at: nat, approve: seq<Name>, merge: seq<Name>, reject: seq<Name>) {
    predicate Any() { approve != [] || merge != [] || reject != [] }
  }

  function GateSignals(cfg: Config, id: Id, thread: Thread, marker: Marker): Option<Signals>
  {
    var at := LastMarked(thread, marker);
    if at.None? then None
    else
      LastMarkedIsLast(thread, marker);
      var gate := thread[at.value];
      var targets := GateTargets(id, gate);
      Some(Signals(
        at.value,
        ReactionUsers(cfg, gate.reactions, ThumbsUp) + CommandAuthors(cfg, thread, ToApprove, targets),
        ReactionUsers(cfg, gate.reactions, Heart) + CommandAuthors(cfg, thread, ToMerge, targets),
        ReactionUsers(cfg, gate.reactions, ThumbsDown) + CommandAuthors(cfg, thread, ToReject, targets)))
  }

  // ----- the loops that compute these

  method DedupeLoop(values: seq<Name>) returns (result: seq<Name>)
    ensures result == Dedupe(values)
  {
    var seen: set<Name> := {};
    result := [];
    for i := 0 to |values|
      invariant seen == set x | x in values[..i]
      invariant result == Dedupe(values[..i])
    {
      assert values[..i + 1][..i] == values[..i];
      if values[i] !in seen {
        seen := seen + {values[i]};
        result := result + [values[i]];
      }
    }
    assert values[..|values|] == values;
  }

  method CommentReactionUsers(cfg: Config, comment: Comment, kind: ReactionKind) returns (users: seq<Name>)
    ensures users == Dedupe(ReactionUsers(cfg, comment.reactions, kind)) && NoDuplicates(users)
    ensures forall u :: u in users <==> Reacts(cfg, comment.reactions, kind, u)
  {
    var rs := comment.reactions;
    users := [];
    for i := 0 to |rs|
      invariant users == ReactionUsers(cfg, rs[..i], kind)
    {
      assert rs[..i + 1][..i] == rs[..i];
      if rs[i].kind == kind {
        var us, before := rs[i].users, users;
        for j := 0 to |us|
          invariant users == before + ApprovingUsers(cfg, us[..j])
        {
          assert us[..j + 1][..j] == us[..j];
          if us[j] != "" && IsApprover(cfg, us[j]) {
            users := users + [us[j]];
          }
        }
        assert us[..|us|] == us;
      }
    }
    assert rs[..|rs|] == rs;
    DedupeKeepsMembers(users);
    forall u ensures u in users <==> Reacts(cfg, rs, kind, u) { ReactionUsersAre(cfg, rs, kind, u); }
    users := DedupeLoop(users);
  }

  method CommandAuthorsFor(cfg: Config, thread: Thread, targets: set<Token>, v: Verb) returns (authors: seq<Name>)
    ensures authors == Dedupe(CommandAuthors(cfg, thread, v, targets)) && NoDuplicates(authors)
    ensures forall u :: u in authors <==> Orders(cfg, thread, v, targets, u)
  {
    authors := [];
    for i := 0 to |thread|
      invariant authors == CommandAuthors(cfg, thread[..i], v, targets)
    {
      assert thread[..i + 1][..i] == thread[..i];
      var c := thread[i];
      if c.author != "" && IsApprover(cfg, c.author) && !c.platform && Hits(c.body, v, targets) {
        authors := authors + [c.author];
      }
    }
    assert thread[..|thread|] == thread;
    DedupeKeepsMembers(authors);
    forall u ensures u in authors <==> Orders(cfg, thread, v, targets, u) {
      CommandAuthorsAre(cfg, thread, v, targets, u);
    }
    authors := DedupeLoop(authors);
  }

  method LatestMarkerComment(thread: Thread, marker: Marker) returns (found: Option<nat>)
    ensures found == LastMarked(thread, marker)
  {
    found := None;
    for i := 0 to |thread|
      invariant found == LastMarked(thread[..i], marker)
    {
      assert thread[..i + 1][..i] == thread[..i];
      if marker in thread[i].markers { found := Some(i); }
    }
    assert thread[..|thread|] == thread;
  }

  // ----- what a gate hears

  /** Two comments say the same thing to a gate addressed by `targets`. */
  ghost predicate SameSpeech(c: Comment, d: Comment, targets: set<Token>) {
    c.author == d.author && c.platform == d.platform &&
    forall v :: Hits(c.body, v, targets) == Hits(d.body, v, targets)
  }

  lemma {:induction false} SameSpeechSameAuthors(cfg: Config, t: Thread, u: Thread, v: Verb, targets: set<Token>)
    requires |t| == |u| && forall i :: 0 <= i < |t| ==> SameSpeech(t[i], u[i], targets)
    ensures CommandAuthors(cfg, t, v, targets) == CommandAuthors(cfg, u, v, targets)
  {
    if t != [] {
      SameSpeechSameAuthors(cfg, t[..|t| - 1], u[..|u| - 1], v, targets);
      assert SameSpeech(t[|t| - 1], u[|u| - 1], targets);
    }
  }

  /** Nothing but the last gate comment, and commands naming it or the post, reaches a gate:
      reactions left on any other comment, and commands naming only other tokens, can be
      rewritten freely without changing what the gate hears. */
  lemma OlderGatesAreInert(cfg: Config, id: Id, t: Thread, u: Thread, marker: Marker)
    requires |t| == |u|
    requires LastMarked(t, marker).Some? && LastMarked(u, marker) == LastMarked(t, marker)
    requires var k := LastMarked(t, marker).value; k < |t| && t[k] == u[k]
    requires forall i :: 0 <= i < |t| ==>
               SameSpeech(t[i], u[i], GateTargets(id, t[LastMarked(t, marker).value]))
    ensures GateSignals(cfg, id, t, marker) == GateSignals(cfg, id, u, marker)
  {
    var targets := GateTargets(id, t[LastMarked(t, marker).value]);
    forall v { SameSpeechSameAuthors(cfg, t, u, v, targets); }
    assert forall v :: CommandAuthors(cfg, t, v, targets) == CommandAuthors(cfg, u, v, targets);
  }

  /** A gate comment as the platform posts it: one token, no reactions yet. */
  predicate FreshGate(g: Comment, marker: Marker, token: nat) {
    g.platform && marker in g.markers && g.tokens == [token] && g.reactions == []
  }

  /** Right after a gate is posted it already carries an approval exactly when an approver's
      `approve` command in the thread names the post number or the number of the new token;
      likewise for `merge` and `reject`. No earlier reaction counts. */
  lemma FreshGateHears(cfg: Config, id: Id, t: Thread, g: Comment, marker: Marker, token: nat)
    requires FreshGate(g, marker, token)
    ensures var s := GateSignals(cfg, id, t + [g], marker);
            && s.Some? && s.value.at == |t|
            && (s.value.approve != [] <==> Ordered(cfg, t, ToApprove, {PostNo(id), Apr(token)}))
            && (s.value.merge != [] <==> Ordered(cfg, t, ToMerge, {PostNo(id), Apr(token)}))
            && (s.value.reject != [] <==> Ordered(cfg, t, ToReject, {PostNo(id), Apr(token)}))
  {
    var u := t + [g];
    assert u[..|u| - 1] == t;
    var targets := {PostNo(id), Apr(token)};
    assert GateTargets(id, g) == targets;
    forall v
      ensures CommandAuthors(cfg, u, v, targets) != [] <==> Ordered(cfg, t, v, targets)
    {
      SomeoneOrderedIff(cfg, t, v, targets);
    }
  }

  /** A witness: `approve 7`, written before the gate was posted, answers it. */
  lemma OldCommandAnswersNewGate(cfg: Config, gate: Comment, marker: Marker, token: nat)
    requires cfg.approvers == {"ann"} && FreshGate(gate, marker, token)
    ensures var said := Comment("ann", false, Approve([PostNo(7)]), {}, [], [], []);
            var s := GateSignals(cfg, 7, [said, gate], marker);
            s.Some? && s.value.at == 1 && s.value.approve != []
  {
    var c := Comment("ann", false, Approve([PostNo(7)]), {}, [], [], []);
    assert c in [c] && Names(c.body, ToApprove, PostNo(7));
    assert Orders(cfg, [c], ToApprove, {PostNo(7), Apr(token)}, "ann");
    FreshGateHears(cfg, 7, [c], gate, marker, token);
    assert [c] + [gate] == [c, gate];
  }

  // ----- human directives

  /** The most recent comment that is neither blank nor the platform's own. */
  function LatestHuman(thread: Thread): Option<nat> {
    if thread == [] then None
    else
      var c := thread[|thread| - 1];
      if c.body.Blank? || c.platform then LatestHuman(thread[..|thread| - 1]) else Some(|thread| - 1)
  }

  lemma {:induction false} LatestHumanIsHuman(thread: Thread)
    ensures match LatestHuman(thread)
            case None => forall i :: 0 <= i < |thread| ==> thread[i].body.Blank? || thread[i].platform
            case Some(k) =>
              && k < |thread| && !thread[k].body.Blank? && !thread[k].platform
              && forall i :: k < i < |thread| ==> thread[i].body.Blank? || thread[i].platform
  {
    if thread != [] && (thread[|thread| - 1].body.Blank? || thread[|thread| - 1].platform) {
      LatestHumanIsHuman(thread[..|thread| - 1]);
    }
  }

  datatype Directive = NoDirective | RetryIt | Guidance | BareReject

  function DirectiveOf(b: Body): Directive {
    match b
    case Retry => RetryIt
    case Reject(ids) => if exists t :: t in ids && t.Word? then Guidance else BareReject
    case Approve(_) => NoDirective
    case Blank => NoDirective
    case _ => Guidance
  }

  function HumanDirective(thread: Thread): Directive {
    var k := LatestHuman(thread);
    if k.None? then NoDirective
    else
      LatestHumanIsHuman(thread);
      DirectiveOf(thread[k.value].body)
  }

  /** Comments bearing the review marker; with `own`, only the platform's. */
  function MarkedAttempts(thread: Thread, own: bool): nat {
    if thread == [] then 0
    else
      var c := thread[|thread| - 1];
      MarkedAttempts(thread[..|thread| - 1], own) +
      if ReviewAttempt in c.markers && (own ==> c.platform) then 1 else 0
  }

  function ReviewAttempts(thread: Thread): nat { MarkedAttempts(thread, false) }

  // ----- overriding a block

  /** The verb the latest human comment addresses to the post, merge first. */
  function LatestVerb(id: Id, thread: Thread): Option<Verb> {
    var k := LatestHuman(thread);
    if k.None? then None
    else
      LatestHumanIsHuman(thread);
      var b := thread[k.value].body;
      if Hits(b, ToMerge, {PostNo(id)}) then Some(ToMerge)
      else if Hits(b, ToApprove, {PostNo(id)}) then Some(ToApprove) else None
  }

  /** The override the code grants on a blocked post: the latest human comment is an approve or
      merge command naming the post, and SOME approver comment of that kind naming it exists. */
  function Override(cfg: Config, id: Id, thread: Thread): Option<Verb> {
    var v := LatestVerb(id, thread);
    if v.Some? && CommandAuthors(cfg, thread, v.value, {PostNo(id)}) != [] then v else None
  }

  /** What the comment beside that code promises: the latest human comment is itself an
      approver's command. */
  function DocumentedOverride(cfg: Config, id: Id, thread: Thread): Option<Verb> {
    var v, k := LatestVerb(id, thread), LatestHuman(thread);
    LatestHumanIsHuman(thread);
    if v.Some? && Commands(cfg, thread[k.value], v.value, {PostNo(id)}) then v else None
  }

  /** The latest human comment is a command by someone who may not approve, and an approver's
      command of the same kind naming the same post stands somewhere before it. */
  ghost predicate EchoesAnApprover(cfg: Config, id: Id, thread: Thread) {
    LatestHumanIsHuman(thread);
    var last, v := LatestHuman(thread), LatestVerb(id, thread);
    && v.Some?
    && !(thread[last.value].author != "" && IsApprover(cfg, thread[last.value].author))
    && exists i :: 0 <= i < last.value && Commands(cfg, thread[i], v.value, {PostNo(id)})
  }

  /** A command stands before place `k`, or at it. */
  lemma CommandUpTo(cfg: Config, thread: Thread, v: Verb, targets: set<Token>, k: nat)
    requires k < |thread| && forall i :: k < i < |thread| ==> !Commands(cfg, thread[i], v, targets)
    ensures CommandAuthors(cfg, thread, v, targets) != [] <==>
            (exists i :: 0 <= i < k && Commands(cfg, thread[i], v, targets)) || Commands(cfg, thread[k], v, targets)
  {
    CommandAuthorsExist(cfg, thread, v, targets);
    forall i: nat | i < |thread| && Commands(cfg, thread[i], v, targets) ensures i <= k && thread[i] in thread {}
  }

  /** Code and promise agree on every thread but those. */
  lemma OverrideAsDocumentedIff(cfg: Config, id: Id, thread: Thread)
    ensures Override(cfg, id, thread) == DocumentedOverride(cfg, id, thread) <==> !EchoesAnApprover(cfg, id, thread)
  {
    LatestHumanIsHuman(thread);
    var v, k := LatestVerb(id, thread), LatestHuman(thread);
    if v.Some? {
      assert Hits(thread[k.value].body, v.value, {PostNo(id)});
      forall i | k.value < i < |thread| ensures !Commands(cfg, thread[i], v.value, {PostNo(id)}) {}
      CommandUpTo(cfg, thread, v.value, {PostNo(id)}, k.value);
    }
  }

  /** A thread on which they differ: an approver's old `merge 7`, then the same command by a
      person who is not on the approver list. */
  lemma OverrideNotAsDocumented(cfg: Config)
    requires cfg.approvers == {"ann"}
    ensures var say := (who: Name) => Comment(who, false, Merge([PostNo(7)]), {}, [], [], []);
            Override(cfg, 7, [say("ann"), say("bob")]) == Some(ToMerge) &&
            DocumentedOverride(cfg, 7, [say("ann"), say("bob")]) == None
  {
    var a := Comment("ann", false, Merge([PostNo(7)]), {}, [], [], []);
    var b := Comment("bob", false, Merge([PostNo(7)]), {}, [], [], []);
    var t := [a, b];
    assert PostNo(7) in IdsOf(a.body, ToMerge) && PostNo(7) in IdsOf(b.body, ToMerge);
    assert Commands(cfg, a, ToMerge, {PostNo(7)}) && a in t;
    CommandAuthorsExist(cfg, t, ToMerge, {PostNo(7)});
  }
}
