/** The tracker as the runtime sees it: posts, labels, comment threads, configuration.

    A comment is represented by what the runtime reads off it: who wrote it, whether it is the
    platform's own, the command it parses to, the hidden markers and APR tokens in its text, and
    its reactions. Names are taken case-folded and trimmed. */
module Tracker {
  import opened Basics

  type Id = nat
  type Name = string

  datatype Tier = Epic | Ticket | Issue

  datatype Status =
    | Todo | InProgress | InReview | AwaitingManualTest | AwaitingApproval | AwaitingMerge
    | Blocked | Done | WontDo | Deprecated | Other(name: string)

  predicate Terminal(s: Status) { s.Done? || s.WontDo? || s.Deprecated? }

  /** One word after a command verb. */
  datatype Token = PostNo(n: nat) | Apr(n: nat) | OtherId(text: string) | Word(text: string)

  datatype Body = Blank | Prose | Retry | Approve(ids: seq<Token>) | Merge(ids: seq<Token>) | Reject(ids: seq<Token>)

  datatype Verb = ToApprove | ToMerge | ToReject

  datatype ReactionKind = ThumbsUp | Heart | ThumbsDown

  datatype Reaction = Reaction(kind: ReactionKind, users: seq<Name>)

  datatype Marker = MergeGate | WorkMergeGate | ReviewAttempt | RejectOptions

  datatype Comment = Comment(
    author: Name,
    platform: bool,
    body: Body,
    markers: set<Marker>,
    tokens: seq<nat>,       // every APR number in the text, in order
    requests: seq<nat>,     // the APR numbers carried by approval-request markers
    reactions: seq<Reaction>)

  type Thread = seq<Comment>

  /** A dependency as parsed from a body: only numeric ids are enforced. */
  datatype Ref = Num(id: Id) | Named(text: string)

  /** A post title: an optional leading human id such as FEAT-0001, then free text. */
  datatype Title = Title(letters: string, digits: string, text: string)

  datatype Post = Post(
    tier: Tier,
    title: Title,
    labels: seq<Status>,        // the status labels, in the order they were added
    open: bool,
    thread: Thread,
    reactions: seq<Reaction>,   // on the post itself
    deps: seq<Ref>,
    ticket: Option<Id>,         // the `Ticket:` link roll-up follows
    epic: Option<Id>,           // the `Epic:` link roll-up follows
    parent: Option<Id>,         // the generic parent link the dependency gate follows
    draft: bool,
    agentAssigned: bool,             // the agent is among the assignees
    reviewLabel: bool,
    hitl: bool)

  datatype Config = Config(
    mergeToPrimary: bool,
    reviewOn: bool,
    autoAssign: bool,
    autoImplement: bool,
    maxAttempts: int,
    threshold: real,
    approvers: set<Name>,
    bots: set<Name>,
    allowAny: bool)

  /** The status the runtime reads: the first status label. */
  function StatusOf(p: Post): Option<Status> {
    if p.labels == [] then None else Some(p.labels[0])
  }
}
