# Verified model of the specseed runtime

A Dafny model of the parts of specseed whose behaviour spans many functions: the issue lifecycle with
its merge gates and git protocol, the durable two-lane task queue and the sync that feeds it, the
planning algorithms of the skill, and the storage migration chain. `dafny verify dfyconfig.toml`
checks all of it.

## What is modelled

**Issue lifecycle** (`Tracker`, `Gates`, `Advance`, `Answers`, `Branches`, `Git`, `RollUp`, `Deps`,
`Lifecycle`, `Safety`, `Runs`, `Sweeps`, `Landings`, `Promises`, `ReviewLoop`, `Driving`, `Lanes`,
`UnseenGate`, `Outcomes`, `Runtime`). A world holds the remote posts (status labels, threads with
reactions, dependencies, links), the lagging local mirror every decision reads, a git repository whose
branches are sets of commits with at most one merge in progress, the pending work and gate jobs,
undigested results, the APR counter, the posts as they were first written, and a log of what happened. A
step is a sync, a control event, an agent run, the digestion of a result, a gate job with its sweep, a
lost job, or something a person does: write, edit or delete a comment, react, label, close, reopen, edit,
create or delete a post, push commits. What agents report, whether git refuses a command, whether a first
merge conflicts and whether a conflict gets resolved are parameters of the step; everything else is
decided as the code decides it. `Runtime` is the imperative form: a class whose methods work on the
fields in place and are proved to do exactly what the step functions say. The main theorems are in
`Promises`; they hold in every world of every run from a fresh install.

**Queue** (`Queue`, `SyncBridge`, `Syncer`, `Scheduler`, `Recovery`). The task table as a class over
rows, the sync that supersedes, coalesces and tears down, the cancellation registry, the scheduler's
two lanes with the quota circuit, and the retry machinery. `SyncBridge` interleaves one control thread,
one work thread and restarts.

**Planning** (`Topo`, `CriticalPath`, `SprintPack`, `PlanCheck`, `SkillWalk`). Kahn's algorithm stands
for `graphlib.TopologicalSorter`. Efforts and budgets are reals.

**Spec changes and migration** (`SpecChange`, `Migrate`). Applying a plan is taken as executing exactly
what the plan lists. Migration hops are uninterpreted functions on the data.

## Assumptions

- A handler, and the finish of a task, is one step; best-effort blocks do not raise half-way.
- Titles, tiers, dependencies and links of a post do not change; a fresh install has nothing done or in
  review, and no platform comment yet; issues link tickets and tickets link epics.
- Nobody puts the labels `done` or `in_review` on by hand, writes as the platform, or turns one of the
  platform's comments into a gate or request, or adds an APR token to a gate or request.
- A push only adds commits: nobody deletes, rewrites or force-pushes a branch, or creates one that is
  named like an issue's.
- Agents' reports may quote any APR token, but none of the platform's hidden markers.
- Post ids are numbers of at most 48 digits, and the primary branch is not named like an issue branch
  (text, a dash, digits).
- A comment id or reaction id belongs to one parent.
- git refuses a checkout while a merge is in progress.

## Where the code and its documentation disagree

The model follows the code. Each entry names a lemma that exhibits the fault and one that says exactly
when it occurs.

- The resolver of `awaiting_approval` looks for a pure merge gate before a combined one, whichever is
  newer (`advance.py:822-823`): an answered old pure gate answers for a newer combined gate
  (`Advance.OlderPureGateAnswersForNewerCombinedGate`; exactly when: `Advance.UnansweredGateMergesIff`).
- Overriding a block asks for the latest human comment to be an approver's command, but checks only that
  some approver's command of that kind exists (`Gates.OverrideNotAsDocumented`;
  `Gates.OverrideAsDocumentedIff`).
- A command naming the post number, unlike one naming an APR token, is heard by every later gate
  (`Gates.OldCommandAnswersNewGate`; `Gates.FreshGateHears`).
- A status swap removes the labels of the mirror's copy, so a label added since the last sync survives
  (`Answers.SwapLeavesTwoStatuses`; `Answers.SwapLeavesOneStatusIff`); for a spec-change request such a
  label defeats the guard against a second finalizing apply, also after a rejection
  (`SpecChange.DuplicateApprovalAppliesTwice`; `SpecChange.DuplicateApprovalIsHarmlessIff`,
  `SpecChange.RejectionIsFinalIff`).
- The sweep after a landing re-gates the open gates of the mirror, not every open gate: one posted since
  the last sync keeps its approval (`UnseenGate.UnseenGateStands`; `Sweeps.SweepReachesGateIff`).
- The review attempts are counted on the mirror: a review started before it catches up bounces an issue
  once more than configured (`Lanes.LaggingMirrorBouncesTwice`; `ReviewLoop.DigestOverrunsIff`).
- Roll-up does not check the parent's tier (`RollUp.BadLinkClosesAnIssue`; `RollUp.ClosesAnIssueIff`).
- The dependency check reads a created post's tier only from its `tier` field or a bare label, although
  the tracker also reads it from `tier:t` and `t:status:s` labels (`PlanCheck.UnlistedPostIsNotChecked`;
  `PlanCheck.CheckedIff`).
- A storage older than the whole migration chain is refused, unless an engine inside the first hop
  fast-forwards its marker first (`Migrate.OldStorageSlipsIn`; `Migrate.MigrationComposesIff`).

## Model

| member | source | states |
|---|---|---|
| Promises.DoneMeansLanded | src/specseed_runtime/executing/dispatch.py:740-804 | in every reachable state, an issue labelled `done` has carried the label without a break since a step that closed it, and all that its branch held when that step began lies in what is now primary |
| Promises.ImplementsOnTopOfItsDependencies | src/specseed_runtime/executing/dispatch.py:1226-1249 | every implement run starts on a branch that already holds the branch contents with which each issue it depends on was closed, earlier in the run |
| Promises.MergesAreSigned | src/specseed_runtime/executing/dispatch.py:290-321 | with `merge_to_primary` off, every landing comes from a job scheduled on a thread the issue really carried at an earlier moment and that an approver had signed |
| Promises.PrimaryMovesOnlyWhenSigned | src/specseed_runtime/executing/dispatch.py:740-804 | with `merge_to_primary` off, whenever a step moves primary, either a person pushed to it or the step landed a branch on a thread the issue really carried and an approver had signed |
| Landings.PrimaryMovesByLanding | src/specseed_runtime/executing/dispatch.py:740-804 | no step but a push to primary moves primary without logging a landing |
| Landings.DoneComesByClosing | src/specseed_runtime/executing/advance.py:215-220 | the only step that puts `done` on an issue is the gate job that lands and closes it |
| Promises.MirrorIsASnapshot | src/specseed_runtime/scheduling/sync_to_db.py:58-77 | whatever the mirror shows of a post, the tracker showed at some earlier moment of the run |
| Promises.OldTokensAreVoid | src/specseed_runtime/executing/advance.py:332-357 | in every reachable state, a command naming only the token of another gate or request says nothing to the post's current gate, since minted tokens never repeat; that holds whatever tokens agents' reports quote |
| Promises.ClosingSettlesParents | src/specseed_runtime/executing/advance.py:1308-1364 | `close_issue_done` leaves no live parent with all children terminal, if there was none before |
| Promises.ParentsCloseRightly | src/specseed_runtime/executing/advance.py:1331-1364 | every parent it closes was live, has only terminal children, at least one, and is `done` exactly when a child is |
| Promises.ParentsCloseOnMergedIssues | src/specseed_runtime/executing/advance.py:1331-1364 | after a close, every issue reading `done` was closed by a merge: roll-up makes no issue done |
| Promises.RunsComeHome | src/specseed_runtime/executing/dispatch.py:691-730 | over any run in which git lets the runtime step back and abort, HEAD is on primary with no merge half done after every step |
| Runs.StepMoves | src/specseed_runtime/executing/work_runner.py:120-366 | every possible step keeps the invariant, only grows branches and the log, and records an event only when what must precede it has happened |
| Runs.RunsKeepInv | src/specseed_runtime/executing/dispatch.py:1032-1266 | the invariant holds after every run from a fresh install |
| Runs.RunsOnlyGrow | src/specseed_runtime/executing/git_ops.py:194-239 | along a run no branch loses a commit, no event is rewritten, and an id once given to a post is never given to another, whether or not that post is deleted |
| Sweeps.ReadiedLandingNeedsNoResolver | src/specseed_runtime/executing/dispatch.py:807-872 | a branch just readied lands without a conflict, whatever git is inclined to do, so the conflict resolver cannot matter |
| Sweeps.SweepSettles | src/specseed_runtime/executing/dispatch.py:896-924 | after the sweep every swept post ends in a fresh gate on a branch containing primary, or is blocked, and primary has not moved |
| Sweeps.LandingRegatesSiblings | src/specseed_runtime/executing/dispatch.py:875-924 | whenever a gate job closes its issue, every other open issue at a merge gate that the mirror has seen is re-gated on a branch containing the new primary, or blocked |
| Sweeps.SweepReachesGateIff | src/specseed_runtime/executing/dispatch.py:875-924 | of the other open issues whose thread carries a merge gate, a landing touches exactly those whose gate the mirror has seen; the rest stay as they were |
| Sweeps.UnseenGateKeepsItsApproval | src/specseed_runtime/executing/dispatch.py:875-924 | a gate posted and approved since the last sync keeps its approval over a landing |
| UnseenGate.UnseenGateStands | src/specseed_runtime/executing/dispatch.py:875-924 | worlds that satisfy the invariants, whatever the titles, in which one issue is landed and closed and the approved, unseen gate of the other stands |
| Sweeps.GateJobRests | src/specseed_runtime/executing/work_runner.py:266-294 | however git and the resolver behave, a gate job leaves its issue at a fresh gate on a branch containing primary, or blocked, or labelled `done` and closed |
| Sweeps.GateJobComesHome | src/specseed_runtime/executing/dispatch.py:831-872 | a gate job leaves HEAD on primary and no merge in progress, however its merges fare |
| Sweeps.AgentRunComesHome | src/specseed_runtime/executing/dispatch.py:691-730 | so does an agent run, however it ends |
| ReviewLoop.BouncesAreBounded | src/specseed_runtime/executing/advance.py:599-681 | over an issue's whole life, whatever people do, review sends it back at most max(0, max_attempts - 1) times, if each of its reviews is digested on a mirror showing the earlier ones, the issue is not deleted, and the platform's comments on it are left alone |
| ReviewLoop.DigestCounts | src/specseed_runtime/executing/advance.py:389-395 | a digest adds one review to the record exactly when it acts on a review of the issue, and bounces the issue exactly when that review asks for changes and the mirror shows attempts left |
| ReviewLoop.DigestOverrunsIff | src/specseed_runtime/executing/advance.py:599-681 | a review sends the issue back although it uses up the attempts on the tracker exactly when it asks for changes and the mirror shows attempts left |
| Lanes.OneResultAtMost | src/specseed_runtime/executing/scheduler.py:338-360 | with the work lane claiming only when no result waits, at most one result is undigested in every reachable state |
| Lanes.SyncsBoundBounces | src/specseed_runtime/executing/advance.py:599-681 | under that scheduling the bound on bounces needs only a sync between the digest of one review and the start of the next, besides the issue being left alone |
| Lanes.LaggingMirrorBouncesTwice | src/specseed_runtime/executing/advance.py:599-681 | a run without that sync: a review asks for changes, a person takes the status label off, and the lagging mirror sends the issue to review again, for a second bounce where two attempts allow one |
| Driving.TurnDescends | src/specseed_runtime/executing/advance.py:543-681 | a turn of the loop - sync, control event, agent run, digest, each a possible step - ends it or strictly decreases (attempts left, phase) |
| Driving.DriveEnds | src/specseed_runtime/executing/advance.py:543-681 | whatever the agents report, finitely many possible steps take the loop to an approval, blocked, or a queued gate job |
| Driving.LoopRests | src/specseed_runtime/executing/work_runner.py:120-366 | the loop leads to `awaiting_approval` or `blocked`, or to a gate job that, however it fares, leaves the issue gated on a branch containing primary, blocked, or done and closed |
| Outcomes.ReviewLeaves | src/specseed_runtime/executing/advance.py:599-681 | the digest of an issue's review: with enough confidence gate work is queued, merging when that needs no asking; an approval without it parks the issue at a combined gate, or a plain request; changes send it back while attempts are left and block it after; nothing else changes |
| Outcomes.ImplementLeaves | src/specseed_runtime/executing/advance.py:543-596 | the digest of an implementation: a spec-change recommendation or a report that it could not proceed blocks; else it goes to review, to a person, or to its gate |
| Outcomes.OthersAreClosed | src/specseed_runtime/executing/advance.py:543-681 | a post that is no issue asks for no gate work: done, or reviewed with confidence, it is closed |
| Outcomes.StaleResultsAreDropped | src/specseed_runtime/executing/work_runner.py:300-366 | a result about a post that is gone, or has left the status the mirror shows, changes nothing |
| Outcomes.StartLeaves | src/specseed_runtime/executing/dispatch.py:1188-1249 | the start of an issue: no assignee, nothing; no approval where one is needed, a request; a cancelled dependency, blocked; one not done, held back; else an implement run |
| Outcomes.ReviewStarts | src/specseed_runtime/executing/dispatch.py:1250-1266 | a post in review gets one review run |
| Outcomes.NothingStarts | src/specseed_runtime/executing/dispatch.py:1032-1266 | drafts, posts that have moved on and posts whose status asks for nothing are left alone |
| Outcomes.AnswersAreCarried | src/specseed_runtime/executing/dispatch.py:1121-1165 | an event on a parked post is decided by its status and carried out |
| Outcomes.DecisionsQueue | src/specseed_runtime/executing/dispatch.py:290-321 | a decision queues its gate work on the thread it was made on, unless there is some |
| Outcomes.RunLeaves | src/specseed_runtime/executing/work_runner.py:120-260 | an agent run: dropped if the post is gone or has moved on, tried again if it cannot be on its branch or fails and recovery says so, kept if interrupted, else its report handed in |
| Outcomes.GateJobLeaves | src/specseed_runtime/executing/dispatch.py:740-872 | a gate job: a branch that cannot be readied or landed blocks its issue; a merge records landing and closing; a preparation opens a fresh gate |
| Outcomes.BranchLandsIff | src/specseed_runtime/executing/dispatch.py:740-795 | exactly when a branch lands |
| Outcomes.BranchReadiesIff | src/specseed_runtime/executing/dispatch.py:807-828 | exactly when primary can be brought into a branch |
| Outcomes.NotesCarry | src/specseed_runtime/executing/advance.py:229-290 | which marker and token each gate, request and prompt carries |
| Answers.SwapLeavesOneStatusIff | src/specseed_runtime/executing/advance.py:143-150 | a status swap leaves the new status alone exactly when the mirror had seen every other status label |
| Answers.SwapLeavesTwoStatuses | src/specseed_runtime/executing/advance.py:143-150 | a `blocked` put on since the last sync stays on beside the new status |
| Answers.PureGateAnswers | src/specseed_runtime/executing/advance.py:848-873 | on any thread with a pure gate, which reactions and commands merge, park the issue for a hand merge, or leave it waiting |
| Answers.CombinedGateAnswers | src/specseed_runtime/executing/advance.py:876-898 | on any thread whose gate is combined, which reactions and commands merge, only ready the branch, send the issue back to work, or make it ask what to do |
| Answers.PlainGateAnswers | src/specseed_runtime/executing/advance.py:901-916 | on any thread without a gate, which reactions and commands send the post back to work, merge it, ready it, or close it |
| Answers.StaleAnswersDoNothing | src/specseed_runtime/executing/advance.py:796-1073 | an answer to a post that has moved on since does nothing |
| Answers.MergeWaitAnswers | src/specseed_runtime/executing/advance.py:943-992 | on an issue parked for a hand merge, which answers merge it after all or send it back to work |
| Answers.BlockedAnswers | src/specseed_runtime/executing/advance.py:1007-1073 | on a blocked post, which last words send an issue to its branch, close another post, or send it back to work |
| Answers.OverrideIs | src/specseed_runtime/executing/advance.py:1007-1073 | an override is granted exactly when the last human word is such a command and some approver wrote one |
| Answers.DirectiveIs | src/specseed_runtime/executing/advance.py:410-464 | which last human words ask for more work, and which are a bare rejection |
| Gates.ReactionUsersAre | src/specseed_runtime/state_machines/base.py:371-386 | whose reactions count: exactly those of people who may approve |
| Gates.CommandAuthorsAre | src/specseed_runtime/state_machines/base.py:389-415 | whose commands count: exactly those of people who may approve, outside the platform's comments, that name a target |
| Gates.ApproversAre | src/specseed_runtime/state_machines/base.py:132-207 | who may approve |
| Gates.OlderGatesAreInert | src/specseed_runtime/executing/advance.py:332-357 | reactions on any other comment and commands naming only other tokens can be rewritten freely without changing what a gate hears |
| Gates.FreshGateHears | src/specseed_runtime/executing/advance.py:332-357 | a gate just posted is already answered exactly when an approver's command in the thread names the post or the new token |
| Gates.OldCommandAnswersNewGate | src/specseed_runtime/executing/advance.py:332-357 | `approve 7`, written before a gate was posted on post 7, answers it |
| Gates.LastMarkedIsLast | src/specseed_runtime/executing/advance.py:322-329 | the gate comment is the last one bearing the marker |
| Gates.LatestHumanIsHuman | src/specseed_runtime/executing/advance.py:410-425 | the latest human comment is the last that is neither blank nor the platform's |
| Gates.OverrideAsDocumentedIff | src/specseed_runtime/executing/advance.py:1007-1053 | the override of a block agrees with its documentation exactly when the latest command does not echo an approver's earlier one |
| Gates.OverrideNotAsDocumented | src/specseed_runtime/executing/advance.py:1007-1053 | a thread on which a non-approver's command overrides a block |
| Gates.CommandAuthorsExist | src/specseed_runtime/state_machines/base.py:389-415 | someone commanded a target exactly when an approver's own, non-platform command naming it exists |
| Gates.CommentReactionUsers | src/specseed_runtime/state_machines/base.py:371-386 | the approvers who left a reaction on a comment, each once, in order |
| Gates.CommandAuthorsFor | src/specseed_runtime/state_machines/base.py:389-415 | the authors of approver commands naming a target, each once, in order |
| Gates.DedupeLoop | src/specseed_runtime/state_machines/base.py:677-685 | each value once, at its first place |
| Basics.DedupeKeepsMembers | src/specseed_runtime/state_machines/base.py:677-685 | deduplicating keeps every value, and each once |
| Basics.DedupeKeepsOrder | src/specseed_runtime/state_machines/base.py:677-685 | and in the order of first appearance |
| Gates.LatestMarkerComment | src/specseed_runtime/executing/advance.py:322-329 | finds the last comment bearing a marker |
| Advance.UnansweredGateMergesIff | src/specseed_runtime/executing/advance.py:815-835 | an issue whose newest gate is combined and unanswered is merged all the same exactly when its last pure gate carries an approve or merge signal |
| Advance.OlderPureGateAnswersForNewerCombinedGate | src/specseed_runtime/executing/advance.py:815-835 | threads where an answered pure gate merges although a newer combined gate is unanswered |
| Advance.MergeNeedsSignature | src/specseed_runtime/executing/advance.py:848-898 | with `merge_to_primary` off, a decision to merge implies an approver's signature in the thread, and no agent report decides one |
| Advance.ResolutionsAreRestrained | src/specseed_runtime/executing/advance.py:796-940 | no resolution labels an issue done or sends one to review |
| Advance.ReportsAreRestrained | src/specseed_runtime/executing/advance.py:543-681 | no report labels an issue done, and only an implementation sends one to review |
| RollUp.RollUpClearsOverdue | src/specseed_runtime/executing/advance.py:1331-1364 | roll-up from the one place where a parent may be overdue leaves none overdue |
| RollUp.ClosingKeepsParentsSettled | src/specseed_runtime/executing/advance.py:1308-1364 | closing an issue and rolling up keeps "no live parent has all children terminal", whatever labels the issue is left with |
| RollUp.RollUpClosesRightly | src/specseed_runtime/executing/advance.py:1331-1364 | roll-up changes only the live parents it closes; such a parent is done exactly when some child is, else wont-do |
| RollUp.ClosesAnIssueIff | src/specseed_runtime/executing/advance.py:1331-1364 | roll-up from a finished issue closes an issue exactly when the live, all-children-terminal post its ticket link names is an issue, or that post's epic link names such a one once it is closed |
| RollUp.BadLinkClosesAnIssue | src/specseed_runtime/executing/advance.py:1331-1364 | with an issue linked as a ticket, roll-up closes an unmerged issue as done |
| Deps.ClearsTheGateIff | src/specseed_runtime/executing/dispatch.py:974-1017 | no dependency is cancelled or pending exactly when every enforced one, own or the parent's, reads `done` |
| Deps.NothingWaitsIff | src/specseed_runtime/executing/dispatch.py:974-1017 | nothing is held back as pending exactly when every enforced dependency reads `done` or cancelled |
| Deps.NothingIsCancelledIff | src/specseed_runtime/executing/dispatch.py:974-1017 | nothing is cancelled exactly when no enforced dependency reads `wont_do` or `deprecated` |
| Deps.CheckDep | src/specseed_runtime/executing/dispatch.py:996-1006 | one more reference is classified once, at its first appearance |
| Deps.ClassifyDeps | src/specseed_runtime/executing/dispatch.py:974-1017 | the loops compute the cancelled and the pending dependencies in order |
| Branches.BranchNameInjective | src/specseed_runtime/executing/git_ops.py:75-99 | two posts never share a branch, whatever their titles |
| Branches.OtherBranchesAreNotIssues | src/specseed_runtime/executing/git_ops.py:80-99 | a branch that does not end in a dash and a number is no issue's branch |
| Branches.BranchNameReads | src/specseed_runtime/executing/git_ops.py:80-99 | the name is the human id or `issue`, the slug of the rest if any, and the post id |
| Branches.SlugIsClean | src/specseed_runtime/executing/git_ops.py:75-77 | a slug is at most 48 lower-case letters, digits and single inner dashes |
| Branches.CapitalsAreLowered | src/specseed_runtime/executing/git_ops.py:75-77 | capitals are slugged as their small letters |
| Branches.CleanIsItsSlug | src/specseed_runtime/executing/git_ops.py:75-77 | what is already so is its own slug |
| Branches.DecimalIsItsSlug | src/specseed_runtime/executing/git_ops.py:75-77 | a numeric id of at most 48 digits survives slugging |
| Git.LandingContains | src/specseed_runtime/executing/git_ops.py:194-211 | a landed branch is contained in primary, directly or once its conflicts are resolved |
| Git.PreparingContains | src/specseed_runtime/executing/git_ops.py:214-239 | a prepared branch contains primary, and primary has not moved |
| Git.PreparedLandingCannotConflict | src/specseed_runtime/executing/git_ops.py:194-239 | landing a branch that contains primary never conflicts and succeeds unless refused |
| Git.LandingAdds | src/specseed_runtime/executing/git_ops.py:194-211 | a landing adds to primary the branch and one merge commit, or nothing if it was there; no other branch changes |
| Git.LandsIff | src/specseed_runtime/executing/git_ops.py:194-211 | when a landing fails and when it conflicts |
| Git.AbortUndoes | src/specseed_runtime/executing/git_ops.py:280-284 | aborting a conflicted landing undoes it |
| Git.ResolvingAdds | src/specseed_runtime/executing/git_ops.py:250-277 | resolving one adds both sides and one merge commit to the branch it was made on |
| Git.CommitAdds | src/specseed_runtime/executing/git_ops.py:159-176 | a commit adds one new commit to HEAD's branch |
| Git.SwitchingMovesHead | src/specseed_runtime/executing/git_ops.py:126-156 | switching moves nothing but HEAD, is refused half-way through a merge, and forks a new branch from its base |
| Git.Repo.CheckoutRef | src/specseed_runtime/executing/git_ops.py:126-131 | in place: checkout, with the whole new repository state |
| Git.Repo.EnsureOn | src/specseed_runtime/executing/git_ops.py:134-156 | in place: switch to a branch, forking it from the base if it is new, with the whole new repository state |
| Git.Repo.Commit | src/specseed_runtime/executing/git_ops.py:159-176 | in place: commit what is staged, with the whole new repository state |
| Git.Repo.MergeHere | src/specseed_runtime/executing/git_ops.py:194-211 | in place: merge into HEAD, with the whole new repository state |
| Git.Repo.LandBranch | src/specseed_runtime/executing/git_ops.py:194-211 | in place: land a branch on primary, with the whole new repository state |
| Git.Repo.PrepareBranch | src/specseed_runtime/executing/git_ops.py:214-239 | in place: bring primary into a branch and step back, with the whole new repository state |
| Git.Repo.Complete | src/specseed_runtime/executing/git_ops.py:250-277 | in place: commit a resolved merge, with the whole new repository state |
| Git.Repo.Abort | src/specseed_runtime/executing/git_ops.py:280-284 | in place: abort a merge, with the whole new repository state |
| Runtime.Runtime.SetStatus | src/specseed_runtime/executing/advance.py:143-150 | removes the labels the caller saw, one by one, and adds the new one; nothing else changes |
| Runtime.Runtime.NextApr | src/specseed_runtime/executing/approvals.py:53-80 | a token one above the last |
| Runtime.Runtime.Comment | src/specseed_runtime/executing/advance.py:153-156 | appends the note, minting a token when it asks for an answer |
| Runtime.Runtime.RollUpFrom | src/specseed_runtime/executing/advance.py:1331-1364 | closes the chain of parents in place |
| Runtime.Runtime.CloseIssueDone | src/specseed_runtime/executing/advance.py:215-220 | label, close, roll up |
| Runtime.Runtime.Apply | src/specseed_runtime/executing/advance.py:543-681 | a decision's writes, in order |
| Runtime.Runtime.HasPending | src/specseed_runtime/executing/dispatch.py:248-265 | finds a pending job of a kind for a post |
| Runtime.Runtime.ScheduleGateAction | src/specseed_runtime/executing/dispatch.py:290-321 | queues gate work once, with the thread it was decided on |
| Runtime.Runtime.ScheduleWorkRun | src/specseed_runtime/executing/dispatch.py:268-287 | queues an agent run once |
| Runtime.Runtime.Carry | src/specseed_runtime/executing/dispatch.py:1121-1165 | carries a decision out on tracker and queue |
| Runtime.Runtime.StartWork | src/specseed_runtime/executing/dispatch.py:1188-1249 | assignment, approval and dependency gates before an implement run |
| Runtime.Runtime.RunWork | src/specseed_runtime/executing/dispatch.py:1032-1266 | a control event does exactly what the lifecycle step says |
| Runtime.Runtime.ProcessWorkResult | src/specseed_runtime/executing/work_runner.py:300-366 | a finished run is digested exactly once, unless the post moved on |
| Runtime.Runtime.WorkOnBranch | src/specseed_runtime/executing/dispatch.py:691-730 | commit the agent's work and step back to primary |
| Runtime.Runtime.HandInJob | src/specseed_runtime/executing/work_runner.py:196-260 | interrupted jobs stay, failed ones stay if retried, finished ones hand in a result |
| Runtime.Runtime.RunOnBranch | src/specseed_runtime/executing/work_runner.py:160-260 | no agent runs off its branch |
| Runtime.Runtime.RunAgentJob | src/specseed_runtime/executing/work_runner.py:120-260 | an agent run does exactly what the lifecycle step says |
| Runtime.Runtime.ParkUnmerged | src/specseed_runtime/executing/advance.py:223-226 | parks an issue blocked |
| Runtime.Runtime.ReadyInPlace | src/specseed_runtime/executing/dispatch.py:807-828 | readies a branch, resolving or aborting a conflict |
| Runtime.Runtime.Prepare | src/specseed_runtime/executing/dispatch.py:831-872 | a branch that cannot be readied parks its issue |
| Runtime.Runtime.OpenMergeGate | src/specseed_runtime/executing/advance.py:249-261 | a fresh gate with a fresh token |
| Runtime.Runtime.OpenGateIds | src/specseed_runtime/executing/dispatch.py:875-893 | finds exactly the open issues at a merge gate |
| Runtime.Runtime.ReprepareAll | src/specseed_runtime/executing/dispatch.py:896-924 | readies and re-gates them one after the other |
| Runtime.Runtime.LandInPlace | src/specseed_runtime/executing/dispatch.py:740-795 | lands a branch, resolving or aborting a conflict |
| Runtime.Runtime.RecordMerge | src/specseed_runtime/executing/dispatch.py:757-763 | records the landing and closes the issue |
| Runtime.Runtime.ExecuteMerge | src/specseed_runtime/executing/dispatch.py:740-804 | land, close, sweep the siblings; or park |
| Runtime.Runtime.RunGateJob | src/specseed_runtime/executing/work_runner.py:266-294 | a gate job does exactly what the lifecycle step says |
| Runtime.Runtime.SyncMirror | src/specseed_runtime/scheduling/sync_to_db.py:243-296 | the mirror catches up; pending jobs and results of newly closed or deleted posts are swept |
| Runtime.Runtime.OpenJobs | src/specseed_runtime/scheduling/sync_to_db.py:250-281 | keeps exactly the jobs of posts that are not torn down, in order |
| Runtime.Runtime.OpenResults | src/specseed_runtime/scheduling/sync_to_db.py:250-281 | keeps exactly the results of posts that are not torn down, in order |
| Runs.KeepOpenFilters | src/specseed_runtime/scheduling/sync_to_db.py:250-281 | a sync keeps exactly the pending jobs of posts that it does not find newly closed or deleted |
| Runs.KeepResultsFilters | src/specseed_runtime/scheduling/sync_to_db.py:250-281 | and exactly the undigested results of such posts |
| Queue.ClaimTakesTheFirst | src/specseed_runtime/db/database.py:147-183 | a claim takes the due row of its lane that precedes all others by priority, then age, and fails only when none is due |
| Queue.EnqueueAdds | src/specseed_runtime/db/database.py:108-145 | enqueueing adds one pending row, unless the action is blank |
| Queue.EndingsSay | src/specseed_runtime/db/database.py:185-219 | completing says how the row went and keeps the error of a failure; putting back makes it pending, not before a time; no other row changes |
| Queue.HandlingSays | src/specseed_runtime/db/database.py:147-245 | a claim takes its row in hand and counts the attempt; a restart makes what was in hand pending |
| Queue.ClaimedInTurn | src/specseed_runtime/db/database.py:147-183 | with nothing new becoming due, a due row is claimed after exactly as many claims as there are rows ahead of it |
| Queue.RowsAreConserved | src/specseed_runtime/db/database.py:108-245 | in every run each id ever handed out is on exactly one row or was removed, never both, and no other id exists |
| Queue.AttemptsAreClaims | src/specseed_runtime/db/database.py:147-183 | a row's attempts are exactly the times it was claimed |
| Queue.ErrorsAreKept | src/specseed_runtime/db/database.py:185-224 | the error table is exactly the reported failures in order; removing a task drops none |
| Queue.Database.EnqueueTask | src/specseed_runtime/db/database.py:108-145 | a new pending row with the next id, or refusal of a blank action |
| Queue.Database.ClaimNext | src/specseed_runtime/db/database.py:147-183 | starts the best row |
| Queue.Database.CompleteTask | src/specseed_runtime/db/database.py:185-207 | closes a row and records its error |
| Queue.Database.RequeueTask | src/specseed_runtime/db/database.py:209-219 | back to pending, not before a time |
| Queue.Database.RemoveTask | src/specseed_runtime/db/database.py:221-224 | deletes a row, not its errors |
| Queue.Database.Reset | src/specseed_runtime/db/database.py:226-245 | reclaims and lists what was in progress |
| Queue.Database.TasksFor | src/specseed_runtime/db/database.py:255-262 | the rows about a post, oldest first |
| Queue.Database.ReadyCount | src/specseed_runtime/db/database.py:264-272 | counts what could be claimed; zero exactly when a claim would come back empty |
| Queue.Database.IsIdle | src/specseed_runtime/db/database.py:278-284 | true exactly when every row is finished |
| SyncBridge.AtMostOneLiveRow | src/specseed_runtime/scheduling/sync_to_db.py:129-146 | over every interleaving of sync, both threads, retries and restarts, at most one live row per remote resource |
| SyncBridge.ReplacingKeeps | src/specseed_runtime/scheduling/sync_to_db.py:221-240 | superseding then enqueueing leaves the key live once, when no control row is in progress |
| SyncBridge.SyncWhileHandlingBreaksIt | src/specseed_runtime/executing/scheduler.py:304-336 | absorbing a change while a row of that resource is being handled leaves two live rows |
| SyncBridge.TeardownSweeps | src/specseed_runtime/scheduling/sync_to_db.py:243-296 | a torn-down post loses exactly the pending rows on itself and on its comments' reactions; what is added are cleanups |
| SyncBridge.KeyIsTheResource | src/specseed_runtime/tasks/task_base.py:24-45 | two tasks have one key exactly when they are about the same comment, label of a post, reaction or entry |
| SyncBridge.TasksSayWhatChanged | src/specseed_runtime/scheduling/sync_to_db.py:164-201 | a change makes a task exactly when it calls for one, and the task says what changed and where |
| SyncBridge.AbsorbReplaces | src/specseed_runtime/scheduling/sync_to_db.py:83-146 | a change replaces exactly what was pending about the same resource of the same post by one task |
| SyncBridge.AbsorbSpares | src/specseed_runtime/scheduling/sync_to_db.py:83-146 | own comments, changes that call for nothing and repeated updates of an entry leave the queue as it is; closing and deleting tear down |
| SyncBridge.CountedIs | src/specseed_runtime/scheduling/sync_to_db.py:58-149 | what the tally counts for each change |
| SyncBridge.EveryChangeIsTallied | src/specseed_runtime/scheduling/sync_to_db.py:83-146 | every change of a sync is torn down, ignored, coalesced or enqueued |
| SyncBridge.TheTallyAddsUp | src/specseed_runtime/scheduling/sync_to_db.py:58-149 | the tally of a sync accounts for every row that came or went |
| SyncBridge.ActionsAreNotBlank | src/specseed_runtime/scheduling/sync_to_db.py:164-201 | what sync builds is about the change's own post and never refused by the queue |
| Syncer.CancellationIsSeen | src/specseed_runtime/executing/cancellation.py:28-78 | a task sees a cancellation exactly when it was cancelled since last cleared, also when the cancellation came first |
| Syncer.Registry.RegisterTask | src/specseed_runtime/executing/cancellation.py:28-36 | registers and reports a pre-armed cancellation |
| Syncer.Registry.CancelTask | src/specseed_runtime/executing/cancellation.py:45-59 | cancels, registered or not |
| Syncer.Registry.ClearTask | src/specseed_runtime/executing/cancellation.py:68-71 | forgets a task |
| Syncer.Syncer.RemoveIfStale | src/specseed_runtime/scheduling/sync_to_db.py:226-232 | one row superseded or spared |
| Syncer.Syncer.RemoveStale | src/specseed_runtime/scheduling/sync_to_db.py:221-240 | the loop that supersedes |
| Syncer.Syncer.SupersedeRows | src/specseed_runtime/scheduling/sync_to_db.py:221-240 | removes exactly the pending rows about the same resource and counts them |
| Syncer.Syncer.SweptRows | src/specseed_runtime/scheduling/sync_to_db.py:250-268 | the rows a teardown looks at, each once |
| Syncer.Syncer.RemovePending | src/specseed_runtime/scheduling/sync_to_db.py:270-281 | pending ones go, running ones are set aside |
| Syncer.Syncer.CleanUpAfter | src/specseed_runtime/scheduling/sync_to_db.py:283-296 | each running one is interrupted and cleaned up after |
| Syncer.Syncer.TeardownPost | src/specseed_runtime/scheduling/sync_to_db.py:243-296 | the whole teardown |
| Syncer.Syncer.SyncOne | src/specseed_runtime/scheduling/sync_to_db.py:83-146 | one change absorbed |
| Syncer.Syncer.SyncToDb | src/specseed_runtime/scheduling/sync_to_db.py:58-149 | a sync absorbs its changes in order |
| Scheduler.Loop.QuotaCircuitOpen | src/specseed_runtime/executing/scheduler.py:405-414 | open until its time, then closed |
| Scheduler.Loop.WorkTick | src/specseed_runtime/executing/scheduler.py:338-360 | the work lane claims only while running, unparked, and with no control row claimable |
| Scheduler.Loop.OpenQuotaCircuit | src/specseed_runtime/executing/scheduler.py:416-434 | a quota hit puts the row back and parks the lane at least a minute |
| Scheduler.Loop.FinishTask | src/specseed_runtime/executing/scheduler.py:652-711 | a finished task leaves the queue by an ending the sync bridge allows; recovery reacts only to failures and adds at most the resolve agent |
| Scheduler.OutcomeLeaves | src/specseed_runtime/executing/scheduler.py:652-711 | how a row reads after each outcome of its handler |
| Topo.StaticOrder | skills/specseed/scripts/critical_path.py:40-43 | an order of all nodes, dependencies first, exactly when there is no cycle |
| Topo.OrderedIsAcyclic | skills/specseed/scripts/dependencies_validate.py:251-255 | nothing in a dependency order depends on a cycle |
| Topo.LeftoverDependsOnCycle | skills/specseed/scripts/sprint_pack.py:62-64 | when nothing is ready, what is left is exactly what depends on a cycle |
| CriticalPath.FindCriticalPath | skills/specseed/scripts/critical_path.py:36-65 | refused exactly on a cycle; else a real chain and its cost, which no dependency chain exceeds when efforts are not negative |
| CriticalPath.Choose | skills/specseed/scripts/critical_path.py:49-53 | the costliest dependency |
| CriticalPath.LongestEndings | skills/specseed/scripts/critical_path.py:45-55 | per ticket, the cost of the chain its links trace back, which bounds all chains ending there |
| CriticalPath.WalkBack | skills/specseed/scripts/critical_path.py:59-65 | walking the links back and reversing gives that chain |
| SprintPack.Pack | skills/specseed/scripts/sprint_pack.py:50-87 | ends; places each ticket at most once and after its dependencies; leaves out exactly those depending on a cycle; every pick follows the rule |
| SprintPack.FillSprint | skills/specseed/scripts/sprint_pack.py:57-82 | one sprint: filled until nothing ready fits |
| SprintPack.Pick | skills/specseed/scripts/sprint_pack.py:62-76 | a ready ticket that fits and that no other such ticket precedes, or none when none fits |
| SprintPack.BeforeIs | skills/specseed/scripts/sprint_pack.py:46-72 | critical tickets first, then the sprint's epic, then the more urgent, then by id |
| SprintPack.EpicIsFirst | skills/specseed/scripts/sprint_pack.py:57-82 | the sprint's epic is the first one any of its tickets names |
| SprintPack.SprintsKeepTheBudget | skills/specseed/scripts/sprint_pack.py:73-75 | a sprint of two or more tickets is within budget |
| SprintPack.NeighboursExceedTheBudget | skills/specseed/scripts/sprint_pack.py:73-78 | two sprints in a row exceed the budget together |
| SprintPack.NoWastefulPacking | skills/specseed/scripts/sprint_pack.py:50-87 | n sprints, two or more, hold more work than floor(n/2) whole budgets |
| SprintPack.BudgetsMultiply | skills/specseed/scripts/sprint_pack.py:50-87 | n whole budgets are n times the budget |
| PlanCheck.Validate | skills/specseed/scripts/dependencies_validate.py:177-321 | accepts exactly the plans whose entries are well labelled, reference and hang under existing entries rightly and depend on no circle, and lists every title once, after all that its entries need |
| PlanCheck.SoundIffPasses | skills/specseed/scripts/dependencies_validate.py:177-321 | what the loops establish is what the entries themselves say |
| PlanCheck.EdgesAre | skills/specseed/scripts/dependencies_validate.py:225-249 | the graph has an edge exactly where some checked entry names the other title |
| PlanCheck.TitlesRead | skills/specseed/scripts/dependencies_validate.py:193-223 | a title's tier is that of the last checked entry with it |
| PlanCheck.CheckAll | skills/specseed/scripts/dependencies_validate.py:177-321 | all checks in turn |
| PlanCheck.CheckLabels | skills/specseed/scripts/dependencies_validate.py:193-223 | tier and status labels of every entry; collects items and titles |
| PlanCheck.CheckItemDeps | skills/specseed/scripts/dependencies_validate.py:233-249 | dangling, malformed and empty dependencies of one item |
| PlanCheck.CheckDeps | skills/specseed/scripts/dependencies_validate.py:225-249 | the graph among created titles |
| PlanCheck.CheckParents | skills/specseed/scripts/dependencies_validate.py:266-297 | parent links by tier, and when one may be missing |
| PlanCheck.UnlistedPostIsNotChecked | skills/specseed/scripts/dependencies_validate.py:80-90 | a workable post whose dependencies dangle and which is accepted |
| PlanCheck.CheckedIff | skills/specseed/scripts/dependencies_validate.py:80-90 | the entries whose dependencies are checked: a tier field or a bare tier label |
| PlanCheck.TheGateNeverHolds | src/specseed_runtime/executing/dispatch.py:974-1017 | finishing the posts of an accepted plan in its order, the dependency gate is clear for each when its turn comes, exactly if what the post it hangs under depends on is done by then |
| Migrate.MigrationComposesIff | src/specseed_runtime/migrating/migrate.py:130-166 | migrating to b then c equals migrating to c, except exactly when the storage predates the chain and b lies inside the first hop |
| Migrate.VersionIs | src/specseed_runtime/migrating/migrate.py:94-108 | which version a storage is taken to have |
| Migrate.LessIsLexicographic | src/specseed_runtime/migrating/migrate.py:75-77 | versions compare part by part, a proper prefix first |
| Migrate.OldStorageSlipsIn | src/specseed_runtime/migrating/migrate.py:130-166 | storage 0.2.0 is refused by engine 0.3.1 but not after engine 0.3.0 has run once |
| Migrate.TheMarkerIsMonotone | src/specseed_runtime/migrating/migrate.py:130-166 | the marker ends at the later of storage and engine version |
| Migrate.CrashesDoNotMatter | src/specseed_runtime/migrating/migrate.py:154-166 | with idempotent hops, any number of crashes between writes and a re-run end in the same storage and marker |
| Migrate.RunningAgainAppliesNothing | src/specseed_runtime/migrating/migrate.py:130-166 | a further run applies no hop and changes nothing |
| Migrate.Storage.Run | src/specseed_runtime/migrating/migrate.py:130-166 | the loop over hops, writing the marker after each; on a refusal storage and marker are as they were and no hop is reported |
| Migrate.Storage.RunHops | src/specseed_runtime/migrating/migrate.py:150-166 | the applicable hops in order, each followed by its marker |
| Migrate.Storage.ApplyHop | src/specseed_runtime/migrating/migrate.py:154-166 | one hop, then its marker |
| SkillWalk.EmitsExactlyTheReachable | skills/specseed/scripts/generate_prompt_from_skill.py:199-246 | the emitted set is exactly what is reachable through read tables, script tables and directories |
| SkillWalk.NextFollows | skills/specseed/scripts/generate_prompt_from_skill.py:199-246 | a directory leads to each file in it, a text file to each path in its reads table and its scripts table, a script nowhere |
| SkillWalk.FirstCellsAre | skills/specseed/scripts/generate_prompt_from_skill.py:162-179 | what is read off a table is what stands in backticks in its first column |
| SkillWalk.PrintedSays | skills/specseed/scripts/generate_prompt_from_skill.py:199-252 | text files are printed whole, scripts by their preamble, missing ones as not found |
| SkillWalk.KeysAre | skills/specseed/scripts/generate_prompt_from_skill.py:199-215 | when two paths are one key |
| SkillWalk.RootsAre | skills/specseed/scripts/generate_prompt_from_skill.py:76-138 | which requests are answered, and where their walks start |
| SkillWalk.EmitPrintsOnce | skills/specseed/scripts/generate_prompt_from_skill.py:199-252 | each key is printed at most once, with its own block, and none is missing |
| SkillWalk.FindHeading | skills/specseed/scripts/generate_prompt_from_skill.py:162-179 | the first line that is the heading, or none |
| SkillWalk.ScanTable | skills/specseed/scripts/generate_prompt_from_skill.py:162-179 | the paths in the first column under a heading, up to the next section |
| SkillWalk.Walker.EmitPath | skills/specseed/scripts/generate_prompt_from_skill.py:199-246 | the recursive walk ends, cyclic reads or not |
| SkillWalk.Walker.EmitEach | skills/specseed/scripts/generate_prompt_from_skill.py:236-246 | walks a list of paths in order |
| SkillWalk.Walker.Generate | skills/specseed/scripts/generate_prompt_from_skill.py:76-138 | refuses an unknown mode, a missing subagent and bad usage; else prints exactly the reachable files, each once |
| Recovery.RunsAreBounded | src/specseed_runtime/executing/recovery.py:217-344 | at most max_retries + 1 runs, whatever people and the tracker do |
| Recovery.EngagedAsAnnounced | src/specseed_runtime/executing/recovery.py:97-100 | with the post written at once and left open, the agent is first engaged when announced, later only by as much as the attempts ran late, twice with three retries or more and once otherwise |
| Recovery.ReactedIs | src/specseed_runtime/executing/recovery.py:217-344 | a reaction on the queue: the row put back for its delay, the agent's task added |
| Recovery.HopelessFailures | src/specseed_runtime/executing/recovery.py:217-344 | a failure that cannot be retried is never put back and engages the agent at once if its post is open |
| Recovery.RetriesWait | src/specseed_runtime/executing/recovery.py:217-344 | one that can is put back exactly while attempts are left and its post is not closed, after one, five or fifteen minutes; and when the agent is engaged |
| Recovery.ClosingStopsRetries | src/specseed_runtime/executing/recovery.py:163-181 | closing the error post between two attempts stops the task there |
| Recovery.Desk.AfterFailure | src/specseed_runtime/executing/recovery.py:217-344 | the reaction carried out on queue and error post |
| Recovery.Desk.AfterRecovery | src/specseed_runtime/executing/recovery.py:347-381 | a success closes the open error post |
| SpecChange.DirectIff | src/specseed_runtime/executing/dispatch.py:1340-1384 | a plan is applied unapproved exactly when it speaks and every change it makes is to the request itself, with nothing staged, settled or retired |
| SpecChange.ClassifyIs | src/specseed_runtime/executing/dispatch.py:1340-1384 | when a plan is refused and when it is proposed |
| SpecChange.AnswersLeave | src/specseed_runtime/executing/advance.py:1230-1288 | an approval leaves the request done, promotes what was staged and queues one apply if the plan changes anything; a rejection leaves it rejected and does nothing else |
| SpecChange.ResultsQueue | src/specseed_runtime/executing/dispatch.py:1387-1409 | what a digested plan queues |
| SpecChange.EventsWake | src/specseed_runtime/executing/dispatch.py:211-222 | which events queue an agent run |
| SpecChange.ScanForOthers | src/specseed_runtime/executing/dispatch.py:1319-1337 | finds any change aimed at another post |
| SpecChange.NothingBeforeApproval | src/specseed_runtime/executing/dispatch.py:1387-1409 | over any run, before an approval the live spec is untouched and only the request has been changed |
| SpecChange.AtMostOneFinalizer | src/specseed_runtime/executing/advance.py:1230-1288 | over any events on a stale mirror after parking, at most one finalizing apply is queued |
| SpecChange.NoneAfterRejection | src/specseed_runtime/executing/advance.py:1230-1288 | none is queued once a rejection was resolved first |
| SpecChange.RejectionIsFinalIff | src/specseed_runtime/executing/advance.py:1230-1288 | no later events on the stale mirror queue an apply after a rejection exactly when the tracker shows no live status label besides `awaiting_approval` |
| SpecChange.DuplicateApprovalIsHarmlessIff | src/specseed_runtime/executing/advance.py:1245-1253 | a duplicate approval queues no second apply exactly when the tracker shows no live status label besides `awaiting_approval` |
| SpecChange.DuplicateApprovalAppliesTwice | src/specseed_runtime/executing/advance.py:1245-1253 | with `awaiting_input` added beside it since the last sync, two approvals queue the creating apply twice |

## Left out

- HTTP server, web UI, CLI, prompts, provider clients, sqlite connections, locks, subprocesses: plumbing, represented by their abstract effect at most.
- Regular expressions over comment and post bodies: a comment is its author, parsed command, markers, tokens and reactions; a body is its parsed links. Names are compared as already case-folded and trimmed.
- Wording, logs and markdown of comments; `Ack` stands for every platform comment that carries no marker and no token.
- Draft adapt posts opened when an issue is blocked on a cancelled dependency, by the implementer or by review, and `ask` posts: they are new posts the lifecycle does not read back.
- Error posts as ordinary posts of the lifecycle; `Recovery` models them on their own.
- Operator retry from the web UI and hand-written `done` or `in_review` labels: they break the promises by design.
- Permissions that forbid remote writes altogether: every handler then does nothing.
- The per-state table of allowed transitions, manual testing, and the permission keys behind `hitl`: the table is advisory, and `hitl` is one flag of a post.
- Plan warnings about tests without dependencies, and entries that are not objects: they never fail a plan.
- Threads inside one agent run, heartbeats, wall-clock timeouts, the poll timer, dashboards, pause and stop commands.
- What individual migration hops do, the move of the marker file by a hop itself, and unreadable version texts.
- Path normalisation beyond trailing blanks and slashes, non-ASCII slugs and titles, and text preambles of scripts in the skill walk.
- Truncated or failing reads of the tracker inside a handler.
- Runtime.Runtime.HasPending: a running gate job is no longer in the list, since a job is one step.
- SyncBridge.AtMostOneLiveRow: absorbing one change is one step, so a crash between superseding and enqueueing is not modelled.
