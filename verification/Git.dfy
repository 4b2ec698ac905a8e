/** git as the runtime drives it: each branch is the set of commits it contains, and one merge may
    be in progress on HEAD. What git or an agent may decide on its own (whether a first merge
    conflicts, whether a command is refused, whether a conflict gets resolved) is a parameter. */
module Git {
  import opened Basics

  type Branch = string
  type Commit = nat

  /** What git does with a merge that is neither up to date nor a fast-forward; `Refused` is any
      failure without conflicts. */
  datatype Attempt = Clean | Conflict | Refused

  datatype MergeResult = Merged | Conflicted | Failed

  datatype Commits = Committed | NothingStaged | CommitFailed

  datatype State = State(branches: map<Branch, set<Commit>>, head: Branch, merging: Option<Branch>, next: Commit) {
    ghost predicate Valid() {
      && head in branches
      && (merging.Some? ==> merging.value in branches)
      && (forall b, c :: b in branches && c in branches[b] ==> c < next)
    }

    /** The commits of a branch; an unknown branch has none. */
    function At(b: Branch): set<Commit> { if b in branches then branches[b] else {} }

    /** HEAD on `primary` and no half-finished merge. */
    predicate Settled(primary: Branch) { head == primary && merging.None? }
  }

  /** Every branch is still there and has lost nothing. */
  ghost predicate Grows(g: State, h: State) {
    && g.branches.Keys <= h.branches.Keys
    && g.next <= h.next
    && forall b :: g.At(b) <= h.At(b)
  }

  /** Checkout is refused while a merge is in progress, and for an unknown branch. */
  function Checkout(g: State, ref: Branch, allowed: bool): (State, bool) {
    if allowed && ref in g.branches && g.merging.None? then (g.(head := ref), true) else (g, false)
  }

  function EnsureOnBranch(g: State, b: Branch, base: Branch, allowed: bool): (State, bool)
  {
    if b in g.branches then Checkout(g, b, allowed)
    else if allowed && g.merging.None? then
      (g.(branches := g.branches[b := g.At(if base in g.branches then base else g.head)], head := b), true)
    else (g, false)
  }

  function Grow(g: State, extra: set<Commit>): State
  {
    g.(branches := g.branches[g.head := g.At(g.head) + extra + {g.next}], next := g.next + 1)
  }

  function CommitAll(g: State, how: Commits): State
  {
    if how.Committed? then Grow(g, {}) else g
  }

  /** `git merge --no-ff other` on HEAD. An ancestor is up to date and a descendant of HEAD
      cannot conflict. A failure without conflicts is aborted on the spot. */
  function MergeInto(g: State, other: Branch, luck: Attempt): (State, MergeResult)
  {
    if other !in g.branches || g.merging.Some? || luck.Refused? then (g, Failed)
    else if g.At(other) <= g.At(g.head) then (g, Merged)
    else if luck.Conflict? && !(g.At(g.head) <= g.At(other)) then (g.(merging := Some(other)), Conflicted)
    else (Grow(g, g.At(other)), Merged)
  }

  /** Land `branch` on `primary`; a conflict is left in place for a resolver. */
  function Land(g: State, branch: Branch, primary: Branch, allowed: bool, luck: Attempt): (State, MergeResult)
  {
    var (g1, ok) := Checkout(g, primary, allowed);
    if ok then MergeInto(g1, branch, luck) else (g, Failed)
  }

  /** Bring `primary` into `branch` and step back to `primary`; a conflict is left on `branch`. */
  function Prepare(g: State, branch: Branch, primary: Branch, allowed: bool, luck: Attempt, back: bool)
    : (State, MergeResult)
  {
    var (g1, ok) := Checkout(g, branch, allowed);
    if !ok then (g, Failed)
    else
      var (g2, r) := MergeInto(g1, primary, luck);
      if r.Merged? then (Checkout(g2, primary, back).0, Merged) else (g2, r)
  }

  /** Commit a merge whose conflicts were resolved in the worktree. */
  function CompleteMerge(g: State, resolved: bool): (State, bool)
  {
    if resolved && g.merging.Some? then (Grow(g, g.At(g.merging.value)).(merging := None), true)
    else (g, false)
  }

  function AbortMerge(g: State, allowed: bool): State {
    if allowed then g.(merging := None) else g
  }

  // ----- what each command keeps

  lemma GrowGrows(g: State, extra: set<Commit>)
    requires g.Valid() && forall c :: c in extra ==> c < g.next
    ensures Grow(g, extra).Valid() && Grows(g, Grow(g, extra))
    ensures Grow(g, extra).branches.Keys == g.branches.Keys
  {
    var h := Grow(g, extra);
    forall b, c | b in h.branches && c in h.branches[b] ensures c < h.next {
      if b != g.head { assert c in g.branches[b]; }
    }
  }

  lemma MergeIntoGrows(g: State, b: Branch, luck: Attempt)
    requires g.Valid()
    ensures var h := MergeInto(g, b, luck).0; h.Valid() && Grows(g, h) && h.branches.Keys == g.branches.Keys
  {
    if b in g.branches { GrowGrows(g, g.At(b)); }
  }

  /** No command loses a commit or a branch, and only EnsureOnBranch makes one. */
  ghost predicate Kept(g: State, h: State) { h.Valid() && Grows(g, h) && h.branches.Keys == g.branches.Keys }

  lemma CheckoutKeeps(g: State, b: Branch, allowed: bool)
    requires g.Valid()
    ensures Kept(g, Checkout(g, b, allowed).0) && Checkout(g, b, allowed).0.branches == g.branches
  {
  }

  lemma LandKeeps(g: State, b: Branch, primary: Branch, allowed: bool, luck: Attempt)
    requires g.Valid()
    ensures Kept(g, Land(g, b, primary, allowed, luck).0)
  {
    MergeIntoGrows(Checkout(g, primary, allowed).0, b, luck);
  }

  lemma PrepareKeeps(g: State, b: Branch, primary: Branch, allowed: bool, luck: Attempt, back: bool)
    requires g.Valid()
    ensures Kept(g, Prepare(g, b, primary, allowed, luck, back).0)
  {
    MergeIntoGrows(Checkout(g, b, allowed).0, primary, luck);
    CheckoutKeeps(MergeInto(Checkout(g, b, allowed).0, primary, luck).0, primary, back);
  }

  lemma MergeEndsKeep(g: State, flag: bool)
    requires g.Valid()
    ensures Kept(g, CompleteMerge(g, flag).0) && Kept(g, AbortMerge(g, flag))
    ensures AbortMerge(g, flag).branches == g.branches
  {
    if g.merging.Some? { GrowGrows(g, g.At(g.merging.value)); }
  }

  lemma CommitKeeps(g: State, how: Commits)
    requires g.Valid()
    ensures Kept(g, CommitAll(g, how))
  {
    GrowGrows(g, {});
  }

  /** A landed branch is contained in primary: directly, or after its conflicts were resolved. */
  lemma LandingContains(g: State, branch: Branch, primary: Branch, allowed: bool, luck: Attempt, resolved: bool)
    requires g.Valid()
    ensures var (h, r) := Land(g, branch, primary, allowed, luck);
            && (r.Merged? ==> branch in h.branches && h.At(branch) <= h.At(primary))
            && (r.Conflicted? && CompleteMerge(h, resolved).1 ==>
                  var f := CompleteMerge(h, resolved).0;
                  branch in f.branches && h.At(branch) <= f.At(primary) && f.At(branch) <= f.At(primary))
  {
  }

  /** A prepared branch contains primary: directly, or after its conflicts were resolved. Primary
      itself does not move. */
  lemma PreparingContains(g: State, branch: Branch, primary: Branch, allowed: bool, luck: Attempt, back: bool,
                          resolved: bool)
    requires g.Valid() && branch != primary
    ensures var (h, r) := Prepare(g, branch, primary, allowed, luck, back);
            && h.At(primary) == g.At(primary)
            && (r.Merged? ==> branch in h.branches && h.At(primary) <= h.At(branch))
            && (r.Conflicted? ==> h.head == branch)
            && (r.Conflicted? && CompleteMerge(h, resolved).1 ==>
                  var f := CompleteMerge(h, resolved).0;
                  branch in f.branches && f.At(primary) == g.At(primary) <= f.At(branch))
  {
  }

  /** So the landing that follows a preparation cannot conflict, whatever git is inclined to do. */
  lemma PreparedLandingCannotConflict(g: State, branch: Branch, primary: Branch, allowed: bool, luck: Attempt)
    requires g.Valid() && primary in g.branches && branch in g.branches && g.At(primary) <= g.At(branch)
    ensures !Land(g, branch, primary, allowed, luck).1.Conflicted?
    ensures allowed && g.merging.None? && !luck.Refused? ==> Land(g, branch, primary, allowed, luck).1.Merged?
  {
  }

  /** Landing adds to primary what the branch holds and one merge commit, or nothing if primary held it; no
      other branch changes. */
  lemma LandingAdds(g: State, branch: Branch, primary: Branch, allowed: bool, luck: Attempt)
    requires primary in g.branches
    ensures var (h, r) := Land(g, branch, primary, allowed, luck);
            && (r.Merged? ==> h.head == primary && h.merging == None)
            && (r.Merged? && g.At(branch) <= g.At(primary) ==> h.branches == g.branches)
            && (r.Merged? && !(g.At(branch) <= g.At(primary)) ==>
                  h.branches == g.branches[primary := g.At(primary) + g.At(branch) + {g.next}])
            && (r.Failed? ==> h.branches == g.branches && h.merging == g.merging)
  {
    assert g.branches[primary := g.At(primary)] == g.branches;
  }

  /** When a branch lands at all: git lets the runtime switch, no merge is half done, the branch is there and
      the merge is not refused; it conflicts only if neither side holds the other. */
  lemma LandsIff(g: State, branch: Branch, primary: Branch, allowed: bool, luck: Attempt)
    requires primary in g.branches
    ensures var r := Land(g, branch, primary, allowed, luck).1;
            && (r.Failed? <==> !allowed || g.merging.Some? || branch !in g.branches || luck.Refused?)
            && (r.Conflicted? <==>
                  !r.Failed? && luck.Conflict? && !(g.At(branch) <= g.At(primary)) && !(g.At(primary) <= g.At(branch)))
  {
  }

  /** Aborting a conflicted landing undoes it. */
  lemma AbortUndoes(g: State, branch: Branch, primary: Branch, allowed: bool, luck: Attempt)
    requires Land(g, branch, primary, allowed, luck).1.Conflicted?
    ensures AbortMerge(Land(g, branch, primary, allowed, luck).0, true) == g.(head := primary)
  {
  }

  /** Resolving it adds both sides and one merge commit to the branch it was made on. */
  lemma ResolvingAdds(g: State)
    requires g.merging.Some?
    ensures var (h, ok) := CompleteMerge(g, true);
            && ok && h.merging == None && h.head == g.head
            && h.branches == g.branches[g.head := g.At(g.head) + g.At(g.merging.value) + {g.next}]
    ensures CompleteMerge(g, false) == (g, false)
  {
  }

  /** A commit adds one new commit to HEAD's branch. */
  lemma CommitAdds(g: State, how: Commits)
    ensures CommitAll(g, how).branches ==
            if how == Committed then g.branches[g.head := g.At(g.head) + {g.next}] else g.branches
    ensures CommitAll(g, how).head == g.head && CommitAll(g, how).merging == g.merging
  {
    assert g.At(g.head) + {} + {g.next} == g.At(g.head) + {g.next};
  }

  /** Switching moves nothing but HEAD, and is refused half-way through a merge; a branch that is not there
      yet starts where its base is. */
  lemma SwitchingMovesHead(g: State, b: Branch, base: Branch, allowed: bool)
    requires base in g.branches
    ensures var (h, ok) := EnsureOnBranch(g, b, base, allowed);
            && (ok <==> allowed && g.merging.None?)
            && (!ok ==> h == g)
            && (ok ==> h.head == b && h.merging == None && h.next == g.next)
            && (ok ==> h.branches == if b in g.branches then g.branches else g.branches[b := g.branches[base]])
    ensures Checkout(g, b, allowed) ==
            if allowed && b in g.branches && g.merging.None? then (g.(head := b), true) else (g, false)
  {
  }

  // ----- the repository those functions specify

  class Repo {
    var branches: map<Branch, set<Commit>>
    var head: Branch
    var merging: Option<Branch>
    var next: Commit

    ghost function Now(): State reads this { State(branches, head, merging, next) }

    ghost predicate Valid() reads this { Now().Valid() }

    constructor (primary: Branch)
      ensures Valid() && Now() == State(map[primary := {}], primary, None, 0)
    {
      branches, head, merging, next := map[primary := {}], primary, None, 0;
    }

    method CheckoutRef(ref: Branch, allowed: bool) returns (ok: bool)
      requires Valid()
      modifies this
      ensures Valid()
      ensures (Now(), ok) == Checkout(old(Now()), ref, allowed)
    {
      CheckoutKeeps(Now(), ref, allowed);
      ok := allowed && ref in branches && merging.None?;
      if ok { head := ref; }
    }

    method EnsureOn(b: Branch, base: Branch, allowed: bool) returns (ok: bool)
      requires Valid()
      modifies this
      ensures Valid()
      ensures (Now(), ok) == EnsureOnBranch(old(Now()), b, base, allowed)
    {
      if b in branches {
        ok := CheckoutRef(b, allowed);
        return;
      }
      ok := allowed && merging.None?;
      if ok {
        branches := branches[b := if base in branches then branches[base] else branches[head]];
        head := b;
      }
    }

    method Commit(how: Commits)
      requires Valid()
      modifies this
      ensures Valid()
      ensures Now() == CommitAll(old(Now()), how)
    {
      CommitKeeps(Now(), how);
      if how.Committed? {
        branches := branches[head := branches[head] + {} + {next}];
        next := next + 1;
      }
    }

    method MergeHere(other: Branch, luck: Attempt) returns (r: MergeResult)
      requires Valid()
      modifies this
      ensures Valid()
      ensures (Now(), r) == MergeInto(old(Now()), other, luck)
    {
      MergeIntoGrows(Now(), other, luck);
      if other !in branches || merging.Some? || luck.Refused? { return Failed; }
      var ours, theirs := branches[head], branches[other];
      if theirs <= ours { return Merged; }
      if luck.Conflict? && !(ours <= theirs) {
        merging := Some(other);
        return Conflicted;
      }
      branches := branches[head := ours + theirs + {next}];
      next := next + 1;
      r := Merged;
    }

    method LandBranch(branch: Branch, primary: Branch, allowed: bool, luck: Attempt) returns (r: MergeResult)
      requires Valid()
      modifies this
      ensures Valid()
      ensures (Now(), r) == Land(old(Now()), branch, primary, allowed, luck)
    {
      var ok := CheckoutRef(primary, allowed);
      if !ok { return Failed; }
      r := MergeHere(branch, luck);
    }

    method PrepareBranch(branch: Branch, primary: Branch, allowed: bool, luck: Attempt, back: bool)
      returns (r: MergeResult)
      requires Valid()
      modifies this
      ensures Valid()
      ensures (Now(), r) == Prepare(old(Now()), branch, primary, allowed, luck, back)
    {
      var ok := CheckoutRef(branch, allowed);
      if !ok { return Failed; }
      r := MergeHere(primary, luck);
      if r.Merged? {
        var _ := CheckoutRef(primary, back);
      }
    }

    method Complete(resolved: bool) returns (ok: bool)
      requires Valid()
      modifies this
      ensures Valid()
      ensures (Now(), ok) == CompleteMerge(old(Now()), resolved)
    {
      MergeEndsKeep(Now(), resolved);
      ok := resolved && merging.Some?;
      if ok {
        branches := branches[head := branches[head] + branches[merging.value] + {next}];
        merging, next := None, next + 1;
      }
    }

    method Abort(allowed: bool)
      requires Valid()
      modifies this
      ensures Valid()
      ensures Now() == AbortMerge(old(Now()), allowed)
    {
      MergeEndsKeep(Now(), allowed);
      if allowed { merging := None; }
    }
  }
}
