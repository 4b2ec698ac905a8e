/** Small helpers every other module builds on. */
module Basics {
  datatype Option<+T> = None | Some(value: T)

  function Max(a: int, b: int): int { if a < b then b else a }

  /** Each value once, in order of first appearance. */
  function Dedupe<T(==)>(s: seq<T>): seq<T> {
    if s == [] then []
    else
      var front, last := s[..|s| - 1], s[|s| - 1];
      if last in front then Dedupe(front) else Dedupe(front) + [last]
  }

  ghost predicate NoDuplicates<T>(s: seq<T>) {
    forall i, j :: 0 <= i < j < |s| ==> s[i] != s[j]
  }

  lemma PrefixGrows<T>(s: seq<T>, i: nat)
    requires i < |s|
    ensures s[..i + 1] == s[..i] + [s[i]] && s[i] in s
  {
  }

  lemma {:induction false} DedupeKeepsMembers<T>(s: seq<T>)
    ensures NoDuplicates(Dedupe(s))
    ensures forall x :: x in Dedupe(s) <==> x in s
  {
    if s != [] {
      var front, last := s[..|s| - 1], s[|s| - 1];
      assert s == front + [last];
      DedupeKeepsMembers(front);
    }
  }

  lemma {:induction false} DedupeHas<T>(s: seq<T>, k: nat) returns (m: nat)
    requires k < |Dedupe(s)|
    ensures m < |s| && s[m] == Dedupe(s)[k]
  {
    var front := s[..|s| - 1];
    if k < |Dedupe(front)| { m := DedupeHas(front, k); } else { m := |front|; }
  }

  /** The values stand in the order of their first appearance: where one comes, none after it has been. */
  lemma {:induction false} DedupeKeepsOrder<T>(s: seq<T>, i: nat, j: nat) returns (m: nat)
    requires i < j < |Dedupe(s)|
    ensures m < |s| && s[m] == Dedupe(s)[i] && Dedupe(s)[j] !in s[..m + 1]
  {
    var front, last := s[..|s| - 1], s[|s| - 1];
    if j < |Dedupe(front)| {
      m := DedupeKeepsOrder(front, i, j);
    } else {
      m := DedupeHas(front, i);
    }
    assert s[..m + 1] == front[..m + 1];
  }
}
