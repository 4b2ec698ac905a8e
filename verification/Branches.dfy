/** The name of an issue's branch: deterministic, and never shared by two posts. */
module Branches {
  import opened Tracker

  const MAX_SLUG := 48

  function Lower(c: char): char {
    if 'A' <= c <= 'Z' then (c as int + 32) as char else c
  }

  predicate SlugChar(c: char) { 'a' <= c <= 'z' || '0' <= c <= '9' }

  /** Lower-cased text with every run of other characters replaced by one dash. */
  function Dashed(s: string): string {
    if s == "" then ""
    else
      var front, c := Dashed(s[..|s| - 1]), Lower(s[|s| - 1]);
      if SlugChar(c) then front + [c]
      else if front != "" && front[|front| - 1] == '-' then front
      else front + ['-']
  }

  function StripLeft(s: string): string {
    if s != "" && s[0] == '-' then StripLeft(s[1..]) else s
  }

  function StripRight(s: string): string {
    if s != "" && s[|s| - 1] == '-' then StripRight(s[..|s| - 1]) else s
  }

  function Strip(s: string): string { StripRight(StripLeft(s)) }

  function Slug(text: string): string {
    var s := Strip(Dashed(text));
    Strip(if |s| <= MAX_SLUG then s else s[..MAX_SLUG])
  }

  /** Lower-case letters and digits in groups with single dashes between them, at most 48 characters. */
  ghost predicate Clean(s: string) {
    && Dashes(s) && |s| <= 48
    && (s != "" ==> s[0] != '-' && s[|s| - 1] != '-')
  }

  ghost predicate Dashes(s: string) {
    && (forall i :: 0 <= i < |s| ==> 'a' <= s[i] <= 'z' || '0' <= s[i] <= '9' || s[i] == '-')
    && forall i, j :: 0 <= i && j == i + 1 < |s| ==> !(s[i] == '-' && s[j] == '-')
  }

  lemma {:induction false} DashedIs(s: string)
    ensures Dashes(Dashed(s))
  {
    if s != "" { DashedIs(s[..|s| - 1]); }
  }

  /** Capitals are slugged as their small letters. */
  lemma {:induction false} CapitalsAreLowered(s: string)
    requires forall i :: 0 <= i < |s| ==> 'A' <= s[i] <= 'Z'
    ensures |Dashed(s)| == |s| && forall i :: 0 <= i < |s| ==> Dashed(s)[i] as int == s[i] as int + 32
  {
    if s != "" { CapitalsAreLowered(s[..|s| - 1]); }
  }

  lemma {:induction false} StripLeftIs(s: string)
    requires Dashes(s)
    ensures Dashes(StripLeft(s)) && |StripLeft(s)| <= |s| && (StripLeft(s) != "" ==> StripLeft(s)[0] != '-')
  {
    if s != "" && s[0] == '-' { StripLeftIs(s[1..]); }
  }

  lemma {:induction false} StripRightIs(s: string)
    requires Dashes(s) && (s != "" ==> s[0] != '-')
    ensures var r := StripRight(s);
            Dashes(r) && |r| <= |s| && (r != "" ==> r[0] != '-' && r[|r| - 1] != '-')
  {
    if s != "" && s[|s| - 1] == '-' { StripRightIs(s[..|s| - 1]); }
  }

  lemma StripIs(s: string)
    requires Dashes(s)
    ensures var r := Strip(s); Dashes(r) && |r| <= |s| && (r != "" ==> r[0] != '-' && r[|r| - 1] != '-')
  {
    StripLeftIs(s);
    StripRightIs(StripLeft(s));
  }

  /** Whatever the text, its slug is clean. */
  lemma SlugIsClean(text: string)
    ensures Clean(Slug(text))
  {
    DashedIs(text);
    StripIs(Dashed(text));
    var s := Strip(Dashed(text));
    StripIs(if |s| <= MAX_SLUG then s else s[..MAX_SLUG]);
  }

  lemma {:induction false} DashesAreDashed(s: string)
    requires Dashes(s)
    ensures Dashed(s) == s
  {
    if s != "" {
      var front := s[..|s| - 1];
      assert Dashes(front) && s == front + [s[|s| - 1]];
      DashesAreDashed(front);
      assert front != "" ==> !(front[|front| - 1] == '-' && s[|s| - 1] == '-');
    }
  }

  /** And what is clean is its own slug, so slugging twice is slugging once. */
  lemma CleanIsItsSlug(s: string)
    requires Clean(s)
    ensures Slug(s) == s
  {
    DashesAreDashed(s);
  }

  function Digit(d: nat): char
    requires d < 10
  { ('0' as int + d) as char }

  function Decimal(n: nat): string {
    if n < 10 then [Digit(n)] else Decimal(n / 10) + [Digit(n % 10)]
  }

  predicate Letters(s: string) { forall c :: c in s ==> 'a' <= c <= 'z' || 'A' <= c <= 'Z' }

  predicate TitleOk(t: Title) { Letters(t.letters) }

  function LowerAll(s: string): string {
    if s == "" then "" else LowerAll(s[..|s| - 1]) + [Lower(s[|s| - 1])]
  }

  function Head(t: Title): string {
    var slug := Slug(t.text);
    if t.letters != "" && t.digits != "" then
      LowerAll(t.letters) + "-" + t.digits + if slug != "" then "-" + slug else ""
    else "issue" + if slug != "" then "-" + slug else ""
  }

  function BranchName(t: Title, id: Id): string {
    var pid := Slug(Decimal(id));
    var name := Strip(if pid != "" then Head(t) + "-" + pid else Head(t));
    if name != "" then name else if pid != "" then "issue-" + pid else "specseed-work"
  }

  // ----- injectivity

  predicate AllDigits(s: string) { s != "" && forall c :: c in s ==> '0' <= c <= '9' }

  lemma {:induction false} DecimalIsDigits(n: nat)
    ensures AllDigits(Decimal(n))
  {
    if n >= 10 { DecimalIsDigits(n / 10); }
  }

  lemma {:induction false} DecimalInjective(m: nat, n: nat)
    requires Decimal(m) == Decimal(n)
    ensures m == n
  {
    var s := Decimal(m);
    assert forall a: nat, b: nat :: a < 10 && b < 10 && Digit(a) == Digit(b) ==> a == b;
    if m < 10 && n < 10 {
      assert s[0] == Digit(m) == Digit(n);
    } else if m < 10 {
      DecimalIsDigits(n / 10);
    } else if n < 10 {
      DecimalIsDigits(m / 10);
    } else {
      assert s[..|s| - 1] == Decimal(m / 10) == Decimal(n / 10);
      assert s[|s| - 1] == Digit(m % 10) == Digit(n % 10);
      DecimalInjective(m / 10, n / 10);
    }
  }

  lemma {:induction false} DigitsAreDashed(s: string)
    requires forall k :: 0 <= k < |s| ==> '0' <= s[k] <= '9'
    ensures Dashed(s) == s
  {
    if s != "" {
      DigitsAreDashed(s[..|s| - 1]);
      assert s == s[..|s| - 1] + [s[|s| - 1]];
    }
  }

  /** A numeric id of at most 48 digits is its own slug. */
  lemma DecimalIsItsSlug(n: nat)
    requires |Decimal(n)| <= MAX_SLUG
    ensures Slug(Decimal(n)) == Decimal(n)
  {
    var s := Decimal(n);
    DecimalIsDigits(n);
    assert forall k :: 0 <= k < |s| ==> s[k] in s;
    DigitsAreDashed(s);
    StripKeeps(s);
  }

  lemma StripKeeps(s: string)
    requires s != "" && s[0] != '-' && s[|s| - 1] != '-'
    ensures Strip(s) == s
  {
    assert StripLeft(s) == s;
  }

  lemma HeadStartsWithLetter(t: Title)
    requires TitleOk(t)
    ensures Head(t) != "" && Head(t)[0] != '-'
  {
    if t.letters != "" {
      LowerAllFirst(t.letters);
      assert t.letters[0] in t.letters;
    }
  }

  lemma {:induction false} LowerAllFirst(s: string)
    requires s != ""
    ensures LowerAll(s) != "" && LowerAll(s)[0] == Lower(s[0])
  {
    if |s| > 1 { LowerAllFirst(s[..|s| - 1]); }
  }

  /** How the name reads: the title's human id, or `issue`; the slug of the rest, if any; the post's id. */
  lemma BranchNameReads(t: Title, id: Id)
    requires TitleOk(t) && |Decimal(id)| <= MAX_SLUG
    ensures BranchName(t, id) ==
            (if t.letters != "" && t.digits != "" then LowerAll(t.letters) + "-" + t.digits else "issue") +
            (if Slug(t.text) == "" then "" else "-" + Slug(t.text)) + "-" + Decimal(id)
  {
    BranchNameShape(t, id);
  }

  lemma BranchNameShape(t: Title, id: Id)
    requires TitleOk(t) && |Decimal(id)| <= MAX_SLUG
    ensures BranchName(t, id) == Head(t) + "-" + Decimal(id)
  {
    DecimalIsItsSlug(id);
    DecimalIsDigits(id);
    HeadStartsWithLetter(t);
    var name := Head(t) + "-" + Decimal(id);
    assert name[0] == Head(t)[0];
    assert name[|name| - 1] == Decimal(id)[|Decimal(id)| - 1];
    assert Decimal(id)[|Decimal(id)| - 1] in Decimal(id);
    StripKeeps(name);
  }

  lemma NoDashAfter(h: string, d: string)
    requires '-' !in d
    ensures var s := h + "-" + d; forall k :: |h| < k < |s| ==> s[k] != '-'
  {
    var s := h + "-" + d;
    forall k | |h| < k < |s| ensures s[k] != '-' {
      assert s[k] == d[k - |h| - 1];
    }
  }

  lemma LastDashSplits(h: string, d: string, h': string, d': string)
    requires h + "-" + d == h' + "-" + d'
    requires '-' !in d && '-' !in d'
    ensures d == d'
  {
    NoDashAfter(h, d);
    NoDashAfter(h', d');
    var s := h + "-" + d;
    assert s[|h|] == '-' && s[|h'|] == '-';
    assert |h| == |h'|;
    assert d == s[|h| + 1..] && d' == s[|h'| + 1..];
  }

  /** Two posts never share a branch, whatever their titles. */
  lemma BranchNameInjective(t: Title, i: Id, u: Title, j: Id)
    requires TitleOk(t) && TitleOk(u) && |Decimal(i)| <= MAX_SLUG && |Decimal(j)| <= MAX_SLUG
    requires BranchName(t, i) == BranchName(u, j)
    ensures i == j
  {
    BranchNameShape(t, i);
    BranchNameShape(u, j);
    DecimalIsDigits(i);
    DecimalIsDigits(j);
    LastDashSplits(Head(t), Decimal(i), Head(u), Decimal(j));
    DecimalInjective(i, j);
  }

  /** Text, a dash, digits: what every issue's branch looks like. */
  ghost predicate EndsInNumber(name: string) { exists h, d :: AllDigits(d) && name == h + "-" + d }

  /** A branch that does not end in a dash and a number is no issue's branch. */
  lemma OtherBranchesAreNotIssues(name: string, t: Title, id: Id)
    requires TitleOk(t) && |Decimal(id)| <= MAX_SLUG && !EndsInNumber(name)
    ensures EndsInNumber(BranchName(t, id)) && BranchName(t, id) != name
  {
    BranchNameShape(t, id);
    DecimalIsDigits(id);
  }
}
