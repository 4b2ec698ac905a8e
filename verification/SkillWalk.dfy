/** Assembling a prompt from the skill's files: a deduplicating walk through read tables, script
    tables and directories. */
module SkillWalk {
  import opened Basics

  type Path = string

  /** A table cell: the column header, the dashes under it, a path in backticks, or anything else. */
  datatype Cell = ColumnHeader | Dashes | PathCell(path: Path) | PlainCell

  /** A line of a file: its text when trimmed, whether it opens a section, and its first cell if it is a table row. */
  datatype Line = Line(text: string, opensSection: bool, row: Option<Cell>)

  /** Files with their lines, and directories with the files directly in them, in order. */
  datatype Skill = Skill(files: map<Path, seq<Line>>, dirs: map<Path, seq<Path>>)

  const READS := "## Mandatory skill reads"
  const SCRIPTS := "## Mandatory skill script preamble reads"

  // ----- paths

  predicate Blank(c: char) { c == ' ' || c == '\t' || c == '\n' || c == '\r' }

  function TrimEnd(s: string): string {
    if s != "" && Blank(s[|s| - 1]) then TrimEnd(s[..|s| - 1]) else s
  }

  function DropSlashes(s: string): string {
    if s != "" && s[|s| - 1] == '/' then DropSlashes(s[..|s| - 1]) else s
  }

  predicate EndsWith(s: string, end: string) { |end| <= |s| && s[|s| - |end|..] == end }

  /** What the walk dedupes on: a directory is its path with one slash at the end. */
  function KeyOf(k: Skill, p: Path): Path {
    var r := TrimEnd(p);
    if EndsWith(r, "/") || r in k.dirs then DropSlashes(r) + "/" else r
  }

  lemma {:induction false} TrimEndIs(s: string)
    ensures var r := TrimEnd(s);
            && |r| <= |s| && r == s[..|r|] && (r != "" ==> r[|r| - 1] !in {' ', '\t', '\n', '\r'})
            && forall i :: |r| <= i < |s| ==> s[i] in {' ', '\t', '\n', '\r'}
  {
    if s != "" && Blank(s[|s| - 1]) { TrimEndIs(s[..|s| - 1]); }
  }

  lemma {:induction false} DropSlashesIs(s: string)
    ensures var r := DropSlashes(s);
            && |r| <= |s| && r == s[..|r|] && (r != "" ==> r[|r| - 1] != '/')
            && forall i :: |r| <= i < |s| ==> s[i] == '/'
  {
    if s != "" && s[|s| - 1] == '/' { DropSlashesIs(s[..|s| - 1]); }
  }

  /** Two paths are one key exactly when, without trailing blanks, they are the same file, or the same
      directory however many slashes end them. */
  lemma KeysAre(k: Skill, p: Path, q: Path)
    ensures var a, b := TrimEnd(p), TrimEnd(q);
            var dir := (r: Path) => EndsWith(r, "/") || r in k.dirs;
            KeyOf(k, p) == KeyOf(k, q) <==>
              if dir(a) && dir(b) then DropSlashes(a) == DropSlashes(b) else !dir(a) && !dir(b) && a == b
    ensures EndsWith(KeyOf(k, p), "/") <==> EndsWith(TrimEnd(p), "/") || TrimEnd(p) in k.dirs
  {
    forall x: string ensures EndsWith(x + "/", "/") { assert (x + "/")[|x|..] == "/"; }
    forall x: string, y: string | x + "/" == y + "/" ensures x == y {
      assert x == (x + "/")[..|x|] && y == (y + "/")[..|y|];
    }
  }

  predicate IsDirKey(key: Path) { EndsWith(key, "/") }

  // ----- tables

  /** The path in a row's first cell, if there is one. */
  function PathIn(l: Line): seq<Path> {
    match l.row
    case Some(PathCell(p)) => [p]
    case _ => []
  }

  /** The paths from line `i` up to the next section. */
  function RowsFrom(lines: seq<Line>, i: nat): seq<Path>
    decreases |lines| - i
  {
    if i >= |lines| || lines[i].opensSection then [] else PathIn(lines[i]) + RowsFrom(lines, i + 1)
  }

  function HeadingFrom(lines: seq<Line>, heading: string, i: nat): nat
    decreases |lines| - i
  {
    if i >= |lines| || lines[i].text == heading then i else HeadingFrom(lines, heading, i + 1)
  }

  /** The paths in the first column of the table under the first line that is `heading`. */
  function FirstCells(lines: seq<Line>, heading: string): seq<Path> {
    RowsFrom(lines, HeadingFrom(lines, heading, 0) + 1)
  }

  /** The first line that is the heading, or past the end. */
  method FindHeading(lines: seq<Line>, heading: string) returns (i: nat)
    ensures i <= |lines| && forall j :: 0 <= j < i ==> lines[j].text != heading
    ensures i < |lines| ==> lines[i].text == heading
    ensures i == HeadingFrom(lines, heading, 0)
  {
    i := 0;
    while i < |lines| && lines[i].text != heading
      invariant i <= |lines| && forall j :: 0 <= j < i ==> lines[j].text != heading
      invariant HeadingFrom(lines, heading, 0) == HeadingFrom(lines, heading, i)
    {
      i := i + 1;
    }
  }

  lemma Regroups(a: seq<Path>, b: seq<Path>, c: seq<Path>)
    ensures a + (b + c) == (a + b) + c && a + [] == a
  {
  }

  method ScanTable(lines: seq<Line>, heading: string) returns (out: seq<Path>)
    ensures out == FirstCells(lines, heading)
  {
    out := [];
    var i := FindHeading(lines, heading);
    if i == |lines| { return; }
    i := i + 1;
    while i < |lines| && !lines[i].opensSection
      invariant i <= |lines| && FirstCells(lines, heading) == out + RowsFrom(lines, i)
    {
      Regroups(out, PathIn(lines[i]), RowsFrom(lines, i + 1));
      var row := lines[i].row;
      if row.Some? && row.value.PathCell? { out := out + [row.value.path]; }
      i := i + 1;
    }
  }

  /** The path stands in backticks in the first column of a row under the first line that is `heading`, and
      before the next section. */
  ghost predicate Tabled(lines: seq<Line>, heading: string, p: Path) {
    exists h: nat, i: nat :: TableAt(lines, heading, h) && InTable(lines, h, i) && lines[i].row == Some(PathCell(p))
  }

  ghost predicate TableAt(lines: seq<Line>, heading: string, h: nat) {
    h < |lines| && lines[h].text == heading && forall j :: 0 <= j < h ==> lines[j].text != heading
  }

  ghost predicate InTable(lines: seq<Line>, h: nat, i: nat) {
    h < i < |lines| && forall j :: h < j <= i ==> !lines[j].opensSection
  }

  lemma {:induction false} RowsAreIn(lines: seq<Line>, h: nat, i: nat, p: Path) returns (k: nat)
    requires h < i <= |lines| && (forall j :: h < j < i ==> !lines[j].opensSection) && p in RowsFrom(lines, i)
    ensures InTable(lines, h, k) && lines[k].row == Some(PathCell(p))
    decreases |lines| - i
  {
    if p in PathIn(lines[i]) { k := i; } else { k := RowsAreIn(lines, h, i + 1, p); }
  }

  lemma {:induction false} RowsCover(lines: seq<Line>, h: nat, i: nat, p: Path, k: nat)
    requires h < i <= k && InTable(lines, h, k) && lines[k].row == Some(PathCell(p))
    ensures p in RowsFrom(lines, i)
    decreases k - i
  {
    if i < k { RowsCover(lines, h, i + 1, p, k); }
  }

  lemma {:induction false} HeadingIsFirst(lines: seq<Line>, heading: string, i: nat)
    requires i <= |lines| && forall j :: 0 <= j < i ==> lines[j].text != heading
    ensures var h := HeadingFrom(lines, heading, i);
            || (h < |lines| && TableAt(lines, heading, h))
            || (h == |lines| && forall k: nat :: !TableAt(lines, heading, k))
    decreases |lines| - i
  {
    if i < |lines| && lines[i].text != heading { HeadingIsFirst(lines, heading, i + 1); }
  }

  /** What is read off a table is what stands in it. */
  lemma FirstCellsAre(lines: seq<Line>, heading: string, p: Path)
    ensures p in FirstCells(lines, heading) <==> Tabled(lines, heading, p)
  {
    HeadingIsFirst(lines, heading, 0);
    var h := HeadingFrom(lines, heading, 0);
    if h < |lines| {
      assert forall k: nat :: TableAt(lines, heading, k) ==> k == h;
      if p in RowsFrom(lines, h + 1) {
        var k := RowsAreIn(lines, h, h + 1, p);
        assert TableAt(lines, heading, h) && InTable(lines, h, k);
      }
      forall k: nat | InTable(lines, h, k) && lines[k].row == Some(PathCell(p)) ensures p in RowsFrom(lines, h + 1) {
        RowsCover(lines, h, h + 1, p, k);
      }
    }
  }

  function InScripts(p: Path): Path { if '/' in p then p else "scripts/" + p }

  function AllInScripts(ps: seq<Path>): seq<Path> {
    seq(|ps|, i requires 0 <= i < |ps| => InScripts(ps[i]))
  }

  /** What a key leads to: a directory to its files, a text file to its two tables, a script nowhere. */
  function Next(k: Skill, key: Path): seq<Path> {
    if IsDirKey(key) then if DropSlashes(key) in k.dirs then k.dirs[DropSlashes(key)] else []
    else if key !in k.files || EndsWith(key, ".py") then []
    else FirstCells(k.files[key], READS) + AllInScripts(FirstCells(k.files[key], SCRIPTS))
  }

  /** `key` leads on to `p`: a directory to each file in it; a text file, which a script is not, to each path
      in its reads table, and to each in its scripts table, which are in `scripts/` if they do not say. */
  ghost predicate Follows(k: Skill, key: Path, p: Path) {
    if EndsWith(key, "/") then DropSlashes(key) in k.dirs && p in k.dirs[DropSlashes(key)]
    else
      && key in k.files && !EndsWith(key, ".py")
      && (|| Tabled(k.files[key], READS, p)
          || exists q :: Tabled(k.files[key], SCRIPTS, q) && p == if '/' in q then q else "scripts/" + q)
  }

  lemma NextFollows(k: Skill, key: Path, p: Path)
    ensures p in Next(k, key) <==> Follows(k, key, p)
  {
    if !EndsWith(key, "/") && key in k.files && !EndsWith(key, ".py") {
      var lines := k.files[key];
      var scripts := FirstCells(lines, SCRIPTS);
      FirstCellsAre(lines, READS, p);
      forall q ensures q in scripts <==> Tabled(lines, SCRIPTS, q) { FirstCellsAre(lines, SCRIPTS, q); }
      assert forall q :: q in scripts ==> InScripts(q) in AllInScripts(scripts) by {
        forall q | q in scripts ensures InScripts(q) in AllInScripts(scripts) {
          var i :| 0 <= i < |scripts| && scripts[i] == q;
          assert AllInScripts(scripts)[i] == InScripts(q);
        }
      }
    }
  }

  datatype Part = Verbatim(key: Path) | Preamble(key: Path) | NotFound(key: Path)

  /** What a key itself contributes; a directory only its files. */
  function Block(k: Skill, key: Path): seq<Part> {
    if IsDirKey(key) then if DropSlashes(key) in k.dirs then [] else [NotFound(key)]
    else if key !in k.files then [NotFound(key)]
    else if EndsWith(key, ".py") then [Preamble(key)]
    else [Verbatim(key)]
  }

  // ----- the walk

  datatype Walked = Walked(emitted: set<Path>, parts: seq<Part>)

  /** Every key the skill or the roots mention: what bounds the walk. */
  ghost function Universe(k: Skill, roots: seq<Path>): set<Path> {
    (set p | p in roots :: KeyOf(k, p)) +
    (set d, p | d in k.dirs && p in k.dirs[d] :: KeyOf(k, p)) +
    (set f, p | f in k.files && p in Next(k, f) :: KeyOf(k, p))
  }

  ghost predicate Mentioned(k: Skill, u: set<Path>, ps: seq<Path>) { forall p :: p in ps ==> KeyOf(k, p) in u }

  ghost predicate Covers(k: Skill, u: set<Path>) { forall key :: Mentioned(k, u, Next(k, key)) }

  lemma UniverseCovers(k: Skill, roots: seq<Path>)
    ensures Covers(k, Universe(k, roots)) && Mentioned(k, Universe(k, roots), roots)
  {
    var u := Universe(k, roots);
    forall key, p | p in Next(k, key) ensures KeyOf(k, p) in u {
      if !IsDirKey(key) { assert key in k.files; }
    }
  }

  ghost function Emit(k: Skill, u: set<Path>, ps: seq<Path>, w: Walked): (r: Walked)
    requires Covers(k, u) && Mentioned(k, u, ps)
    ensures w.emitted <= r.emitted
    decreases u - w.emitted, |ps|
  {
    if ps == [] then w
    else
      var key := KeyOf(k, ps[0]);
      var w1 := if key in w.emitted then w
                else Emit(k, u, Next(k, key), Walked(w.emitted + {key}, w.parts + Block(k, key)));
      Emit(k, u, ps[1..], w1)
  }

  // ----- what it reaches

  ghost predicate LeadsTo(k: Skill, a: Path, b: Path) { exists p :: Follows(k, a, p) && KeyOf(k, p) == b }

  lemma LeadsToIs(k: Skill, a: Path, b: Path)
    ensures LeadsTo(k, a, b) <==> exists p :: p in Next(k, a) && KeyOf(k, p) == b
  {
    forall p ensures p in Next(k, a) <==> Follows(k, a, p) { NextFollows(k, a, p); }
  }

  ghost predicate Steps(k: Skill, q: seq<Path>) {
    q != [] && forall i, j :: 0 <= i && j == i + 1 < |q| ==> LeadsTo(k, q[i], q[j])
  }

  ghost predicate StartsAt(k: Skill, ps: seq<Path>, first: Path) { exists p :: p in ps && KeyOf(k, p) == first }

  /** `key` is reached from one of `ps` through tables and directories. */
  ghost predicate Reached(k: Skill, ps: seq<Path>, key: Path) {
    exists q :: Steps(k, q) && StartsAt(k, ps, q[0]) && q[|q| - 1] == key
  }

  lemma ReachedStart(k: Skill, ps: seq<Path>, p: Path)
    requires p in ps
    ensures Reached(k, ps, KeyOf(k, p))
  {
    var q := [KeyOf(k, p)];
    assert Steps(k, q) && q[|q| - 1] == KeyOf(k, p);
  }

  lemma OneStepFurther(k: Skill, a: Path, q: seq<Path>)
    requires Steps(k, q) && LeadsTo(k, a, q[0])
    ensures Steps(k, [a] + q)
  {
    var longer := [a] + q;
    forall i, j | 0 <= i && j == i + 1 < |longer| ensures LeadsTo(k, longer[i], longer[j]) {
      if i > 0 { assert LeadsTo(k, q[i - 1], q[j - 1]); }
    }
  }

  lemma ReachedThrough(k: Skill, ps: seq<Path>, p: Path, key: Path)
    requires p in ps && Reached(k, Next(k, KeyOf(k, p)), key)
    ensures Reached(k, ps, key)
  {
    var a := KeyOf(k, p);
    var q :| Steps(k, q) && StartsAt(k, Next(k, a), q[0]) && q[|q| - 1] == key;
    LeadsToIs(k, a, q[0]);
    OneStepFurther(k, a, q);
    var longer := [a] + q;
    assert longer[0] == a && longer[|longer| - 1] == key && StartsAt(k, ps, longer[0]);
  }

  /** All of `ps` are emitted, and so is everything a newly emitted key leads to. */
  lemma {:induction false} EmitCloses(k: Skill, u: set<Path>, ps: seq<Path>, w: Walked)
    requires Covers(k, u) && Mentioned(k, u, ps)
    ensures var r := Emit(k, u, ps, w);
            && Mentioned(k, r.emitted, ps)
            && forall key :: key in r.emitted && key !in w.emitted ==> Mentioned(k, r.emitted, Next(k, key))
    decreases u - w.emitted, |ps|
  {
    if ps != [] {
      var key := KeyOf(k, ps[0]);
      var start := Walked(w.emitted + {key}, w.parts + Block(k, key));
      if key !in w.emitted { EmitCloses(k, u, Next(k, key), start); }
      var w1 := if key in w.emitted then w else Emit(k, u, Next(k, key), start);
      EmitCloses(k, u, ps[1..], w1);
    }
  }

  /** Only what is reached is emitted. */
  lemma {:induction false} EmitReaches(k: Skill, u: set<Path>, ps: seq<Path>, w: Walked, key: Path)
    requires Covers(k, u) && Mentioned(k, u, ps)
    requires key in Emit(k, u, ps, w).emitted && key !in w.emitted
    ensures Reached(k, ps, key)
    decreases u - w.emitted, |ps|
  {
    var first := KeyOf(k, ps[0]);
    var start := Walked(w.emitted + {first}, w.parts + Block(k, first));
    var w1 := if first in w.emitted then w else Emit(k, u, Next(k, first), start);
    if key !in w1.emitted {
      EmitReaches(k, u, ps[1..], w1, key);
      var q :| Steps(k, q) && StartsAt(k, ps[1..], q[0]) && q[|q| - 1] == key;
    } else if key == first {
      ReachedStart(k, ps, ps[0]);
    } else {
      EmitReaches(k, u, Next(k, first), start, key);
      ReachedThrough(k, ps, ps[0], key);
    }
  }

  lemma {:induction false} WalksStayInside(k: Skill, closed: set<Path>, q: seq<Path>)
    requires Steps(k, q) && q[0] in closed && forall key :: key in closed ==> Mentioned(k, closed, Next(k, key))
    ensures q[|q| - 1] in closed
  {
    if |q| > 1 {
      assert LeadsTo(k, q[0], q[1]);
      LeadsToIs(k, q[0], q[1]);
      var rest := q[1..];
      WalksStayInside(k, closed, rest);
    }
  }

  /** From nothing, the walk emits exactly what is reachable. */
  lemma EmitsExactlyTheReachable(k: Skill, u: set<Path>, roots: seq<Path>, w: Walked, key: Path)
    requires Covers(k, u) && Mentioned(k, u, roots) && w.emitted == {}
    ensures key in Emit(k, u, roots, w).emitted <==> Reached(k, roots, key)
  {
    var r := Emit(k, u, roots, w);
    EmitCloses(k, u, roots, w);
    if key in r.emitted { EmitReaches(k, u, roots, w, key); }
    if Reached(k, roots, key) {
      var q :| Steps(k, q) && StartsAt(k, roots, q[0]) && q[|q| - 1] == key;
      WalksStayInside(k, r.emitted, q);
    }
  }

  // ----- what it prints

  function PartKey(p: Part): Path { p.key }

  /** One part per key, namely the block of an emitted key; and no block is missing. */
  ghost predicate Printed(k: Skill, w: Walked) {
    && (forall i, j :: 0 <= i < j < |w.parts| ==> PartKey(w.parts[i]) != PartKey(w.parts[j]))
    && (forall i :: 0 <= i < |w.parts| ==>
        PartKey(w.parts[i]) in w.emitted && [w.parts[i]] == Block(k, PartKey(w.parts[i])))
    && forall key :: key in w.emitted && Block(k, key) != [] ==> Block(k, key)[0] in w.parts
  }

  /** Each key is emitted at most once, with its own block, in all a walk from nothing prints. */
  lemma {:induction false} EmitPrintsOnce(k: Skill, u: set<Path>, ps: seq<Path>, w: Walked)
    requires Covers(k, u) && Mentioned(k, u, ps) && Printed(k, w)
    ensures Printed(k, Emit(k, u, ps, w))
    decreases u - w.emitted, |ps|
  {
    if ps != [] {
      var key := KeyOf(k, ps[0]);
      if key in w.emitted {
        EmitPrintsOnce(k, u, ps[1..], w);
      } else {
        var start := Walked(w.emitted + {key}, w.parts + Block(k, key));
        PrintOneMore(k, w, key);
        EmitPrintsOnce(k, u, Next(k, key), start);
        EmitPrintsOnce(k, u, ps[1..], Emit(k, u, Next(k, key), start));
      }
    }
  }

  lemma PrintOneMore(k: Skill, w: Walked, key: Path)
    requires Printed(k, w) && key !in w.emitted
    ensures Printed(k, Walked(w.emitted + {key}, w.parts + Block(k, key)))
  {
  }

  /** What is printed for an emitted key: a text file whole, a script's preamble, that there is no such file,
      and for a directory nothing, unless there is none. */
  lemma PrintedSays(k: Skill, w: Walked, key: Path)
    requires Printed(k, w) && key in w.emitted
    ensures Verbatim(key) in w.parts <==> !EndsWith(key, "/") && key in k.files && !EndsWith(key, ".py")
    ensures Preamble(key) in w.parts <==> !EndsWith(key, "/") && key in k.files && EndsWith(key, ".py")
    ensures NotFound(key) in w.parts <==>
            if EndsWith(key, "/") then DropSlashes(key) !in k.dirs else key !in k.files
  {
    assert Block(k, key) != [] ==> Block(k, key)[0] in w.parts;
    forall i | 0 <= i < |w.parts| && w.parts[i].key == key ensures [w.parts[i]] == Block(k, key) {}
  }

  // ----- the roots

  const MODES := {"chat", "specseed-ui", "github", "gitlab"}

  datatype Request = Request(mode: string, route: Option<string>, subroute: Option<string>)

  datatype Plan = Roots(paths: seq<Path>) | BadUsage

  function MarkdownOnly(ps: seq<Path>): (r: seq<Path>)
    ensures forall p :: p in r <==> p in ps && EndsWith(p, ".md")
  {
    if ps == [] then []
    else
      assert forall p :: p in ps <==> p == ps[0] || p in ps[1..];
      (if EndsWith(ps[0], ".md") then [ps[0]] else []) + MarkdownOnly(ps[1..])
  }

  /** The `.md` files of a directory, in order. */
  function Markdown(k: Skill, d: Path): seq<Path> { if d in k.dirs then MarkdownOnly(k.dirs[d]) else [] }

  /** Where a walk starts: the skill file, then the route asked for, or all of them; for the spec
      route without a subroute, all subroutes. */
  function RootsOf(k: Skill, r: Request): Plan {
    if r.mode !in MODES then BadUsage else RouteRoots(k, r)
  }

  function RouteRoots(k: Skill, r: Request): Plan {
    match (r.route, r.subroute)
    case (None, Some(_)) => BadUsage
    case (None, None) => Roots(["SKILL.md"] + Markdown(k, "routes") + Markdown(k, "spec_subroutes"))
    case (Some(route), sub) =>
      var file := "routes/" + route + ".md";
      if file !in k.files then BadUsage
      else if sub.Some? then
        var subFile := "spec_subroutes/" + sub.value + ".md";
        if subFile !in k.files then BadUsage else Roots(["SKILL.md", file, subFile])
      else Roots(["SKILL.md", file] + if route == "spec" then Markdown(k, "spec_subroutes") else [])
  }

  /** Which requests are answered, and where their walks start. */
  lemma RootsAre(k: Skill, r: Request)
    ensures RootsOf(k, r).Roots? <==>
            && r.mode in {"chat", "specseed-ui", "github", "gitlab"}
            && (r.subroute.Some? ==> r.route.Some? && "spec_subroutes/" + r.subroute.value + ".md" in k.files)
            && (r.route.Some? ==> "routes/" + r.route.value + ".md" in k.files)
    ensures RootsOf(k, r).Roots? ==> forall p :: p in RootsOf(k, r).paths <==>
              || p == "SKILL.md"
              || (r.route.Some? && p == "routes/" + r.route.value + ".md")
              || (r.subroute.Some? && p == "spec_subroutes/" + r.subroute.value + ".md")
              || (r.route.None? && MarkdownIn(k, "routes", p))
              || (r.subroute.None? && r.route in {None, Some("spec")} && MarkdownIn(k, "spec_subroutes", p))
  {
  }

  ghost predicate MarkdownIn(k: Skill, d: Path, p: Path) { d in k.dirs && p in k.dirs[d] && EndsWith(p, ".md") }

  // ----- the walk as it runs

  lemma {:induction false} EmitOneMore(k: Skill, u: set<Path>, ps: seq<Path>, p: Path, w: Walked)
    requires Covers(k, u) && Mentioned(k, u, ps) && KeyOf(k, p) in u
    ensures Mentioned(k, u, ps + [p]) && Emit(k, u, ps + [p], w) == Emit(k, u, [p], Emit(k, u, ps, w))
    decreases u - w.emitted, |ps|
  {
    if ps != [] {
      var key := KeyOf(k, ps[0]);
      assert (ps + [p])[0] == ps[0] && (ps + [p])[1..] == ps[1..] + [p];
      var w1 := if key in w.emitted then w
                else Emit(k, u, Next(k, key), Walked(w.emitted + {key}, w.parts + Block(k, key)));
      EmitOneMore(k, u, ps[1..], p, w1);
    } else {
      assert [] + [p] == [p];
    }
  }

  class Walker {
    const skill: Skill
    var emitted: set<Path>
    var parts: seq<Part>

    ghost function Now(): Walked reads this { Walked(emitted, parts) }

    constructor (skill: Skill)
      ensures this.skill == skill && Now() == Walked({}, [])
    {
      this.skill, emitted, parts := skill, {}, [];
    }

    method EmitEach(ps: seq<Path>, ghost u: set<Path>)
      requires Covers(skill, u) && Mentioned(skill, u, ps)
      modifies this
      ensures Now() == Emit(skill, u, ps, old(Now()))
      decreases u - emitted, 1, |ps|
    {
      for i := 0 to |ps|
        invariant Now() == Emit(skill, u, ps[..i], old(Now()))
        invariant old(emitted) <= emitted
      {
        assert ps[..i + 1] == ps[..i] + [ps[i]];
        EmitOneMore(skill, u, ps[..i], ps[i], old(Now()));
        EmitPath(ps[i], u);
      }
      assert ps[..|ps|] == ps;
    }

    method EmitPath(p: Path, ghost u: set<Path>)
      requires Covers(skill, u) && KeyOf(skill, p) in u
      modifies this
      ensures Now() == Emit(skill, u, [p], old(Now()))
      decreases u - emitted, 0, 0
    {
      var key := KeyOf(skill, p);
      if key in emitted { return; }
      emitted, parts := emitted + {key}, parts + Block(skill, key);
      EmitEach(Next(skill, key), u);
    }

    /** The prompt's parts, or a refusal. */
    method Generate(r: Request) returns (ok: bool)
      requires Now() == Walked({}, [])
      modifies this
      ensures ok == RootsOf(skill, r).Roots?
      ensures ok ==> Printed(skill, Now()) && forall key :: key in emitted <==>
                Reached(skill, RootsOf(skill, r).paths, key)
    {
      var plan := RootsOf(skill, r);
      if plan.BadUsage? { return false; }
      UniverseCovers(skill, plan.paths);
      forall key { EmitsExactlyTheReachable(skill, Universe(skill, plan.paths), plan.paths, Walked({}, []), key); }
      EmitPrintsOnce(skill, Universe(skill, plan.paths), plan.paths, Walked({}, []));
      EmitEach(plan.paths, Universe(skill, plan.paths));
      ok := true;
    }
  }
}
