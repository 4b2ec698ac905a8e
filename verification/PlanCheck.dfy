/** The dependency check over a plan's created posts: what it accepts, and why an accepted plan
    cannot deadlock on its own links. Bodies are taken as parsed. */
module PlanCheck {
  import opened Basics
  import opened Topo
  import Tracker
  import RollUp
  import Deps

  /** The labels of a created post: `tier:t`, a bare `t`, `t:status:s`, `status:s`, `x:status:s`, others. */
  datatype Label =
    | TierTag(tier: Tracker.Tier)
    | BareTier(tier: Tracker.Tier)
    | TierStatus(tier: Tracker.Tier, status: string)
    | StatusTag(status: string)
    | OtherStatus(status: string)
    | OtherLabel

  datatype ParentLink = NoLink | ToTitle(title: Name) | ToPost

  datatype Create = Create(
    title: Name,
    field: Option<Tracker.Tier>,   // the entry's own `tier` field
    labels: seq<Label>,
    placeholders: seq<Name>,       // `#{id:<title>}` dependencies
    bare: seq<Name>,               // the same without the leading #
    emptyLine: bool,               // a `Depends on:` line without any reference
    parent: ParentLink)

  function First(labels: seq<Label>, want: Label -> bool): Option<Label> {
    if labels == [] then None else if want(labels[0]) then Some(labels[0]) else First(labels[1..], want)
  }

  predicate IsTag(l: Label) { l.TierTag? }

  predicate IsBare(l: Label) { l.BareTier? }

  predicate IsTierStatus(l: Label) { l.TierStatus? }

  predicate IsStatus(l: Label) { l.TierStatus? || l.StatusTag? || l.OtherStatus? }

  /** What the tracker will read the tier from. */
  predicate Workable(c: Create) {
    First(c.labels, IsTag).Some? || First(c.labels, IsBare).Some? || First(c.labels, IsTierStatus).Some?
  }

  predicate HasStatus(c: Create) {
    FirstIsWanted(c.labels, IsStatus);
    First(c.labels, IsStatus).Some? && First(c.labels, IsStatus).value.status != ""
  }

  lemma {:induction false} FirstIsWanted(labels: seq<Label>, want: Label -> bool)
    ensures match First(labels, want)
            case Some(l) => l in labels && want(l)
            case None => forall l :: l in labels ==> !want(l)
  {
    if labels != [] && !want(labels[0]) { FirstIsWanted(labels[1..], want); }
  }

  /** What the check itself reads the tier from: the field, else a bare label. */
  function TierOf(c: Create): Option<Tracker.Tier> {
    if c.field.Some? then c.field
    else
      FirstIsWanted(c.labels, IsBare);
      var l := First(c.labels, IsBare);
      if l.Some? then Some(l.value.tier) else None
  }

  /** The entries it looks at any further. */
  function Items(creates: seq<Create>): seq<Create> {
    if creates == [] then []
    else
      var c := creates[|creates| - 1];
      Items(creates[..|creates| - 1]) + if TierOf(c).Some? then [c] else []
  }

  /** Tier by title; of two posts with one title the later counts. */
  function Titles(items: seq<Create>): map<Name, Tracker.Tier> {
    if items == [] then map[]
    else
      var front, c := Titles(items[..|items| - 1]), items[|items| - 1];
      if c.title == "" || TierOf(c).None? then front else front[c.title := TierOf(c).value]
  }

  function Resolved(c: Create, known: set<Name>): set<Name> { set d | d in c.placeholders && d in known }

  /** The dependencies among created posts, by title. */
  function Wiring(items: seq<Create>, known: set<Name>): Graph {
    if items == [] then map[]
    else
      var front, c := Wiring(items[..|items| - 1], known), items[|items| - 1];
      if c.title == "" then front
      else front[c.title := (if c.title in front then front[c.title] else {}) + Resolved(c, known)]
  }

  // ----- what makes a plan acceptable

  predicate DepsSound(c: Create, known: set<Name>) {
    c.title != "" && (forall d :: d in c.placeholders ==> d in known) && c.bare == [] && !c.emptyLine
  }

  predicate ParentSound(c: Create, titles: map<Name, Tracker.Tier>, decomposed: bool)
    requires TierOf(c).Some?
  {
    var tier := TierOf(c).value;
    tier == Tracker.Epic ||
    match c.parent
    case ToTitle(t) => t in titles && titles[t] == RollUp.UpTier(tier)
    case ToPost => true
    case NoLink => tier != Tracker.Ticket && !decomposed
  }

  predicate Decomposes(items: seq<Create>) { exists c :: c in items && TierOf(c) == Some(Tracker.Ticket) }

  /** What the loops below establish. */
  ghost predicate Passes(creates: seq<Create>) {
    var items := Items(creates);
    var titles := Titles(items);
    && (forall c :: c in creates ==> Workable(c) && HasStatus(c))
    && (forall c :: c in items ==>
        TierOf(c).Some? && DepsSound(c, titles.Keys) && ParentSound(c, titles, Decomposes(items)))
    && !Cyclic(Wiring(items, titles.Keys))
  }

  // ----- what that means, from the entries alone

  /** An entry whose dependencies and parent are checked: its tier stands in the field or a bare label. */
  ghost predicate Listed(c: Create) { c.field.Some? || exists l :: l in c.labels && l.BareTier? }

  /** Label `k` is the first bare one. */
  ghost predicate FirstBare(c: Create, k: nat) {
    k < |c.labels| && c.labels[k].BareTier? && forall j :: 0 <= j < k ==> !c.labels[j].BareTier?
  }

  /** The field says the tier; without one, the first bare label does. */
  ghost predicate OfTier(c: Create, t: Tracker.Tier) {
    if c.field.Some? then c.field == Some(t) else exists k: nat :: FirstBare(c, k) && c.labels[k].tier == t
  }

  ghost predicate Titled(creates: seq<Create>, n: Name) {
    n != "" && exists c :: c in creates && Listed(c) && c.title == n
  }

  /** Entry `k` is the last checked one with title `n`. */
  ghost predicate LastTitled(creates: seq<Create>, k: nat, n: Name) {
    && k < |creates| && creates[k].title == n && Listed(creates[k])
    && forall j :: k < j < |creates| && creates[j].title == n ==> !Listed(creates[j])
  }

  /** As the check reads it, the post titled `n` is of tier `t`. */
  ghost predicate Reads(creates: seq<Create>, n: Name, t: Tracker.Tier) {
    n != "" && exists k: nat :: LastTitled(creates, k, n) && OfTier(creates[k], t)
  }

  /** Some checked entry titled `a` has the placeholder dependency `b`. */
  ghost predicate Needs(creates: seq<Create>, a: Name, b: Name) {
    exists c :: c in creates && Listed(c) && c.title == a && b in c.placeholders
  }

  /** A walk from a title through what it needs, back to itself. */
  ghost predicate Circle(creates: seq<Create>, p: seq<Name>) {
    && |p| > 1 && p[0] == p[|p| - 1]
    && forall i, j :: 0 <= i && j == i + 1 < |p| ==> Needs(creates, p[i], p[j])
  }

  ghost predicate Circular(creates: seq<Create>) { exists p :: Circle(creates, p) }

  ghost predicate SaysStatus(l: Label) { l.TierStatus? || l.StatusTag? || l.OtherStatus? }

  /** Label `k` is the first that says a status. */
  ghost predicate FirstStatus(c: Create, k: nat) {
    k < |c.labels| && SaysStatus(c.labels[k]) && forall j :: 0 <= j < k ==> !SaysStatus(c.labels[j])
  }

  /** Some label says the tier, and the first one that says a status does not leave it blank. */
  ghost predicate WellLabelled(c: Create) {
    && (exists l :: l in c.labels && (l.TierTag? || l.BareTier? || l.TierStatus?))
    && exists k: nat :: FirstStatus(c, k) && c.labels[k].status != ""
  }

  /** An issue hangs under a ticket, a ticket under an epic; only an issue of a plan without tickets may
      go without. */
  ghost predicate HangsRight(creates: seq<Create>, c: Create) {
    || OfTier(c, Tracker.Epic)
    || match c.parent
       case ToPost => true
       case ToTitle(n) =>
         || (OfTier(c, Tracker.Issue) && Reads(creates, n, Tracker.Ticket))
         || (OfTier(c, Tracker.Ticket) && Reads(creates, n, Tracker.Epic))
       case NoLink => OfTier(c, Tracker.Issue) && forall d :: d in creates ==> !OfTier(d, Tracker.Ticket)
  }

  /** The entry has a title, and its placeholders name checked entries. */
  ghost predicate Traceable(creates: seq<Create>, c: Create) {
    c.title != "" && forall d :: d in c.placeholders ==> Titled(creates, d)
  }

  ghost predicate Resolvable(creates: seq<Create>) {
    forall c :: c in creates && Listed(c) ==> Traceable(creates, c)
  }

  ghost predicate Sound(creates: seq<Create>) {
    && (forall c :: c in creates ==> WellLabelled(c))
    && (forall c :: c in creates && Listed(c) ==> WellReferenced(creates, c) && HangsRight(creates, c))
    && !Circular(creates)
  }

  /** The titles in the order they can be worked on: each once, after everything its entries need. */
  ghost predicate Lists(creates: seq<Create>, topo: seq<Name>) {
    && NoDuplicates(topo)
    && (forall n :: n in topo <==> Titled(creates, n))
    && forall c, d :: c in creates && Listed(c) && d in c.placeholders ==> Before(topo, d, c.title)
  }

  ghost predicate Before(topo: seq<Name>, a: Name, b: Name) {
    exists i, j :: 0 <= i < j < |topo| && topo[i] == a && topo[j] == b
  }

  lemma {:induction false} FirstIsFirst(labels: seq<Label>, want: Label -> bool) returns (k: nat)
    requires First(labels, want).Some?
    ensures k < |labels| && labels[k] == First(labels, want).value && want(labels[k])
    ensures forall j :: 0 <= j < k ==> !want(labels[j])
  {
    if want(labels[0]) {
      k := 0;
    } else {
      var m := FirstIsFirst(labels[1..], want);
      k := m + 1;
      forall j | 0 <= j < k ensures !want(labels[j]) {
        if j > 0 { assert labels[j] == labels[1..][j - 1]; }
      }
    }
  }

  lemma TierIs(c: Create, t: Tracker.Tier)
    ensures TierOf(c) == Some(t) <==> OfTier(c, t)
    ensures TierOf(c).Some? <==> Listed(c)
  {
    FirstIsWanted(c.labels, IsBare);
    assert forall m: nat :: FirstBare(c, m) ==> c.labels[m] in c.labels && IsBare(c.labels[m]);
    if First(c.labels, IsBare).Some? {
      var k := FirstIsFirst(c.labels, IsBare);
      assert FirstBare(c, k);
      assert forall m: nat :: FirstBare(c, m) ==> m == k;
    }
  }

  lemma StatusIs(c: Create)
    ensures HasStatus(c) <==> exists k: nat :: FirstStatus(c, k) && c.labels[k].status != ""
  {
    FirstIsWanted(c.labels, IsStatus);
    assert forall m: nat :: FirstStatus(c, m) ==> c.labels[m] in c.labels && IsStatus(c.labels[m]);
    if First(c.labels, IsStatus).Some? {
      var k := FirstIsFirst(c.labels, IsStatus);
      assert FirstStatus(c, k);
      assert forall m: nat :: FirstStatus(c, m) ==> m == k;
    }
  }

  lemma LabelsAre(c: Create)
    ensures Workable(c) && HasStatus(c) <==> WellLabelled(c)
  {
    StatusIs(c);
    FirstIsWanted(c.labels, IsTag);
    FirstIsWanted(c.labels, IsBare);
    FirstIsWanted(c.labels, IsTierStatus);
  }

  lemma {:induction false} TitlesAre(creates: seq<Create>, n: Name)
    ensures n in Titles(Items(creates)) <==> Titled(creates, n)
  {
    if creates != [] {
      var front, c := creates[..|creates| - 1], creates[|creates| - 1];
      assert creates == front + [c];
      TitlesAre(front, n);
      ItemsGrow(front, c);
      TierIs(c, Tracker.Issue);
      assert Titled(creates, n) <==> Titled(front, n) || (n != "" && Listed(c) && c.title == n);
      if Listed(c) { TitlesGrow(Items(front), c); } else { assert Items(creates) == Items(front); }
    }
  }

  lemma {:induction false} TitleReads(creates: seq<Create>, n: Name)
    requires n in Titles(Items(creates))
    ensures Reads(creates, n, Titles(Items(creates))[n])
  {
    var front, c := creates[..|creates| - 1], creates[|creates| - 1];
    assert creates == front + [c];
    ItemsGrow(front, c);
    if TierOf(c).Some? {
      TitlesGrow(Items(front), c);
      TierIs(c, TierOf(c).value);
    } else {
      assert Items(creates) == Items(front);
      TierIs(c, Tracker.Issue);
    }
    TitlesAre(creates, n);
    if TierOf(c).Some? && c.title == n {
      ReadsGrow(front, c, n, TierOf(c).value);
    } else {
      TitleReads(front, n);
      ReadsGrow(front, c, n, Titles(Items(front))[n]);
    }
  }

  lemma ReadsOnce(creates: seq<Create>, n: Name, t: Tracker.Tier, u: Tracker.Tier)
    requires Reads(creates, n, t) && Reads(creates, n, u)
    ensures t == u
  {
    var k: nat :| LastTitled(creates, k, n) && OfTier(creates[k], t);
    var m: nat :| LastTitled(creates, m, n) && OfTier(creates[m], u);
    assert k == m;
    TierIs(creates[k], t);
    TierIs(creates[k], u);
  }

  /** The check's table of titles says just what the entries say. */
  lemma TitlesRead(creates: seq<Create>, n: Name, t: Tracker.Tier)
    ensures (n in Titles(Items(creates)) && Titles(Items(creates))[n] == t) <==> Reads(creates, n, t)
  {
    TitlesAre(creates, n);
    assert forall k: nat :: LastTitled(creates, k, n) ==> creates[k] in creates;
    if n in Titles(Items(creates)) {
      TitleReads(creates, n);
      if Reads(creates, n, t) { ReadsOnce(creates, n, t, Titles(Items(creates))[n]); }
    }
  }

  lemma ReadsGrow(front: seq<Create>, c: Create, n: Name, t: Tracker.Tier)
    ensures Reads(front + [c], n, t) <==>
            if Listed(c) && c.title == n then n != "" && OfTier(c, t) else Reads(front, n, t)
  {
    LastTitledGrows(front, c, n);
    var all := front + [c];
    if Listed(c) && c.title == n {
      assert LastTitled(all, |front|, n) && all[|front|] == c;
    } else {
      assert forall k: nat :: LastTitled(front, k, n) ==> LastTitled(all, k, n) && all[k] == front[k];
    }
  }

  lemma LastTitledGrows(front: seq<Create>, c: Create, n: Name)
    ensures forall k: nat :: LastTitled(front + [c], k, n) <==>
              if Listed(c) && c.title == n then k == |front| else LastTitled(front, k, n)
  {
    var all := front + [c];
    forall k: nat | LastTitled(all, k, n)
      ensures if Listed(c) && c.title == n then k == |front| else LastTitled(front, k, n)
    {
      assert all[|front|] == c;
      assert k < |front| ==> all[k] == front[k] && forall j :: k < j < |front| ==> all[j] == front[j];
    }
    forall k: nat | LastTitled(front, k, n) && !(Listed(c) && c.title == n) ensures LastTitled(all, k, n) {
      assert all[k] == front[k];
    }
    if Listed(c) && c.title == n { assert LastTitled(all, |front|, n); }
  }

  lemma {:induction false} WiringIs(items: seq<Create>, known: set<Name>)
    ensures forall n :: n in Wiring(items, known) <==> n != "" && exists c :: c in items && c.title == n
    ensures forall n, d :: n in Wiring(items, known) ==>
              (d in Wiring(items, known)[n] <==>
                 d in known && exists c :: c in items && c.title == n && d in c.placeholders)
  {
    if items != [] {
      assert items == items[..|items| - 1] + [items[|items| - 1]];
      WiringIs(items[..|items| - 1], known);
    }
  }

  lemma {:induction false} ItemsAreTiered(creates: seq<Create>)
    ensures forall c :: c in Items(creates) <==> c in creates && TierOf(c).Some?
  {
    if creates != [] {
      assert creates == creates[..|creates| - 1] + [creates[|creates| - 1]];
      ItemsAreTiered(creates[..|creates| - 1]);
    }
  }

  lemma {:induction false} WiringIsClosed(items: seq<Create>, known: set<Name>)
    requires forall c :: c in items ==> TierOf(c).Some?
    ensures Wiring(items, known).Keys == Titles(items).Keys
    ensures forall n :: n in Wiring(items, known) ==> Wiring(items, known)[n] <= known
  {
    if items != [] {
      assert items == items[..|items| - 1] + [items[|items| - 1]];
      WiringIsClosed(items[..|items| - 1], known);
    }
  }

  datatype Problem =
    | NoTier(c: Create) | NoStatus(c: Create) | NoTitle(c: Create) | Dangling(c: Create, dep: Name)
    | Malformed(c: Create, dep: Name) | EmptyDeps(c: Create) | CycleAmongCreated
    | DanglingParent(c: Create) | WrongParent(c: Create) | MissingParent(c: Create)

  /** One more entry: what it adds to the items, and an item to the titles. */
  lemma ItemsGrow(creates: seq<Create>, c: Create)
    ensures Items(creates + [c]) == Items(creates) + if TierOf(c).Some? then [c] else []
  {
    assert (creates + [c])[..|creates|] == creates;
  }

  lemma TitlesGrow(items: seq<Create>, c: Create)
    requires TierOf(c).Some?
    ensures Titles(items + [c]) ==
            if c.title == "" then Titles(items) else Titles(items)[c.title := TierOf(c).value]
  {
    assert (items + [c])[..|items|] == items;
  }

  method CheckLabels(creates: seq<Create>)
    returns (items: seq<Create>, titles: map<Name, Tracker.Tier>, problems: seq<Problem>)
    ensures items == Items(creates) && titles == Titles(items)
    ensures problems == [] <==> forall c :: c in creates ==> Workable(c) && HasStatus(c)
  {
    items, titles, problems := [], map[], [];
    for i := 0 to |creates|
      invariant items == Items(creates[..i]) && titles == Titles(items)
      invariant problems == [] <==> forall c :: c in creates[..i] ==> Workable(c) && HasStatus(c)
    {
      var c := creates[i];
      assert creates[..i + 1] == creates[..i] + [c];
      ItemsGrow(creates[..i], c);
      if !Workable(c) { problems := problems + [NoTier(c)]; }
      if !HasStatus(c) { problems := problems + [NoStatus(c)]; }
      var tier := TierOf(c);
      if tier.Some? {
        TitlesGrow(items, c);
        items := items + [c];
        if c.title != "" { titles := titles[c.title := tier.value]; }
      }
    }
    assert creates[..|creates|] == creates;
  }

  method CheckItemDeps(c: Create, known: set<Name>) returns (problems: seq<Problem>, edges: set<Name>)
    requires c.title != ""
    ensures problems == [] <==> DepsSound(c, known)
    ensures edges == Resolved(c, known)
  {
    problems, edges := [], {};
    for i := 0 to |c.placeholders|
      invariant edges == set d | d in c.placeholders[..i] && d in known
      invariant problems == [] <==> forall d :: d in c.placeholders[..i] ==> d in known
    {
      var d := c.placeholders[i];
      if d in known { edges := edges + {d}; } else { problems := problems + [Dangling(c, d)]; }
    }
    assert c.placeholders[..|c.placeholders|] == c.placeholders;
    for i := 0 to |c.bare|
      invariant problems == [] <==> i == 0 && forall d :: d in c.placeholders ==> d in known
    {
      problems := problems + [Malformed(c, c.bare[i])];
    }
    if c.emptyLine { problems := problems + [EmptyDeps(c)]; }
  }

  method CheckDeps(items: seq<Create>, known: set<Name>) returns (graph: Graph, problems: seq<Problem>)
    ensures graph == Wiring(items, known)
    ensures problems == [] <==> forall c :: c in items ==> DepsSound(c, known)
  {
    graph, problems := map[], [];
    for i := 0 to |items|
      invariant graph == Wiring(items[..i], known)
      invariant problems == [] <==> forall c :: c in items[..i] ==> DepsSound(c, known)
    {
      var c := items[i];
      assert items[..i + 1] == items[..i] + [c] && items[..i + 1][..i] == items[..i];
      if c.title == "" {
        assert c in items[..i + 1] && !DepsSound(c, known);
        problems := problems + [NoTitle(c)];
      } else {
        var more, edges := CheckItemDeps(c, known);
        problems := problems + more;
        graph := graph[c.title := (if c.title in graph then graph[c.title] else {}) + edges];
      }
    }
    assert items[..|items|] == items;
  }

  method CheckParents(items: seq<Create>, titles: map<Name, Tracker.Tier>) returns (problems: seq<Problem>)
    requires forall c :: c in items ==> TierOf(c).Some?
    ensures problems == [] <==> forall c :: c in items && c.title != "" ==> ParentSound(c, titles, Decomposes(items))
  {
    problems := [];
    var decomposed := Decomposes(items);
    for i := 0 to |items|
      invariant problems == [] <==> forall c :: c in items[..i] && c.title != "" ==> ParentSound(c, titles, decomposed)
    {
      var c := items[i];
      assert items[..i + 1] == items[..i] + [c];
      var tier := TierOf(c).value;
      if c.title != "" && tier != Tracker.Epic {
        match c.parent {
          case ToTitle(t) =>
            if t !in titles { problems := problems + [DanglingParent(c)]; }
            else if titles[t] != RollUp.UpTier(tier) { problems := problems + [WrongParent(c)]; }
          case ToPost =>
          case NoLink =>
            if tier == Tracker.Ticket || decomposed { problems := problems + [MissingParent(c)]; }
        }
      }
    }
    assert items[..|items|] == items;
  }

  // ----- the loops and the meaning agree

  lemma DecomposesIff(creates: seq<Create>)
    ensures Decomposes(Items(creates)) <==> exists d :: d in creates && OfTier(d, Tracker.Ticket)
  {
    ItemsAreTiered(creates);
    forall d: Create ensures TierOf(d) == Some(Tracker.Ticket) <==> OfTier(d, Tracker.Ticket) {
      TierIs(d, Tracker.Ticket);
    }
  }

  lemma ParentsAre(creates: seq<Create>, c: Create)
    requires TierOf(c).Some?
    ensures ParentSound(c, Titles(Items(creates)), Decomposes(Items(creates))) <==> HangsRight(creates, c)
  {
    var tier := TierOf(c).value;
    TierIs(c, Tracker.Epic);
    TierIs(c, Tracker.Ticket);
    TierIs(c, Tracker.Issue);
    DecomposesIff(creates);
    if c.parent.ToTitle? { TitlesRead(creates, c.parent.title, RollUp.UpTier(tier)); }
  }

  lemma EdgesAre(creates: seq<Create>, a: Name, b: Name)
    requires Resolvable(creates)
    ensures var g := Wiring(Items(creates), Titles(Items(creates)).Keys);
            && (a in g <==> Titled(creates, a))
            && (a in g ==> (b in g[a] <==> Needs(creates, a, b)))
  {
    var items := Items(creates);
    var known := Titles(items).Keys;
    WiringIs(items, known);
    ItemsAreTiered(creates);
    forall c: Create ensures c in items <==> c in creates && Listed(c) { TierIs(c, Tracker.Issue); }
    TitlesAre(creates, b);
    if Needs(creates, a, b) {
      var c :| c in creates && Listed(c) && c.title == a && b in c.placeholders;
      assert c in items && b in known;
    }
  }

  lemma CirclesAre(creates: seq<Create>)
    requires Resolvable(creates)
    ensures Cyclic(Wiring(Items(creates), Titles(Items(creates)).Keys)) <==> Circular(creates)
  {
    var g := Wiring(Items(creates), Titles(Items(creates)).Keys);
    forall a, b { EdgesAre(creates, a, b); }
    if Circular(creates) {
      var p: seq<Name> :| Circle(creates, p);
      forall i | 0 <= i < |p| ensures p[i] in g {
        if i + 1 < |p| { assert Needs(creates, p[i], p[i + 1]); } else { assert Needs(creates, p[0], p[1]); }
      }
      assert Walk(g, p);
    }
    if Cyclic(g) {
      var p :| Walk(g, p) && |p| > 1 && p[0] == p[|p| - 1];
      assert Circle(creates, p);
    }
  }

  lemma ListedAreItems(creates: seq<Create>)
    ensures forall c :: c in Items(creates) <==> c in creates && Listed(c)
  {
    ItemsAreTiered(creates);
    forall c: Create ensures TierOf(c).Some? <==> Listed(c) { TierIs(c, Tracker.Issue); }
  }

  lemma EntryDepsAre(creates: seq<Create>, c: Create)
    ensures DepsSound(c, Titles(Items(creates)).Keys) <==> Traceable(creates, c) && c.bare == [] && !c.emptyLine
  {
    forall n: Name ensures n in Titles(Items(creates)) <==> Titled(creates, n) { TitlesAre(creates, n); }
  }

  /** The entry can be traced, and none of its references is malformed. */
  ghost predicate WellReferenced(creates: seq<Create>, c: Create) {
    Traceable(creates, c) && c.bare == [] && !c.emptyLine
  }

  lemma DepsAre(creates: seq<Create>)
    ensures (forall c :: c in Items(creates) ==> DepsSound(c, Titles(Items(creates)).Keys)) <==>
            forall c :: c in creates && Listed(c) ==> WellReferenced(creates, c)
  {
    ListedAreItems(creates);
    forall c: Create ensures DepsSound(c, Titles(Items(creates)).Keys) <==> WellReferenced(creates, c) {
      EntryDepsAre(creates, c);
    }
  }

  lemma AllParentsAre(creates: seq<Create>)
    ensures (forall c :: c in Items(creates) ==>
               TierOf(c).Some? && ParentSound(c, Titles(Items(creates)), Decomposes(Items(creates)))) <==>
            forall c :: c in creates && Listed(c) ==> HangsRight(creates, c)
  {
    ListedAreItems(creates);
    ItemsAreTiered(creates);
    forall c | c in Items(creates)
      ensures ParentSound(c, Titles(Items(creates)), Decomposes(Items(creates))) <==> HangsRight(creates, c)
    {
      ParentsAre(creates, c);
    }
  }

  /** What the loops establish is what the entries say. */
  lemma SoundIffPasses(creates: seq<Create>)
    ensures Sound(creates) <==> Passes(creates)
  {
    forall c: Create ensures Workable(c) && HasStatus(c) <==> WellLabelled(c) { LabelsAre(c); }
    DepsAre(creates);
    AllParentsAre(creates);
    if Resolvable(creates) { CirclesAre(creates); }
  }

  /** An order of the wiring is an order of what the entries say. */
  lemma TopoLists(creates: seq<Create>, topo: seq<Name>)
    requires Resolvable(creates) && IsTopo(Wiring(Items(creates), Titles(Items(creates)).Keys), topo)
    ensures Lists(creates, topo)
  {
    var g := Wiring(Items(creates), Titles(Items(creates)).Keys);
    forall a, b { EdgesAre(creates, a, b); }
    forall n: Name ensures n in topo <==> Titled(creates, n) {
      EdgesAre(creates, n, n);
      assert n in topo <==> n in Elements(topo);
    }
    forall c, d | c in creates && Listed(c) && d in c.placeholders ensures Before(topo, d, c.title) {
      assert Needs(creates, c.title, d) && c.title in topo;
      var j :| 0 <= j < |topo| && topo[j] == c.title;
      assert d in Elements(topo[..j]);
      var i :| 0 <= i < j && topo[..j][i] == d;
    }
  }

  /** All checks in turn. */
  method CheckAll(creates: seq<Create>) returns (problems: seq<Problem>, topo: seq<Name>)
    ensures problems == [] <==> Passes(creates)
    ensures problems == [] ==> IsTopo(Wiring(Items(creates), Titles(Items(creates)).Keys), topo)
  {
    ItemsAreTiered(creates);
    var items, titles, first := CheckLabels(creates);
    var graph, second := CheckDeps(items, titles.Keys);
    WiringIsClosed(items, titles.Keys);
    problems, topo := first + second, [];
    var order := StaticOrder(graph);
    if order.Some? { topo := order.value; } else { problems := problems + [CycleAmongCreated]; }
    var third := CheckParents(items, titles);
    problems := problems + third;
  }

  /** A plan is accepted exactly when it is sound, and then its order lists every created title once,
      each after all that its entries need. */
  method Validate(creates: seq<Create>) returns (ok: bool, problems: seq<Problem>, topo: seq<Name>)
    ensures ok <==> Sound(creates)
    ensures ok <==> problems == []
    ensures ok ==> Lists(creates, topo)
  {
    problems, topo := CheckAll(creates);
    ok := problems == [];
    SoundIffPasses(creates);
    if ok {
      SoundIsResolvable(creates);
      TopoLists(creates, topo);
    }
  }

  lemma SoundIsResolvable(creates: seq<Create>)
    requires Sound(creates)
    ensures Resolvable(creates)
  {
  }

  /** What acceptance does not cover: a post whose tier stands only in a `t:status:s` label is
      workable, yet the check never looks at its dependencies, however they dangle. */
  lemma UnlistedPostIsNotChecked(title: Name, dep: Name)
    requires title != "" && dep != title
    ensures var c := Create(title, None, [TierStatus(Tracker.Issue, "todo")], [dep], [], false, NoLink);
            Sound([c]) && !DepsSound(c, {title})
  {
    var c := Create(title, None, [TierStatus(Tracker.Issue, "todo")], [dep], [], false, NoLink);
    assert c.labels[0] in c.labels && FirstStatus(c, 0) && c.labels[0].status != "";
    assert !Listed(c) && WellLabelled(c);
    assert Resolvable([c]);
    assert dep in c.placeholders;
    forall a, b ensures !Needs([c], a, b) {}
    forall p ensures !Circle([c], p) { if |p| > 1 { assert !Needs([c], p[0], p[1]); } }
  }

  /** The posts every dependency of which is checked: those with a tier field or a bare tier label. */
  lemma CheckedIff(creates: seq<Create>, c: Create)
    requires c in creates
    ensures c in Items(creates) <==> c.field.Some? || exists l :: l in c.labels && l.BareTier?
  {
    ItemsAreTiered(creates);
    FirstIsWanted(c.labels, IsBare);
  }

  // ----- the gate never holds

  type Ids = map<Name, Tracker.Id>

  /** The post filed for title `n`: what it names itself is what the plan's entries need, and posts that
      are done already. */
  ghost predicate Filed(creates: seq<Create>, ids: Ids, mirror: RollUp.Posts, n: Name) {
    && n in ids && ids[n] in mirror
    && forall d: Tracker.Id :: Tracker.Num(d) in mirror[ids[n]].deps ==>
         || (exists m :: Needs(creates, n, m) && m in ids && ids[m] == d)
         || Deps.DepStatus(mirror, d) == Some(Tracker.Done)
  }

  /** The mirror after the first `k` posts of the order were finished. */
  function Finished(mirror: RollUp.Posts, ids: Ids, order: seq<Name>, k: nat): RollUp.Posts
    requires k <= |order|
  {
    if k == 0 then mirror
    else
      var before := Finished(mirror, ids, order, k - 1);
      var n := order[k - 1];
      if n in ids && ids[n] in before then before[ids[n] := before[ids[n]].(labels := [Tracker.Done])] else before
  }

  lemma {:induction false} FinishingOnlyFinishes(mirror: RollUp.Posts, ids: Ids, order: seq<Name>, k: nat)
    requires k <= |order|
    ensures var now := Finished(mirror, ids, order, k);
            && now.Keys == mirror.Keys
            && (forall i: Tracker.Id :: i in mirror ==>
                now[i].deps == mirror[i].deps && now[i].parent == mirror[i].parent)
            && (forall i: Tracker.Id :: Deps.DepStatus(mirror, i) == Some(Tracker.Done) ==>
                Deps.DepStatus(now, i) == Some(Tracker.Done))
            && (forall j: nat :: j < k && order[j] in ids && ids[order[j]] in mirror ==>
                  Deps.DepStatus(now, ids[order[j]]) == Some(Tracker.Done))
  {
    if k > 0 {
      FinishingOnlyFinishes(mirror, ids, order, k - 1);
      var before, n := Finished(mirror, ids, order, k - 1), order[k - 1];
      assert n in ids && ids[n] in before ==> Finished(mirror, ids, order, k)[ids[n]].labels == [Tracker.Done];
    }
  }

  /** Finishing the posts of an accepted plan in its order, the dependency gate is clear for each when its
      turn comes, exactly if all that the post it hangs under depends on is done by then. */
  lemma TheGateNeverHolds(creates: seq<Create>, order: seq<Name>, ids: Ids, mirror: RollUp.Posts, k: nat)
    requires Lists(creates, order) && k < |order|
    requires forall n :: Titled(creates, n) ==> Filed(creates, ids, mirror, n)
    ensures var now := Finished(mirror, ids, order, k);
            && order[k] in ids && ids[order[k]] in now
            && var e := now[ids[order[k]]];
               (&& Deps.Select(now, Deps.Enforced(now, e), Deps.Cancelled) == []
                && Deps.Select(now, Deps.Enforced(now, e), Deps.Waiting) == [])
               <==> forall d: Tracker.Id ::
                      e.parent.Some? && e.parent.value in now && Tracker.Num(d) in now[e.parent.value].deps ==>
                        Deps.DepStatus(now, d) == Some(Tracker.Done)
  {
    var n := order[k];
    var now := Finished(mirror, ids, order, k);
    FinishingOnlyFinishes(mirror, ids, order, k);
    assert n in order && Titled(creates, n) && Filed(creates, ids, mirror, n);
    var e := now[ids[n]];
    forall d: Tracker.Id | Tracker.Num(d) in e.deps ensures Deps.DepStatus(now, d) == Some(Tracker.Done) {
      if Deps.DepStatus(mirror, d) != Some(Tracker.Done) {
        var m :| Needs(creates, n, m) && m in ids && ids[m] == d;
        EarlierIsDone(creates, order, ids, mirror, k, m);
      }
    }
    Deps.ClearsTheGateIff(now, e);
  }

  lemma EarlierIsDone(creates: seq<Create>, order: seq<Name>, ids: Ids, mirror: RollUp.Posts, k: nat, m: Name)
    requires Lists(creates, order) && k < |order| && Needs(creates, order[k], m)
    requires m in ids && forall n :: Titled(creates, n) ==> Filed(creates, ids, mirror, n)
    ensures Deps.DepStatus(Finished(mirror, ids, order, k), ids[m]) == Some(Tracker.Done)
  {
    FinishingOnlyFinishes(mirror, ids, order, k);
    assert Before(order, m, order[k]);
    var i, j :| 0 <= i < j < |order| && order[i] == m && order[j] == order[k];
    assert j == k && m in order && Titled(creates, m) && Filed(creates, ids, mirror, m);
  }
}
