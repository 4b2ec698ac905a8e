/** Storage migration: a chain of version hops with a marker written after each. */
module Migrate {
  import opened Basics

  type Version = seq<nat>

  const BASELINE: Version := [0, 3, 0]

  /** Versions compare part by part; a proper prefix comes first. */
  predicate Less(a: Version, b: Version) {
    b != [] && (a == [] || a[0] < b[0] || (a[0] == b[0] && Less(a[1..], b[1..])))
  }

  /** They agree up to some place, and there the first is smaller or ends. */
  ghost predicate Comes(a: Version, b: Version, k: nat) {
    && k <= |a| && k < |b| && a[..k] == b[..k]
    && (k == |a| || a[k] < b[k])
  }

  lemma {:induction false} LessIsLexicographic(a: Version, b: Version)
    ensures Less(a, b) <==> exists k: nat :: Comes(a, b, k)
  {
    if a != [] && b != [] && a[0] == b[0] {
      LessIsLexicographic(a[1..], b[1..]);
      forall k: nat | Comes(a[1..], b[1..], k) ensures Comes(a, b, k + 1) {
        assert a[..k + 1] == [a[0]] + a[1..][..k] && b[..k + 1] == [b[0]] + b[1..][..k];
      }
      forall k: nat | Comes(a, b, k) ensures k > 0 && Comes(a[1..], b[1..], k - 1) {
        assert k > 0 ==> a[1..][..k - 1] == a[..k][1..] && b[1..][..k - 1] == b[..k][1..];
      }
    } else {
      assert forall k: nat :: 0 < k <= |a| && k <= |b| && a[..k] == b[..k] ==> a[..k][0] == b[..k][0];
      if Less(a, b) { assert Comes(a, b, 0); }
    }
  }

  predicate AtMost(a: Version, b: Version) { !Less(b, a) }

  lemma {:induction false} LessIsTransitive(a: Version, b: Version, c: Version)
    requires Less(a, b) && Less(b, c)
    ensures Less(a, c)
  {
    if a != [] && a[0] == b[0] == c[0] { LessIsTransitive(a[1..], b[1..], c[1..]); }
  }

  lemma {:induction false} LessIsTotal(a: Version, b: Version)
    ensures (a == b && !Less(a, b)) || (a != b && Less(a, b) != Less(b, a))
  {
    if a != [] && b != [] && a[0] == b[0] {
      LessIsTotal(a[1..], b[1..]);
      assert a == [a[0]] + a[1..] && b == [b[0]] + b[1..];
    }
  }

  /** All the order facts a proof needs about three versions. */
  lemma Order(a: Version, b: Version, c: Version)
    ensures AtMost(a, b) && AtMost(b, c) ==> AtMost(a, c)
    ensures Less(a, b) && AtMost(b, c) ==> Less(a, c)
    ensures AtMost(a, b) && Less(b, c) ==> Less(a, c)
    ensures AtMost(a, b) && AtMost(b, a) ==> a == b
    ensures AtMost(a, a) && (Less(a, b) ==> AtMost(a, b))
  {
    LessIsTotal(a, b);
    LessIsTotal(b, c);
    LessIsTotal(a, c);
    LessIsTotal(a, a);
    if Less(a, b) && Less(b, c) { LessIsTransitive(a, b, c); }
    if Less(c, a) && Less(a, b) { LessIsTransitive(c, a, b); }
    if Less(b, c) && Less(c, a) { LessIsTransitive(b, c, a); }
  }

  datatype Hop<!D> = Hop(from: Version, to: Version, run: D -> D)

  /** Hops as shipped: each starts where the one before it ended. */
  ghost predicate Chain<D(!new)>(hops: seq<Hop<D>>) {
    && (forall i :: 0 <= i < |hops| ==> Less(hops[i].from, hops[i].to))
    && forall i, j :: 0 <= i && j == i + 1 < |hops| ==> hops[i].to == hops[j].from
  }

  ghost predicate Idempotent<D(!new)>(hops: seq<Hop<D>>) {
    forall i, x: D :: 0 <= i < |hops| ==> hops[i].run(hops[i].run(x)) == hops[i].run(x)
  }

  /** A data root; the marker moved once, and a missing one means the baseline. */
  datatype Disk<D> = Disk(data: D, marker: Option<Version>, legacy: Option<Version>) {
    function Version(): Version {
      if marker.Some? then marker.value else if legacy.Some? then legacy.value else BASELINE
    }
  }

  /** Which version a storage is taken to have: its marker's; without one, the old marker's; without that, 0.3.0,
      whatever the data. */
  lemma VersionIs<D>(disk: Disk<D>)
    ensures disk.marker != None ==> Some(disk.Version()) == disk.marker
    ensures disk.marker == None && disk.legacy != None ==> Some(disk.Version()) == disk.legacy
    ensures disk.marker == None && disk.legacy == None ==> disk.Version() == [0, 3, 0]
  {
  }

  datatype Outcome<D> = Migrated(data: D, version: Version, applied: seq<nat>) | Refused

  function After<D>(applied: seq<nat>, rest: Outcome<D>): Outcome<D> {
    if rest.Refused? then Refused else rest.(applied := applied + rest.applied)
  }

  lemma AfterOneMore<D>(applied: seq<nat>, i: nat, rest: Outcome<D>)
    ensures After(applied, After([i], rest)) == After(applied + [i], rest)
  {
    if rest.Migrated? { assert applied + ([i] + rest.applied) == (applied + [i]) + rest.applied; }
  }

  /** From hop `i` on. */
  function Hops<D>(hops: seq<Hop<D>>, i: nat, data: D, v: Version, target: Version): Outcome<D>
    requires i <= |hops|
    decreases |hops| - i
  {
    if i == |hops| || Less(target, hops[i].to) then Migrated(data, v, [])
    else if AtMost(hops[i].to, v) then Hops(hops, i + 1, data, v, target)
    else if Less(v, hops[i].from) then Refused
    else After([i], Hops(hops, i + 1, hops[i].run(data), hops[i].to, target))
  }

  /** The whole of a run, up to the fast-forward of the marker. */
  function Migrate<D>(hops: seq<Hop<D>>, data: D, v: Version, target: Version): Outcome<D> {
    if Less(target, v) then Migrated(data, v, [])
    else
      var out := Hops(hops, 0, data, v, target);
      if out.Migrated? && Less(out.version, target) then out.(version := target) else out
  }

  function Later(a: Version, b: Version): Version { if Less(a, b) then b else a }

  // ----- the marker

  lemma {:induction false} HopsStayWithin<D(!new)>(hops: seq<Hop<D>>, i: nat, data: D, v: Version, target: Version)
    requires i <= |hops| && AtMost(v, target)
    ensures var out := Hops(hops, i, data, v, target);
            out.Migrated? ==> AtMost(v, out.version) && AtMost(out.version, target)
    decreases |hops| - i
  {
    Order(v, v, v);
    if i < |hops| && !Less(target, hops[i].to) {
      if AtMost(hops[i].to, v) {
        HopsStayWithin(hops, i + 1, data, v, target);
      } else {
        HopsStayWithin(hops, i + 1, hops[i].run(data), hops[i].to, target);
        var out := Hops(hops, i + 1, hops[i].run(data), hops[i].to, target);
        if out.Migrated? { Order(v, hops[i].to, out.version); }
      }
    }
  }

  /** The marker never goes back and never past the engine: it ends at the later of the two. */
  lemma TheMarkerIsMonotone<D(!new)>(hops: seq<Hop<D>>, data: D, v: Version, target: Version)
    ensures var out := Migrate(hops, data, v, target); out.Migrated? ==> out.version == Later(v, target)
  {
    LessIsTotal(v, target);
    if !Less(target, v) {
      HopsStayWithin(hops, 0, data, v, target);
      var out := Hops(hops, 0, data, v, target);
      if out.Migrated? {
        LessIsTotal(out.version, target);
        Order(v, out.version, target);
      }
    }
  }

  // ----- what a run does depends only on where the storage is

  lemma {:induction false} TosGrow<D(!new)>(hops: seq<Hop<D>>, i: nat, j: nat)
    requires Chain(hops) && i <= j < |hops|
    ensures AtMost(hops[i].to, hops[j].to) && (i < j ==> AtMost(hops[i].to, hops[j].from))
    decreases j
  {
    Order(hops[i].to, hops[i].to, hops[j].to);
    if i < j {
      TosGrow(hops, i, j - 1);
      Order(hops[j].from, hops[j].to, hops[j].to);
      Order(hops[i].to, hops[j].from, hops[j].to);
    }
  }

  /** Hops already behind the storage are skipped. */
  lemma {:induction false} SkipDone<D(!new)>(hops: seq<Hop<D>>, i: nat, data: D, v: Version, target: Version)
    requires Chain(hops) && i <= |hops| && AtMost(v, target) && (i > 0 ==> AtMost(hops[i - 1].to, v))
    ensures Hops(hops, 0, data, v, target) == Hops(hops, i, data, v, target)
    decreases i
  {
    if i > 0 {
      if i > 1 {
        TosGrow(hops, i - 2, i - 1);
        Order(hops[i - 2].to, hops[i - 1].to, v);
      }
      SkipDone(hops, i - 1, data, v, target);
      Order(hops[i - 1].to, v, target);
    }
  }

  /** A storage that a run brought up to date needs nothing more. */
  lemma {:induction false} NothingLeft<D(!new)>(hops: seq<Hop<D>>, i: nat, data: D, target: Version)
    requires i <= |hops|
    ensures Hops(hops, i, data, target, target) == Migrated(data, target, [])
    decreases |hops| - i
  {
    if i < |hops| && !Less(target, hops[i].to) { NothingLeft(hops, i + 1, data, target); }
  }

  lemma RunningAgainAppliesNothing<D(!new)>(hops: seq<Hop<D>>, data: D, v: Version, target: Version)
    ensures var out := Migrate(hops, data, v, target);
            out.Migrated? ==> Migrate(hops, out.data, out.version, target) == out.(applied := [])
  {
    var out := Migrate(hops, data, v, target);
    if out.Migrated? {
      TheMarkerIsMonotone(hops, data, v, target);
      Order(target, target, target);
      LessIsTotal(v, target);
      if !Less(target, out.version) { NothingLeft(hops, 0, out.data, target); }
    }
  }

  // ----- in two steps or in one

  function Then<D>(first: Outcome<D>, second: Outcome<D>): Outcome<D> {
    if first.Refused? || second.Refused? then Refused else second.(applied := first.applied + second.applied)
  }

  /** Migrating to `b`, then to `c`. */
  function InTwoSteps<D>(hops: seq<Hop<D>>, data: D, v: Version, b: Version, c: Version): Outcome<D> {
    var first := Migrate(hops, data, v, b);
    if first.Refused? then Refused else Then(first, Migrate(hops, first.data, first.version, c))
  }

  /** A storage older than the whole chain, an engine inside the first hop: nothing stops the marker
      from being fast-forwarded into the chain. */
  predicate SlipsIn<D>(hops: seq<Hop<D>>, i: nat, v: Version, b: Version, c: Version)
    requires i <= |hops|
  {
    i < |hops| && Less(v, hops[i].from) && AtMost(hops[i].from, b) && Less(b, hops[i].to) && AtMost(hops[i].to, c)
  }

  lemma LaterIsTarget(x: Version, c: Version)
    ensures AtMost(x, c) ==> Later(x, c) == c
  {
    LessIsTotal(x, c);
  }

  ghost predicate Composes<D(!new)>(hops: seq<Hop<D>>, i: nat, data: D, v: Version, b: Version, c: Version)
    requires i <= |hops|
  {
    var first, direct := Hops(hops, i, data, v, b), Hops(hops, i, data, v, c);
    if first.Refused? then direct.Refused?
    else
      var second := Hops(hops, i, first.data, b, c);
      if second.Refused? then direct.Refused?
      else
        && direct.Migrated? && direct.data == second.data && direct.applied == first.applied + second.applied
        && Later(direct.version, c) == Later(second.version, c)
  }

  lemma {:induction false} HopsCompose<D(!new)>(hops: seq<Hop<D>>, i: nat, data: D, v: Version, b: Version, c: Version)
    requires Chain(hops) && i <= |hops| && AtMost(v, b) && AtMost(b, c) && !SlipsIn(hops, i, v, b, c)
    ensures Composes(hops, i, data, v, b, c)
    decreases |hops| - i
  {
    Order(v, b, c);
    LaterIsTarget(v, c);
    LaterIsTarget(b, c);
    if i < |hops| && AtMost(hops[i].to, b) {
      var h := hops[i];
      Order(h.to, b, c);
      if AtMost(h.to, v) {
        HopsCompose(hops, i + 1, data, v, b, c);
      } else if !Less(v, h.from) {
        Order(h.to, h.to, h.to);
        HopsCompose(hops, i + 1, h.run(data), h.to, b, c);
      }
    } else if i < |hops| {
      StopsShort(hops, i, data, v, b, c);
    }
  }

  lemma StopsShort<D(!new)>(hops: seq<Hop<D>>, i: nat, data: D, v: Version, b: Version, c: Version)
    requires Chain(hops) && i < |hops| && AtMost(v, b) && AtMost(b, c) && !SlipsIn(hops, i, v, b, c)
               && Less(b, hops[i].to)
    ensures Composes(hops, i, data, v, b, c)
  {
    var h := hops[i];
    Order(v, b, h.to);
    Order(v, b, h.from);
    Order(v, b, c);
    LaterIsTarget(v, c);
    LaterIsTarget(b, c);
  }

  lemma {:induction false} NoRefusal<D(!new)>(hops: seq<Hop<D>>, i: nat, data: D, v: Version, target: Version)
    requires Chain(hops) && i <= |hops| && (i < |hops| ==> AtMost(hops[i].from, v))
    ensures Hops(hops, i, data, v, target).Migrated?
    decreases |hops| - i
  {
    if i < |hops| && !Less(target, hops[i].to) {
      Order(hops[i].to, hops[i].to, v);
      if AtMost(hops[i].to, v) { NoRefusal(hops, i + 1, data, v, target); }
      else { NoRefusal(hops, i + 1, hops[i].run(data), hops[i].to, target); }
    }
  }

  /** Migrating to `b` and then to `c` is migrating straight to `c` - same storage, same marker, same
      hops - except exactly when the storage predates the chain and `b` lies inside its first hop:
      then the direct way is refused and the two steps are not. */
  lemma MigrationComposesIff<D(!new)>(hops: seq<Hop<D>>, data: D, v: Version, b: Version, c: Version)
    requires Chain(hops) && AtMost(b, c)
    ensures InTwoSteps(hops, data, v, b, c) == Migrate(hops, data, v, c) <==> !SlipsIn(hops, 0, v, b, c)
  {
    TheMarkerIsMonotone(hops, data, v, b);
    LaterIsTarget(v, b);
    if Less(b, v) {
      NoSlipFromAbove(hops, data, v, b, c);
    } else {
      Order(v, b, c);
      var first := Migrate(hops, data, v, b);
      if SlipsIn(hops, 0, v, b, c) {
        var h := hops[0];
        Order(v, h.from, h.to);
        assert Migrate(hops, data, v, c).Refused?;
        assert first == Migrated(data, b, []);
        NoRefusal(hops, 0, data, b, c);
      } else {
        HopsCompose(hops, 0, data, v, b, c);
        if first.Migrated? {
          TheMarkerIsMonotone(hops, first.data, b, c);
          TheMarkerIsMonotone(hops, data, v, c);
        }
      }
    }
  }

  /** A witness: storage 0.2.0 is refused by engine 0.3.1, but not if engine 0.3.0 ran once before. */
  lemma OldStorageSlipsIn<D(!new)>(run: D -> D, data: D)
    ensures var hops := [Hop([0, 3, 0], [0, 3, 1], run)];
            && Chain(hops) && Migrate(hops, data, [0, 2, 0], [0, 3, 1]).Refused?
            && InTwoSteps(hops, data, [0, 2, 0], [0, 3, 0], [0, 3, 1]) == Migrated(run(data), [0, 3, 1], [0])
  {
    var hops := [Hop([0, 3, 0], [0, 3, 1], run)];
    VersionsOfThree();
    var first := Migrate(hops, data, [0, 2, 0], [0, 3, 0]);
    assert first == Migrated(data, [0, 3, 0], []);
    assert Hops(hops, 1, run(data), [0, 3, 1], [0, 3, 1]) == Migrated(run(data), [0, 3, 1], []);
    assert Hops(hops, 0, data, [0, 3, 0], [0, 3, 1]) == Migrated(run(data), [0, 3, 1], [0]);
  }

  lemma VersionsOfThree()
    ensures Less([0, 2, 0], [0, 3, 0]) && Less([0, 3, 0], [0, 3, 1]) && Less([0, 2, 0], [0, 3, 1])
    ensures !Less([0, 3, 0], [0, 2, 0]) && !Less([0, 3, 1], [0, 3, 0]) && !Less([0, 3, 1], [0, 2, 0])
    ensures !Less([0, 3, 0], [0, 3, 0]) && !Less([0, 3, 1], [0, 3, 1])
  {
    forall a: nat, b: nat, c: nat ensures [a, b, c][1..] == [b, c] && [b, c][1..] == [c] && [c][1..] == [] {}
    assert forall a: nat, b: nat :: Less([a], [b]) <==> a < b;
    assert forall a: nat, b: nat, c: nat, d: nat :: Less([a, b], [c, d]) <==> a < c || (a == c && Less([b], [d]));
  }

  lemma NoSlipFromAbove<D(!new)>(hops: seq<Hop<D>>, data: D, v: Version, b: Version, c: Version)
    requires Less(b, v)
    ensures !SlipsIn(hops, 0, v, b, c)
    ensures InTwoSteps(hops, data, v, b, c) == Migrate(hops, data, v, c)
  {
    if hops != [] {
      Order(hops[0].from, b, v);
      Order(hops[0].from, v, v);
    }
    var direct := Migrate(hops, data, v, c);
    if direct.Migrated? { assert [] + direct.applied == direct.applied; }
  }

  // ----- crashes

  /** The storage after the first `n` writes of a run: hop, marker, hop, marker, and at last the
      fast-forward. */
  function CrashAt<D>(hops: seq<Hop<D>>, i: nat, data: D, v: Version, target: Version, n: nat): (D, Version)
    requires i <= |hops|
    decreases |hops| - i
  {
    if i == |hops| || Less(target, hops[i].to) then (data, if n > 0 then Later(v, target) else v)
    else if AtMost(hops[i].to, v) then CrashAt(hops, i + 1, data, v, target, n)
    else if Less(v, hops[i].from) || n == 0 then (data, v)
    else if n == 1 then (hops[i].run(data), v)
    else CrashAt(hops, i + 1, hops[i].run(data), hops[i].to, target, n - 2)
  }

  function Crashed<D>(hops: seq<Hop<D>>, data: D, v: Version, target: Version, n: nat): (D, Version) {
    if Less(target, v) then (data, v) else CrashAt(hops, 0, data, v, target, n)
  }

  /** Same storage and marker in the end, or refused alike. */
  predicate SameEnd<D(==)>(a: Outcome<D>, b: Outcome<D>, target: Version) {
    if a.Refused? then b.Refused?
        else b.Migrated? && a.data == b.data && Later(a.version, target) == Later(b.version, target)
  }

  lemma {:induction false} CrashMovesOn<D(!new)>(hops: seq<Hop<D>>, i: nat, data: D, v: Version, target: Version,
                                          n: nat)
    requires i <= |hops| && AtMost(v, target)
    ensures var w := CrashAt(hops, i, data, v, target, n).1; AtMost(v, w) && AtMost(w, target)
    decreases |hops| - i
  {
    Order(v, v, target);
    LaterIsTarget(v, target);
    Order(target, target, target);
    if i < |hops| && !Less(target, hops[i].to) {
      if AtMost(hops[i].to, v) {
        CrashMovesOn(hops, i + 1, data, v, target, n);
      } else if !Less(v, hops[i].from) && n >= 2 {
        CrashMovesOn(hops, i + 1, hops[i].run(data), hops[i].to, target, n - 2);
        LessIsTotal(v, hops[i].to);
        Order(v, hops[i].to, CrashAt(hops, i + 1, hops[i].run(data), hops[i].to, target, n - 2).1);
      }
    }
  }

  lemma {:induction false} ResumesFrom<D(!new)>(hops: seq<Hop<D>>, i: nat, data: D, v: Version, target: Version, n: nat)
    requires Chain(hops) && Idempotent(hops) && i <= |hops| && AtMost(v, target)
    ensures var (d, w) := CrashAt(hops, i, data, v, target, n);
            SameEnd(Hops(hops, i, data, v, target), Hops(hops, i, d, w, target), target)
    decreases |hops| - i
  {
    LaterIsTarget(v, target);
    LaterIsTarget(target, target);
    Order(target, target, target);
    if i < |hops| && !Less(target, hops[i].to) {
      var h := hops[i];
      if AtMost(h.to, v) {
        ResumesFrom(hops, i + 1, data, v, target, n);
        CrashMovesOn(hops, i + 1, data, v, target, n);
        Order(h.to, v, CrashAt(hops, i + 1, data, v, target, n).1);
      } else if !Less(v, h.from) && n >= 2 {
        ResumesFrom(hops, i + 1, h.run(data), h.to, target, n - 2);
        CrashMovesOn(hops, i + 1, h.run(data), h.to, target, n - 2);
      } else if !Less(v, h.from) && n == 1 {
        assert h.run(h.run(data)) == h.run(data);
      }
    }
  }

  /** Where a storage is after one crash after another. */
  function CrashedTimes<D>(hops: seq<Hop<D>>, data: D, v: Version, target: Version, ns: seq<nat>): (D, Version) {
    if ns == [] then (data, v)
    else
      var (d, w) := CrashedTimes(hops, data, v, target, ns[..|ns| - 1]);
      Crashed(hops, d, w, target, ns[|ns| - 1])
  }

  /** However often and wherever a run crashes, running again ends with the same storage and the same
      marker as never having crashed. */
  lemma {:induction false} CrashesDoNotMatter<D(!new)>(hops: seq<Hop<D>>, data: D, v: Version, target: Version,
                                                ns: seq<nat>)
    requires Chain(hops) && Idempotent(hops)
    ensures var (d, w) := CrashedTimes(hops, data, v, target, ns);
            SameEnd(Migrate(hops, data, v, target), Migrate(hops, d, w, target), target)
    ensures AtMost(v, target) ==> AtMost(CrashedTimes(hops, data, v, target, ns).1, target)
    ensures Less(target, v) ==> CrashedTimes(hops, data, v, target, ns) == (data, v)
  {
    if ns != [] {
      var (d, w) := CrashedTimes(hops, data, v, target, ns[..|ns| - 1]);
      CrashesDoNotMatter(hops, data, v, target, ns[..|ns| - 1]);
      if AtMost(v, target) {
        ResumesFrom(hops, 0, d, w, target, ns[|ns| - 1]);
        CrashMovesOn(hops, 0, d, w, target, ns[|ns| - 1]);
        EndsAtTarget(hops, data, v, target);
        EndsAtTarget(hops, d, w, target);
        var (d2, w2) := Crashed(hops, d, w, target, ns[|ns| - 1]);
        EndsAtTarget(hops, d2, w2, target);
      }
    }
  }

  lemma EndsAtTarget<D(!new)>(hops: seq<Hop<D>>, data: D, v: Version, target: Version)
    requires AtMost(v, target)
    ensures var out, raw := Migrate(hops, data, v, target), Hops(hops, 0, data, v, target);
            && (out.Migrated? <==> raw.Migrated?)
            && (out.Migrated? ==> out.version == target && out.data == raw.data && Later(out.version, target) == target)
  {
    TheMarkerIsMonotone(hops, data, v, target);
    LaterIsTarget(v, target);
    LaterIsTarget(target, target);
    Order(target, target, target);
  }

  /** The storage is past the hop before the `i`th. */
  ghost predicate Past<D(!new)>(hops: seq<Hop<D>>, i: nat, v: Version) {
    0 < i <= |hops| && AtMost(hops[i - 1].to, v)
  }

  /** Then the chain goes on: the next hop is not refused, and leaves the storage past itself. */
  lemma PastMovesOn<D(!new)>(hops: seq<Hop<D>>, i: nat, v: Version)
    requires Chain(hops) && i < |hops|
    ensures Past(hops, i, v) ==> !Less(v, hops[i].from)
    ensures Past(hops, i + 1, hops[i].to) && (AtMost(hops[i].to, v) ==> Past(hops, i + 1, v))
  {
    Order(hops[i].to, hops[i].to, v);
  }

  // ----- the storage those functions specify

  class Storage<!D(!new)> {
    var disk: Disk<D>

    constructor (disk: Disk<D>)
      ensures this.disk == disk
    {
      this.disk := disk;
    }

    method ApplyHop(h: Hop<D>)
      modifies this
      ensures disk == old(disk).(data := h.run(old(disk.data)), marker := Some(h.to)) && disk.Version() == h.to
    {
      disk := disk.(data := h.run(disk.data));
      disk := disk.(marker := Some(h.to));
    }

    /** The loop over hops. */
    method RunHops(hops: seq<Hop<D>>, target: Version) returns (ok: bool, applied: seq<nat>)
      modifies this
      ensures var out := Hops(hops, 0, old(disk.data), old(disk.Version()), target);
              && ok == out.Migrated?
              && (ok ==> disk.data == out.data && disk.Version() == out.version && applied == out.applied)
              && disk.legacy == old(disk.legacy)
      ensures !ok && Chain(hops) ==> disk == old(disk) && applied == []
    {
      applied := [];
      var i := 0;
      while i < |hops| && !Less(target, hops[i].to)
        invariant i <= |hops| && disk.legacy == old(disk.legacy)
        invariant Hops(hops, 0, old(disk.data), old(disk.Version()), target) ==
                  After(applied, Hops(hops, i, disk.data, disk.Version(), target))
        invariant applied == [] ==> disk == old(disk)
        invariant Chain(hops) && applied != [] ==> Past(hops, i, disk.Version())
        decreases |hops| - i
      {
        ghost var v := disk.Version();
        if Chain(hops) { PastMovesOn(hops, i, v); }
        if Less(disk.Version(), hops[i].to) {
          if Less(disk.Version(), hops[i].from) { return false, applied; }
          AfterOneMore(applied, i, Hops(hops, i + 1, hops[i].run(disk.data), hops[i].to, target));
          ApplyHop(hops[i]);
          applied := applied + [i];
        }
        i := i + 1;
      }
      ok := true;
    }

    /** False when the storage predates the chain; it is then untouched. */
    method Run(hops: seq<Hop<D>>, target: Version) returns (ok: bool, applied: seq<nat>)
      modifies this
      ensures var out := Migrate(hops, old(disk.data), old(disk.Version()), target);
              && ok == out.Migrated?
              && (ok ==> disk.data == out.data && disk.Version() == out.version && applied == out.applied)
              && disk.legacy == old(disk.legacy)
      ensures !ok && Chain(hops) ==> disk == old(disk) && applied == []
    {
      if Less(target, disk.Version()) { return true, []; }
      ok, applied := RunHops(hops, target);
      if ok && Less(disk.Version(), target) { disk := disk.(marker := Some(target)); }
    }
  }
}
