/** The tree of manifests built from a list of chunks, and what reading it back gives. */
module TreeBuilding {
  import opened Text
  import opened Manifests
  import opened ManifestTrees

  // ---- one level ----

  /** Entries that a manifest of this kind may list, however many there are. */
  predicate Level(kind: Kind, chunk: nat, es: seq<ManifestEntry>) {
    && 1 <= chunk <= MAX_CHUNK && Sum(es) < U64 && Shaped(kind, chunk, es)
    && forall i | 0 <= i < |es| :: ValidEntry(es[i])
  }

  /** A sum of bytes as 64 bits hold it. */
  function Wrapped(n: nat): (w: nat)
    ensures n < U64 ==> w == n
  {
    n % U64
  }

  function Group(chunk: nat, kind: Kind, es: seq<ManifestEntry>): Manifest {
    Manifest(Wrapped(Sum(es)), chunk, kind, es)
  }

  /** One level cut into manifests of `f` entries. */
  function Groups(chunk: nat, kind: Kind, f: nat, es: seq<ManifestEntry>): (ms: seq<Manifest>)
    requires f >= 1
    ensures |ms| <= |es| && (es != [] ==> ms != []) && (2 <= f < |es| ==> |ms| < |es|)
    decreases |es|
  {
    if es == [] then []
    else if |es| <= f then [Group(chunk, kind, es)]
    else [Group(chunk, kind, es[..f])] + Groups(chunk, kind, f, es[f..])
  }

  /** What the text of a manifest is called. */
  type Writer = Manifest -> string

  /** How the level above lists these manifests: by name, with how much of the file each stands for. */
  function Listed(name: Writer, ms: seq<Manifest>): (es: seq<ManifestEntry>)
    ensures |es| == |ms|
  {
    if ms == [] then [] else [ManifestEntry(name(ms[0]), ms[0].size)] + Listed(name, ms[1..])
  }

  /** The manifests of a tree, leaves first and the root last, and how many levels they make. */
  datatype Plan = Plan(ms: seq<Manifest>, depth: nat)

  /** Level upon level until one manifest holds all that is left. */
  function Planned(name: Writer, size: nat, chunk: nat, f: nat, kind: Kind, es: seq<ManifestEntry>): (t: Plan)
    requires f >= 2
    ensures t.depth >= 1 && t.ms != []
    decreases |es|
  {
    if |es| <= f then Plan([Manifest(size, chunk, kind, es)], 1)
    else
      var ms := Groups(chunk, kind, f, es);
      var t := Planned(name, size, chunk, f, Index, Listed(name, ms));
      Plan(ms + t.ms, t.depth + 1)
  }

  function Last(ms: seq<Manifest>): Manifest
    requires ms != []
  {
    ms[|ms| - 1]
  }

  // ---- how deep ----

  function Power(f: nat, d: nat): nat {
    if d == 0 then 1 else Power(f, d - 1) * f
  }

  lemma {:induction false} GroupsCount(chunk: nat, kind: Kind, f: nat, es: seq<ManifestEntry>, q: nat)
    requires f >= 1
    ensures |Groups(chunk, kind, f, es)| <= q <==> |es| <= q * f
    decreases |es|
  {
    if q == 0 {
      assert q * f == 0;
    } else {
      MulStep(q, f);
      Product(q - 1, f);
      if |es| > f {
        GroupsCount(chunk, kind, f, es[f..], q - 1);
      }
    }
  }

  lemma Product(a: nat, b: nat)
    ensures a * b >= 0
  {
  }

  lemma PlannedStep(name: Writer, size: nat, chunk: nat, f: nat, kind: Kind, es: seq<ManifestEntry>,
                    ms: seq<Manifest>, next: seq<ManifestEntry>)
    requires 2 <= f < |es| && ms == Groups(chunk, kind, f, es) && next == Listed(name, ms)
    ensures var t := Planned(name, size, chunk, f, Index, next);
            && Planned(name, size, chunk, f, kind, es) == Plan(ms + t.ms, t.depth + 1)
            && Last(ms + t.ms) == Last(t.ms)
  {
  }

  /** d levels are enough for exactly f^d chunks. */
  lemma {:induction false} DepthIs(name: Writer, size: nat, chunk: nat, f: nat, kind: Kind, es: seq<ManifestEntry>,
                                   d: nat)
    requires f >= 2 && d >= 1
    ensures Planned(name, size, chunk, f, kind, es).depth <= d <==> |es| <= Power(f, d)
    decreases |es|, 1
  {
    if |es| <= f || d == 1 {
      PowerGrows(f, d);
    } else {
      DepthMore(name, size, chunk, f, kind, es, d);
    }
  }

  lemma DepthMore(name: Writer, size: nat, chunk: nat, f: nat, kind: Kind, es: seq<ManifestEntry>, d: nat)
    requires 2 <= f < |es| && d >= 2
    ensures Planned(name, size, chunk, f, kind, es).depth <= d <==> |es| <= Power(f, d)
    decreases |es|, 0
  {
    var ms := Groups(chunk, kind, f, es);
    var next := Listed(name, ms);
    DepthIs(name, size, chunk, f, Index, next, d - 1);
    DeeperBy(|es|, Planned(name, size, chunk, f, Index, next).depth, chunk, kind, f, es, d);
    PlannedStep(name, size, chunk, f, kind, es, ms, next);
  }

  lemma DeeperBy(n: nat, t: nat, chunk: nat, kind: Kind, f: nat, es: seq<ManifestEntry>, d: nat)
    requires f >= 2 && d >= 2 && n == |es| && (t <= d - 1 <==> |Groups(chunk, kind, f, es)| <= Power(f, d - 1))
    ensures t + 1 <= d <==> n <= Power(f, d)
  {
    PowerCount(chunk, kind, f, es, d);
  }

  lemma PowerCount(chunk: nat, kind: Kind, f: nat, es: seq<ManifestEntry>, d: nat)
    requires f >= 2 && d >= 1
    ensures |Groups(chunk, kind, f, es)| <= Power(f, d - 1) <==> |es| <= Power(f, d)
  {
    GroupsCount(chunk, kind, f, es, Power(f, d - 1));
  }

  lemma {:induction false} PowerGrows(f: nat, d: nat)
    requires f >= 2 && d >= 1
    ensures Power(f, d) >= f && (d == 1 ==> Power(f, d) == f)
    decreases d
  {
    if d == 1 {
      assert Power(f, 0) == 1;
    } else {
      PowerGrows(f, d - 1);
      assert Power(f, d - 1) * f >= 1 * f;
    }
  }

  // ---- every manifest built is a valid one ----

  lemma {:induction false} SumJoin(a: seq<ManifestEntry>, b: seq<ManifestEntry>)
    ensures Sum(a + b) == Sum(a) + Sum(b)
    decreases |b|
  {
    if b == [] {
      assert a + b == a;
    } else {
      SumJoin(a, b[..|b| - 1]);
      assert (a + b)[..|a + b| - 1] == a + b[..|b| - 1];
    }
  }

  lemma SumSplit(es: seq<ManifestEntry>, k: nat)
    requires k <= |es|
    ensures Sum(es) == Sum(es[..k]) + Sum(es[k..])
  {
    assert es == es[..k] + es[k..];
    SumJoin(es[..k], es[k..]);
  }

  lemma {:induction false} SumWhole(es: seq<ManifestEntry>, chunk: nat)
    requires chunk >= 1 && forall i | 0 <= i < |es| :: Whole(es[i].bytes, chunk) && es[i].bytes >= 1
    ensures Whole(Sum(es), chunk) && (es != [] ==> Sum(es) >= 1)
  {
    if es == [] {
      Multiple(0, chunk);
    } else {
      var k := |es| - 1;
      SumWhole(es[..k], chunk);
      WholeAdds(Sum(es[..k]), es[k].bytes, chunk);
    }
  }

  lemma WholePiece(kind: Kind, chunk: nat, bytes: nat)
    requires chunk >= 1 && FitsAt(kind, chunk, bytes, false)
    ensures Whole(bytes, chunk) && bytes >= 1 && FitsAt(kind, chunk, bytes, true)
  {
    if kind == Data {
      Multiple(1, chunk);
    }
    WholeIsMod(bytes, chunk);
  }

  /** A level cut in two gives two levels, and the first covers a whole number of chunks. */
  lemma LevelCuts(kind: Kind, chunk: nat, es: seq<ManifestEntry>, a: seq<ManifestEntry>, b: seq<ManifestEntry>)
    requires Level(kind, chunk, es) && es == a + b && a != [] && b != []
    ensures Level(kind, chunk, a) && Level(kind, chunk, b)
    ensures Sum(es) == Sum(a) + Sum(b) && Whole(Sum(a), chunk) && Sum(a) >= 1
  {
    SumJoin(a, b);
    forall i | 0 <= i < |a|
      ensures Whole(a[i].bytes, chunk) && a[i].bytes >= 1 && FitsAt(kind, chunk, a[i].bytes, i + 1 == |a|)
      ensures ValidEntry(a[i])
    {
      assert a[i] == es[i];
      assert FitsAt(kind, chunk, es[i].bytes, i + 1 == |es|) && i + 1 < |es|;
      WholePiece(kind, chunk, a[i].bytes);
    }
    SumWhole(a, chunk);
    forall i | 0 <= i < |b|
      ensures FitsAt(kind, chunk, b[i].bytes, i + 1 == |b|) && ValidEntry(b[i])
    {
      assert b[i] == es[|a| + i];
      assert FitsAt(kind, chunk, es[|a| + i].bytes, |a| + i + 1 == |es|);
    }
  }

  lemma LevelIsValid(kind: Kind, chunk: nat, g: seq<ManifestEntry>)
    requires Level(kind, chunk, g) && |g| <= MANIFEST_FANOUT
    ensures Valid(Group(chunk, kind, g))
  {
  }

  lemma OneEntry(chunk: nat, e: ManifestEntry)
    requires 1 <= chunk <= MAX_CHUNK && ValidEntry(e) && e.bytes >= 1
    ensures Level(Index, chunk, [e]) && Sum([e]) == e.bytes
  {
    assert [e][..0] == [];
    assert Sum([]) == 0;
  }

  lemma LevelCons(chunk: nat, e: ManifestEntry, ns: seq<ManifestEntry>)
    requires Level(Index, chunk, ns) && ValidEntry(e) && e.bytes >= 1 && Whole(e.bytes, chunk)
    requires e.bytes + Sum(ns) < U64
    ensures Level(Index, chunk, [e] + ns) && Sum([e] + ns) == e.bytes + Sum(ns)
  {
    OneEntry(chunk, e);
    SumJoin([e], ns);
    WholeIsMod(e.bytes, chunk);
    var es := [e] + ns;
    forall i | 0 <= i < |es|
      ensures FitsAt(Index, chunk, es[i].bytes, i + 1 == |es|) && ValidEntry(es[i])
    {
      if i > 0 {
        assert es[i] == ns[i - 1];
        assert FitsAt(Index, chunk, ns[i - 1].bytes, i == |ns|);
      }
    }
  }

  lemma LevelPositive(kind: Kind, chunk: nat, es: seq<ManifestEntry>)
    requires Level(kind, chunk, es) && es != []
    ensures Sum(es) >= 1
  {
    var k := |es| - 1;
    assert FitsAt(kind, chunk, es[k].bytes, true);
  }

  ghost predicate Hex(name: Writer) {
    forall m :: HexKey(name(m))
  }

  /** The next level is a level again, over the same bytes. */
  lemma {:induction false} NextIsLevel(name: Writer, chunk: nat, kind: Kind, f: nat, es: seq<ManifestEntry>)
    requires Hex(name) && Level(kind, chunk, es) && es != [] && f >= 1
    ensures var ns := Listed(name, Groups(chunk, kind, f, es)); Level(Index, chunk, ns) && Sum(ns) == Sum(es)
    decreases |es|
  {
    if |es| <= f {
      var m := Group(chunk, kind, es);
      ListedCons(name, m, []);
      var e := ManifestEntry(name(m), Sum(es));
      assert [m] + [] == [m] && [e] + [] == [e];
      LevelPositive(kind, chunk, es);
      OneEntry(chunk, e);
    } else {
      var g, rest := es[..f], es[f..];
      var m := Group(chunk, kind, g);
      var ms := Groups(chunk, kind, f, rest);
      ListedCons(name, m, ms);
      LevelCuts(kind, chunk, es, g, rest);
      NextIsLevel(name, chunk, kind, f, rest);
      LevelCons(chunk, ManifestEntry(name(m), Sum(g)), Listed(name, ms));
    }
  }

  /** A level and the one above it cover the same bytes. */
  lemma {:induction false} SumListed(name: Writer, chunk: nat, kind: Kind, f: nat, es: seq<ManifestEntry>)
    requires f >= 1 && Sum(es) < U64
    ensures Sum(Listed(name, Groups(chunk, kind, f, es))) == Sum(es)
    decreases |es|
  {
    if es == [] {
    } else if |es| <= f {
      SumOne(name, Group(chunk, kind, es));
    } else {
      var g, rest := es[..f], es[f..];
      SumSplit(es, f);
      SumListed(name, chunk, kind, f, rest);
      SumFirst(name, Group(chunk, kind, g), Groups(chunk, kind, f, rest));
    }
  }

  lemma SumOne(name: Writer, m: Manifest)
    ensures Sum(Listed(name, [m])) == m.size
  {
    assert [m][1..] == [];
    var e := ManifestEntry(name(m), m.size);
    assert Listed(name, [m]) == [e];
    assert [e][..0] == [];
  }

  lemma SumFirst(name: Writer, m: Manifest, ms: seq<Manifest>)
    ensures Sum(Listed(name, [m] + ms)) == m.size + Sum(Listed(name, ms))
  {
    ListedCons(name, m, ms);
    SumOne(name, m);
    assert [m][1..] == [] && Listed(name, [m]) == [ManifestEntry(name(m), m.size)];
    SumJoin([ManifestEntry(name(m), m.size)], Listed(name, ms));
  }

  lemma ListedCons(name: Writer, m: Manifest, ms: seq<Manifest>)
    ensures Listed(name, [m] + ms) == [ManifestEntry(name(m), m.size)] + Listed(name, ms)
  {
    assert ([m] + ms)[1..] == ms;
  }

  // ---- reading it back ----

  /** A source that gives, under a manifest's name, that manifest or nothing: never another. */
  ghost predicate Honest(fetch: Source, name: Writer, ms: seq<Manifest>) {
    forall n, i | 0 <= i < |ms| :: fetch(n, name(ms[i])).Some? ==> fetch(n, name(ms[i])).value == ms[i]
  }

  ghost predicate Serves(fetch: Source, name: Writer, ms: seq<Manifest>) {
    forall n, i | 0 <= i < |ms| :: fetch(n, name(ms[i])).Some?
  }

  lemma {:induction false} ChildrenJoin(a: seq<ManifestEntry>, b: seq<ManifestEntry>, o: nat, d: nat)
    ensures Children(a + b, o, d) == Children(a, o, d) + Children(b, o + Sum(a), d)
    decreases |b|
  {
    if b == [] {
      assert a + b == a;
    } else {
      var k := |b| - 1;
      ChildrenJoin(a, b[..k], o, d);
      SumJoin(a, b[..k]);
      ChildrenSnoc(a + b, a + b[..k], b[k], o, d);
    }
  }

  lemma {:induction false} RefsJoin(a: seq<ManifestEntry>, b: seq<ManifestEntry>, o: nat)
    ensures Refs(a + b, o) == Refs(a, o) + Refs(b, o + Sum(a))
    decreases |b|
  {
    if b == [] {
      assert a + b == a;
    } else {
      var k := |b| - 1;
      RefsJoin(a, b[..k], o);
      SumJoin(a, b[..k]);
      assert (a + b)[..|a + b| - 1] == a + b[..k];
    }
  }

  lemma ChildrenCons(e: ManifestEntry, ns: seq<ManifestEntry>, o: nat, d: nat)
    ensures Children([e] + ns, o, d) == [Pending(e.key, o, e.bytes, d)] + Children(ns, o + e.bytes, d)
  {
    ChildrenJoin([e], ns, o, d);
    assert [e][..0] == [];
    assert Sum([]) == 0 && Children([], o, d) == [];
  }

  /** What entries `es`, which start at `o`, add to the chunks and to the manifests still to read. */
  function Adds(kind: Kind, es: seq<ManifestEntry>, o: nat): seq<ChunkRef> {
    if kind == Data then Refs(es, o) else []
  }

  function Leads(kind: Kind, es: seq<ManifestEntry>, o: nat, d: nat): seq<Pending> {
    if kind == Data then [] else Children(es, o, d)
  }

  lemma AddsJoin(kind: Kind, es: seq<ManifestEntry>, a: seq<ManifestEntry>, b: seq<ManifestEntry>, o: nat)
    requires es == a + b
    ensures Adds(kind, es, o) == Adds(kind, a, o) + Adds(kind, b, o + Sum(a))
  {
    if kind == Data {
      RefsJoin(a, b, o);
    }
  }

  lemma LeadsJoin(kind: Kind, es: seq<ManifestEntry>, a: seq<ManifestEntry>, b: seq<ManifestEntry>, o: nat, d: nat)
    requires es == a + b
    ensures Leads(kind, es, o, d) == Leads(kind, a, o, d) + Leads(kind, b, o + Sum(a), d)
  {
    if kind == Index {
      ChildrenJoin(a, b, o, d);
    }
  }

  /** Reading added `rs` to the chunks; `some` says whether any manifest was read. */
  predicate Took(f: Found, f': Found, rs: seq<ChunkRef>, d: nat, some: bool) {
    f'.size == f.size && f'.chunk == f.chunk && f'.chunks == f.chunks + rs && f'.depth == if some
        then Most(f.depth, d) else f.depth
  }

  /** What a manifest whose bytes start at `o` contributes. */
  type Part<T> = (Manifest, nat) -> seq<T>

  function AddsOf(): Part<ChunkRef> {
    (m: Manifest, o: nat) => Adds(m.kind, m.entries, o)
  }

  function LeadsOf(d: nat): Part<Pending> {
    (m: Manifest, o: nat) => Leads(m.kind, m.entries, o, d)
  }

  function CallOf(name: Writer, d: nat): Part<Pending> {
    (m: Manifest, o: nat) => [Pending(name(m), o, m.size, d)]
  }

  /** Manifest after manifest, each starting where the previous one ended. */
  function Flat<T>(part: Part<T>, ms: seq<Manifest>, o: nat): seq<T> {
    if ms == [] then [] else part(ms[0], o) + Flat(part, ms[1..], o + ms[0].size)
  }

  lemma ReadGroup(fetch: Source, name: Writer, m: Manifest, o: nat, d: nat, f: Found)
    requires 1 < d <= MAX_MANIFEST_DEPTH && m.chunk == f.chunk
    requires forall n :: fetch(n, name(m)).Some? ==> fetch(n, name(m)).value == m
    ensures var r := ReadOne(fetch, Pending(name(m), o, m.size, d), f);
            && ReadAs(r, f, AddsOf()(m, o), LeadsOf(d + 1)(m, o), d, true)
            && ((forall n :: fetch(n, name(m)).Some?) ==> r.Some?)
  {
    assert f.chunks + [] == f.chunks;
  }

  lemma TookBoth(f: Found, f1: Found, f2: Found, a: seq<ChunkRef>, b: seq<ChunkRef>, d: nat, some: bool)
    requires Took(f, f1, a, d, true) && Took(f1, f2, b, d, some)
    ensures Took(f, f2, a + b, d, true)
  {
    assert (f.chunks + a) + b == f.chunks + (a + b);
  }

  type Step = Option<(Found, seq<Pending>)>

  /** If reading succeeded, it added `rs` and left `next` to read. */
  predicate ReadAs(r: Step, f: Found, rs: seq<ChunkRef>, next: seq<Pending>, d: nat, some: bool) {
    r.Some? ==> Took(f, r.value.0, rs, d, some) && r.value.1 == next
  }

  ghost predicate Reads(fetch: Source, name: Writer, chunk: nat, d: nat, adds: Part<ChunkRef>, leads: Part<Pending>,
                        m: Manifest) {
    && m.chunk == chunk
    && forall o: nat, f: Found {:trigger ReadOne(fetch, Pending(name(m), o, m.size, d), f)} ::
         f.chunk == chunk ==>
             ReadAs(ReadOne(fetch, Pending(name(m), o, m.size, d), f), f, adds(m, o), leads(m, o), d, true)
  }

  /** Reading manifest after manifest takes what each contributes, in order. */
  lemma {:induction false} ReadAll(fetch: Source, name: Writer, ms: seq<Manifest>, o: nat, d: nat, f: Found,
                                   adds: Part<ChunkRef>, leads: Part<Pending>, r: Step)
    requires forall i | 0 <= i < |ms| :: Reads(fetch, name, f.chunk, d, adds, leads, ms[i])
    requires r == ReadLevel(fetch, Flat(CallOf(name, d), ms, o), f)
    ensures ReadAs(r, f, Flat(adds, ms, o), Flat(leads, ms, o), d, ms != [])
    decreases |ms|
  {
    if ms == [] {
      assert f.chunks + [] == f.chunks;
    } else {
      var m, rest := ms[0], ms[1..];
      var p := Pending(name(m), o, m.size, d);
      var later := Flat(CallOf(name, d), rest, o + m.size);
      var one := ReadOne(fetch, p, f);
      ReadCons(fetch, p, later, f, one, r);
      assert Reads(fetch, name, f.chunk, d, adds, leads, m);
      if one.Some? {
        var r1 := ReadLevel(fetch, later, one.value.0);
        ReadAll(fetch, name, rest, o + m.size, d, one.value.0, adds, leads, r1);
        if r1.Some? {
          TookBoth(f, one.value.0, r1.value.0, adds(m, o), Flat(adds, rest, o + m.size), d, rest != []);
        }
      }
    }
  }

  lemma ReadCons(fetch: Source, p: Pending, ps: seq<Pending>, f: Found, one: Step, r: Step)
    requires one == ReadOne(fetch, p, f) && r == ReadLevel(fetch, [p] + ps, f)
    ensures one.None? ==> r.None?
    ensures one.Some? ==> var more := ReadLevel(fetch, ps, one.value.0);
            r == if more.Some? then Some((more.value.0, one.value.1 + more.value.1)) else None
  {
    assert ([p] + ps)[1..] == ps;
  }

  lemma HonestParts(fetch: Source, name: Writer, a: seq<Manifest>, b: seq<Manifest>)
    requires Honest(fetch, name, a + b)
    ensures Honest(fetch, name, a) && Honest(fetch, name, b)
    ensures Serves(fetch, name, a + b) ==> Serves(fetch, name, a) && Serves(fetch, name, b)
  {
    assert forall i | 0 <= i < |a| :: a[i] == (a + b)[i];
    assert forall i | 0 <= i < |b| :: b[i] == (a + b)[|a| + i];
  }

  ghost predicate Answers(fetch: Source, name: Writer, chunk: nat, d: nat, m: Manifest) {
    forall o: nat, f: Found {:trigger ReadOne(fetch, Pending(name(m), o, m.size, d), f)} ::
      f.chunk == chunk ==> ReadOne(fetch, Pending(name(m), o, m.size, d), f).Some?
  }

  lemma {:induction false} AllAnswer(fetch: Source, name: Writer, ms: seq<Manifest>, o: nat, d: nat, f: Found,
                                     adds: Part<ChunkRef>, leads: Part<Pending>, r: Step)
    requires forall i | 0 <= i < |ms| ::
               Reads(fetch, name, f.chunk, d, adds, leads, ms[i]) && Answers(fetch, name, f.chunk, d, ms[i])
    requires r == ReadLevel(fetch, Flat(CallOf(name, d), ms, o), f)
    ensures r.Some?
    decreases |ms|
  {
    if ms != [] {
      var m, rest := ms[0], ms[1..];
      var later := Flat(CallOf(name, d), rest, o + m.size);
      var one := ReadOne(fetch, Pending(name(m), o, m.size, d), f);
      ReadCons(fetch, Pending(name(m), o, m.size, d), later, f, one, r);
      assert Answers(fetch, name, f.chunk, d, m) && Reads(fetch, name, f.chunk, d, adds, leads, m);
      AllAnswer(fetch, name, rest, o + m.size, d, one.value.0, adds, leads, ReadLevel(fetch, later, one.value.0));
    }
  }

  /** What a level contributes, taken from its start. */
  type Stretch<T> = (seq<ManifestEntry>, nat) -> seq<T>

  predicate Splits<T(==)>(piece: Stretch<T>, a: seq<ManifestEntry>, b: seq<ManifestEntry>, o: nat) {
    piece(a + b, o) == piece(a, o) + piece(b, o + Sum(a))
  }

  predicate Suits<T(==)>(part: Part<T>, piece: Stretch<T>, chunk: nat, kind: Kind, g: seq<ManifestEntry>, o: nat) {
    part(Group(chunk, kind, g), o) == piece(g, o)
  }

  /** Reading groups apart and reading the level whole come to the same. */
  lemma {:induction false} FlatGroups<T(!new)>(part: Part<T>, chunk: nat, kind: Kind, k: nat, es: seq<ManifestEntry>,
                                        o: nat, piece: Stretch<T>)
    requires k >= 1 && Sum(es) < U64
    requires forall g, o: nat {:trigger Suits(part, piece, chunk, kind, g, o)} :: Suits(part, piece, chunk, kind, g, o)
    requires forall a, b, o: nat {:trigger Splits(piece, a, b, o)} :: Splits(piece, a, b, o)
    requires forall o: nat :: piece([], o) == []
    ensures Flat(part, Groups(chunk, kind, k, es), o) == piece(es, o)
    decreases |es|
  {
    if es == [] {
    } else if |es| <= k {
      assert Suits(part, piece, chunk, kind, es, o);
      FlatOne(part, Group(chunk, kind, es), o);
    } else {
      var g, rest := es[..k], es[k..];
      SumSplit(es, k);
      FlatGroups(part, chunk, kind, k, rest, o + Sum(g), piece);
      assert Splits(piece, g, rest, o) && Suits(part, piece, chunk, kind, g, o);
      FlatMore(part, chunk, kind, k, es, g, rest, o, piece);
    }
  }

  lemma FlatMore<T>(part: Part<T>, chunk: nat, kind: Kind, k: nat, es: seq<ManifestEntry>, g: seq<ManifestEntry>,
                    rest: seq<ManifestEntry>, o: nat, piece: Stretch<T>)
    requires 1 <= k < |es| && g == es[..k] && rest == es[k..] && Sum(g) < U64
    requires Suits(part, piece, chunk, kind, g, o) && Splits(piece, g, rest, o)
    requires Flat(part, Groups(chunk, kind, k, rest), o + Sum(g)) == piece(rest, o + Sum(g))
    ensures Flat(part, Groups(chunk, kind, k, es), o) == piece(es, o)
  {
    assert es == g + rest;
    FlatStep(part, Group(chunk, kind, g), Groups(chunk, kind, k, rest), o, piece(g, o), piece(rest, o + Sum(g)));
  }

  lemma FlatStep<T>(part: Part<T>, m: Manifest, ms: seq<Manifest>, o: nat, a: seq<T>, b: seq<T>)
    requires part(m, o) == a && Flat(part, ms, o + m.size) == b
    ensures Flat(part, [m] + ms, o) == a + b
  {
    FlatCons(part, m, ms, o);
  }

  lemma FlatOne<T>(part: Part<T>, m: Manifest, o: nat)
    ensures Flat(part, [m], o) == part(m, o)
  {
    assert [m][1..] == [];
    assert part(m, o) + [] == part(m, o);
  }

  lemma FlatCons<T>(part: Part<T>, m: Manifest, ms: seq<Manifest>, o: nat)
    ensures Flat(part, [m] + ms, o) == part(m, o) + Flat(part, ms, o + m.size)
  {
    assert ([m] + ms)[1..] == ms;
  }

  function AddsPiece(kind: Kind): Stretch<ChunkRef> {
    (g: seq<ManifestEntry>, o: nat) => Adds(kind, g, o)
  }

  function LeadsPiece(kind: Kind, d: nat): Stretch<Pending> {
    (g: seq<ManifestEntry>, o: nat) => Leads(kind, g, o, d)
  }

  lemma AddsSplits(kind: Kind)
    ensures forall a, b, o: nat {:trigger Splits(AddsPiece(kind), a, b, o)} :: Splits(AddsPiece(kind), a, b, o)
  {
    forall a, b, o: nat
      ensures Splits(AddsPiece(kind), a, b, o)
    {
      AddsJoin(kind, a + b, a, b, o);
    }
  }

  lemma LeadsSplits(kind: Kind, d: nat)
    ensures forall a, b, o: nat {:trigger Splits(LeadsPiece(kind, d), a, b, o)} :: Splits(LeadsPiece(kind, d), a, b, o)
  {
    forall a, b, o: nat
      ensures Splits(LeadsPiece(kind, d), a, b, o)
    {
      LeadsJoin(kind, a + b, a, b, o, d);
    }
  }

  lemma AddsFlat(chunk: nat, kind: Kind, k: nat, es: seq<ManifestEntry>, o: nat)
    requires k >= 1 && Sum(es) < U64
    ensures Flat(AddsOf(), Groups(chunk, kind, k, es), o) == Adds(kind, es, o)
  {
    AddsSplits(kind);
    FlatGroups(AddsOf(), chunk, kind, k, es, o, AddsPiece(kind));
  }

  lemma LeadsFlat(chunk: nat, kind: Kind, k: nat, es: seq<ManifestEntry>, o: nat, d: nat)
    requires k >= 1 && Sum(es) < U64
    ensures Flat(LeadsOf(d), Groups(chunk, kind, k, es), o) == Leads(kind, es, o, d)
  {
    LeadsSplits(kind, d);
    FlatGroups(LeadsOf(d), chunk, kind, k, es, o, LeadsPiece(kind, d));
  }

  lemma {:induction false} CallsFlat(name: Writer, ms: seq<Manifest>, o: nat, d: nat)
    ensures Flat(CallOf(name, d), ms, o) == Children(Listed(name, ms), o, d)
    decreases |ms|
  {
    if ms != [] {
      var m, rest := ms[0], ms[1..];
      CallsFlat(name, rest, o + m.size, d);
      CallsMore(name, m, rest, o, d);
      assert ms == [m] + rest;
    }
  }

  lemma CallsMore(name: Writer, m: Manifest, rest: seq<Manifest>, o: nat, d: nat)
    requires Flat(CallOf(name, d), rest, o + m.size) == Children(Listed(name, rest), o + m.size, d)
    ensures Flat(CallOf(name, d), [m] + rest, o) == Children(Listed(name, [m] + rest), o, d)
  {
    FlatCons(CallOf(name, d), m, rest, o);
    ListedCons(name, m, rest);
    ChildrenCons(ManifestEntry(name(m), m.size), Listed(name, rest), o, d);
  }

  lemma GroupReads(fetch: Source, name: Writer, m: Manifest, d: nat)
    requires 1 < d <= MAX_MANIFEST_DEPTH
    requires forall n :: fetch(n, name(m)).Some? ==> fetch(n, name(m)).value == m
    ensures Reads(fetch, name, m.chunk, d, AddsOf(), LeadsOf(d + 1), m)
    ensures (forall n :: fetch(n, name(m)).Some?) ==> Answers(fetch, name, m.chunk, d, m)
  {
    forall o: nat, f: Found | f.chunk == m.chunk
      ensures var r := ReadOne(fetch, Pending(name(m), o, m.size, d), f);
              && ReadAs(r, f, AddsOf()(m, o), LeadsOf(d + 1)(m, o), d, true)
              && ((forall n :: fetch(n, name(m)).Some?) ==> r.Some?)
    {
      ReadGroup(fetch, name, m, o, d, f);
    }
  }

  lemma {:induction false} GroupsChunk(chunk: nat, kind: Kind, k: nat, es: seq<ManifestEntry>)
    requires k >= 1
    ensures forall i | 0 <= i < |Groups(chunk, kind, k, es)| :: Groups(chunk, kind, k, es)[i].chunk == chunk
    decreases |es|
  {
    if |es| > k {
      GroupsChunk(chunk, kind, k, es[k..]);
    }
  }

  /** Reading the manifests of a level takes the level's entries, in order. */
  lemma ReadNext(fetch: Source, name: Writer, kind: Kind, k: nat, es: seq<ManifestEntry>, d: nat, f: Found,
                 ms: seq<Manifest>, r: Step)
    requires k >= 1 && 1 < d <= MAX_MANIFEST_DEPTH && ms == Groups(f.chunk, kind, k, es) && Honest(fetch, name, ms)
    requires r == ReadLevel(fetch, Children(Listed(name, ms), 0, d), f) && Sum(es) < U64
    ensures ReadAs(r, f, Adds(kind, es, 0), Leads(kind, es, 0, d + 1), d, es != [])
    ensures Serves(fetch, name, ms) ==> r.Some?
  {
    CallsFlat(name, ms, 0, d);
    AddsFlat(f.chunk, kind, k, es, 0);
    LeadsFlat(f.chunk, kind, k, es, 0, d + 1);
    GroupsChunk(f.chunk, kind, k, es);
    forall i | 0 <= i < |ms|
      ensures Reads(fetch, name, f.chunk, d, AddsOf(), LeadsOf(d + 1), ms[i])
      ensures Serves(fetch, name, ms) ==> Answers(fetch, name, f.chunk, d, ms[i])
    {
      assert ms[i].chunk == f.chunk;
      GroupReads(fetch, name, ms[i], d);
    }
    ReadAll(fetch, name, ms, 0, d, f, AddsOf(), LeadsOf(d + 1), r);
    if Serves(fetch, name, ms) {
      AllAnswer(fetch, name, ms, 0, d, f, AddsOf(), LeadsOf(d + 1), r);
    }
  }

  // ---- the whole tree ----

  /** Resolving reaches level `es` with nothing lost and nothing out of place. */
  lemma {:induction false} Reached(fetch: Source, name: Writer, size: nat, chunk: nat, k: nat, kind: Kind,
                                   es: seq<ManifestEntry>, t: Plan, goal: Option<Found>)
    returns (f: Found)
    requires Hex(name) && k >= 2 && t == Planned(name, size, chunk, k, kind, es) && t.depth <= MAX_MANIFEST_DEPTH
    requires Honest(fetch, name, t.ms) && goal == ResolveWith(fetch, name(Last(t.ms))) && Sum(es) < U64
    requires goal.Some? || Serves(fetch, name, t.ms)
    ensures f.size == size && f.chunk == chunk && f.depth == t.depth && f.chunks == Adds(kind, es, 0)
    ensures goal == ResolveFrom(fetch, Leads(kind, es, 0, t.depth + 1), f, t.depth + 1)
    decreases |es|, 1
  {
    if |es| <= k {
      f := RootReached(fetch, name, Manifest(size, chunk, kind, es));
    } else {
      f := ReachedNext(fetch, name, size, chunk, k, kind, es, t, goal);
    }
  }

  lemma ReachedNext(fetch: Source, name: Writer, size: nat, chunk: nat, k: nat, kind: Kind, es: seq<ManifestEntry>,
                    t: Plan, goal: Option<Found>)
    returns (f: Found)
    requires Hex(name) && 2 <= k < |es| && t == Planned(name, size, chunk, k, kind, es) && t.depth <= MAX_MANIFEST_DEPTH
    requires Honest(fetch, name, t.ms) && goal == ResolveWith(fetch, name(Last(t.ms))) && Sum(es) < U64
    requires goal.Some? || Serves(fetch, name, t.ms)
    ensures f.size == size && f.chunk == chunk && f.depth == t.depth && f.chunks == Adds(kind, es, 0)
    ensures goal == ResolveFrom(fetch, Leads(kind, es, 0, t.depth + 1), f, t.depth + 1)
    decreases |es|, 0
  {
    var ms, next, t1 := PlanParts(fetch, name, size, chunk, k, kind, es, t);
    var f1 := Reached(fetch, name, size, chunk, k, Index, next, t1, goal);
    f := LevelReached(fetch, name, kind, k, es, ms, t1.depth, t1.depth + 1, f1, goal);
  }

  lemma PlanParts(fetch: Source, name: Writer, size: nat, chunk: nat, k: nat, kind: Kind, es: seq<ManifestEntry>,
                  t: Plan)
    returns (ms: seq<Manifest>, next: seq<ManifestEntry>, t1: Plan)
    requires 2 <= k < |es| && t == Planned(name, size, chunk, k, kind, es) && Sum(es) < U64 && Honest(fetch, name, t.ms)
    ensures ms == Groups(chunk, kind, k, es) && next == Listed(name, ms) && |next| < |es| && Sum(next) < U64
    ensures t1 == Planned(name, size, chunk, k, Index, next) && t.depth == t1.depth + 1 && Last(t1.ms) == Last(t.ms)
    ensures Honest(fetch, name, ms) && Honest(fetch, name, t1.ms)
    ensures Serves(fetch, name, t.ms) ==> Serves(fetch, name, ms) && Serves(fetch, name, t1.ms)
  {
    ms := Groups(chunk, kind, k, es);
    next := Listed(name, ms);
    t1 := Planned(name, size, chunk, k, Index, next);
    PlannedStep(name, size, chunk, k, kind, es, ms, next);
    HonestParts(fetch, name, ms, t1.ms);
    SumListed(name, chunk, kind, k, es);
  }

  lemma RootReached(fetch: Source, name: Writer, m: Manifest) returns (f: Found)
    requires Hex(name) && Honest(fetch, name, [m]) && (ResolveWith(fetch, name(m)).Some? || Serves(fetch, name, [m]))
    ensures f.size == m.size && f.chunk == m.chunk && f.depth == 1 && f.chunks == Adds(m.kind, m.entries, 0)
    ensures ResolveWith(fetch, name(m)) == ResolveFrom(fetch, Leads(m.kind, m.entries, 0, 2), f, 2)
  {
    assert [m][0] == m;
    var p := Pending(name(m), 0, 0, 1);
    assert ResolveWith(fetch, name(m)).Some? ==> ReadOne(fetch, p, Found(0, 0, [], 0, [])).Some?;
    RootRead(fetch, name(m), m);
    f := Found(m.size, m.chunk, Adds(m.kind, m.entries, 0), 1, [name(m)]);
  }

  lemma LevelReached(fetch: Source, name: Writer, kind: Kind, k: nat, es: seq<ManifestEntry>, ms: seq<Manifest>,
                     d0: nat, d: nat, f1: Found, goal: Option<Found>)
    returns (f: Found)
    requires k >= 1 && 1 <= d0 && d == d0 + 1 <= MAX_MANIFEST_DEPTH && es != [] && ms == Groups(f1.chunk, kind, k, es)
    requires Honest(fetch, name, ms) && Sum(es) < U64 && f1.depth == d0 && f1.chunks == []
    requires goal == ResolveFrom(fetch, Children(Listed(name, ms), 0, d), f1, d)
    requires goal.Some? || Serves(fetch, name, ms)
    ensures f.size == f1.size && f.chunk == f1.chunk && f.depth == d && f.chunks == Adds(kind, es, 0)
    ensures goal == ResolveFrom(fetch, Leads(kind, es, 0, d + 1), f, d + 1)
  {
    var ps := Children(Listed(name, ms), 0, d);
    var r := ReadLevel(fetch, ps, f1);
    ReadNext(fetch, name, kind, k, es, d, f1, ms, r);
    assert ps != [];
    assert r.Some?;
    f := r.value.0;
    assert [] + Adds(kind, es, 0) == Adds(kind, es, 0);
  }

  /** A tree of more than four levels cannot be read. */
  lemma {:induction false} TooDeep(fetch: Source, name: Writer, size: nat, chunk: nat, k: nat, kind: Kind,
                                   es: seq<ManifestEntry>, t: Plan)
    requires Hex(name) && k >= 2 && t == Planned(name, size, chunk, k, kind, es) && t.depth > MAX_MANIFEST_DEPTH
    requires Honest(fetch, name, t.ms) && Sum(es) < U64
    ensures ResolveWith(fetch, name(Last(t.ms))) == None
    decreases |es|
  {
    var ms := Groups(chunk, kind, k, es);
    var next := Listed(name, ms);
    var t1 := Planned(name, size, chunk, k, Index, next);
    PlannedStep(name, size, chunk, k, kind, es, ms, next);
    HonestParts(fetch, name, ms, t1.ms);
    SumListed(name, chunk, kind, k, es);
    if t1.depth > MAX_MANIFEST_DEPTH {
      TooDeep(fetch, name, size, chunk, k, Index, next, t1);
    } else if ResolveWith(fetch, name(Last(t.ms))).Some? {
      assert forall f ::
             ResolveFrom(fetch, Leads(Index, next, 0, 5), f, 5) == None by { assert Children(next, 0, 5) != []; }
      var f := Reached(fetch, name, size, chunk, k, Index, next, t1, ResolveWith(fetch, name(Last(t1.ms))));
    }
  }
}
