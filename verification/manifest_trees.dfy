/** Trees of manifests: resolving one against any store whatever gives exactly the cut of the file, and
    resolving what Build made gives back the chunk list in order. */
module ManifestTrees {
  import opened Text
  import opened Manifests

  const MAX_MANIFEST_DEPTH: nat := 4

  // ---- the cut of a file ----

  /** Where a piece of the file starts, and how long it is. */
  datatype Place = Place(offset: nat, bytes: nat)

  function Least(a: nat, b: nat): nat {
    if a <= b then a else b
  }

  /** `bytes` bytes from `o` on, cut into pieces of `chunk`, the last one maybe shorter. */
  function Cut(o: nat, bytes: nat, chunk: nat): (ps: seq<Place>)
    requires chunk >= 1
    decreases bytes
  {
    if bytes == 0 then []
    else
      var k := Least(chunk, bytes);
      [Place(o, k)] + Cut(o + k, bytes - k, chunk)
  }

  lemma MulStep(i: nat, chunk: nat)
    requires i >= 1
    ensures i * chunk == (i - 1) * chunk + chunk
  {
  }

  /** The i-th piece is (i * chunk, min(chunk, size - i * chunk)). */
  lemma {:induction false} CutPlaces(o: nat, bytes: nat, chunk: nat, i: nat)
    requires chunk >= 1 && i < |Cut(o, bytes, chunk)|
    ensures i * chunk < bytes
    ensures Cut(o, bytes, chunk)[i] == Place(o + i * chunk, Least(chunk, bytes - i * chunk))
    decreases bytes
  {
    if i > 0 {
      MulStep(i, chunk);
      var rest := Cut(o + chunk, bytes - chunk, chunk);
      assert Cut(o, bytes, chunk) == [Place(o, chunk)] + rest by {
        assert bytes > chunk;
      }
      CutPlaces(o + chunk, bytes - chunk, chunk, i - 1);
    }
  }

  /** There are just enough pieces for the whole. */
  lemma {:induction false} CutTiles(o: nat, bytes: nat, chunk: nat)
    requires chunk >= 1
    ensures var n := |Cut(o, bytes, chunk)|;
            (n == 0 <==> bytes == 0) && (n > 0 ==> (n - 1) * chunk < bytes <= n * chunk)
    decreases bytes
  {
    if bytes > chunk {
      CutTiles(o + chunk, bytes - chunk, chunk);
      var n := |Cut(o, bytes, chunk)|;
      MulStep(n, chunk);
      MulStep(n - 1, chunk);
    }
  }

  lemma MulBounds(d: int, chunk: nat)
    requires chunk >= 1
    ensures d >= 1 ==> d * chunk >= chunk
    ensures d <= -1 ==> d * chunk <= -1 * chunk
  {
  }

  /** Division is what it should be. */
  lemma Quotient(a: nat, chunk: nat, q: nat, r: nat)
    requires chunk >= 1 && r < chunk && a == q * chunk + r
    ensures a / chunk == q && a % chunk == r
  {
    var q', r' := a / chunk, a % chunk;
    assert a == q' * chunk + r';
    MulBounds(q - q', chunk);
    assert (q - q') * chunk == q * chunk - q' * chunk;
  }

  /** A whole number of chunks. */
  predicate Whole(a: nat, chunk: nat)
    requires chunk >= 1
  {
    a == (a / chunk) * chunk
  }

  lemma WholeIsMod(a: nat, chunk: nat)
    requires chunk >= 1
    ensures Whole(a, chunk) <==> a % chunk == 0
  {
    assert a == (a / chunk) * chunk + a % chunk;
  }

  lemma Multiple(q: nat, chunk: nat)
    requires chunk >= 1
    ensures Whole(q * chunk, chunk) && (q * chunk) / chunk == q
  {
    Quotient(q * chunk, chunk, q, 0);
  }

  lemma WholeAdds(a: nat, b: nat, chunk: nat)
    requires chunk >= 1 && Whole(a, chunk) && Whole(b, chunk)
    ensures Whole(a + b, chunk)
  {
    var q, p := a / chunk, b / chunk;
    assert (q + p) * chunk == q * chunk + p * chunk;
    Multiple(q + p, chunk);
  }

  lemma {:induction false} CutSplits(o: nat, q: nat, b: nat, chunk: nat)
    requires chunk >= 1
    ensures Cut(o, q * chunk + b, chunk) == Cut(o, q * chunk, chunk) + Cut(o + q * chunk, b, chunk)
    decreases q
  {
    if q == 0 {
      assert Cut(o, 0, chunk) == [];
      assert q * chunk == 0;
    } else {
      MulStep(q, chunk);
      CutSplits(o + chunk, q - 1, b, chunk);
      FirstPiece(o, q * chunk + b, chunk);
      FirstPiece(o, q * chunk, chunk);
    }
  }

  lemma FirstPiece(o: nat, bytes: nat, chunk: nat)
    requires 1 <= chunk <= bytes
    ensures Cut(o, bytes, chunk) == [Place(o, chunk)] + Cut(o + chunk, bytes - chunk, chunk)
  {
  }

  lemma CutJoins(o: nat, a: nat, b: nat, chunk: nat)
    requires chunk >= 1 && Whole(a, chunk)
    ensures Cut(o, a + b, chunk) == Cut(o, a, chunk) + Cut(o + a, b, chunk)
  {
    CutSplits(o, a / chunk, b, chunk);
  }

  // ---- what one manifest lists ----

  datatype ChunkRef = ChunkRef(key: string, offset: nat, bytes: nat)

  /** A manifest still to be read: where its bytes start, how many its parent says it covers. */
  datatype Pending = Pending(key: string, offset: nat, bytes: nat, depth: nat)

  /** Each entry starts where the previous one ended. */
  function Refs(es: seq<ManifestEntry>, o: nat): (rs: seq<ChunkRef>)
    ensures |rs| == |es|
  {
    if es == [] then []
    else
      var k := |es| - 1;
      Refs(es[..k], o) + [ChunkRef(es[k].key, o + Sum(es[..k]), es[k].bytes)]
  }

  function Children(es: seq<ManifestEntry>, o: nat, d: nat): (ps: seq<Pending>)
    ensures |ps| == |es| && forall p | p in ps :: p.depth == d
  {
    if es == [] then []
    else
      var k := |es| - 1;
      Children(es[..k], o, d) + [Pending(es[k].key, o + Sum(es[..k]), es[k].bytes, d)]
  }

  function Places(rs: seq<ChunkRef>): (ps: seq<Place>)
    ensures |ps| == |rs| && forall i | 0 <= i < |rs| :: ps[i] == Place(rs[i].offset, rs[i].bytes)
  {
    seq(|rs|, i requires 0 <= i < |rs| => Place(rs[i].offset, rs[i].bytes))
  }

  /** How often a place occurs. */
  function Times(ps: seq<Place>, x: Place): nat {
    if ps == [] then 0 else Times(ps[..|ps| - 1], x) + if ps[|ps| - 1] == x then 1 else 0
  }

  lemma {:induction false} TimesJoin(a: seq<Place>, b: seq<Place>, x: Place)
    ensures Times(a + b, x) == Times(a, x) + Times(b, x)
    decreases |b|
  {
    if b == [] {
      assert a + b == a;
    } else {
      var k := |b| - 1;
      TimesJoin(a, b[..k], x);
      assert (a + b)[..|a + b| - 1] == a + b[..k];
    }
  }

  /** How often a place occurs among the pieces that pending manifests still stand for. */
  function Owed(ps: seq<Pending>, chunk: nat, x: Place): nat
    requires chunk >= 1
  {
    if ps == [] then 0
    else Owed(ps[..|ps| - 1], chunk, x) + Times(Cut(ps[|ps| - 1].offset, ps[|ps| - 1].bytes, chunk), x)
  }

  lemma OwedLast(ps: seq<Pending>, some: seq<Pending>, p: Pending, chunk: nat, x: Place)
    requires chunk >= 1 && ps == some + [p]
    ensures Owed(ps, chunk, x) == Owed(some, chunk, x) + Times(Cut(p.offset, p.bytes, chunk), x)
  {
    assert ps[..|ps| - 1] == some && ps[|ps| - 1] == p;
  }

  lemma {:induction false} OwedJoins(a: seq<Pending>, b: seq<Pending>, chunk: nat, x: Place)
    requires chunk >= 1
    ensures Owed(a + b, chunk, x) == Owed(a, chunk, x) + Owed(b, chunk, x)
    decreases |b|
  {
    if b == [] {
      assert a + b == a;
    } else {
      var k := |b| - 1;
      OwedJoins(a, b[..k], chunk, x);
      assert a + b == (a + b[..k]) + [b[k]] && b == b[..k] + [b[k]];
      OwedLast(a + b, a + b[..k], b[k], chunk, x);
      OwedLast(b, b[..k], b[k], chunk, x);
    }
  }

  lemma PlacesJoin(a: seq<ChunkRef>, b: seq<ChunkRef>)
    ensures Places(a + b) == Places(a) + Places(b)
  {
  }

  lemma OnePiece(o: nat, b: nat, chunk: nat)
    requires 1 <= b <= chunk
    ensures Cut(o, b, chunk) == [Place(o, b)]
  {
    assert Cut(o + b, 0, chunk) == [];
  }

  /** One more entry, after a whole number of chunks. */
  lemma RefsLast(es: seq<ManifestEntry>, o: nat, chunk: nat)
    requires es != [] && chunk >= 1
    requires var k := |es| - 1;
             Places(Refs(es[..k], o)) == Cut(o, Sum(es[..k]), chunk) && Whole(Sum(es[..k]), chunk) &&
                 1 <= es[k].bytes <= chunk
    ensures Places(Refs(es, o)) == Cut(o, Sum(es), chunk)
  {
    var k := |es| - 1;
    var at, b := Sum(es[..k]), es[k].bytes;
    OnePiece(o + at, b, chunk);
    CutJoins(o, at, b, chunk);
    PlacesJoin(Refs(es[..k], o), [ChunkRef(es[k].key, o + at, b)]);
  }

  lemma {:induction false} FullCut(es: seq<ManifestEntry>, o: nat, chunk: nat)
    requires chunk >= 1 && forall i | 0 <= i < |es| :: es[i].bytes == chunk
    ensures Places(Refs(es, o)) == Cut(o, Sum(es), chunk) && Whole(Sum(es), chunk)
  {
    if es == [] {
      Multiple(0, chunk);
    } else {
      var k := |es| - 1;
      FullCut(es[..k], o, chunk);
      RefsLast(es, o, chunk);
      Multiple(1, chunk);
      WholeAdds(Sum(es[..k]), chunk, chunk);
    }
  }

  /** A data manifest's chunks are exactly the cut of the bytes it covers. */
  lemma DataIsCut(es: seq<ManifestEntry>, o: nat, chunk: nat)
    requires chunk >= 1 && Shaped(Data, chunk, es)
    ensures Places(Refs(es, o)) == Cut(o, Sum(es), chunk)
  {
    if es != [] {
      var k := |es| - 1;
      assert forall i | 0 <= i < k :: FitsAt(Data, chunk, es[i].bytes, false);
      FullCut(es[..k], o, chunk);
      assert FitsAt(Data, chunk, es[k].bytes, true);
      RefsLast(es, o, chunk);
    }
  }

  lemma ChildrenSnoc(es: seq<ManifestEntry>, ini: seq<ManifestEntry>, e: ManifestEntry, o: nat, d: nat)
    requires es == ini + [e]
    ensures Children(es, o, d) == Children(ini, o, d) + [Pending(e.key, o + Sum(ini), e.bytes, d)]
    ensures Sum(es) == Sum(ini) + e.bytes
  {
    assert es[..|es| - 1] == ini;
  }

  lemma ChildLast(es: seq<ManifestEntry>, ini: seq<ManifestEntry>, e: ManifestEntry, o: nat, d: nat, chunk: nat,
                  x: Place)
    requires chunk >= 1 && es == ini + [e] && Whole(Sum(ini), chunk)
    requires Owed(Children(ini, o, d), chunk, x) == Times(Cut(o, Sum(ini), chunk), x)
    ensures Owed(Children(es, o, d), chunk, x) == Times(Cut(o, Sum(es), chunk), x)
  {
    ChildrenSnoc(es, ini, e, o, d);
    ChildOwed(Children(es, o, d), Children(ini, o, d), e, o, d, Sum(ini), Sum(es), chunk, x);
  }

  lemma ChildOwed(ps: seq<Pending>, some: seq<Pending>, e: ManifestEntry, o: nat, d: nat, a: nat, all: nat, chunk: nat,
                  x: Place)
    requires chunk >= 1 && Whole(a, chunk) && all == a + e.bytes
    requires ps == some + [Pending(e.key, o + a, e.bytes, d)] && Owed(some, chunk, x) == Times(Cut(o, a, chunk), x)
    ensures Owed(ps, chunk, x) == Times(Cut(o, all, chunk), x)
  {
    OwedMore(ps, some, Pending(e.key, o + a, e.bytes, d), o, a, chunk, x);
  }

  lemma OwedMore(ps: seq<Pending>, some: seq<Pending>, p: Pending, o: nat, a: nat, chunk: nat, x: Place)
    requires chunk >= 1 && ps == some + [p] && p.offset == o + a && Whole(a, chunk)
    requires Owed(some, chunk, x) == Times(Cut(o, a, chunk), x)
    ensures Owed(ps, chunk, x) == Times(Cut(o, a + p.bytes, chunk), x)
  {
    OwedLast(ps, some, p, chunk, x);
    CutTimes(o, a, p.bytes, chunk, x);
  }

  lemma CutTimes(o: nat, a: nat, b: nat, chunk: nat, x: Place)
    requires chunk >= 1 && Whole(a, chunk)
    ensures Times(Cut(o, a + b, chunk), x) == Times(Cut(o, a, chunk), x) + Times(Cut(o + a, b, chunk), x)
  {
    CutJoins(o, a, b, chunk);
    TimesJoin(Cut(o, a, chunk), Cut(o + a, b, chunk), x);
  }

  lemma {:induction false} WholesCut(es: seq<ManifestEntry>, o: nat, d: nat, chunk: nat, x: Place)
    requires chunk >= 1 && forall i | 0 <= i < |es| :: Whole(es[i].bytes, chunk)
    ensures Owed(Children(es, o, d), chunk, x) == Times(Cut(o, Sum(es), chunk), x) && Whole(Sum(es), chunk)
  {
    if es == [] {
      Multiple(0, chunk);
    } else {
      var k := |es| - 1;
      var ini, e := es[..k], es[k];
      assert es == ini + [e];
      WholesCut(ini, o, d, chunk, x);
      ChildLast(es, ini, e, o, d, chunk, x);
      WholeAdds(Sum(ini), e.bytes, chunk);
      ChildrenSnoc(es, ini, e, o, d);
    }
  }

  /** An index manifest's children stand for exactly the cut of the bytes it covers. */
  lemma IndexIsCut(es: seq<ManifestEntry>, o: nat, d: nat, chunk: nat, x: Place)
    requires chunk >= 1 && Shaped(Index, chunk, es)
    ensures Owed(Children(es, o, d), chunk, x) == Times(Cut(o, Sum(es), chunk), x)
  {
    var k := |es| - 1;
    forall i | 0 <= i < k
      ensures Whole(es[i].bytes, chunk)
    {
      assert FitsAt(Index, chunk, es[i].bytes, false);
      WholeIsMod(es[i].bytes, chunk);
    }
    assert es == es[..k] + [es[k]];
    WholesCut(es[..k], o, d, chunk, x);
    ChildLast(es, es[..k], es[k], o, d, chunk, x);
  }

  // ---- resolving ----

  /** What has been learnt so far. */
  datatype Found = Found(size: nat, chunk: nat, chunks: seq<ChunkRef>, depth: nat, keys: seq<string>)

  /** Any store whatever: the n-th fetch of a key may give any text, or fail. */
  type Store = (nat, string) -> Option<string>

  /** The manifest in the text fetched, if there is one and it parses. */
  type Source = (nat, string) -> Option<Manifest>

  function Fetched(get: Store): Source {
    (n: nat, key: string) =>
      match get(n, key)
      case None => None
      case Some(text) => Parse(text)
  }

  ghost predicate AllValid(fetch: Source) {
    forall n, key :: fetch(n, key).Some? ==> Valid(fetch(n, key).value)
  }

  lemma FetchedValid(get: Store)
    ensures AllValid(Fetched(get))
  {
    forall n, key | Fetched(get)(n, key).Some?
      ensures Valid(Fetched(get)(n, key).value)
    {
      FormatParse(get(n, key).value);
    }
  }

  function Most(a: nat, b: nat): nat {
    if a >= b then a else b
  }

  function ReadOne(fetch: Source, p: Pending, f: Found): Option<(Found, seq<Pending>)> {
    if p.depth > MAX_MANIFEST_DEPTH then None
    else
      match fetch(|f.keys|, p.key)
      case None => None
      case Some(m) => Take(m, p, f)
  }

  /** Check a manifest against its parent and the root, and take its entries. */
  function Take(m: Manifest, p: Pending, f: Found): Option<(Found, seq<Pending>)> {
    if p.depth > 1 && (m.size != p.bytes || m.chunk != f.chunk) then None
    else
      var f1 := if p.depth <= 1 then f.(size := m.size, chunk := m.chunk) else f;
      var f2 := f1.(keys := f1.keys + [p.key], depth := Most(f1.depth, p.depth));
      if m.kind == Data then Some((f2.(chunks := f2.chunks + Refs(m.entries, p.offset)), []))
      else Some((f2, Children(m.entries, p.offset, p.depth + 1)))
  }

  /** One level, manifest by manifest. */
  function ReadLevel(fetch: Source, level: seq<Pending>, f: Found): Option<(Found, seq<Pending>)>
    decreases |level|
  {
    if level == [] then Some((f, []))
    else
      match ReadOne(fetch, level[0], f)
      case None => None
      case Some((f1, next)) =>
        match ReadLevel(fetch, level[1..], f1)
        case None => None
        case Some((f2, more)) => Some((f2, next + more))
  }

  function ResolveFrom(fetch: Source, level: seq<Pending>, f: Found, d: nat): Option<Found>
    decreases MAX_MANIFEST_DEPTH + 1 - d
  {
    if level == [] then Some(f)
    else if d > MAX_MANIFEST_DEPTH then None
    else
      match ReadLevel(fetch, level, f)
      case None => None
      case Some((f', next)) => ResolveFrom(fetch, next, f', d + 1)
  }

  function ResolveWith(fetch: Source, root: string): Option<Found> {
    if !HexKey(root) then None
    else ResolveFrom(fetch, [Pending(root, 0, 0, 1)], Found(0, 0, [], 0, []), 1)
  }

  function Resolve(get: Store, root: string): Option<Found> {
    ResolveWith(Fetched(get), root)
  }

  // ---- whatever the store holds, the cut is exact ----

  /** What has been placed and what is owed: how often place x occurs in either. */
  function Account(f: Found, ps: seq<Pending>, x: Place): nat
    requires f.chunk >= 1
  {
    Times(Places(f.chunks), x) + Owed(ps, f.chunk, x)
  }

  lemma TakeBalances(m: Manifest, p: Pending, f: Found, x: Place)
    requires Valid(m) && f.chunk >= 1 && p.depth > 1 && Take(m, p, f).Some?
    ensures var (f', next) := Take(m, p, f).value;
            && f'.size == f.size && f'.chunk == f.chunk && f'.depth == Most(f.depth, p.depth)
            && (forall q | q in next :: q.depth == p.depth + 1)
            && Account(f', next, x) == Times(Places(f.chunks), x) + Times(Cut(p.offset, p.bytes, f.chunk), x)
  {
    if m.kind == Data {
      DataIsCut(m.entries, p.offset, m.chunk);
      PlacesJoin(f.chunks, Refs(m.entries, p.offset));
      TimesJoin(Places(f.chunks), Places(Refs(m.entries, p.offset)), x);
    } else {
      IndexIsCut(m.entries, p.offset, p.depth + 1, m.chunk, x);
    }
  }

  lemma RootTakes(m: Manifest, root: string)
    ensures Take(m, Pending(root, 0, 0, 1), Found(0, 0, [], 0, [])) ==
            Some((Found(m.size, m.chunk, if m.kind == Data then Refs(m.entries, 0) else [], 1, [root]),
                  if m.kind == Data then [] else Children(m.entries, 0, 2)))
  {
    assert [] + Refs(m.entries, 0) == Refs(m.entries, 0);
    assert [] + [root] == [root];
  }

  lemma RootBalances(m: Manifest, x: Place)
    requires Valid(m)
    ensures m.kind == Data ==> Times(Places(Refs(m.entries, 0)), x) == Times(Cut(0, m.size, m.chunk), x)
    ensures m.kind == Index ==> Owed(Children(m.entries, 0, 2), m.chunk, x) == Times(Cut(0, m.size, m.chunk), x)
  {
    if m.kind == Data {
      DataIsCut(m.entries, 0, m.chunk);
    } else {
      IndexIsCut(m.entries, 0, 2, m.chunk, x);
    }
  }

  lemma ReadConserves(fetch: Source, p: Pending, rest: seq<Pending>, f: Found, x: Place)
    requires AllValid(fetch) && f.chunk >= 1 && p.depth > 1 && ReadOne(fetch, p, f).Some?
    ensures var (f', next) := ReadOne(fetch, p, f).value;
            && f'.size == f.size && f'.chunk == f.chunk && f'.depth == Most(f.depth, p.depth)
            && (forall q | q in next :: q.depth == p.depth + 1)
            && Account(f', next, x) + Owed(rest, f.chunk, x) == Account(f, [p] + rest, x)
  {
    TakeBalances(fetch(|f.keys|, p.key).value, p, f, x);
    OwedJoins([p], rest, f.chunk, x);
    OwedLast([p], [], p, f.chunk, x);
  }

  lemma {:induction false} LevelBalances(fetch: Source, level: seq<Pending>, f: Found, d: nat, x: Place)
    requires AllValid(fetch) && 1 < d <= MAX_MANIFEST_DEPTH && f.chunk >= 1 && f.depth <= MAX_MANIFEST_DEPTH
    requires (forall p | p in level :: p.depth == d) && ReadLevel(fetch, level, f).Some?
    ensures var (f', next) := ReadLevel(fetch, level, f).value;
            && f'.size == f.size && f'.chunk == f.chunk && f'.depth <= MAX_MANIFEST_DEPTH
            && (forall q | q in next :: q.depth == d + 1)
            && Account(f', next, x) == Account(f, level, x)
    decreases |level|
  {
    if level != [] {
      var p, rest := level[0], level[1..];
      assert level == [p] + rest;
      ReadConserves(fetch, p, rest, f, x);
      var (f1, next) := ReadOne(fetch, p, f).value;
      LevelBalances(fetch, rest, f1, d, x);
      var (f2, more) := ReadLevel(fetch, rest, f1).value;
      OwedJoins(next, more, f.chunk, x);
    }
  }

  lemma {:induction false} ResolveBalances(fetch: Source, level: seq<Pending>, f: Found, d: nat, x: Place)
    requires AllValid(fetch) && d > 1 && f.chunk >= 1 && f.depth <= MAX_MANIFEST_DEPTH
    requires (forall p | p in level :: p.depth == d)
    requires ResolveFrom(fetch, level, f, d).Some?
    ensures var r := ResolveFrom(fetch, level, f, d).value;
            && r.size == f.size && r.chunk == f.chunk && r.depth <= MAX_MANIFEST_DEPTH
            && Times(Places(r.chunks), x) == Account(f, level, x)
    decreases MAX_MANIFEST_DEPTH + 1 - d
  {
    if level != [] {
      LevelBalances(fetch, level, f, d, x);
      var (f', next) := ReadLevel(fetch, level, f).value;
      ResolveBalances(fetch, next, f', d + 1, x);
    }
  }

  /** Resolving starts with the root's own manifest. */
  lemma RootRead(fetch: Source, root: string, m: Manifest)
    requires HexKey(root) && fetch(0, root) == Some(m)
    ensures ResolveWith(fetch, root) ==
            ResolveFrom(fetch, if m.kind == Data then [] else Children(m.entries, 0, 2),
                        Found(m.size, m.chunk, if m.kind == Data then Refs(m.entries, 0) else [], 1, [root]), 2)
  {
    var p, start := Pending(root, 0, 0, 1), Found(0, 0, [], 0, []);
    RootTakes(m, root);
    var (f, next) := Take(m, p, start).value;
    assert [p][1..] == [];
    assert next + [] == next;
    assert ReadLevel(fetch, [p], start) == Some((f, next));
  }

  lemma ResolvedOnce(fetch: Source, root: string, x: Place)
    requires AllValid(fetch) && ResolveWith(fetch, root).Some?
    ensures var r := ResolveWith(fetch, root).value;
            && 1 <= r.chunk <= MAX_CHUNK && 1 <= r.depth <= MAX_MANIFEST_DEPTH
            && Times(Places(r.chunks), x) == Times(Cut(0, r.size, r.chunk), x)
  {
    var p := Pending(root, 0, 0, 1);
    assert ReadOne(fetch, p, Found(0, 0, [], 0, [])).Some?;
    var m := fetch(0, root).value;
    RootRead(fetch, root, m);
    RootBalances(m, x);
    var f := Found(m.size, m.chunk, if m.kind == Data then Refs(m.entries, 0) else [], 1, [root]);
    var next := if m.kind == Data then [] else Children(m.entries, 0, 2);
    ResolveBalances(fetch, next, f, 2, x);
    ResolveDepth(fetch, next, f, 2);
  }

  lemma {:induction false} ResolveDepth(fetch: Source, level: seq<Pending>, f: Found, d: nat)
    requires ResolveFrom(fetch, level, f, d).Some?
    ensures ResolveFrom(fetch, level, f, d).value.depth >= f.depth
    decreases MAX_MANIFEST_DEPTH + 1 - d
  {
    if level != [] {
      LevelDepth(fetch, level, f);
      var (f', next) := ReadLevel(fetch, level, f).value;
      ResolveDepth(fetch, next, f', d + 1);
    }
  }

  lemma {:induction false} LevelDepth(fetch: Source, level: seq<Pending>, f: Found)
    requires ReadLevel(fetch, level, f).Some?
    ensures ReadLevel(fetch, level, f).value.0.depth >= f.depth
    decreases |level|
  {
    if level != [] {
      LevelDepth(fetch, level[1..], ReadOne(fetch, level[0], f).value.0);
    }
  }

  lemma {:induction false} TimesIsCount(ps: seq<Place>, x: Place)
    ensures multiset(ps)[x] == Times(ps, x)
  {
    if ps != [] {
      var k := |ps| - 1;
      TimesIsCount(ps[..k], x);
      assert ps == ps[..k] + [ps[k]];
    }
  }

  /** For any store whatever, if a tree resolves then its chunks are exactly the pieces
      (i * chunk, min(chunk, size - i * chunk)), each once, from at most four levels of manifests. */
  lemma ResolvedIsCut(get: Store, root: string)
    requires Resolve(get, root).Some?
    ensures var r := Resolve(get, root).value;
            && 1 <= r.chunk <= MAX_CHUNK && 1 <= r.depth <= MAX_MANIFEST_DEPTH
            && multiset(Places(r.chunks)) == multiset(Cut(0, r.size, r.chunk))
  {
    var fetch := Fetched(get);
    FetchedValid(get);
    ResolvedOnce(fetch, root, Place(0, 0));
    var r := ResolveWith(fetch, root).value;
    forall x
      ensures multiset(Places(r.chunks))[x] == multiset(Cut(0, r.size, r.chunk))[x]
    {
      ResolvedOnce(fetch, root, x);
      TimesIsCount(Places(r.chunks), x);
      TimesIsCount(Cut(0, r.size, r.chunk), x);
    }
  }
}
