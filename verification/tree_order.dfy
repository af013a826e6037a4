/** In what order a tree gives its chunks. Manifests are read level by level, so chunks come sorted by
    how deep their manifest lies and then by place: in file order exactly when none lies deeper than a
    later one. */
module TreeOrder {
  import opened Text
  import opened Manifests
  import opened ManifestTrees

  // ---- sorted pieces ----

  function Spots(ps: seq<Pending>): (xs: seq<Place>)
    ensures |xs| == |ps| && forall i | 0 <= i < |ps| :: xs[i] == Place(ps[i].offset, ps[i].bytes)
  {
    seq(|ps|, i requires 0 <= i < |ps| => Place(ps[i].offset, ps[i].bytes))
  }

  /** Non-empty pieces of [lo, hi), each after the one before it. */
  predicate Rising(xs: seq<Place>, lo: nat, hi: nat) {
    && lo <= hi
    && (forall i | 0 <= i < |xs| :: lo <= xs[i].offset && xs[i].bytes >= 1 && xs[i].offset + xs[i].bytes <= hi)
    && forall i, j | 0 <= i < j < |xs| :: xs[i].offset + xs[i].bytes <= xs[j].offset
  }

  predicate Sorted(xs: seq<Place>) {
    forall i, j | 0 <= i < j < |xs| :: xs[i].offset < xs[j].offset
  }

  lemma RisingJoin(a: seq<Place>, b: seq<Place>, lo: nat, mid: nat, hi: nat)
    requires Rising(a, lo, mid) && Rising(b, mid, hi)
    ensures Rising(a + b, lo, hi)
  {
  }

  lemma {:induction false} EntriesRise(es: seq<ManifestEntry>, o: nat, d: nat)
    requires forall i | 0 <= i < |es| :: es[i].bytes >= 1
    ensures Rising(Places(Refs(es, o)), o, o + Sum(es)) && Rising(Spots(Children(es, o, d)), o, o + Sum(es))
  {
    if es != [] {
      var k := |es| - 1;
      var at, b := o + Sum(es[..k]), es[k].bytes;
      EntriesRise(es[..k], o, d);
      RisingJoin(Places(Refs(es[..k], o)), [Place(at, b)], o, at, at + b);
      RisingJoin(Spots(Children(es[..k], o, d)), [Place(at, b)], o, at, at + b);
      assert Places(Refs(es, o)) == Places(Refs(es[..k], o)) + [Place(at, b)];
      assert Spots(Children(es, o, d)) == Spots(Children(es[..k], o, d)) + [Place(at, b)];
    }
  }

  lemma {:induction false} CutRises(o: nat, bytes: nat, chunk: nat)
    requires chunk >= 1
    ensures Rising(Cut(o, bytes, chunk), o, o + bytes)
    decreases bytes
  {
    if bytes > 0 {
      var k := Least(chunk, bytes);
      CutRises(o + k, bytes - k, chunk);
      RisingJoin([Place(o, k)], Cut(o + k, bytes - k, chunk), o, o + k, o + bytes);
    }
  }

  /** The same pieces, both sorted, are the same list. */
  lemma {:induction false} SortedSame(a: seq<Place>, b: seq<Place>)
    requires Sorted(a) && Sorted(b) && |a| == |b| && forall x :: x in a <==> x in b
    ensures a == b
    decreases |a|
  {
    if a != [] {
      var k := |a| - 1;
      LastSame(a, b, k);
      InitSame(a, b, k);
      InitSame(b, a, k);
      SortedSame(a[..k], b[..k]);
      assert a == a[..k] + [a[k]] && b == b[..k] + [b[k]];
    }
  }

  lemma Highest(a: seq<Place>, i: nat, k: nat)
    requires Sorted(a) && |a| == k + 1 && i <= k
    ensures i == k || a[i].offset < a[k].offset
  {
  }

  lemma LastSame(a: seq<Place>, b: seq<Place>, k: nat)
    requires Sorted(a) && Sorted(b) && |a| == |b| == k + 1 && a[k] in b && b[k] in a
    ensures a[k] == b[k]
  {
    var i :| 0 <= i < |b| && b[i] == a[k];
    var j :| 0 <= j < |a| && a[j] == b[k];
    Highest(b, i, k);
    Highest(a, j, k);
  }

  lemma InitSame(a: seq<Place>, b: seq<Place>, k: nat)
    requires Sorted(a) && |a| == |b| == k + 1 && a[k] == b[k] && forall x | x in a :: x in b
    ensures forall x | x in a[..k] :: x in b[..k]
  {
    forall x | x in a[..k]
      ensures x in b[..k]
    {
      var i :| 0 <= i < k && a[i] == x;
      assert x.offset < a[k].offset && x in a;
      var j :| 0 <= j < |b| && b[j] == x;
      assert b[..k][j] == x;
    }
  }

  // ---- how deep each chunk lies ----

  /** For each chunk found from here on, the level whose manifest lists it. */
  function DepthsFrom(fetch: Source, level: seq<Pending>, f: Found, d: nat): seq<nat>
    decreases MAX_MANIFEST_DEPTH + 1 - d
  {
    if level == [] || d > MAX_MANIFEST_DEPTH then []
    else
      match ReadLevel(fetch, level, f)
      case None => []
      case Some((f', next)) =>
        Copies(|f'.chunks| - |f.chunks|, d) + DepthsFrom(fetch, next, f', d + 1)
  }

  function Copies(n: int, d: nat): (ds: seq<nat>)
    ensures n >= 0 ==> |ds| == n
    ensures forall i | 0 <= i < |ds| :: ds[i] == d
  {
    seq(if n < 0 then 0 else n, _ => d)
  }

  lemma DepthsStep(fetch: Source, level: seq<Pending>, f: Found, d: nat, f': Found, next: seq<Pending>,
                   rs: seq<ChunkRef>)
    requires level != [] && d <= MAX_MANIFEST_DEPTH && ReadLevel(fetch, level, f) == Some((f', next))
    requires f'.chunks == f.chunks + rs
    ensures DepthsFrom(fetch, level, f, d) == Copies(|rs|, d) + DepthsFrom(fetch, next, f', d + 1)
  {
  }

  /** The depth of each chunk's manifest; the root's is 1. */
  function Depths(get: Store, root: string): seq<nat> {
    DepthsFrom(Fetched(get), [Pending(root, 0, 0, 1)], Found(0, 0, [], 0, []), 1)
  }

  /** No chunk's manifest lies deeper than that of a later part of the file. */
  predicate NoneDeeper(xs: seq<Place>, ds: seq<nat>) {
    |xs| == |ds| && forall i, j | 0 <= i < |xs| && 0 <= j < |xs| && xs[i].offset < xs[j].offset :: ds[i] <= ds[j]
  }

  /** Sorted by depth, and within one depth by place. */
  predicate ByDepth(xs: seq<Place>, ds: seq<nat>, d: nat) {
    && |xs| == |ds| && (forall i | 0 <= i < |ds| :: ds[i] >= d)
    && forall i, j | 0 <= i < j < |xs| :: ds[i] < ds[j] || (ds[i] == ds[j] && xs[i].offset < xs[j].offset)
  }

  lemma ByDepthJoin(a: seq<Place>, b: seq<Place>, ds: seq<nat>, d: nat, lo: nat, hi: nat)
    requires Rising(a, lo, hi) && ByDepth(b, ds, d + 1)
    ensures ByDepth(a + b, Copies(|a|, d) + ds, d)
  {
  }

  // ---- reading ----

  lemma TakeRises(m: Manifest, p: Pending, f: Found) returns (rs: seq<ChunkRef>)
    requires Valid(m) && p.depth > 1 && Take(m, p, f).Some?
    ensures var (f', next) := Take(m, p, f).value;
            && f'.chunks == f.chunks + rs && Rising(Places(rs), p.offset, p.offset + p.bytes)
            && Rising(Spots(next), p.offset, p.offset + p.bytes)
  {
    forall i | 0 <= i < |m.entries|
      ensures m.entries[i].bytes >= 1
    {
      assert FitsAt(m.kind, m.chunk, m.entries[i].bytes, i + 1 == |m.entries|);
    }
    EntriesRise(m.entries, p.offset, p.depth + 1);
    rs := if m.kind == Data then Refs(m.entries, p.offset) else [];
  }

  /** From f to f' these chunks were added, and these manifests are left, all sorted within [lo, hi). */
  predicate Added(f: Found, f': Found, rs: seq<ChunkRef>, next: seq<Pending>, lo: nat, hi: nat) {
    f'.chunks == f.chunks + rs && Rising(Places(rs), lo, hi) && Rising(Spots(next), lo, hi)
  }

  lemma {:induction false} LevelRises(fetch: Source, level: seq<Pending>, f: Found, f': Found, next: seq<Pending>,
                                      lo: nat, hi: nat)
      returns (rs: seq<ChunkRef>)
    requires AllValid(fetch) && Deep(level) && ReadLevel(fetch, level, f) == Some((f', next))
    requires Rising(Spots(level), lo, hi)
    ensures Added(f, f', rs, next, lo, hi)
    decreases |level|
  {
    if level == [] {
      rs := [];
    } else {
      var p, rest := level[0], level[1..];
      var mid := p.offset + p.bytes;
      RestRises(level, lo, hi);
      var f1, first, more := LevelApart(fetch, level, f, f', next);
      var a := FirstRises(fetch, p, f, f1, first);
      var b := LevelRises(fetch, rest, f1, f', more, mid, hi);
      rs := a + b;
      JoinRises(f, f1, f', a, b, first, more, lo, p.offset, mid, hi);
    }
  }

  predicate Deep(level: seq<Pending>) {
    forall p | p in level :: p.depth > 1
  }

  lemma LevelApart(fetch: Source, level: seq<Pending>, f: Found, f': Found, next: seq<Pending>)
      returns (f1: Found, first: seq<Pending>, more: seq<Pending>)
    requires level != [] && ReadLevel(fetch, level, f) == Some((f', next))
    ensures ReadOne(fetch, level[0], f) == Some((f1, first)) && ReadLevel(fetch, level[1..], f1) == Some((f', more))
    ensures next == first + more
  {
    f1, first := ReadOne(fetch, level[0], f).value.0, ReadOne(fetch, level[0], f).value.1;
    more := ReadLevel(fetch, level[1..], f1).value.1;
  }

  lemma FirstRises(fetch: Source, p: Pending, f: Found, f': Found, next: seq<Pending>) returns (rs: seq<ChunkRef>)
    requires AllValid(fetch) && p.depth > 1 && ReadOne(fetch, p, f) == Some((f', next))
    ensures Added(f, f', rs, next, p.offset, p.offset + p.bytes)
  {
    rs := TakeRises(fetch(|f.keys|, p.key).value, p, f);
  }

  lemma RestRises(level: seq<Pending>, lo: nat, hi: nat)
    requires level != [] && Rising(Spots(level), lo, hi)
    ensures var p := level[0]; lo <= p.offset && Rising(Spots(level[1..]), p.offset + p.bytes, hi)
  {
    var xs := Spots(level);
    assert xs[0] == Place(level[0].offset, level[0].bytes);
    assert forall i | 0 <= i < |level| - 1 :: Spots(level[1..])[i] == xs[i + 1];
  }

  lemma JoinRises(f: Found, f1: Found, f2: Found, a: seq<ChunkRef>, b: seq<ChunkRef>, next: seq<Pending>,
                  more: seq<Pending>, lo: nat, o: nat, mid: nat, hi: nat)
    requires lo <= o && Added(f, f1, a, next, o, mid) && Added(f1, f2, b, more, mid, hi)
    ensures Added(f, f2, a + b, next + more, lo, hi)
  {
    PlacesJoin(a, b);
    RisingJoin(Places(a), Places(b), o, mid, hi);
    assert Spots(next + more) == Spots(next) + Spots(more);
    RisingJoin(Spots(next), Spots(more), o, mid, hi);
    assert f.chunks + a + b == f.chunks + (a + b);
  }

  lemma {:induction false} ResolveByDepth(fetch: Source, level: seq<Pending>, f: Found, d: nat, lo: nat, hi: nat,
                                          r: Found, ds: seq<nat>)
      returns (rs: seq<ChunkRef>)
    requires AllValid(fetch) && d > 1 && (forall p | p in level :: p.depth == d) && Rising(Spots(level), lo, hi)
    requires ResolveFrom(fetch, level, f, d) == Some(r) && ds == DepthsFrom(fetch, level, f, d)
    ensures r.chunks == f.chunks + rs && ByDepth(Places(rs), ds, d)
    decreases MAX_MANIFEST_DEPTH + 1 - d
  {
    if level == [] {
      rs := [];
    } else {
      var f', next, a, more := ReadsLevel(fetch, level, f, d, lo, hi, r, ds);
      var b := ResolveByDepth(fetch, next, f', d + 1, lo, hi, r, more);
      rs := a + b;
      ChunksByDepth(f, f', r, a, b, next, ds, more, d, lo, hi);
    }
  }

  lemma ReadsLevel(fetch: Source, level: seq<Pending>, f: Found, d: nat, lo: nat, hi: nat, r: Found, ds: seq<nat>)
      returns (f': Found, next: seq<Pending>, a: seq<ChunkRef>, more: seq<nat>)
    requires AllValid(fetch) && level != [] && d > 1 && (forall p | p in level :: p.depth == d)
    requires Rising(Spots(level), lo, hi)
    requires ResolveFrom(fetch, level, f, d) == Some(r) && ds == DepthsFrom(fetch, level, f, d)
    ensures d <= MAX_MANIFEST_DEPTH && ResolveFrom(fetch, next, f', d + 1) == Some(r)
    ensures more == DepthsFrom(fetch, next, f', d + 1) && ds == Copies(|a|, d) + more
    ensures Added(f, f', a, next, lo, hi) && forall q | q in next :: q.depth == d + 1
  {
    f', next := ReadLevel(fetch, level, f).value.0, ReadLevel(fetch, level, f).value.1;
    NextDepth(fetch, level, f, d);
    ResolveStep(fetch, level, f, d, f', next);
    a := LevelRises(fetch, level, f, f', next, lo, hi);
    DepthsStep(fetch, level, f, d, f', next, a);
    more := DepthsFrom(fetch, next, f', d + 1);
  }

  lemma ChunksByDepth(f: Found, f': Found, r: Found, a: seq<ChunkRef>, b: seq<ChunkRef>, next: seq<Pending>,
                      ds: seq<nat>, more: seq<nat>, d: nat, lo: nat, hi: nat)
    requires Added(f, f', a, next, lo, hi) && r.chunks == f'.chunks + b
    requires ByDepth(Places(b), more, d + 1) && ds == Copies(|a|, d) + more
    ensures r.chunks == f.chunks + (a + b) && ByDepth(Places(a + b), ds, d)
  {
    PlacesJoin(a, b);
    ByDepthJoin(Places(a), Places(b), more, d, lo, hi);
    assert f.chunks + a + b == f.chunks + (a + b);
  }

  lemma ResolveStep(fetch: Source, level: seq<Pending>, f: Found, d: nat, f': Found, next: seq<Pending>)
    requires level != [] && d <= MAX_MANIFEST_DEPTH && ReadLevel(fetch, level, f) == Some((f', next))
    ensures ResolveFrom(fetch, level, f, d) == ResolveFrom(fetch, next, f', d + 1)
  {
  }

  lemma {:induction false} NextDepth(fetch: Source, level: seq<Pending>, f: Found, d: nat)
    requires (forall p | p in level :: p.depth == d) && ReadLevel(fetch, level, f).Some?
    ensures forall q | q in ReadLevel(fetch, level, f).value.1 :: q.depth == d + 1
    decreases |level|
  {
    if level != [] {
      NextDepth(fetch, level[1..], ReadOne(fetch, level[0], f).value.0, d);
    }
  }

  lemma RootByDepth(fetch: Source, root: string, m: Manifest)
    requires AllValid(fetch) && HexKey(root) && fetch(0, root) == Some(m) && ResolveWith(fetch, root).Some?
    ensures var ds := DepthsFrom(fetch, [Pending(root, 0, 0, 1)], Found(0, 0, [], 0, []), 1);
            ByDepth(Places(ResolveWith(fetch, root).value.chunks), ds, 1)
  {
    var p, start := Pending(root, 0, 0, 1), Found(0, 0, [], 0, []);
    var next := if m.kind == Data then [] else Children(m.entries, 0, 2);
    var f := Found(m.size, m.chunk, if m.kind == Data then Refs(m.entries, 0) else [], 1, [root]);
    var r, more := ResolveWith(fetch, root).value, DepthsFrom(fetch, next, f, 2);
    RootRead(fetch, root, m);
    RootTakes(m, root);
    RootLevel(fetch, root, m, p, start, f, next);
    RootAdded(m, start, f, next);
    var rs := ResolveByDepth(fetch, next, f, 2, 0, m.size, r, more);
    DepthsStep(fetch, [p], start, 1, f, next, f.chunks);
    ChunksByDepth(start, f, r, f.chunks, rs, next, Copies(|f.chunks|, 1) + more, more, 1, 0, m.size);
    assert start.chunks + (f.chunks + rs) == f.chunks + rs;
  }

  lemma RootAdded(m: Manifest, start: Found, f: Found, next: seq<Pending>)
    requires Valid(m) && start.chunks == [] && f.chunks == (if m.kind == Data then Refs(m.entries, 0) else [])
    requires next == if m.kind == Data then [] else Children(m.entries, 0, 2)
    ensures Added(start, f, f.chunks, next, 0, m.size) && (forall p | p in next :: p.depth == 2)
  {
    RootRises(m);
    assert [] + f.chunks == f.chunks;
  }

  lemma RootLevel(fetch: Source, root: string, m: Manifest, p: Pending, start: Found, f: Found, next: seq<Pending>)
    requires fetch(0, root) == Some(m) && p == Pending(root, 0, 0, 1) && start == Found(0, 0, [], 0, [])
    requires Take(m, p, start) == Some((f, next))
    ensures ReadLevel(fetch, [p], start) == Some((f, next))
  {
    assert [p][1..] == [] && next + [] == next;
  }

  lemma RootRises(m: Manifest)
    requires Valid(m)
    ensures Rising(Places(Refs(m.entries, 0)), 0, m.size) && Rising(Spots(Children(m.entries, 0, 2)), 0, m.size)
  {
    forall i | 0 <= i < |m.entries|
      ensures m.entries[i].bytes >= 1
    {
      assert FitsAt(m.kind, m.chunk, m.entries[i].bytes, i + 1 == |m.entries|);
    }
    EntriesRise(m.entries, 0, 2);
  }

  // ---- the theorem ----

  lemma SortedIsLevel(xs: seq<Place>, ds: seq<nat>, d: nat)
    requires ByDepth(xs, ds, d) && Sorted(xs)
    ensures NoneDeeper(xs, ds)
  {
  }

  lemma LevelIsSorted(xs: seq<Place>, ds: seq<nat>, d: nat, cut: seq<Place>)
    requires ByDepth(xs, ds, d) && NoneDeeper(xs, ds) && Sorted(cut) && multiset(xs) == multiset(cut)
    ensures Sorted(xs)
  {
    forall i, j | 0 <= i < j < |xs|
      ensures xs[i].offset < xs[j].offset
    {
      Apart(xs, cut, i, j);
    }
  }

  /** Pieces of a cut start at different places. */
  lemma Apart(xs: seq<Place>, cut: seq<Place>, i: nat, j: nat)
    requires Sorted(cut) && multiset(xs) == multiset(cut) && i < j < |xs|
    ensures xs[i].offset != xs[j].offset
  {
    assert xs[i] in multiset(cut) && xs[j] in multiset(cut);
    var a :| 0 <= a < |cut| && cut[a] == xs[i];
    var b :| 0 <= b < |cut| && cut[b] == xs[j];
    Twice(xs, i, j);
    Once(cut, a);
  }

  lemma SameMembers(a: seq<Place>, b: seq<Place>)
    requires multiset(a) == multiset(b)
    ensures |a| == |b| && forall x :: x in a <==> x in b
  {
    assert |multiset(a)| == |a| && |multiset(b)| == |b|;
    assert forall x :: (x in a <==> x in multiset(a)) && (x in b <==> x in multiset(b));
  }

  lemma Twice(xs: seq<Place>, i: nat, j: nat)
    requires i < j < |xs|
    ensures multiset(xs)[xs[i]] >= if xs[i] == xs[j] then 2 else 1
  {
    assert xs == xs[..j] + [xs[j]] + xs[j + 1..];
    assert xs[..j][i] in xs[..j];
  }

  lemma Once(cut: seq<Place>, a: nat)
    requires Sorted(cut) && a < |cut|
    ensures multiset(cut)[cut[a]] == 1
  {
    assert cut == cut[..a] + [cut[a]] + cut[a + 1..];
    assert cut[a] !in cut[..a] && cut[a] !in cut[a + 1..];
  }

  /** For any store whatever, if a tree resolves then its chunks come in file order exactly when no chunk's
      manifest lies deeper than that of a later part of the file. */
  lemma InFileOrder(get: Store, root: string)
    requires Resolve(get, root).Some?
    ensures var r, ds := Resolve(get, root).value, Depths(get, root);
            && |ds| == |r.chunks| && r.chunk >= 1
            && (Places(r.chunks) == Cut(0, r.size, r.chunk) <==> NoneDeeper(Places(r.chunks), ds))
  {
    var fetch := Fetched(get);
    FetchedValid(get);
    var r, ds := Resolve(get, root).value, Depths(get, root);
    assert ReadOne(fetch, Pending(root, 0, 0, 1), Found(0, 0, [], 0, [])).Some?;
    RootByDepth(fetch, root, fetch(0, root).value);
    ResolvedIsCut(get, root);
    var xs, cut := Places(r.chunks), Cut(0, r.size, r.chunk);
    CutRises(0, r.size, r.chunk);
    if NoneDeeper(xs, ds) {
      LevelIsSorted(xs, ds, 1, cut);
      SameMembers(xs, cut);
      SortedSame(xs, cut);
    }
    if xs == cut {
      SortedIsLevel(xs, ds, 1);
    }
  }

  // ---- a tree of uneven depth ----

  function KeyOf(sha: Digest, m: Manifest): string {
    sha(Format(m))
  }

  /** One byte, and the manifest that lists it. */
  function Leaf(sha: Digest, body: string): Manifest {
    Manifest(1, 1, Data, [ManifestEntry(sha(body), 1)])
  }

  function Over(sha: Digest, body: string): Manifest {
    Manifest(1, 1, Index, [ManifestEntry(KeyOf(sha, Leaf(sha, body)), 1)])
  }

  function Uneven(sha: Digest, body: string): Manifest {
    Manifest(2, 1, Index, [ManifestEntry(KeyOf(sha, Over(sha, body)), 1),
                           ManifestEntry(KeyOf(sha, Leaf(sha, body)), 1)])
  }

  /** The byte twice: the first time one manifest deeper than the second. Every text is under its own digest. */
  function UnevenStore(sha: Digest, body: string): Store {
    var a, b, c := Uneven(sha, body), Over(sha, body), Leaf(sha, body);
    (_, key) => if key == KeyOf(sha, a) then Some(Format(a))
                else if key == KeyOf(sha, b) then Some(Format(b))
                else if key == KeyOf(sha, c) then Some(Format(c))
                else None
  }

  /** The three manifests have different keys. */
  predicate Different(sha: Digest, body: string) {
    var a, b, c := Uneven(sha, body), Over(sha, body), Leaf(sha, body);
    KeyOf(sha, a) != KeyOf(sha, b) && KeyOf(sha, b) != KeyOf(sha, c) && KeyOf(sha, a) != KeyOf(sha, c)
  }

  lemma SumOne(e: ManifestEntry)
    ensures Sum([e]) == e.bytes && Refs([e], 0) == [ChunkRef(e.key, 0, e.bytes)]
    ensures forall o: nat :: Refs([e], o) == [ChunkRef(e.key, o, e.bytes)]
    ensures forall o: nat, d: nat :: Children([e], o, d) == [Pending(e.key, o, e.bytes, d)]
  {
    assert [e][..0] == [];
  }

  lemma SumTwo(e: ManifestEntry, g: ManifestEntry)
    ensures Sum([e, g]) == e.bytes + g.bytes
    ensures forall d: nat ::
              Children([e, g], 0, d) == [Pending(e.key, 0, e.bytes, d), Pending(g.key, e.bytes, g.bytes, d)]
  {
    SumOne(e);
    assert [e, g][..1] == [e];
  }

  lemma UnevenValid(sha: Digest, body: string)
    ensures Valid(Uneven(sha, body)) && Valid(Over(sha, body)) && Valid(Leaf(sha, body))
  {
    SumTwo(Uneven(sha, body).entries[0], Uneven(sha, body).entries[1]);
    SumOne(Over(sha, body).entries[0]);
    SumOne(Leaf(sha, body).entries[0]);
  }

  lemma FetchedIs(get: Store, n: nat, key: string, m: Manifest)
    requires Valid(m) && get(n, key) == Some(Format(m))
    ensures Fetched(get)(n, key) == Some(m)
  {
    ParseFormat(m);
  }

  /** Whatever the number of the fetch. */
  ghost predicate Gives(get: Source, sha: Digest, m: Manifest) {
    forall n: nat :: get(n, KeyOf(sha, m)) == Some(m)
  }

  lemma UnevenGives(sha: Digest, body: string, m: Manifest)
    requires Different(sha, body) && (m == Uneven(sha, body) || m == Over(sha, body) || m == Leaf(sha, body))
    ensures Gives(Fetched(UnevenStore(sha, body)), sha, m)
  {
    var get := UnevenStore(sha, body);
    UnevenValid(sha, body);
    forall n: nat
      ensures Fetched(get)(n, KeyOf(sha, m)) == Some(m)
    {
      UnevenHolds(sha, body, m, n);
      FetchedIs(get, n, KeyOf(sha, m), m);
    }
  }

  lemma UnevenHolds(sha: Digest, body: string, m: Manifest, n: nat)
    requires Different(sha, body) && (m == Uneven(sha, body) || m == Over(sha, body) || m == Leaf(sha, body))
    ensures UnevenStore(sha, body)(n, KeyOf(sha, m)) == Some(Format(m))
  {
  }

  lemma LevelOfOne(fetch: Source, p: Pending, f: Found, f': Found, next: seq<Pending>)
    requires ReadOne(fetch, p, f) == Some((f', next))
    ensures ReadLevel(fetch, [p], f) == Some((f', next))
  {
    assert [p][1..] == [] && next + [] == next;
  }

  lemma TakeSmall(fetch: Source, p: Pending, f: Found, kind: Kind, e: ManifestEntry)
    requires fetch(|f.keys|, p.key) == Some(Manifest(1, 1, kind, [e])) && e.bytes == 1
    requires f.chunk == 1 && p.bytes == 1 && 2 <= p.depth <= MAX_MANIFEST_DEPTH
    ensures var f' := f.(keys := f.keys + [p.key], depth := Most(f.depth, p.depth));
            ReadOne(fetch, p, f) ==
              if kind == Data then Some((f'.(chunks := f.chunks + [ChunkRef(e.key, p.offset, 1)]), []))
              else Some((f', [Pending(e.key, p.offset, 1, p.depth + 1)]))
  {
    SumOne(e);
  }

  lemma UnevenReads(fetch: Source, p: Pending, q: Pending, f: Found, c: string)
    requires f == Found(2, 1, [], 1, f.keys) && |f.keys| == 1
    requires p == Pending(p.key, 0, 1, 2) && q == Pending(q.key, 1, 1, 2)
    requires fetch(1, p.key) == Some(Manifest(1, 1, Index, [ManifestEntry(q.key, 1)]))
    requires fetch(2, q.key) == fetch(3, q.key) == Some(Manifest(1, 1, Data, [ManifestEntry(c, 1)]))
    ensures var r := ResolveFrom(fetch, [p, q], f, 2);
            r.Some? && r.value.chunks == [ChunkRef(c, 1, 1), ChunkRef(c, 0, 1)]
  {
    var under := Pending(q.key, 0, 1, 3);
    var f2 := Found(2, 1, [], 2, f.keys + [p.key]);
    var f3 := Found(2, 1, f2.chunks + [ChunkRef(c, 1, 1)], 2, f2.keys + [q.key]);
    var f4 := Found(2, 1, f3.chunks + [ChunkRef(c, 0, 1)], 3, f3.keys + [q.key]);
    TakeSmall(fetch, p, f, Index, ManifestEntry(q.key, 1));
    TakeSmall(fetch, q, f2, Data, ManifestEntry(c, 1));
    TakeSmall(fetch, under, f3, Data, ManifestEntry(c, 1));
    LevelOfOne(fetch, q, f2, f3, []);
    LevelOfOne(fetch, under, f3, f4, []);
    assert [p, q][1..] == [q] && [under] + [] == [under];
    assert ReadLevel(fetch, [p, q], f) == Some((f3, [under]));
    assert ResolveFrom(fetch, [], f4, 4) == Some(f4);
    assert ResolveFrom(fetch, [under], f3, 3) == Some(f4);
  }

  lemma UnevenRoot(fetch: Source, a: string, e: ManifestEntry, g: ManifestEntry, c: string)
    requires HexKey(a) && e.bytes == 1 && g.bytes == 1
    requires fetch(0, a) == Some(Manifest(2, 1, Index, [e, g]))
    requires fetch(1, e.key) == Some(Manifest(1, 1, Index, [ManifestEntry(g.key, 1)]))
    requires fetch(2, g.key) == fetch(3, g.key) == Some(Manifest(1, 1, Data, [ManifestEntry(c, 1)]))
    ensures var r := ResolveWith(fetch, a);
            r.Some? && r.value.chunks == [ChunkRef(c, 1, 1), ChunkRef(c, 0, 1)]
  {
    RootRead(fetch, a, Manifest(2, 1, Index, [e, g]));
    SumTwo(e, g);
    UnevenReads(fetch, Pending(e.key, 0, 1, 2), Pending(g.key, 1, 1, 2), Found(2, 1, [], 1, [a]), c);
  }

  lemma UnevenResolves(sha: Digest, body: string, fetch: Source, a: Manifest, b: Manifest, c: Manifest)
    requires a == Uneven(sha, body) && b == Over(sha, body) && c == Leaf(sha, body)
    requires Gives(fetch, sha, a) && Gives(fetch, sha, b) && Gives(fetch, sha, c)
    ensures var r := ResolveWith(fetch, KeyOf(sha, a)); r.Some? && Places(r.value.chunks) == [Place(1, 1), Place(0, 1)]
  {
    UnevenRoot(fetch, KeyOf(sha, a), a.entries[0], a.entries[1], c.entries[0].key);
  }

  /** It does happen, in a store whose every text is under its own digest: a tree of uneven depth gives its
      second chunk first. */
  lemma ChunksOutOfOrder(sha: Digest, body: string)
    requires |body| == 1 && Different(sha, body)
    ensures var get, root := UnevenStore(sha, body), KeyOf(sha, Uneven(sha, body));
            && (forall n, key :: get(n, key).Some? ==> sha(get(n, key).value) == key)
            && Resolve(get, root).Some? && Places(Resolve(get, root).value.chunks) == [Place(1, 1), Place(0, 1)]
  {
    var a, b, c := Uneven(sha, body), Over(sha, body), Leaf(sha, body);
    UnevenGives(sha, body, a);
    UnevenGives(sha, body, b);
    UnevenGives(sha, body, c);
    UnevenResolves(sha, body, Fetched(UnevenStore(sha, body)), a, b, c);
  }
}
