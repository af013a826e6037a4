/** Building a tree of manifests and resolving it again, as the transfer does. */
module TreeRoundTrip {
  import opened Text
  import opened Manifests
  import opened ManifestTrees
  import opened TreeBuilding

  datatype Tree = Tree(blobs: seq<string>, root: string, depth: nat)

  function Clamp(fanout: nat): nat {
    if fanout < 2 then 2 else if fanout > MANIFEST_FANOUT then MANIFEST_FANOUT else fanout
  }

  function Written(): Writer {
    m => Format(m)
  }

  function Naming(sha: Digest): Writer {
    m => sha(Format(m))
  }

  function PlanOf(sha: Digest, es: seq<ManifestEntry>, size: nat, chunk: nat, fanout: nat): (p: Plan)
    ensures p.ms != []
  {
    Planned(Naming(sha), size, chunk, Clamp(fanout), Data, es)
  }

  function Build(sha: Digest, es: seq<ManifestEntry>, size: nat, chunk: nat, fanout: nat): Tree {
    var p := PlanOf(sha, es, size, chunk, fanout);
    Tree(Each(Written(), p.ms), Naming(sha)(Last(p.ms)), p.depth)
  }

  // ---- the loops ----

  method TotalBytes(es: seq<ManifestEntry>) returns (n: nat)
    ensures n == Wrapped(Sum(es))
  {
    n := 0;
    for i := 0 to |es|
      invariant n == Wrapped(Sum(es[..i]))
    {
      assert es[..i + 1][..i] == es[..i];
      n := (n + es[i].bytes) % U64;
    }
    assert es[..|es|] == es;
  }

  lemma {:induction false} ListedSnoc(name: Writer, ms: seq<Manifest>, m: Manifest)
    ensures Listed(name, ms + [m]) == Listed(name, ms) + [ManifestEntry(name(m), m.size)]
    decreases |ms|
  {
    if ms == [] {
      assert [] + [m] == [m];
      assert [m][1..] == [];
    } else {
      ListedSnoc(name, ms[1..], m);
      assert (ms + [m])[1..] == ms[1..] + [m];
    }
  }

  lemma {:induction false} EachJoin<A>(f: A -> string, a: seq<A>, b: seq<A>)
    ensures Each(f, a + b) == Each(f, a) + Each(f, b)
  {
  }

  ghost predicate Names(sha: Digest, write: Writer, name: Writer) {
    forall m :: name(m) == sha(write(m))
  }

  /** One level: `f` entries to a manifest. */
  method CutLevel(sha: Digest, write: Writer, ghost name: Writer, level: seq<ManifestEntry>, chunk: nat, f: nat,
                  kind: Kind)
    returns (blobs: seq<string>, next: seq<ManifestEntry>)
    requires f >= 2 && Names(sha, write, name)
    ensures blobs == Each(write, Groups(chunk, kind, f, level))
    ensures next == Listed(name, Groups(chunk, kind, f, level))
  {
    blobs, next := [], [];
    var i := 0;
    ghost var done: seq<Manifest> := [];
    while i < |level|
      invariant 0 <= i <= |level| && Groups(chunk, kind, f, level) == done + Groups(chunk, kind, f, level[i..])
      invariant blobs == Each(write, done) && next == Listed(name, done)
    {
      var end := if |level| < i + f then |level| else i + f;
      var bytes := TotalBytes(level[i..end]);
      var m := Manifest(bytes, chunk, kind, level[i..end]);
      OneMore(chunk, kind, f, level, i, end, done, m);
      EachJoin(write, done, [m]);
      ListedSnoc(name, done, m);
      var text := write(m);
      done := done + [m];
      blobs := blobs + [text];
      next := next + [ManifestEntry(sha(text), bytes)];
      i := end;
    }
    assert level[i..] == [];
    assert done + [] == done;
  }

  lemma OneMore(chunk: nat, kind: Kind, f: nat, level: seq<ManifestEntry>, i: nat, end: nat, done: seq<Manifest>,
                m: Manifest)
    requires f >= 2 && i < |level| && end == (if |level| < i + f then |level| else i + f)
    requires m == Group(chunk, kind, level[i..end])
    ensures done + Groups(chunk, kind, f, level[i..]) == (done + [m]) + Groups(chunk, kind, f, level[end..])
  {
    if |level| - i <= f {
      assert level[i..] == level[i..end] && level[end..] == [];
    } else {
      assert level[i..][..f] == level[i..end] && level[i..][f..] == level[end..];
    }
    Assoc(done, [m], Groups(chunk, kind, f, level[end..]));
  }

  /** Level upon level, until one manifest holds what is left. */
  method BuildWith(sha: Digest, write: Writer, ghost name: Writer, chunks: seq<ManifestEntry>, size: nat, chunk: nat,
                   f: nat)
    returns (blobs: seq<string>, root: string, depth: nat)
    requires f >= 2 && Names(sha, write, name)
    ensures var p := Planned(name, size, chunk, f, Data, chunks);
            blobs == Each(write, p.ms) && root == name(Last(p.ms)) && depth == p.depth
  {
    var level, kind := chunks, Data;
    blobs, depth := [], 0;
    ghost var p := Planned(name, size, chunk, f, Data, chunks);
    ghost var ms: seq<Manifest>, t := [], p;
    assert [] + t.ms == t.ms;
    while true
      invariant t == Planned(name, size, chunk, f, kind, level) && p.ms == ms + t.ms && p.depth == depth + t.depth
      invariant blobs == Each(write, ms)
      decreases |level|
    {
      depth := depth + 1;
      if |level| <= f {
        var text := write(Manifest(size, chunk, kind, level));
        EachJoin(write, ms, t.ms);
        return blobs + [text], sha(text), depth;
      }
      ghost var group := Groups(chunk, kind, f, level);
      var more, next := CutLevel(sha, write, name, level, chunk, f, kind);
      EachJoin(write, ms, group);
      ghost var t' := Planned(name, size, chunk, f, Index, next);
      PlannedStep(name, size, chunk, f, kind, level, group, next);
      Assoc(ms, group, t'.ms);
      ms, t := ms + group, t';
      blobs := blobs + more;
      level, kind := next, Index;
    }
  }

  method BuildManifests(sha: Digest, chunks: seq<ManifestEntry>, size: nat, chunk: nat, fanout: nat) returns (t: Tree)
    ensures t == Build(sha, chunks, size, chunk, fanout)
  {
    var blobs, root, depth := BuildWith(sha, Written(), Naming(sha), chunks, size, chunk, Clamp(fanout));
    t := Tree(blobs, root, depth);
  }

  lemma Assoc<T>(a: seq<T>, b: seq<T>, c: seq<T>)
    ensures (a + b) + c == a + (b + c)
  {
  }

  /** Each entry starts where the previous one ended. */
  method TakeManifest(m: Manifest, p: Pending, f: Found) returns (r: Step)
    ensures r == Take(m, p, f)
  {
    var f1 := f.(keys := f.keys + [p.key]);
    if p.depth <= 1 {
      f1 := f1.(size := m.size, chunk := m.chunk);
    } else if m.size != p.bytes {
      return None;
    } else if m.chunk != f.chunk {
      return None;
    }
    f1 := f1.(depth := Most(f1.depth, p.depth));
    var rs: seq<ChunkRef>, next: seq<Pending>, offset := [], [], p.offset;
    for i := 0 to |m.entries|
      invariant offset == p.offset + Sum(m.entries[..i])
      invariant rs == Adds(m.kind, m.entries[..i], p.offset)
      invariant next == Leads(m.kind, m.entries[..i], p.offset, p.depth + 1)
    {
      var e := m.entries[i];
      assert m.entries[..i + 1][..i] == m.entries[..i];
      if m.kind == Data {
        rs := rs + [ChunkRef(e.key, offset, e.bytes)];
      } else {
        next := next + [Pending(e.key, offset, e.bytes, p.depth + 1)];
      }
      offset := offset + e.bytes;
    }
    assert m.entries[..|m.entries|] == m.entries;
    assert f1.chunks + [] == f1.chunks;
    r := Some((f1.(chunks := f1.chunks + rs), next));
  }

  /** The rest of a level, after `next` has been gathered from what came before. */
  function RestOf(fetch: Source, level: seq<Pending>, f: Found, next: seq<Pending>): Step {
    match ReadLevel(fetch, level, f)
    case None => None
    case Some((f', more)) => Some((f', next + more))
  }

  lemma RestStep(fetch: Source, level: seq<Pending>, i: nat, f: Found, next: seq<Pending>, one: Step)
    requires i < |level| && one == ReadOne(fetch, level[i], f)
    ensures one.None? ==> RestOf(fetch, level[i..], f, next) == None
    ensures one.Some? ==>
            RestOf(fetch, level[i..], f, next) == RestOf(fetch, level[i + 1..], one.value.0, next + one.value.1)
  {
    assert level[i..][1..] == level[i + 1..];
    if one.Some? {
      var more := ReadLevel(fetch, level[i + 1..], one.value.0);
      if more.Some? {
        Assoc(next, one.value.1, more.value.1);
      }
    }
  }

  method ReadOneLevel(get: Store, level: seq<Pending>, f0: Found) returns (r: Step)
    ensures r == ReadLevel(Fetched(get), level, f0)
  {
    var f, next: seq<Pending> := f0, [];
    ghost var all := ReadLevel(Fetched(get), level, f0);
    assert level[0..] == level;
    assert all.Some? ==> [] + all.value.1 == all.value.1;
    for i := 0 to |level|
      invariant all == RestOf(Fetched(get), level[i..], f, next)
    {
      var p := level[i];
      RestStep(Fetched(get), level, i, f, next, ReadOne(Fetched(get), p, f));
      if p.depth > MAX_MANIFEST_DEPTH {
        return None;
      }
      var got := Fetched(get)(|f.keys|, p.key);
      if got.None? {
        return None;
      }
      var one := TakeManifest(got.value, p, f);
      if one.None? {
        return None;
      }
      f, next := one.value.0, next + one.value.1;
    }
    assert level[|level|..] == [];
    assert next + [] == next;
    r := Some((f, next));
  }

  method ResolveManifest(get: Store, root: string) returns (r: Option<Found>)
    ensures r == Resolve(get, root)
  {
    if !HexKey(root) {
      return None;
    }
    r := ResolveLevels(get, [Pending(root, 0, 0, 1)], Found(0, 0, [], 0, []), 1);
  }

  /** Level after level, until one leaves nothing to read. */
  method ResolveLevels(get: Store, start: seq<Pending>, f0: Found, first: nat) returns (r: Option<Found>)
    requires forall i | 0 <= i < |start| :: start[i].depth == first
    ensures r == ResolveFrom(Fetched(get), start, f0, first)
  {
    var f, level, d := f0, start, first;
    ghost var all := ResolveFrom(Fetched(get), start, f0, first);
    while level != []
      invariant (forall i | 0 <= i < |level| :: level[i].depth == d) && all == ResolveFrom(Fetched(get), level, f, d)
      decreases MAX_MANIFEST_DEPTH + 1 - d
    {
      DeepStops(Fetched(get), level, f, d);
      var step := ReadOneLevel(get, level, f);
      if step.None? {
        return None;
      }
      LevelDepths(Fetched(get), level, f, d);
      f, level, d := step.value.0, step.value.1, d + 1;
    }
    r := Some(f);
  }

  lemma DeepStops(fetch: Source, level: seq<Pending>, f: Found, d: nat)
    requires level != [] && level[0].depth == d
    ensures d > MAX_MANIFEST_DEPTH ==> ReadLevel(fetch, level, f) == None
  {
  }

  lemma {:induction false} LevelDepths(fetch: Source, level: seq<Pending>, f: Found, d: nat)
    requires forall i | 0 <= i < |level| :: level[i].depth == d
    ensures var r := ReadLevel(fetch, level, f); r.Some? ==> forall p | p in r.value.1 :: p.depth == d + 1
    decreases |level|
  {
    if level != [] && ReadOne(fetch, level[0], f).Some? {
      LevelDepths(fetch, level[1..], ReadOne(fetch, level[0], f).value.0, d);
    }
  }

  // ---- what was built is what is read ----

  /** Under a stored text's key a store gives that text, if it gives one at all. */
  ghost predicate Kept(get: Store, sha: Digest, texts: seq<string>) {
    forall n: nat, i | 0 <= i < |texts| :: get(n, sha(texts[i])).Some? ==> get(n, sha(texts[i])).value == texts[i]
  }

  ghost predicate Held(get: Store, sha: Digest, texts: seq<string>) {
    forall n: nat, i | 0 <= i < |texts| :: get(n, sha(texts[i])).Some?
  }

  lemma {:induction false} GroupsValid(chunk: nat, kind: Kind, f: nat, es: seq<ManifestEntry>)
    requires 1 <= f <= MANIFEST_FANOUT && Level(kind, chunk, es)
    ensures forall i | 0 <= i < |Groups(chunk, kind, f, es)| :: Valid(Groups(chunk, kind, f, es)[i])
    decreases |es|
  {
    if es == [] {
    } else if |es| <= f {
      LevelIsValid(kind, chunk, es);
    } else {
      LevelCuts(kind, chunk, es, es[..f], es[f..]);
      LevelIsValid(kind, chunk, es[..f]);
      GroupsValid(chunk, kind, f, es[f..]);
    }
  }

  lemma {:induction false} PlannedValid(name: Writer, size: nat, chunk: nat, f: nat, kind: Kind, es: seq<ManifestEntry>)
    requires Hex(name) && 2 <= f <= MANIFEST_FANOUT && Level(kind, chunk, es) && Sum(es) == size
    ensures var ms := Planned(name, size, chunk, f, kind, es).ms; forall i | 0 <= i < |ms| :: Valid(ms[i])
    decreases |es|
  {
    if |es| <= f {
      LevelIsValid(kind, chunk, es);
    } else {
      var ms := Groups(chunk, kind, f, es);
      var next := Listed(name, ms);
      PlannedStep(name, size, chunk, f, kind, es, ms, next);
      GroupsValid(chunk, kind, f, es);
      NextIsLevel(name, chunk, kind, f, es);
      PlannedValid(name, size, chunk, f, Index, next);
    }
  }

  /** Where the store gives this text, the source gives this manifest. */
  ghost predicate Decodes(get: Store, fetch: Source, text: string, m: Manifest) {
    forall n, key :: get(n, key) == Some(text) ==> fetch(n, key) == Some(m)
  }

  lemma TextDecodes(get: Store, m: Manifest, text: string)
    requires Valid(m) && text == Format(m)
    ensures Decodes(get, Fetched(get), text, m)
  {
    ParseFormat(m);
  }

  ghost predicate Silent(get: Store, fetch: Source) {
    forall n, key {:trigger fetch(n, key)} :: get(n, key).None? ==> fetch(n, key).None?
  }

  lemma TextHonest(get: Store, fetch: Source, text: string, m: Manifest, n: nat, key: string)
    requires Decodes(get, fetch, text, m) && Silent(get, fetch) && (get(n, key).Some? ==> get(n, key).value == text)
    ensures fetch(n, key).Some? ==> fetch(n, key).value == m
    ensures get(n, key).Some? ==> fetch(n, key).Some?
  {
    if get(n, key).Some? {
      assert get(n, key) == Some(text);
    }
  }

  /** A stored text, the manifest it stands for, and its key. */
  ghost predicate Stands(get: Store, fetch: Source, sha: Digest, name: Writer, text: string, m: Manifest) {
    name(m) == sha(text) && Decodes(get, fetch, text, m)
  }

  lemma TextsHonest(get: Store, fetch: Source, sha: Digest, name: Writer, texts: seq<string>, ms: seq<Manifest>)
    requires |texts| == |ms| && Kept(get, sha, texts) && Silent(get, fetch)
    requires forall i | 0 <= i < |ms| :: Stands(get, fetch, sha, name, texts[i], ms[i])
    ensures Honest(fetch, name, ms)
    ensures Held(get, sha, texts) ==> Serves(fetch, name, ms)
  {
    forall n, i | 0 <= i < |ms|
      ensures fetch(n, name(ms[i])).Some? ==> fetch(n, name(ms[i])).value == ms[i]
      ensures Held(get, sha, texts) ==> fetch(n, name(ms[i])).Some?
    {
      assert Stands(get, fetch, sha, name, texts[i], ms[i]);
      TextHonest(get, fetch, texts[i], ms[i], n, sha(texts[i]));
    }
  }

  lemma TreeHonest(get: Store, sha: Digest, name: Writer, size: nat, chunk: nat, f: nat, es: seq<ManifestEntry>,
                   ms: seq<Manifest>)
    requires name == Naming(sha) && 2 <= f <= MANIFEST_FANOUT && Level(Data, chunk, es) && Sum(es) == size
    requires ms == Planned(name, size, chunk, f, Data, es).ms && Kept(get, sha, Each(Written(), ms))
    ensures Honest(Fetched(get), name, ms)
    ensures Held(get, sha, Each(Written(), ms)) ==> Serves(Fetched(get), name, ms)
  {
    PlannedValid(name, size, chunk, f, Data, es);
    var texts := Each(Written(), ms);
    forall i | 0 <= i < |ms|
      ensures Stands(get, Fetched(get), sha, name, texts[i], ms[i])
    {
      TextDecodes(get, ms[i], texts[i]);
    }
    assert Silent(get, Fetched(get));
    TextsHonest(get, Fetched(get), sha, name, texts, ms);
  }

  /** Whatever else a store holds, if it never gives another text for the key of one of the tree's, then
      resolving the tree gives back the chunk list in order or fails; and a store that holds the tree gives it
      back exactly when it has at most four levels. */
  lemma TreeReadsBack(sha: Digest, get: Store, es: seq<ManifestEntry>, size: nat, chunk: nat, fanout: nat)
    requires Level(Data, chunk, es) && size == Sum(es) && Kept(get, sha, Build(sha, es, size, chunk, fanout).blobs)
    ensures var t := Build(sha, es, size, chunk, fanout);
            var r := Resolve(get, t.root);
            && (r.Some? ==> r.value.size == size && r.value.chunk == chunk)
            && (r.Some? ==> r.value.chunks == Refs(es, 0) && r.value.depth == t.depth)
            && (r.Some? ==> t.depth <= MAX_MANIFEST_DEPTH)
            && (Held(get, sha, t.blobs) && t.depth <= MAX_MANIFEST_DEPTH ==> r.Some?)
  {
    var name, f := Naming(sha), Clamp(fanout);
    var p := PlanOf(sha, es, size, chunk, fanout);
    TreeHonest(get, sha, name, size, chunk, f, es, p.ms);
    PlanReadsBack(Fetched(get), name, size, chunk, f, es, p);
  }

  /** A tree has at most d levels exactly when there are at most fanout^d chunks. */
  lemma TreeDepth(sha: Digest, es: seq<ManifestEntry>, size: nat, chunk: nat, fanout: nat, d: nat)
    requires d >= 1
    ensures Build(sha, es, size, chunk, fanout).depth <= d <==> |es| <= Power(Clamp(fanout), d)
  {
    DepthIs(Naming(sha), size, chunk, Clamp(fanout), Data, es, d);
  }

  lemma PlanReadsBack(fetch: Source, name: Writer, size: nat, chunk: nat, f: nat, es: seq<ManifestEntry>, p: Plan)
    requires Hex(name) && f >= 2 && p == Planned(name, size, chunk, f, Data, es) && Honest(fetch, name, p.ms)
    requires Sum(es) < U64
    ensures var r := ResolveWith(fetch, name(Last(p.ms)));
            && (r.Some? ==> r.value.size == size && r.value.chunk == chunk)
            && (r.Some? ==> r.value.chunks == Refs(es, 0) && r.value.depth == p.depth)
            && (r.Some? ==> p.depth <= MAX_MANIFEST_DEPTH)
            && (Serves(fetch, name, p.ms) && p.depth <= MAX_MANIFEST_DEPTH ==> r.Some?)
  {
    var r := ResolveWith(fetch, name(Last(p.ms)));
    if p.depth > MAX_MANIFEST_DEPTH {
      TooDeep(fetch, name, size, chunk, f, Data, es, p);
    } else if r.Some? || Serves(fetch, name, p.ms) {
      var found := Reached(fetch, name, size, chunk, f, Data, es, p, r);
    }
  }
}
