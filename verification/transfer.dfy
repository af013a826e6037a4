/** Whole files: cut into chunks and stored by one pool of workers, fetched and put together by another. */
module Transfer {
  import opened Text
  import opened Manifests
  import opened ManifestTrees
  import opened TreeBuilding
  import opened TreeRoundTrip
  import opened WorkerPool

  // ---- the arithmetic of the chunks ----

  function ChunkCount(size: nat, chunk: nat): nat
    requires chunk >= 1
  {
    (size + chunk - 1) / chunk
  }

  function ChunkLen(size: nat, chunk: nat, i: nat): nat {
    if i * chunk <= size then Least(chunk, size - i * chunk) else 0
  }

  function Body(file: string, chunk: nat, i: nat): (b: string)
    ensures |b| == ChunkLen(|file|, chunk, i)
  {
    if i * chunk <= |file| then file[i * chunk..i * chunk + ChunkLen(|file|, chunk, i)] else []
  }

  /** As many chunks as pieces in the cut, each in its place. */
  lemma CountIsCut(size: nat, chunk: nat)
    requires chunk >= 1
    ensures ChunkCount(size, chunk) == |Cut(0, size, chunk)|
  {
    CutTiles(0, size, chunk);
    var c := |Cut(0, size, chunk)|;
    if c == 0 {
      Quotient(chunk - 1, chunk, 0, chunk - 1);
    } else {
      MulStep(c, chunk);
      Quotient(size + chunk - 1, chunk, c, size + chunk - 1 - c * chunk);
    }
  }

  lemma PieceAt(size: nat, chunk: nat, i: nat)
    requires chunk >= 1 && i < ChunkCount(size, chunk)
    ensures i * chunk < size && ChunkLen(size, chunk, i) >= 1 && i < |Cut(0, size, chunk)|
    ensures Cut(0, size, chunk)[i] == Place(i * chunk, ChunkLen(size, chunk, i))
    ensures ChunkLen(size, chunk, i) == if i + 1 == ChunkCount(size, chunk) then size - i * chunk else chunk
  {
    CountIsCut(size, chunk);
    CutPlaces(0, size, chunk, i);
    CutTiles(0, size, chunk);
    MulStep(i + 1, chunk);
    if i + 1 < ChunkCount(size, chunk) {
      CutPlaces(0, size, chunk, i + 1);
    }
  }

  // ---- the entries ----

  /** The chunk list written once every key is known. */
  method ListChunks(keys: seq<string>, size: nat, chunk: nat) returns (es: seq<ManifestEntry>)
    requires chunk >= 1 && |keys| == ChunkCount(size, chunk)
    ensures es == Entries(keys, size, chunk)
  {
    es := [];
    for i := 0 to |keys|
      invariant es == Entries(keys, size, chunk)[..i]
    {
      PieceAt(size, chunk, i);
      es := es + [ManifestEntry(keys[i], Least(chunk, size - i * chunk))];
    }
  }

  function Entries(keys: seq<string>, size: nat, chunk: nat): (es: seq<ManifestEntry>)
    ensures |es| == |keys| && forall i | 0 <= i < |keys| :: es[i] == ManifestEntry(keys[i], ChunkLen(size, chunk, i))
  {
    seq(|keys|, i requires 0 <= i < |keys| => ManifestEntry(keys[i], ChunkLen(size, chunk, i)))
  }

  lemma {:induction false} EntriesSum(es: seq<ManifestEntry>, size: nat, chunk: nat, n: nat)
    requires chunk >= 1 && n <= |es| && n <= ChunkCount(size, chunk)
    requires forall i | 0 <= i < n :: es[i].bytes == ChunkLen(size, chunk, i)
    ensures Sum(es[..n]) == if n == ChunkCount(size, chunk) then size else n * chunk
    decreases n
  {
    if n == 0 {
      assert es[..0] == [];
      CountIsCut(size, chunk);
      CutTiles(0, size, chunk);
    } else {
      EntriesSum(es, size, chunk, n - 1);
      assert es[..n][..n - 1] == es[..n - 1];
      PieceAt(size, chunk, n - 1);
      MulStep(n, chunk);
    }
  }

  lemma EntriesLevel(keys: seq<string>, size: nat, chunk: nat)
    requires 1 <= chunk <= MAX_CHUNK && size < U64 && |keys| == ChunkCount(size, chunk) &&
             forall i | 0 <= i < |keys| :: HexKey(keys[i])
    ensures Level(Data, chunk, Entries(keys, size, chunk)) && Sum(Entries(keys, size, chunk)) == size
  {
    var es := Entries(keys, size, chunk);
    assert es[..|es|] == es;
    EntriesSum(es, size, chunk, |es|);
    forall i | 0 <= i < |es|
      ensures FitsAt(Data, chunk, es[i].bytes, i + 1 == |es|) && ValidEntry(es[i])
    {
      PieceAt(size, chunk, i);
    }
  }

  /** The i-th chunk of the list, in its place. */
  predicate RefAt(rs: seq<ChunkRef>, keys: seq<string>, size: nat, chunk: nat, i: nat) {
    i < |rs| && i < |keys| && rs[i] == ChunkRef(keys[i], i * chunk, ChunkLen(size, chunk, i))
  }

  lemma RefsAre(es: seq<ManifestEntry>, keys: seq<string>, size: nat, chunk: nat, i: nat)
    requires 1 <= chunk <= MAX_CHUNK && |keys| == ChunkCount(size, chunk) && es == Entries(keys, size, chunk)
    requires Level(Data, chunk, es) && Sum(es) == size && i < |keys|
    ensures RefAt(Refs(es, 0), keys, size, chunk, i)
  {
    DataIsCut(es, 0, chunk);
    PieceAt(size, chunk, i);
    RefKeys(es, 0, i);
    assert Places(Refs(es, 0))[i] == Place(Refs(es, 0)[i].offset, Refs(es, 0)[i].bytes);
  }

  lemma {:induction false} RefKeys(es: seq<ManifestEntry>, o: nat, i: nat)
    requires i < |es|
    ensures Refs(es, o)[i].key == es[i].key
  {
    if i < |es| - 1 {
      RefKeys(es[..|es| - 1], o, i);
    }
  }

  // ---- upload ----

  /** What a run of the first pool leaves in the key slots. */
  function KeysAfter(sha: Digest, file: string, chunk: nat, ran: seq<nat>): (keys: seq<string>)
    requires chunk >= 1
    ensures |keys| == ChunkCount(|file|, chunk)
  {
    Slots(seq(ChunkCount(|file|, chunk), _ => ""), ran, i => sha(Body(file, chunk, i)))
  }

  /** The tree an upload stores. */
  function Uploaded(sha: Digest, file: string, chunk: nat, fanout: nat, ran: seq<nat>): Tree
    requires chunk >= 1
  {
    Build(sha, Entries(KeysAfter(sha, file, chunk, ran), |file|, chunk), |file|, chunk, fanout)
  }

  predicate KeyAt(sha: Digest, file: string, chunk: nat, keys: seq<string>, i: nat) {
    i < |keys| && keys[i] == sha(Body(file, chunk, i)) && HexKey(keys[i])
  }

  lemma KeyAfter(sha: Digest, file: string, chunk: nat, ran: seq<nat>, i: nat)
    requires chunk >= 1 && EachOnce(ChunkCount(|file|, chunk), ran) && i < ChunkCount(|file|, chunk)
    ensures KeyAt(sha, file, chunk, KeysAfter(sha, file, chunk, ran), i)
  {
    var blank := seq(ChunkCount(|file|, chunk), _ => "");
    var job := i => sha(Body(file, chunk, i));
    assert i in ran;
    SlotFilled(blank, ran, job, i);
  }

  // ---- download ----

  /** A chunk is taken only if it hashes to its key and has the length the manifest says. */
  predicate Checked(sha: Digest, c: ChunkRef, body: string) {
    sha(body) == c.key && |body| == c.bytes
  }

  /** These two texts, if they differ, have different keys. */
  predicate Told(sha: Digest, a: string, b: string) {
    sha(a) == sha(b) ==> a == b
  }

  function OffsetOf(rs: seq<ChunkRef>): nat -> nat {
    (i: nat) => if i < |rs| then rs[i].offset else 0
  }

  lemma PieceBytes(file: string, chunk: nat, i: nat, body: string)
    requires chunk >= 1 && i < ChunkCount(|file|, chunk) && body == Body(file, chunk, i)
    ensures i * chunk + |body| <= |file| && body == file[i * chunk..i * chunk + |body|]
  {
    PieceAt(|file|, chunk, i);
  }

  lemma MulMono(a: nat, b: nat, c: nat)
    requires a >= b
    ensures a * c >= b * c
  {
  }

  lemma ByteInPiece(size: nat, chunk: nat, x: nat) returns (i: nat)
    requires chunk >= 1 && x < size
    ensures i < ChunkCount(size, chunk) && i * chunk <= x < i * chunk + ChunkLen(size, chunk, i)
  {
    i := x / chunk;
    var at := i * chunk;
    assert x == at + x % chunk;
    CountIsCut(size, chunk);
    CutTiles(0, size, chunk);
    if i >= ChunkCount(size, chunk) {
      MulMono(i, ChunkCount(size, chunk), chunk);
    }
  }

  /** Job i writes the i-th chunk of the file in its place. */
  predicate ChunkAt(file: string, chunk: nat, at: nat -> nat, body: nat -> string, i: nat) {
    at(i) == i * chunk && body(i) == Body(file, chunk, i)
  }

  /** The second pool's writes, in whatever order, put the file together again. */
  lemma PiecesMakeFile(file: string, chunk: nat, blank: string, ran: seq<nat>, at: nat -> nat, body: nat -> string)
    requires chunk >= 1 && |blank| == |file| && EachOnce(ChunkCount(|file|, chunk), ran)
    requires forall i: nat | i < ChunkCount(|file|, chunk) :: ChunkAt(file, chunk, at, body, i)
    ensures Writes(blank, ran, at, body) == file
  {
    forall a | 0 <= a < |ran|
      ensures Piece(file, at, body, ran[a])
    {
      assert ChunkAt(file, chunk, at, body, ran[a]);
      PieceBytes(file, chunk, ran[a], body(ran[a]));
    }
    WritesAgree(blank, ran, at, body, file);
    var f := Writes(blank, ran, at, body);
    forall x: nat | x < |file|
      ensures f[x] == file[x]
    {
      ByteAgrees(file, chunk, ran, at, body, f, x);
    }
  }

  lemma ByteAgrees(file: string, chunk: nat, ran: seq<nat>, at: nat -> nat, body: nat -> string, f: string, x: nat)
    requires chunk >= 1 && x < |file| == |f| && EachOnce(ChunkCount(|file|, chunk), ran)
    requires forall i: nat | i < ChunkCount(|file|, chunk) :: ChunkAt(file, chunk, at, body, i)
    requires forall a, x | 0 <= a < |ran| && at(ran[a]) <= x < at(ran[a]) + |body(ran[a])| &&
             x < |file| :: f[x] == file[x]
    ensures f[x] == file[x]
  {
    var j := ByteInPiece(|file|, chunk, x);
    assert ChunkAt(file, chunk, at, body, j);
    assert j in ran;
    var a :| 0 <= a < |ran| && ran[a] == j;
  }

  /** A chunk that passed its check is the chunk that was uploaded. */
  lemma ChunkComesBack(sha: Digest, file: string, chunk: nat, keys: seq<string>, rs: seq<ChunkRef>,
                       body: nat -> string, i: nat)
    requires KeyAt(sha, file, chunk, keys, i) && RefAt(rs, keys, |file|, chunk, i)
    requires Checked(sha, rs[i], body(i)) && Told(sha, body(i), Body(file, chunk, i))
    ensures ChunkAt(file, chunk, OffsetOf(rs), body, i)
  {
  }

  lemma FileComesBack(sha: Digest, file: string, chunk: nat, keys: seq<string>, rs: seq<ChunkRef>, down: seq<nat>,
                      body: nat -> string)
    requires chunk >= 1 && |rs| == ChunkCount(|file|, chunk) && EachOnce(|rs|, down)
    requires forall i: nat | i < |rs| :: KeyAt(sha, file, chunk, keys, i) && RefAt(rs, keys, |file|, chunk, i)
    requires forall i: nat | i < |rs| :: Checked(sha, rs[i], body(i)) && Told(sha, body(i), Body(file, chunk, i))
    ensures Writes(seq(|file|, _ => '\0'), down, OffsetOf(rs), body) == file
  {
    forall i: nat | i < |rs|
      ensures ChunkAt(file, chunk, OffsetOf(rs), body, i)
    {
      assert KeyAt(sha, file, chunk, keys, i);
      ChunkComesBack(sha, file, chunk, keys, rs, body, i);
    }
    PiecesMakeFile(file, chunk, seq(|file|, _ => '\0'), down, OffsetOf(rs), body);
  }

  /** Resolving an uploaded tree gives the file's chunks, each under its key and in its place. */
  lemma UploadResolves(sha: Digest, file: string, chunk: nat, fanout: nat, up: seq<nat>, keys: seq<string>,
                       es: seq<ManifestEntry>, t: Tree, get: Store, r: Found)
    requires 1 <= chunk <= MAX_CHUNK && |file| < U64 && EachOnce(ChunkCount(|file|, chunk), up)
    requires keys == KeysAfter(sha, file, chunk, up) && es == Entries(keys, |file|, chunk)
    requires t == Build(sha, es, |file|, chunk, fanout)
    requires Kept(get, sha, t.blobs) && Resolve(get, t.root) == Some(r)
    ensures r.size == |file| && |r.chunks| == ChunkCount(|file|, chunk)
    ensures forall i: nat | i < |r.chunks| ::
              KeyAt(sha, file, chunk, keys, i) && RefAt(r.chunks, keys, |file|, chunk, i)
  {
    forall i: nat | i < |keys|
      ensures KeyAt(sha, file, chunk, keys, i)
    {
      KeyAfter(sha, file, chunk, up, i);
    }
    assert forall i: nat | i < |keys| :: KeyAt(sha, file, chunk, keys, i) ==> HexKey(keys[i]);
    EntriesLevel(keys, |file|, chunk);
    TreeReadsBack(sha, get, es, |file|, chunk, fanout);
    forall i: nat | i < |keys|
      ensures RefAt(r.chunks, keys, |file|, chunk, i)
    {
      RefsAre(es, keys, |file|, chunk, i);
    }
  }

  /** Upload then download is the identity. For every file, chunk size and fan-out, and every interleaving of either
      pool: if the upload's pool reports success, the tree it stored resolves in a store that never gives another
      text for the key of one of the tree's, the download's pool reports success, every chunk it wrote passed its
      check, and no chunk it fetched is other bytes with the key of the chunk uploaded in its place, then the file
      downloaded is the file uploaded. */
  lemma UploadDownload(sha: Digest, file: string, chunk: nat, fanout: nat, workers: nat, trace: seq<(nat, bool)>,
                       t: Tree, get: Store, r: Found, readers: nat, reading: seq<(nat, bool)>, body: nat -> string)
    requires 1 <= chunk <= MAX_CHUNK && |file| < U64 && workers >= 1 && readers >= 1
    requires var up := Run(ChunkCount(|file|, chunk), workers, trace);
             Succeeded(up) && t == Uploaded(sha, file, chunk, fanout, up.ran)
    requires Kept(get, sha, t.blobs) && Resolve(get, t.root) == Some(r)
    requires Succeeded(Run(|r.chunks|, readers, reading))
    requires forall i: nat | i < |r.chunks| ::
               Checked(sha, r.chunks[i], body(i)) && Told(sha, body(i), Body(file, chunk, i))
    ensures Writes(seq(r.size, _ => '\0'), Run(|r.chunks|, readers, reading).ran, OffsetOf(r.chunks), body) == file
  {
    var n := ChunkCount(|file|, chunk);
    PoolRunsEach(n, workers, trace);
    PoolRunsEach(|r.chunks|, readers, reading);
    var up, down := Run(n, workers, trace).ran, Run(|r.chunks|, readers, reading).ran;
    var keys := KeysAfter(sha, file, chunk, up);
    UploadResolves(sha, file, chunk, fanout, up, keys, Entries(keys, |file|, chunk), t, get, r);
    FileComesBack(sha, file, chunk, keys, r.chunks, down, body);
  }
}
