/** Resolving a tree meets everything the tree refers to: what a collection marks as live. */
module Reachability {
  import opened Text
  import opened Manifests
  import opened ManifestTrees

  function KeysOf(ps: seq<Pending>): set<string> {
    set i | 0 <= i < |ps| :: ps[i].key
  }

  function ChunkKeys(rs: seq<ChunkRef>): set<string> {
    set i | 0 <= i < |rs| :: rs[i].key
  }

  /** What a collection keeps of a resolved tree: its manifests and its chunks. */
  function LiveOf(f: Found): set<string> {
    (set i | 0 <= i < |f.keys| :: f.keys[i]) + ChunkKeys(f.chunks)
  }

  /** Every entry of a manifest is a chunk found, or a manifest read or still to be read. */
  ghost predicate Met(m: Manifest, f: Found, wait: set<string>) {
    forall j | 0 <= j < |m.entries| ::
      if m.kind == Data then m.entries[j].key in ChunkKeys(f.chunks)
      else m.entries[j].key in f.keys || m.entries[j].key in wait
  }

  ghost predicate AllMet(fetch: Source, f: Found, wait: set<string>) {
    forall i | 0 <= i < |f.keys| :: fetch(i, f.keys[i]).Some? && Met(fetch(i, f.keys[i]).value, f, wait)
  }

  lemma {:induction false} EntriesFound(es: seq<ManifestEntry>, o: nat, d: nat)
    ensures forall j | 0 <= j < |es| :: es[j].key in ChunkKeys(Refs(es, o)) && es[j].key in KeysOf(Children(es, o, d))
  {
    forall j | 0 <= j < |es|
      ensures Refs(es, o)[j].key == es[j].key && Children(es, o, d)[j].key == es[j].key
    {
      EntryFound(es, o, d, j);
    }
  }

  lemma {:induction false} EntryFound(es: seq<ManifestEntry>, o: nat, d: nat, j: nat)
    requires j < |es|
    ensures Refs(es, o)[j].key == es[j].key && Children(es, o, d)[j].key == es[j].key
  {
    if j < |es| - 1 {
      EntryFound(es[..|es| - 1], o, d, j);
    }
  }

  /** What was met stays met as more is found. */
  lemma StaysMet(m: Manifest, f: Found, wait: set<string>, f': Found, wait': set<string>)
    requires Met(m, f, wait) && ChunkKeys(f.chunks) <= ChunkKeys(f'.chunks)
    requires (forall k | k in f.keys :: k in f'.keys) && forall k | k in wait :: k in f'.keys || k in wait'
    ensures Met(m, f', wait')
  {
  }

  lemma ChunksGrow(a: seq<ChunkRef>, b: seq<ChunkRef>)
    ensures ChunkKeys(a) <= ChunkKeys(a + b) && ChunkKeys(b) <= ChunkKeys(a + b)
  {
    assert forall i | 0 <= i < |a| :: (a + b)[i] == a[i];
    assert forall i | 0 <= i < |b| :: (a + b)[|a| + i] == b[i];
  }

  lemma TakeMeets(m: Manifest, p: Pending, f: Found, w: set<string>)
    requires Take(m, p, f).Some?
    ensures var (f', next) := Take(m, p, f).value;
            f'.keys == f.keys + [p.key] && ChunkKeys(f.chunks) <= ChunkKeys(f'.chunks) && Met(m, f', w + KeysOf(next))
  {
    EntriesFound(m.entries, p.offset, p.depth + 1);
    ChunksGrow(f.chunks, Refs(m.entries, p.offset));
  }

  lemma OneMet(fetch: Source, p: Pending, f: Found, w: set<string>)
    requires AllMet(fetch, f, {p.key} + w) && ReadOne(fetch, p, f).Some?
    ensures var (f', next) := ReadOne(fetch, p, f).value;
            AllMet(fetch, f', w + KeysOf(next)) && f.keys + [p.key] == f'.keys
  {
    var m := fetch(|f.keys|, p.key).value;
    TakeMeets(m, p, f, w);
    var (f', next) := Take(m, p, f).value;
    forall i | 0 <= i < |f'.keys|
      ensures fetch(i, f'.keys[i]).Some? && Met(fetch(i, f'.keys[i]).value, f', w + KeysOf(next))
    {
      if i < |f.keys| {
        assert f'.keys[i] == f.keys[i];
        assert p.key == f'.keys[|f.keys|];
        StaysMet(fetch(i, f.keys[i]).value, f, {p.key} + w, f', w + KeysOf(next));
      }
    }
  }

  lemma KeysJoin(a: seq<Pending>, b: seq<Pending>)
    ensures KeysOf(a + b) == KeysOf(a) + KeysOf(b)
  {
    assert forall i | 0 <= i < |a| :: (a + b)[i] == a[i];
    assert forall i | 0 <= i < |b| :: (a + b)[|a| + i] == b[i];
  }

  lemma {:induction false} LevelMet(fetch: Source, level: seq<Pending>, f: Found, w: set<string>)
    requires AllMet(fetch, f, KeysOf(level) + w) && ReadLevel(fetch, level, f).Some?
    ensures var (f', next) := ReadLevel(fetch, level, f).value; AllMet(fetch, f', w + KeysOf(next)) && f.keys <= f'.keys
    decreases |level|
  {
    if level == [] {
      assert KeysOf([]) == {};
      assert KeysOf(level) + w == w && w + KeysOf([]) == w;
    } else {
      var p, rest := level[0], level[1..];
      assert level == [p] + rest && KeysOf([p]) == {p.key};
      KeysJoin([p], rest);
      assert KeysOf(level) + w == {p.key} + (KeysOf(rest) + w);
      OneMet(fetch, p, f, KeysOf(rest) + w);
      var (f1, next) := ReadOne(fetch, p, f).value;
      assert KeysOf(rest) + w + KeysOf(next) == KeysOf(rest) + (w + KeysOf(next));
      LevelMet(fetch, rest, f1, w + KeysOf(next));
      var (f2, more) := ReadLevel(fetch, rest, f1).value;
      KeysJoin(next, more);
      assert w + KeysOf(next) + KeysOf(more) == w + KeysOf(next + more);
    }
  }

  lemma {:induction false} FromMet(fetch: Source, level: seq<Pending>, f: Found, d: nat)
    requires AllMet(fetch, f, KeysOf(level)) && ResolveFrom(fetch, level, f, d).Some?
    ensures AllMet(fetch, ResolveFrom(fetch, level, f, d).value, {})
    ensures f.keys <= ResolveFrom(fetch, level, f, d).value.keys
    decreases MAX_MANIFEST_DEPTH + 1 - d
  {
    if level == [] {
      assert KeysOf([]) == {};
    } else {
      assert KeysOf(level) + {} == KeysOf(level);
      LevelMet(fetch, level, f, {});
      var (f', next) := ReadLevel(fetch, level, f).value;
      assert {} + KeysOf(next) == KeysOf(next);
      FromMet(fetch, next, f', d + 1);
    }
  }

  /** A resolved tree is closed: its root was read, and all that any manifest read lists was read or found. */
  lemma ResolvedIsClosed(fetch: Source, root: string)
    requires ResolveWith(fetch, root).Some?
    ensures var r := ResolveWith(fetch, root).value; root in r.keys && AllMet(fetch, r, {})
  {
    var p, f := Pending(root, 0, 0, 1), Found(0, 0, [], 0, []);
    LevelMet(fetch, [p], f, {});
    OneMet(fetch, p, f, {});
    var (f1, next) := ReadOne(fetch, p, f).value;
    assert [p][1..] == [];
    assert ReadLevel(fetch, [p], f) == Some((f1, next + []));
    assert {} + KeysOf(next + []) == KeysOf(next + []);
    FromMet(fetch, next + [], f1, 2);
    assert f1.keys[0] == root;
  }

  // ---- reachability ----

  predicate Lists(m: Manifest, key: string) {
    exists j :: 0 <= j < |m.entries| && m.entries[j].key == key
  }

  /** Each key after the first is listed by the manifest before it, and only index manifests are followed further. */
  predicate Chain(view: string -> Option<Manifest>, ks: seq<string>) {
    && ks != []
    && forall i | 0 <= i < |ks| - 1 ::
         view(ks[i]).Some? && Lists(view(ks[i]).value, ks[i + 1]) &&
             (i + 1 < |ks| - 1 ==> view(ks[i]).value.kind == Index)
  }

  /** Whenever a manifest is fetched, it is the one `view` has for that key. */
  ghost predicate Consistent(fetch: Source, view: string -> Option<Manifest>) {
    forall n, key :: fetch(n, key).Some? ==> fetch(n, key) == view(key)
  }

  lemma {:induction false} ChainRead(fetch: Source, view: string -> Option<Manifest>, r: Found, ks: seq<string>, i: nat)
    requires AllMet(fetch, r, {}) && Consistent(fetch, view) && Chain(view, ks) && ks[0] in r.keys && i < |ks|
    ensures if i < |ks| - 1 then ks[i] in r.keys else ks[i] in LiveOf(r)
    decreases i
  {
    if i > 0 {
      ChainRead(fetch, view, r, ks, i - 1);
      var n :| 0 <= n < |r.keys| && r.keys[n] == ks[i - 1];
      var m := fetch(n, r.keys[n]).value;
      assert Met(m, r, {});
      assert view(ks[i - 1]).value == m && Lists(m, ks[i]);
      var j :| 0 <= j < |m.entries| && m.entries[j].key == ks[i];
    }
  }

  /** Everything reachable from the root of a tree that resolves is live. */
  lemma ReachableIsLive(fetch: Source, view: string -> Option<Manifest>, root: string, ks: seq<string>)
    requires ResolveWith(fetch, root).Some? && Consistent(fetch, view) && Chain(view, ks) && ks[0] == root
    ensures ks[|ks| - 1] in LiveOf(ResolveWith(fetch, root).value)
  {
    ResolvedIsClosed(fetch, root);
    ChainRead(fetch, view, ResolveWith(fetch, root).value, ks, |ks| - 1);
  }
}
