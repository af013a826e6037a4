/** The store's own operations: each critical section changes the fields as its step in StoreRuns says. */
module ChunkStores {
  import opened Text
  import opened Manifests
  import opened Listing
  import opened Paging
  import opened StoreRuns

  datatype PutResult = Stored | AlreadyHeld | BadKey | TooLarge | HashMismatch | IoError
  datatype DropResult = Dropped | NotHeld | TooYoung | DropBadKey

  class ChunkStore {
    var keys: set<string>
    var touched: map<string, int>
    var files: map<string, string>
    var bytes: int
    var birth: int

    /** The store as StoreRuns has it, with the puts that other threads have under way. */
    function Abs(now: int, puts: map<nat, Put>): Shop
      reads this
    {
      Shop(keys, touched, files.Keys, bytes, puts, now, birth)
    }

    /** Every file has the length that its key stands for. */
    ghost predicate Sized(size: Sizes)
      reads this
    {
      forall k | k in files :: |files[k]| == size(k)
    }

    /** Every file holds the bytes that its key stands for, and no more than a chunk may. */
    ghost predicate Hashed(sha: Digest)
      reads this
    {
      forall k | k in files :: sha(files[k]) == k && |files[k]| <= MAX_CHUNK
    }

    constructor (found: map<string, string>, total: int, now: int)
      ensures keys == found.Keys && touched == map[] && files == found && bytes == total && birth == now
    {
      keys, touched, files, bytes, birth := found.Keys, map[], found, total, now;
    }

    /** A put's first look at the index: a chunk already there only has its write time renewed. */
    method HeldCheck(key: string, now: int, ghost id: nat, ghost puts: map<nat, Put>) returns (held: bool)
      requires id !in puts
      modifies this`touched
      ensures (held <==> key in keys) && touched == if held then old(touched)[key := now] else old(touched)
      ensures Abs(now, if held then puts else puts[id := Put(key, now, Writing)]) ==
              BeginPut(old(Abs(now, puts)), id, key)
    {
      held := key in keys;
      if held {
        touched := touched[key := now];
      }
    }

    /** The commit point: the file has its final name. */
    method RenameFile(key: string, body: string, now: int, ghost id: nat, ghost puts: map<nat, Put>)
      requires id in puts && puts[id].key == key && puts[id].phase == Writing
      modifies this`files
      ensures files == old(files)[key := body]
      ensures Abs(now, puts[id := puts[id].(phase := Renamed)]) == RenamePut(old(Abs(now, puts)), id)
    {
      files := files[key := body];
      assert files.Keys == old(files.Keys) + {key};
    }

    /** Indexed, and counted once if two writers raced. */
    method IndexKey(key: string, body: string, now: int, ghost size: Sizes, ghost id: nat, ghost puts: map<nat, Put>)
      requires id in puts && puts[id].key == key && puts[id].phase == Renamed && size(key) == |body|
      modifies this`keys, this`bytes, this`touched
      ensures keys == old(keys) + {key} && touched == old(touched)[key := now] &&
              bytes == old(bytes) + if key in old(keys) then 0 else |body|
      ensures Abs(now, puts - {id}) == InsertPut(size, old(Abs(now, puts)), id)
    {
      if key !in keys {
        keys := keys + {key};
        bytes := bytes + |body|;
      } else {
        assert keys + {key} == keys;
      }
      touched := touched[key := now];
    }

    /** A put that no other thread interrupts; the flags say which of its system calls succeed. */
    method StorePut(sha: Digest, key: string, body: string, start: int, end: int, written: bool, renamed: bool,
                    flushed: bool)
      returns (r: PutResult)
      modifies this
      ensures r == BadKey <==> !HexKey(key)
      ensures r == TooLarge <==> HexKey(key) && |body| > MAX_CHUNK
      ensures r == HashMismatch <==> HexKey(key) && |body| <= MAX_CHUNK && sha(body) != key
      ensures HexKey(key) && |body| <= MAX_CHUNK && sha(body) == key ==>
                r == if key in old(keys) then AlreadyHeld else if written && renamed && flushed then Stored else IoError
      ensures old(Hashed(sha)) ==> Hashed(sha)
      ensures keys == (if r == Stored then old(keys) + {key} else old(keys))
      ensures bytes == (if r == Stored then old(bytes) + |body| else old(bytes))
      ensures touched == (if r == Stored then old(touched)[key := end] else if r == AlreadyHeld
                          then old(touched)[key := start] else old(touched))
      ensures files == old(files) || ((r == Stored || r == IoError) && files == old(files)[key := body])
      ensures r == Stored ==> key in files && files[key] == body
      ensures birth == old(birth)
    {
      if !HexKey(key) {
        return BadKey;
      }
      if |body| > MAX_CHUNK {
        return TooLarge;
      }
      if sha(body) != key {
        return HashMismatch;
      }
      r := PutValid(key, body, start, end, written && renamed, flushed);
    }

    /** The key and the bytes are right: held already, or to be written. */
    method PutValid(key: string, body: string, start: int, end: int, renamed: bool, flushed: bool)
        returns (r: PutResult)
      modifies this
      ensures r == if key in old(keys) then AlreadyHeld else if renamed && flushed then Stored else IoError
      ensures keys == (if r == Stored then old(keys) + {key} else old(keys))
      ensures bytes == (if r == Stored then old(bytes) + |body| else old(bytes))
      ensures touched == (if r == Stored then old(touched)[key := end] else if r == AlreadyHeld
                          then old(touched)[key := start] else old(touched))
      ensures files == if r != AlreadyHeld && renamed then old(files)[key := body] else old(files)
      ensures birth == old(birth)
    {
      var held := HeldCheck(key, start, 0, map[]);
      if held {
        return AlreadyHeld;
      }
      r := WriteChunk(key, body, start, end, renamed, flushed);
    }

    /** Not held: written under another name, renamed, flushed, indexed. */
    method WriteChunk(key: string, body: string, start: int, end: int, renamed: bool, flushed: bool)
        returns (r: PutResult)
      requires key !in keys
      modifies this
      ensures r == if renamed && flushed then Stored else IoError
      ensures files == if renamed then old(files)[key := body] else old(files)
      ensures birth == old(birth)
      ensures r == Stored ==>
              keys == old(keys) + {key} && touched == old(touched)[key := end] && bytes == old(bytes) + |body|
      ensures r != Stored ==> keys == old(keys) && touched == old(touched) && bytes == old(bytes)
    {
      if !renamed {
        return IoError;
      }
      RenameFile(key, body, start, 0, map[0 := Put(key, start, Writing)]);
      if !flushed {
        return IoError;
      }
      ghost var size := (k: string) => |body|;
      IndexKey(key, body, end, size, 0, map[0 := Put(key, start, Renamed)]);
      r := Stored;
    }

    /** Dropped only if held and old enough; the index, the write time and the file go together. */
    method StoreDrop(key: string, grace: int, now: int, ghost size: Sizes, ghost puts: map<nat, Put>)
        returns (r: DropResult, freed: nat)
      requires Sized(size)
      modifies this
      ensures Sized(size)
      ensures HexKey(key) ==> Abs(now, puts) == DropKey(size, grace, old(Abs(now, puts)), key)
      ensures !HexKey(key) ==> Abs(now, puts) == old(Abs(now, puts))
      ensures r == (if !HexKey(key) then DropBadKey
                    else if key !in old(keys) then NotHeld
                    else if old(Old(grace, Abs(now, puts), key)) then Dropped else TooYoung)
      ensures freed == if r == Dropped && key in old(files) then |old(files)[key]| else 0
      ensures forall k | k in files :: k in old(files) && files[k] == old(files)[k]
    {
      freed := 0;
      if !HexKey(key) {
        return DropBadKey, 0;
      }
      if key !in keys {
        return NotHeld, 0;
      }
      var written := if key in touched then touched[key] else birth;
      if now - written < grace {
        return TooYoung, 0;
      }
      if key in files {
        freed := |files[key]|;
      }
      keys := keys - {key};
      touched := touched - {key};
      bytes := bytes - if freed <= bytes then freed else bytes;
      files := files - {key};
      assert files.Keys == old(files.Keys) - {key};
      r := Dropped;
    }

    /** Write times as old as the grace are forgotten, and no others. */
    method StoreForgetOld(grace: int, at: int, ghost now: int, ghost puts: map<nat, Put>)
      requires at <= now
      modifies this`touched
      ensures Abs(now, puts) == ForgetOld(grace, old(Abs(now, puts)), now - at)
    {
      var left := touched.Keys;
      while left != {}
        invariant left <= old(touched.Keys)
        invariant forall k :: k in touched <==> k in old(touched) && (k in left || at - old(touched)[k] < grace)
        invariant forall k | k in touched :: touched[k] == old(touched)[k]
        decreases |left|
      {
        var k :| k in left;
        if at - touched[k] >= grace {
          touched := touched - {k};
        }
        left := left - {k};
      }
    }

    /** The next keys past a cursor, in order. */
    method StoreKeysAfter(after: string, limit: nat) returns (page: seq<string>)
      requires limit >= 1 && "" !in keys
      ensures |page| <= limit && IsPage(Lexical(), keys, after, page)
      ensures |page| < limit ==> forall x | x in keys && Past(Lexical(), after, x) :: x in page
    {
      page := KeysAfter(keys, after, limit);
    }
  }
}
