/** One node's chunk store: puts in three steps, atomic drops and forgets, crashes and restarts, interleaved anyhow. */
module StoreRuns {

  /** A put past its first look at the index: when that was, and whether its file has its final name yet. */
  datatype Phase = Writing | Renamed
  datatype Put = Put(key: string, since: int, phase: Phase)

  /** The index, the write times, the files on disk, the byte count, and the puts under way. */
  datatype Shop = Shop(keys: set<string>, touched: map<string, int>, files: set<string>, bytes: int,
                       puts: map<nat, Put>, now: int, birth: int)

  datatype Event =
    | Tick(d: nat)
    | Begin(id: nat, key: string)
    | Rename(id: nat)
    | Insert(id: nat)
    | GiveUp(id: nat)
    | Drop(key: string)
    | Forget(lag: nat)
    | Reopen(left: set<string>)

  /** How long the chunk with this key is. */
  type Sizes = string -> nat

  // ---- the byte count ----

  ghost function Total(size: Sizes, s: set<string>): nat {
    if s == {} then 0 else var x :| x in s; size(x) + Total(size, s - {x})
  }

  lemma {:induction false} TotalWithout(size: Sizes, s: set<string>, x: string)
    requires x in s
    ensures Total(size, s) == size(x) + Total(size, s - {x})
    decreases |s|
  {
    var y :| y in s && Total(size, s) == size(y) + Total(size, s - {y});
    if x != y {
      TotalWithout(size, s - {y}, x);
      TotalWithout(size, s - {x}, y);
      assert s - {y} - {x} == s - {x} - {y};
    }
  }

  lemma TotalWith(size: Sizes, s: set<string>, x: string)
    requires x !in s
    ensures Total(size, s + {x}) == Total(size, s) + size(x)
  {
    TotalWithout(size, s + {x}, x);
    assert s + {x} - {x} == s;
  }

  // ---- the steps ----

  function Written(s: Shop, key: string): int {
    if key in s.touched then s.touched[key] else s.birth
  }

  predicate Old(g: int, s: Shop, key: string) {
    s.now - Written(s, key) >= g
  }

  /** A key in the index only has its write time renewed; any other starts a put. */
  function BeginPut(s: Shop, id: nat, key: string): Shop {
    if key in s.keys then s.(touched := s.touched[key := s.now])
    else if id in s.puts then s
    else s.(puts := s.puts[id := Put(key, s.now, Writing)])
  }

  function RenamePut(s: Shop, id: nat): Shop {
    if id in s.puts && s.puts[id].phase == Writing
    then s.(files := s.files + {s.puts[id].key}, puts := s.puts[id := s.puts[id].(phase := Renamed)]) else s
  }

  /** Counted once, if two writers raced. */
  function InsertPut(size: Sizes, s: Shop, id: nat): Shop {
    if id in s.puts && s.puts[id].phase == Renamed then
      var key := s.puts[id].key;
      s.(keys := s.keys + {key}, touched := s.touched[key := s.now], puts := s.puts - {id},
         bytes := if key in s.keys then s.bytes else s.bytes + size(key))
    else s
  }

  function DropKey(size: Sizes, g: int, s: Shop, key: string): Shop {
    if key in s.keys && Old(g, s, key) then
      var freed := if key in s.files then size(key) else 0;
      s.(keys := s.keys - {key}, touched := s.touched - {key}, files := s.files - {key},
         bytes := s.bytes - if freed <= s.bytes then freed else s.bytes)
    else s
  }

  /** The clock was read `lag` before the lock was taken. */
  function ForgetOld(g: int, s: Shop, lag: nat): Shop {
    s.(touched := map k | k in s.touched && s.now - lag - s.touched[k] < g :: s.touched[k])
  }

  /** After a crash the index is whatever files are found: those of the indexed keys that have one, which were flushed,
      and perhaps others. */
  ghost function OpenAgain(size: Sizes, s: Shop, left: set<string>): Shop {
    var found := s.keys * s.files + left;
    Shop(found, map[], found, Total(size, found), map[], s.now, s.now)
  }

  ghost function Step(size: Sizes, g: int, forgets: bool, s: Shop, e: Event): Shop {
    match e
    case Tick(d) => s.(now := s.now + d)
    case Begin(id, key) => BeginPut(s, id, key)
    case Rename(id) => RenamePut(s, id)
    case Insert(id) => InsertPut(size, s, id)
    case GiveUp(id) => s.(puts := s.puts - {id})
    case Drop(key) => DropKey(size, g, s, key)
    case Forget(lag) => if forgets then ForgetOld(g, s, lag) else s
    case Reopen(left) => OpenAgain(size, s, left)
  }

  ghost function Run(size: Sizes, g: int, forgets: bool, s0: Shop, trace: seq<Event>): Shop {
    if trace == [] then s0
    else Step(size, g, forgets, Run(size, g, forgets, s0, trace[..|trace| - 1]), trace[|trace| - 1])
  }

  // ---- every indexed key has its file ----

  predicate PutOk(g: int, s: Shop, p: Put) {
    && p.since <= s.now
    && (p.key in s.keys && p.key in s.touched ==> s.touched[p.key] >= p.since)
    && (p.key in s.keys && p.key !in s.touched ==> s.now - p.since >= g)
    && (p.phase == Renamed ==> p.key in s.files || s.now - p.since >= g)
  }

  ghost predicate Timely(s: Shop) {
    s.birth <= s.now && s.touched.Keys <= s.keys && forall k | k in s.touched :: s.birth <= s.touched[k] <= s.now
  }

  ghost predicate Sound(size: Sizes, g: int, s: Shop) {
    Timely(s) && s.keys <= s.files && s.bytes == Total(size, s.keys) &&
        forall id | id in s.puts :: PutOk(g, s, s.puts[id])
  }

  /** A put that ends does so before the grace has passed since its first look. */
  predicate BriskStep(g: int, s: Shop, e: Event) {
    e.Insert? && e.id in s.puts ==> s.now - s.puts[e.id].since < g
  }

  ghost predicate Brisk(size: Sizes, g: int, s0: Shop, trace: seq<Event>) {
    forall i | 0 <= i < |trace| :: BriskStep(g, Run(size, g, true, s0, trace[..i]), trace[i])
  }

  lemma InsertKeeps(size: Sizes, g: int, s: Shop, id: nat)
    requires Sound(size, g, s) && BriskStep(g, s, Insert(id))
    ensures Sound(size, g, InsertPut(size, s, id))
  {
    if id in s.puts && s.puts[id].phase == Renamed {
      var key := s.puts[id].key;
      assert PutOk(g, s, s.puts[id]);
      if key in s.keys {
        assert s.keys + {key} == s.keys;
      } else {
        TotalWith(size, s.keys, key);
      }
      forall j | j in s.puts && j != id
        ensures PutOk(g, InsertPut(size, s, id), s.puts[j])
      {
        assert PutOk(g, s, s.puts[j]);
      }
    }
  }

  lemma DropKeeps(size: Sizes, g: int, s: Shop, key: string)
    requires Sound(size, g, s)
    ensures Sound(size, g, DropKey(size, g, s, key))
  {
    if key in s.keys && Old(g, s, key) {
      TotalWithout(size, s.keys, key);
      forall j | j in s.puts
        ensures PutOk(g, DropKey(size, g, s, key), s.puts[j])
      {
        assert PutOk(g, s, s.puts[j]);
      }
    }
  }

  lemma OthersKeep(size: Sizes, g: int, s: Shop, e: Event)
    requires Sound(size, g, s) && !e.Insert? && !e.Drop?
    ensures Sound(size, g, Step(size, g, true, s, e))
  {
    var t := Step(size, g, true, s, e);
    forall j | j in t.puts
      ensures PutOk(g, t, t.puts[j])
    {
      assert j in s.puts ==> PutOk(g, s, s.puts[j]);
    }
  }

  lemma BriskPrefix(size: Sizes, g: int, s0: Shop, trace: seq<Event>, k: nat)
    requires Brisk(size, g, s0, trace) && k <= |trace|
    ensures Brisk(size, g, s0, trace[..k])
  {
    forall i | 0 <= i < k
      ensures BriskStep(g, Run(size, g, true, s0, trace[..k][..i]), trace[..k][i])
    {
      assert trace[..k][..i] == trace[..i];
      assert BriskStep(g, Run(size, g, true, s0, trace[..i]), trace[i]);
    }
  }

  /** If no put lasts as long as the grace then, whatever the interleaving, every indexed key has its file, and the byte
      count is exactly the sizes of the indexed chunks. */
  lemma {:induction false} IndexedIsOnDisk(size: Sizes, g: int, s0: Shop, trace: seq<Event>)
    requires Sound(size, g, s0) && Brisk(size, g, s0, trace)
    ensures Sound(size, g, Run(size, g, true, s0, trace))
  {
    if trace != [] {
      var k := |trace| - 1;
      var s, e := Run(size, g, true, s0, trace[..k]), trace[k];
      BriskPrefix(size, g, s0, trace, k);
      IndexedIsOnDisk(size, g, s0, trace[..k]);
      assert BriskStep(g, s, e);
      match e {
        case Insert(id) => InsertKeeps(size, g, s, id);
        case Drop(key) => DropKeeps(size, g, s, key);
        case _ => OthersKeep(size, g, s, e);
      }
    }
  }

  lemma RunSnoc(size: Sizes, g: int, forgets: bool, s0: Shop, trace: seq<Event>, e: Event)
    ensures Run(size, g, forgets, s0, trace + [e]) == Step(size, g, forgets, Run(size, g, forgets, s0, trace), e)
  {
    assert (trace + [e])[..|trace|] == trace;
  }

  /** Two writers race for one key, one indexes it, and the other is still about to. */
  lemma TwoWriters(size: Sizes, g: nat, s0: Shop, key: string) returns (trace: seq<Event>, s: Shop)
    requires key !in s0.keys && 0 !in s0.puts && 1 !in s0.puts
    ensures s == Run(size, g, true, s0, trace) && s.now == s0.now && key in s.keys && key in s.touched
    ensures s.touched[key] == s0.now
    ensures 0 in s.puts && s.puts[0] == Put(key, s0.now, Renamed)
  {
    var s2 := RenamePut(BeginPut(s0, 0, key), 0);
    RunSnoc(size, g, true, s0, [], Begin(0, key));
    RunSnoc(size, g, true, s0, [] + [Begin(0, key)], Rename(0));
    trace := [] + [Begin(0, key)] + [Rename(0)];
    var s4 := RenamePut(BeginPut(s2, 1, key), 1);
    RunSnoc(size, g, true, s0, trace, Begin(1, key));
    RunSnoc(size, g, true, s0, trace + [Begin(1, key)], Rename(1));
    RunSnoc(size, g, true, s0, trace + [Begin(1, key)] + [Rename(1)], Insert(1));
    trace, s := trace + [Begin(1, key)] + [Rename(1)] + [Insert(1)], InsertPut(size, s4, 1);
  }

  /** The premise cannot be dropped: a put that lasts exactly as long as the grace can index a file that a drop took. */
  lemma SlowPutLosesFile(size: Sizes, g: nat, s0: Shop, key: string) returns (trace: seq<Event>, s: Shop)
    requires key !in s0.keys && 0 !in s0.puts && 1 !in s0.puts
    ensures s == Run(size, g, true, s0, trace) && key in s.keys && key !in s.files && s.now == s0.now + g
  {
    var t, s5 := TwoWriters(size, g, s0, key);
    RunSnoc(size, g, true, s0, t, Tick(g));
    RunSnoc(size, g, true, s0, t + [Tick(g)], Drop(key));
    RunSnoc(size, g, true, s0, t + [Tick(g)] + [Drop(key)], Insert(0));
    trace := t + [Tick(g)] + [Drop(key)] + [Insert(0)];
    s := InsertPut(size, DropKey(size, g, s5.(now := s5.now + g), key), 0);
  }

  // ---- one key's puts ----

  /** What Sound says, of one key. */
  ghost predicate KeySound(g: int, s: Shop, key: string) {
    && Timely(s) && (key in s.keys ==> key in s.files)
    && forall id | id in s.puts && s.puts[id].key == key :: PutOk(g, s, s.puts[id])
  }

  predicate KeyBriskStep(g: int, s: Shop, e: Event, key: string) {
    e.Insert? && e.id in s.puts && s.puts[e.id].key == key ==> s.now - s.puts[e.id].since < g
  }

  /** No put of this key lasts as long as the grace. Puts of other keys may. */
  ghost predicate KeyBrisk(size: Sizes, g: int, s0: Shop, trace: seq<Event>, key: string) {
    forall i | 0 <= i < |trace| :: KeyBriskStep(g, Run(size, g, true, s0, trace[..i]), trace[i], key)
  }

  lemma KeyBriskPrefix(size: Sizes, g: int, s0: Shop, trace: seq<Event>, key: string, k: nat)
    requires KeyBrisk(size, g, s0, trace, key) && k <= |trace|
    ensures KeyBrisk(size, g, s0, trace[..k], key)
  {
    forall i | 0 <= i < k
      ensures KeyBriskStep(g, Run(size, g, true, s0, trace[..k][..i]), trace[..k][i], key)
    {
      assert trace[..k][..i] == trace[..i];
      assert KeyBriskStep(g, Run(size, g, true, s0, trace[..i]), trace[i], key);
    }
  }

  lemma KeyStep(size: Sizes, g: int, s: Shop, e: Event, key: string)
    requires KeySound(g, s, key) && KeyBriskStep(g, s, e, key)
    ensures KeySound(g, Step(size, g, true, s, e), key)
  {
    var t := Step(size, g, true, s, e);
    forall j | j in t.puts && t.puts[j].key == key
      ensures PutOk(g, t, t.puts[j])
    {
      assert j in s.puts && s.puts[j].key == key ==> PutOk(g, s, s.puts[j]);
    }
  }

  /** If no put of a key lasts as long as the grace then, whatever the interleaving and however slow the other puts,
      the key has its file whenever it is indexed. */
  lemma {:induction false} KeyIsOnDisk(size: Sizes, g: int, s0: Shop, trace: seq<Event>, key: string)
    requires KeySound(g, s0, key) && KeyBrisk(size, g, s0, trace, key)
    ensures KeySound(g, Run(size, g, true, s0, trace), key)
  {
    if trace != [] {
      var k := |trace| - 1;
      KeyBriskPrefix(size, g, s0, trace, key, k);
      KeyIsOnDisk(size, g, s0, trace[..k], key);
      assert KeyBriskStep(g, Run(size, g, true, s0, trace[..k]), trace[k], key);
      KeyStep(size, g, Run(size, g, true, s0, trace[..k]), trace[k], key);
    }
  }

  // ---- an acknowledged chunk stays for the grace ----

  /** Either the grace has passed since `w`, or the chunk is held and counts as written at `w` or later. */
  predicate Fresh(g: int, s: Shop, key: string, w: int) {
    s.now - w >= g || (key in s.keys && Written(s, key) >= w)
  }

  /** The put of `key` is answered: held already, or stored. */
  predicate Acks(s: Shop, e: Event, key: string) {
    match e
    case Begin(id, k) => k == key && key in s.keys
    case Insert(id) => id in s.puts && s.puts[id].phase == Renamed && s.puts[id].key == key
    case _ => false
  }

  lemma AckIsFresh(size: Sizes, g: int, s: Shop, e: Event, key: string)
    requires Acks(s, e, key)
    ensures Fresh(g, Step(size, g, true, s, e), key, s.now)
  {
  }

  /** If this step opens the store again, the key's file is there to be found. */
  predicate Survives(s: Shop, e: Event, key: string) {
    e.Reopen? && key in s.keys ==> key in s.files + e.left
  }

  /** So it is at every restart from step `from` on. */
  ghost predicate FileStays(size: Sizes, g: int, s0: Shop, trace: seq<Event>, key: string, from: nat) {
    forall i | from <= i < |trace| :: Survives(Run(size, g, true, s0, trace[..i]), trace[i], key)
  }

  lemma StaysPrefix(size: Sizes, g: int, s0: Shop, trace: seq<Event>, key: string, from: nat, k: nat)
    requires FileStays(size, g, s0, trace, key, from) && k <= |trace|
    ensures FileStays(size, g, s0, trace[..k], key, from)
  {
    forall i | from <= i < k
      ensures Survives(Run(size, g, true, s0, trace[..k][..i]), trace[..k][i], key)
    {
      assert trace[..k][..i] == trace[..i];
    }
  }

  /** If no put of a key lasts as long as the grace, its file is there at every restart. */
  lemma BriskStays(size: Sizes, g: int, s0: Shop, trace: seq<Event>, key: string)
    requires KeySound(g, s0, key) && KeyBrisk(size, g, s0, trace, key)
    ensures FileStays(size, g, s0, trace, key, 0)
  {
    forall i | 0 <= i < |trace|
      ensures Survives(Run(size, g, true, s0, trace[..i]), trace[i], key)
    {
      KeyBriskPrefix(size, g, s0, trace, key, i);
      KeyIsOnDisk(size, g, s0, trace[..i], key);
    }
  }

  lemma StepFresh(size: Sizes, g: int, s: Shop, e: Event, key: string, w: int)
    requires Fresh(g, s, key, w) && w <= s.now && s.birth <= s.now && Survives(s, e, key)
    ensures Fresh(g, Step(size, g, true, s, e), key, w)
    ensures Step(size, g, true, s, e).birth <= Step(size, g, true, s, e).now
    ensures w <= Step(size, g, true, s, e).now
  {
  }

  /** From the moment a put is answered the chunk is in the index, until the grace has passed, whatever else happens, if
      its file is there at every restart. */
  lemma {:induction false} StaysForGrace(size: Sizes, g: int, s: Shop, trace: seq<Event>, key: string, w: int)
    requires Fresh(g, s, key, w) && w <= s.now && s.birth <= s.now && FileStays(size, g, s, trace, key, 0)
    ensures var t := Run(size, g, true, s, trace); Fresh(g, t, key, w) && w <= t.now && t.birth <= t.now
  {
    if trace != [] {
      var k := |trace| - 1;
      StaysPrefix(size, g, s, trace, key, 0, k);
      StaysForGrace(size, g, s, trace[..k], key, w);
      assert Survives(Run(size, g, true, s, trace[..k]), trace[k], key);
      StepFresh(size, g, Run(size, g, true, s, trace[..k]), trace[k], key, w);
    }
  }

  /** And only if: a restart that does not find the file forgets the chunk. */
  lemma LostAtRestart(size: Sizes, g: int, s: Shop, e: Event, key: string)
    requires e.Reopen? && key in s.keys
    ensures key in Step(size, g, true, s, e).keys <==> Survives(s, e, key)
  {
  }

  /** So a put that lasts as long as the grace can be answered and forgotten by a restart in the same instant. */
  lemma SlowPutForgotten(size: Sizes, g: nat, s0: Shop, key: string) returns (trace: seq<Event>, s: Shop, t: Shop)
    requires key !in s0.keys && 0 !in s0.puts && 1 !in s0.puts
    ensures |trace| >= 1 && s == Run(size, g, true, s0, trace[..|trace| - 1]) && Acks(s, trace[|trace| - 1], key)
    ensures t == Run(size, g, true, s0, trace + [Reopen({})]) && key !in t.keys && t.now == s.now
  {
    var t5, s5 := TwoWriters(size, g, s0, key);
    var late := s5.(now := s5.now + g);
    RunSnoc(size, g, true, s0, t5, Tick(g));
    RunSnoc(size, g, true, s0, t5 + [Tick(g)], Drop(key));
    s := DropKey(size, g, late, key);
    RunSnoc(size, g, true, s0, t5 + [Tick(g)] + [Drop(key)], Insert(0));
    trace := t5 + [Tick(g)] + [Drop(key)] + [Insert(0)];
    assert trace[..|trace| - 1] == t5 + [Tick(g)] + [Drop(key)];
    RunSnoc(size, g, true, s0, trace, Reopen({}));
    t := OpenAgain(size, InsertPut(size, s, 0), {});
  }

  // ---- forgetting changes no decision ----

  /** Exactly the write times as old as the grace are forgotten, by the clock as it was read; so those kept are few: of
      chunks written within the grace and that lag. Nothing else changes. */
  lemma ForgetsTheOld(g: int, s: Shop, lag: nat)
    ensures var t := ForgetOld(g, s, lag);
            && t == s.(touched := t.touched)
            && (forall k :: k in t.touched <==> k in s.touched && s.touched[k] > s.now - lag - g)
            && forall k | k in t.touched :: t.touched[k] == s.touched[k]
  {
  }

  /** `s` has forgotten write times that `t` still has; every one of them is old. */
  ghost predicate SameBut(g: int, s: Shop, t: Shop) {
    && s.keys == t.keys && s.files == t.files && s.bytes == t.bytes && s.puts == t.puts && s.now == t.now &&
        s.birth == t.birth
    && s.touched.Keys <= t.touched.Keys && (forall k | k in s.touched :: s.touched[k] == t.touched[k])
    && (forall k | k in t.touched && k !in s.touched :: s.now - t.touched[k] >= g)
    && t.touched.Keys <= t.keys && s.birth <= s.now && forall k | k in t.touched :: t.birth <= t.touched[k]
  }

  lemma SameDecision(g: int, s: Shop, t: Shop, key: string)
    requires SameBut(g, s, t)
    ensures Old(g, s, key) <==> Old(g, t, key)
  {
  }

  lemma StepSame(size: Sizes, g: int, s: Shop, t: Shop, e: Event)
    requires SameBut(g, s, t)
    ensures SameBut(g, Step(size, g, true, s, e), Step(size, g, false, t, e))
  {
    match e {
      case Drop(key) => SameDecision(g, s, t, key);
      case _ =>
    }
  }

  /** A store that forgets old write times and one that keeps them all answer alike, for ever. */
  lemma {:induction false} ForgettingIsSafe(size: Sizes, g: int, s0: Shop, trace: seq<Event>, key: string)
    requires Timely(s0)
    ensures var s, t := Run(size, g, true, s0, trace), Run(size, g, false, s0, trace);
            && SameBut(g, s, t)
            && (key in s.keys && Old(g, s, key) <==> key in t.keys && Old(g, t, key))
  {
    if trace != [] {
      var k := |trace| - 1;
      ForgettingIsSafe(size, g, s0, trace[..k], key);
      StepSame(size, g, Run(size, g, true, s0, trace[..k]), Run(size, g, false, s0, trace[..k]), trace[k]);
    }
    SameDecision(g, Run(size, g, true, s0, trace), Run(size, g, false, s0, trace), key);
  }
}
