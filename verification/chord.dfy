/** The ring of 64-bit identifiers: clockwise arcs, who owns a key, finger tables and one routing
    step. Identifiers are naturals below 2^64 and addition wraps. */
module Chord {
  const ID_BITS: nat := 64
  const M: nat := 0x1_0000_0000_0000_0000

  type Id = n: int | 0 <= n < M

  datatype Peer = Peer(id: Id, ip: string, port: nat)

  // ---- arcs ----

  /** How far clockwise b lies from a: 0 if they are equal. */
  function Gap(a: Id, b: Id): (d: Id) {
    if b >= a then b - a else b - a + M
  }

  /** The length of the arc from a round to b: the whole ring if they are equal. */
  function Arc(a: Id, b: Id): (d: nat)
    ensures 1 <= d <= M
  {
    if b > a then b - a else b - a + M
  }

  /** a + d, wrapping. */
  function Plus(a: Id, d: Id): Id {
    if a + d < M then a + d else a + d - M
  }

  predicate InRangeOC(k: Id, a: Id, b: Id) {
    if a < b then a < k && k <= b else a < k || k <= b
  }

  predicate InRangeOO(k: Id, a: Id, b: Id) {
    if a < b then a < k && k < b else a < k || k < b
  }

  /** The two membership tests are comparisons of arcs from the same start. */
  lemma ArcTests(k: Id, a: Id, b: Id)
    ensures InRangeOC(k, a, b) <==> Arc(a, k) <= Arc(a, b)
    ensures InRangeOO(k, a, b) <==> Arc(a, k) < Arc(a, b)
    ensures InRangeOO(k, a, b) ==> k != a && Arc(k, b) == Arc(a, b) - Arc(a, k)
  {
  }

  function Pow2(i: nat): (p: nat)
    ensures p >= 1
  {
    if i == 0 then 1 else 2 * Pow2(i - 1)
  }

  lemma WholeRing()
    ensures Pow2(ID_BITS) == M
  {
    assert Pow2(8) == 256;
    assert Pow2(16) == 65536 by {
      PowerAdds(8, 8);
    }
    assert Pow2(32) == 0x1_0000_0000 by {
      PowerAdds(16, 16);
    }
    PowerAdds(32, 32);
  }

  lemma PowersFit(i: nat)
    requires i < ID_BITS
    ensures Pow2(i) < M
  {
    WholeRing();
    PowerRises(i, ID_BITS);
  }

  lemma {:induction false} PowerAdds(a: nat, b: nat)
    ensures Pow2(a + b) == Pow2(a) * Pow2(b)
  {
    if b > 0 {
      PowerAdds(a, b - 1);
      assert Pow2(a + b) == 2 * Pow2(a + b - 1);
      assert Pow2(a) * Pow2(b) == 2 * (Pow2(a) * Pow2(b - 1));
    }
  }

  lemma {:induction false} PowerRises(i: nat, j: nat)
    requires i < j
    ensures Pow2(i) < Pow2(j)
  {
    if i + 1 < j {
      PowerRises(i, j - 1);
    }
  }

  /** finger[i] covers the arc that starts here. */
  function FingerStart(n: Id, i: nat): Id
    requires i < ID_BITS
  {
    PowersFit(i);
    Plus(n, Pow2(i))
  }

  // ---- a fixed ring ----

  /** Sorted by identifier, no identifier twice: what validate_ring lets through. */
  predicate Ring(ms: seq<Peer>) {
    ms != [] && forall i, j | 0 <= i < j < |ms| :: ms[i].id < ms[j].id
  }

  /** How many members lie below k: where a binary search for k ends. */
  function Below(k: Id, ms: seq<Peer>): (i: nat)
    requires Ring(ms)
    ensures i <= |ms|
    ensures forall j | 0 <= j < i :: ms[j].id < k
    ensures forall j | i <= j < |ms| :: ms[j].id >= k
  {
    BelowFrom(k, ms, 0)
  }

  function BelowFrom(k: Id, ms: seq<Peer>, i: nat): (r: nat)
    requires Ring(ms) && i <= |ms| && forall j | 0 <= j < i :: ms[j].id < k
    ensures i <= r <= |ms|
    ensures forall j | 0 <= j < r :: ms[j].id < k
    ensures forall j | r <= j < |ms| :: ms[j].id >= k
    decreases |ms| - i
  {
    if i == |ms| || ms[i].id >= k then i else BelowFrom(k, ms, i + 1)
  }

  /** The owner of k: the first member at or after it. */
  function SuccessorOf(k: Id, ms: seq<Peer>): (p: Peer)
    requires Ring(ms)
    ensures p in ms
  {
    var i := Below(k, ms);
    if i == |ms| then ms[0] else ms[i]
  }

  function PredecessorOf(k: Id, ms: seq<Peer>): (p: Peer)
    requires Ring(ms)
    ensures p in ms
  {
    var i := Below(k, ms);
    if i == 0 then ms[|ms| - 1] else ms[i - 1]
  }

  /** The binary search the program makes. */
  method LowerBound(k: Id, ms: seq<Peer>) returns (i: nat)
    requires Ring(ms)
    ensures i == Below(k, ms)
  {
    var lo, hi := 0, |ms|;
    while lo < hi
      invariant lo <= hi <= |ms|
      invariant forall j | 0 <= j < lo :: ms[j].id < k
      invariant forall j | hi <= j < |ms| :: ms[j].id >= k
    {
      var mid := (lo + hi) / 2;
      if ms[mid].id < k {
        lo := mid + 1;
      } else {
        hi := mid;
      }
    }
    BelowIs(k, ms, lo);
    return lo;
  }

  lemma BelowIs(k: Id, ms: seq<Peer>, i: nat)
    requires Ring(ms) && i <= |ms|
    requires (forall j | 0 <= j < i :: ms[j].id < k) && (forall j | i <= j < |ms| :: ms[j].id >= k)
    ensures i == Below(k, ms)
  {
    var b := Below(k, ms);
    var atB := if b < |ms| then ms[b].id else 0;
    var atI := if i < |ms| then ms[i].id else 0;
  }

  /** The owner is the member nearest clockwise from the key. */
  lemma OwnerIsNearest(k: Id, ms: seq<Peer>, m: Peer)
    requires Ring(ms) && m in ms
    ensures Gap(k, SuccessorOf(k, ms).id) <= Gap(k, m.id)
    ensures Gap(k, SuccessorOf(k, ms).id) == Gap(k, m.id) ==> m == SuccessorOf(k, ms)
  {
    var i := Below(k, ms);
    var j :| 0 <= j < |ms| && ms[j] == m;
    assert i < |ms| && i < j ==> ms[i].id < ms[j].id;
    assert 0 < j ==> ms[0].id < ms[j].id;
  }

  /** The predecessor is the member nearest counter-clockwise, and no member lies between it and k. */
  lemma PredecessorIsNearest(k: Id, ms: seq<Peer>, m: Peer)
    requires Ring(ms) && m in ms
    ensures Arc(PredecessorOf(k, ms).id, k) <= Arc(m.id, k)
    ensures Arc(PredecessorOf(k, ms).id, k) == Arc(m.id, k) ==> m == PredecessorOf(k, ms)
  {
    var i := Below(k, ms);
    var j :| 0 <= j < |ms| && ms[j] == m;
    var n := |ms| - 1;
    assert i > 0 && j < i - 1 ==> ms[j].id < ms[i - 1].id;
    assert j < n ==> ms[j].id < ms[n].id;
  }

  /** The successor of a member: the owner of the identifier after its own. */
  function Next(p: Peer, ms: seq<Peer>): (q: Peer)
    requires Ring(ms)
    ensures q in ms
  {
    SuccessorOf(Plus(p.id, 1), ms)
  }

  /** The key k belongs to the successor of exactly one member, its predecessor, and that successor
      is the owner of k. */
  lemma OwnedByPredecessor(k: Id, ms: seq<Peer>, p: Peer)
    requires Ring(ms) && p in ms
    ensures InRangeOC(k, p.id, Next(p, ms).id) <==> p == PredecessorOf(k, ms)
    ensures p == PredecessorOf(k, ms) ==> Next(p, ms) == SuccessorOf(k, ms)
  {
    var q, o, s := PredecessorOf(k, ms), SuccessorOf(k, ms), Next(p, ms);
    ArcTests(k, p.id, s.id);
    OwnerIsNearest(Plus(p.id, 1), ms, o);
    OwnerIsNearest(Plus(p.id, 1), ms, q);
    OwnerIsNearest(k, ms, s);
    PredecessorIsNearest(k, ms, p);
    PredecessorIsNearest(k, ms, s);
    PredecessorIsNearest(k, ms, o);
  }

  // ---- fingers ----

  function BuildFingers(n: Id, ms: seq<Peer>): (fs: seq<Peer>)
    requires Ring(ms)
    ensures |fs| == ID_BITS
    ensures forall i | 0 <= i < ID_BITS :: fs[i] == SuccessorOf(FingerStart(n, i), ms)
  {
    seq(ID_BITS, i requires 0 <= i < ID_BITS => SuccessorOf(FingerStart(n, i), ms))
  }

  method FillFingers(n: Id, ms: seq<Peer>) returns (fs: seq<Peer>)
    requires Ring(ms)
    ensures fs == BuildFingers(n, ms)
  {
    fs := [];
    for i := 0 to ID_BITS
      invariant |fs| == i && forall j | 0 <= j < i :: fs[j] == SuccessorOf(FingerStart(n, j), ms)
    {
      var at := LowerBound(FingerStart(n, i), ms);
      fs := fs + [if at == |ms| then ms[0] else ms[at]];
    }
  }

  /** The last finger that lies strictly between a node and k; the node itself if none does. */
  function ClosestPreceding(self: Peer, fs: seq<Peer>, k: Id): (p: Peer)
    ensures p == self || (p in fs && InRangeOO(p.id, self.id, k))
  {
    if fs == [] then self
    else if InRangeOO(fs[|fs| - 1].id, self.id, k) then fs[|fs| - 1]
    else ClosestPreceding(self, fs[..|fs| - 1], k)
  }

  /** It is the last one: any finger strictly between comes no later. */
  lemma {:induction false} ClosestIsLast(self: Peer, fs: seq<Peer>, k: Id, i: nat) returns (j: nat)
    requires i < |fs| && InRangeOO(fs[i].id, self.id, k)
    ensures i <= j < |fs| && ClosestPreceding(self, fs, k) == fs[j] && InRangeOO(fs[j].id, self.id, k)
    decreases |fs|
  {
    j := |fs| - 1;
    if !InRangeOO(fs[j].id, self.id, k) {
      j := ClosestIsLast(self, fs[..j], k, i);
    }
  }

  method ScanFingers(self: Peer, fs: seq<Peer>, k: Id) returns (p: Peer)
    ensures p == ClosestPreceding(self, fs, k)
  {
    var i := |fs|;
    ghost var closest := ClosestPreceding(self, fs, k);
    assert fs[..i] == fs;
    while i > 0
      invariant 0 <= i <= |fs| && closest == ClosestPreceding(self, fs[..i], k)
    {
      i := i - 1;
      assert fs[..i + 1][..i] == fs[..i];
      if InRangeOO(fs[i].id, self.id, k) {
        return fs[i];
      }
    }
    return self;
  }

  /** A node's whole decision: its successor owns k, or the peer to ask next. */
  datatype Step = Owner(peer: Peer) | Ask(peer: Peer)

  function RouteStep(self: Peer, successor: Peer, fs: seq<Peer>, k: Id): (r: Step) {
    if InRangeOC(k, self.id, successor.id) then Owner(successor)
    else
      var next := ClosestPreceding(self, fs, k);
      Ask(if next == self then successor else next)
  }
}
