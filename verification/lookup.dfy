/** The lookup originator: it asks one node after another, and believes a reply only if it moves the
    lookup towards the key. */
module Lookup {
  import opened Chord

  /** The most requests one lookup sends. */
  const MAX_REQUESTS: nat := 65

  /** A node that cannot be reached, or that answers an error or nonsense. */
  datatype Fault = Refused | Timeout | Closed | Unreachable | ErrReply | Malformed

  /** Why a lookup fails. */
  datatype Error = Faulty(fault: Fault) | NoProgress | TooManyRequests

  /** What comes back when a node is asked. */
  datatype Reply = Says(step: Step) | Failed(fault: Fault)

  datatype Outcome = Found(owner: Peer) | Lost(error: Error)
  datatype Result = Result(outcome: Outcome, path: seq<Peer>)

  /** Anything at all may answer, differently each time: request i to a peer gets ask(i, peer). */
  type Network = (nat, Peer) -> Reply

  /** The originator from request i on. */
  function Walk(ask: Network, i: nat, current: Peer, k: Id): (r: Result)
    decreases MAX_REQUESTS - i
  {
    if i >= MAX_REQUESTS then Result(Lost(TooManyRequests), [])
    else
      match ask(i, current)
      case Failed(fault) => Result(Lost(Faulty(fault)), [current])
      case Says(Owner(o)) =>
        Result(if InRangeOC(k, current.id, o.id) then Found(o) else Lost(NoProgress), [current])
      case Says(Ask(n)) =>
        if !InRangeOO(n.id, current.id, k) then Result(Lost(NoProgress), [current])
        else
          var rest := Walk(ask, i + 1, n, k);
          Result(rest.outcome, [current] + rest.path)
  }

  /** The loop. */
  method RunLookup(ask: Network, start: Peer, k: Id) returns (r: Result)
    ensures r == Walk(ask, 0, start, k)
  {
    var current := start;
    var path: seq<Peer> := [];
    ghost var whole := Walk(ask, 0, start, k);
    ghost var rest := whole;
    for i := 0 to MAX_REQUESTS
      invariant rest == Walk(ask, i, current, k)
      invariant whole == Result(rest.outcome, path + rest.path)
    {
      var reply := ask(i, current);
      var so := path + [current];
      match reply
      case Failed(fault) =>
        return Result(Lost(Faulty(fault)), so);
      case Says(Owner(o)) =>
        return Result(if InRangeOC(k, current.id, o.id) then Found(o) else Lost(NoProgress), so);
      case Says(Ask(n)) =>
        if !InRangeOO(n.id, current.id, k) {
          return Result(Lost(NoProgress), so);
        }
        rest := Walk(ask, i + 1, n, k);
        assert path + ([current] + rest.path) == so + rest.path;
        path, current := so, n;
    }
    assert path + [] == path;
    return Result(Lost(TooManyRequests), path);
  }

  // ---- whatever answers ----

  /** Every node asked is strictly closer to the key than the one before, so none is asked twice;
      no more than 65 are; and an owner is believed only if the key lies between it and the node
      that named it. */
  lemma {:induction false} AlwaysCloser(ask: Network, i: nat, current: Peer, k: Id)
    requires i <= MAX_REQUESTS
    ensures var r := Walk(ask, i, current, k);
            && |r.path| <= MAX_REQUESTS - i
            && (i < MAX_REQUESTS ==> |r.path| >= 1 && r.path[0] == current)
            && Closing(r.path, k)
            && (r.outcome.Found? ==> r.path != [] && InRangeOC(k, r.path[|r.path| - 1].id, r.outcome.owner.id))
    decreases MAX_REQUESTS - i
  {
    if i < MAX_REQUESTS && ask(i, current).Says? && ask(i, current).step.Ask? &&
       InRangeOO(ask(i, current).step.peer.id, current.id, k) {
      var n := ask(i, current).step.peer;
      AlwaysCloser(ask, i + 1, n, k);
      ArcTests(n.id, current.id, k);
      ClosingCons(current, Walk(ask, i + 1, n, k).path, k);
    }
  }

  /** What the reply to the last request makes of a lookup. */
  predicate Concludes(reply: Reply, at: Peer, k: Id, o: Outcome) {
    match reply
    case Failed(fault) => o == Lost(Faulty(fault))
    case Says(Owner(p)) => o == if Arc(at.id, k) <= Arc(at.id, p.id) then Found(p) else Lost(NoProgress)
    case Says(Ask(n)) => o == if Arc(at.id, n.id) < Arc(at.id, k) then Lost(TooManyRequests) else Lost(NoProgress)
  }

  /** Each node asked was named by the one before, and the last reply decides: the owner it names if the key lies
      before that, the fault it came to, or that the lookup does not move on. It ends for want of requests only after
      the last one allowed. The node that failed it is the last on the path. */
  lemma {:induction false} WalkIsAsked(ask: Network, i: nat, current: Peer, k: Id)
    requires i < MAX_REQUESTS
    ensures var r := Walk(ask, i, current, k);
            && 1 <= |r.path| <= MAX_REQUESTS - i && r.path[0] == current
            && (forall a | 0 <= a < |r.path| - 1 :: ask(i + a, r.path[a]) == Says(Ask(r.path[a + 1])))
            && Concludes(ask(i + |r.path| - 1, r.path[|r.path| - 1]), r.path[|r.path| - 1], k, r.outcome)
            && (r.outcome == Lost(TooManyRequests) ==> |r.path| == MAX_REQUESTS - i)
    decreases MAX_REQUESTS - i
  {
    match ask(i, current)
    case Failed(_) =>
    case Says(Owner(o)) => ArcTests(k, current.id, o.id);
    case Says(Ask(n)) =>
      ArcTests(n.id, current.id, k);
      if InRangeOO(n.id, current.id, k) && i + 1 < MAX_REQUESTS {
        WalkIsAsked(ask, i + 1, n, k);
        PathMore(ask, i, current, k, n, Walk(ask, i + 1, n, k).path);
      }
  }

  lemma PathMore(ask: Network, i: nat, current: Peer, k: Id, n: Peer, rest: seq<Peer>)
    requires ask(i, current) == Says(Ask(n)) && rest != [] && rest[0] == n
    requires forall a | 0 <= a < |rest| - 1 :: ask(i + 1 + a, rest[a]) == Says(Ask(rest[a + 1]))
    ensures var path := [current] + rest;
            forall a | 0 <= a < |path| - 1 :: ask(i + a, path[a]) == Says(Ask(path[a + 1]))
  {
    var path := [current] + rest;
    forall a | 0 <= a < |path| - 1
      ensures ask(i + a, path[a]) == Says(Ask(path[a + 1]))
    {
      assert a > 0 ==> path[a] == rest[a - 1] && ask(i + 1 + (a - 1), rest[a - 1]) == Says(Ask(rest[a]));
    }
  }

  predicate Closing(path: seq<Peer>, k: Id) {
    forall a, b | 0 <= a < b < |path| :: Arc(path[b].id, k) < Arc(path[a].id, k)
  }

  lemma ClosingCons(p: Peer, path: seq<Peer>, k: Id)
    requires Closing(path, k) && (path != [] ==> Arc(path[0].id, k) < Arc(p.id, k))
    ensures Closing([p] + path, k)
  {
    assert forall b | 0 < b < |path| :: Arc(path[b].id, k) < Arc(path[0].id, k);
  }

  /** No node is asked twice. */
  lemma NoCycles(ask: Network, start: Peer, k: Id, a: nat, b: nat)
    requires a < b < |Walk(ask, 0, start, k).path|
    ensures Walk(ask, 0, start, k).path[a].id != Walk(ask, 0, start, k).path[b].id
  {
    AlwaysCloser(ask, 0, start, k);
  }

  // ---- correct successors, any fingers ----

  /** Every member answers by its true successor and some fingers, which may be stale: any peers, and others each
      time. */
  ghost predicate Routed(ask: Network, ms: seq<Peer>, k: Id, fingers: (nat, Peer) -> seq<Peer>)
    requires Ring(ms)
  {
    forall i: nat, p | p in ms :: ask(i, p) == Says(RouteStep(p, Next(p, ms), fingers(i, p), k))
  }

  /** Who is not a member does not answer. */
  ghost predicate OnlyMembers(ask: Network, ms: seq<Peer>) {
    forall i: nat, p | p !in ms :: ask(i, p).Failed?
  }

  /** Every answer of a member with a correct successor passes the originator's check, and an owner
      it names is the true one. */
  lemma AnswersPass(ms: seq<Peer>, p: Peer, fs: seq<Peer>, k: Id)
    requires Ring(ms) && p in ms
    ensures match RouteStep(p, Next(p, ms), fs, k)
            case Owner(o) => InRangeOC(k, p.id, o.id) && o == SuccessorOf(k, ms) && p == PredecessorOf(k, ms)
            case Ask(n) => InRangeOO(n.id, p.id, k) && p != PredecessorOf(k, ms)
  {
    OwnedByPredecessor(k, ms, p);
    ArcTests(k, p.id, Next(p, ms).id);
    ArcTests(Next(p, ms).id, p.id, k);
  }

  /** With right successors and any fingers whatever, no answer fails the originator's check, and a lookup that
      succeeds names the true owner; if every peer met is a member, it can fail only by running out of requests. */
  lemma {:induction false} StaleLookup(ask: Network, ms: seq<Peer>, i: nat, current: Peer, k: Id,
                                       fingers: (nat, Peer) -> seq<Peer>)
    requires Ring(ms) && i <= MAX_REQUESTS && Routed(ask, ms, k, fingers) && OnlyMembers(ask, ms)
    ensures var r := Walk(ask, i, current, k);
            && (r.outcome.Found? ==> r.outcome.owner == SuccessorOf(k, ms)) && r.outcome != Lost(NoProgress)
            && ((forall p | p in r.path :: p in ms) ==> r.outcome.Found? || r.outcome == Lost(TooManyRequests))
    decreases MAX_REQUESTS - i
  {
    if i < MAX_REQUESTS && current in ms {
      AnswersPass(ms, current, fingers(i, current), k);
      var step := RouteStep(current, Next(current, ms), fingers(i, current), k);
      assert ask(i, current) == Says(step);
      if step.Ask? {
        StaleLookup(ask, ms, i + 1, step.peer, k, fingers);
        var rest := Walk(ask, i + 1, step.peer, k).path;
        assert forall p | p in rest :: p in [current] + rest;
      }
    }
  }

  // ---- correct fingers ----

  /** How many bits the distance to the key's predecessor needs. */
  predicate Within(n: Id, p: Id, bits: nat) {
    Gap(n, p) < Pow2(bits)
  }

  /** A finger whose start does not pass the predecessor does not either, and reaches at least its
      start. */
  lemma FingerReach(ms: seq<Peer>, n: Id, p: Peer, i: nat)
    requires Ring(ms) && p in ms && i < ID_BITS && Pow2(i) <= Gap(n, p.id)
    ensures var f := SuccessorOf(FingerStart(n, i), ms);
            f in ms && Pow2(i) <= Gap(n, f.id) <= Gap(n, p.id)
  {
    PowersFit(i);
    OwnerIsNearest(FingerStart(n, i), ms, p);
  }

  /** Members strictly between a node and the key lie no further than the key's predecessor. */
  lemma BetweenIsBefore(ms: seq<Peer>, n: Peer, k: Id, f: Peer)
    requires Ring(ms) && n in ms && f in ms && InRangeOO(f.id, n.id, k)
    ensures Gap(n.id, f.id) <= Gap(n.id, PredecessorOf(k, ms).id)
    ensures Gap(f.id, PredecessorOf(k, ms).id) == Gap(n.id, PredecessorOf(k, ms).id) - Gap(n.id, f.id)
  {
    PredecessorIsNearest(k, ms, f);
    PredecessorIsNearest(k, ms, n);
  }

  lemma PredecessorBetween(ms: seq<Peer>, n: Peer, k: Id, f: Id)
    requires Ring(ms) && n in ms && n != PredecessorOf(k, ms)
    requires 0 < Gap(n.id, f) <= Gap(n.id, PredecessorOf(k, ms).id)
    ensures InRangeOO(f, n.id, k)
  {
    PredecessorIsNearest(k, ms, n);
    ArcTests(f, n.id, k);
  }

  /** The largest power not above the distance: the finger that must qualify. */
  lemma {:induction false} TopBit(d: nat, bits: nat) returns (i: nat)
    requires 0 < d < Pow2(bits)
    ensures i < bits && Pow2(i) <= d < Pow2(i + 1)
    decreases bits
  {
    if bits == 0 {
      assert false;
    }
    i := bits - 1;
    if d < Pow2(i) {
      i := TopBit(d, i);
    }
  }

  lemma {:induction false} PowerSteps(i: nat, j: nat)
    requires i <= j
    ensures Pow2(i) <= Pow2(j)
  {
    if i < j {
      PowerSteps(i, j - 1);
    }
  }

  /** Each NEXT takes at least one bit off the distance to the key's predecessor. */
  lemma NextCutsABit(ms: seq<Peer>, n: Peer, k: Id, bits: nat)
    requires Ring(ms) && n in ms && n != PredecessorOf(k, ms) && bits <= ID_BITS
    requires Within(n.id, PredecessorOf(k, ms).id, bits)
    ensures var step := RouteStep(n, Next(n, ms), BuildFingers(n.id, ms), k);
            && bits > 0 && step.Ask? && step.peer in ms && InRangeOO(step.peer.id, n.id, k)
            && Within(step.peer.id, PredecessorOf(k, ms).id, bits - 1)
  {
    var p, fs := PredecessorOf(k, ms), BuildFingers(n.id, ms);
    var d := Gap(n.id, p.id);
    DistinctIds(ms, n, p);
    var i := TopBit(d, bits);
    FingerReach(ms, n.id, p, i);
    PredecessorBetween(ms, n, k, fs[i].id);
    var j := ClosestIsLast(n, fs, k, i);
    AnswersPass(ms, n, fs, k);
    FingerIsMember(ms, n, j);
    BetweenIsBefore(ms, n, k, fs[j]);
    LaterFingerFurther(ms, n, k, i, j);
    PowerSteps(i, bits - 1);
  }

  lemma DistinctIds(ms: seq<Peer>, a: Peer, b: Peer)
    requires Ring(ms) && a in ms && b in ms && a != b
    ensures a.id != b.id
  {
    var i :| 0 <= i < |ms| && ms[i] == a;
    var j :| 0 <= j < |ms| && ms[j] == b;
    assert i < j ==> ms[i].id < ms[j].id;
    assert j < i ==> ms[j].id < ms[i].id;
  }

  lemma FingerIsMember(ms: seq<Peer>, n: Peer, j: nat)
    requires Ring(ms) && j < ID_BITS
    ensures BuildFingers(n.id, ms)[j] in ms
  {
  }

  /** A later finger that is still strictly between reaches at least as far as its own start. */
  lemma LaterFingerFurther(ms: seq<Peer>, n: Peer, k: Id, i: nat, j: nat)
    requires Ring(ms) && n in ms && i <= j < ID_BITS
    requires InRangeOO(BuildFingers(n.id, ms)[j].id, n.id, k)
    ensures Gap(n.id, BuildFingers(n.id, ms)[j].id) >= Pow2(i)
  {
    var f := BuildFingers(n.id, ms)[j];
    PowerSteps(i, j);
    PowersFit(j);
    OwnerIsNearest(FingerStart(n.id, j), ms, n);
    assert f.id != n.id;
  }

  ghost predicate WellRouted(ask: Network, ms: seq<Peer>, k: Id)
    requires Ring(ms)
  {
    forall i: nat, p | p in ms :: ask(i, p) == Says(RouteStep(p, Next(p, ms), BuildFingers(p.id, ms), k))
  }

  lemma {:induction false} LookupFrom(ask: Network, ms: seq<Peer>, i: nat, current: Peer, k: Id)
    requires Ring(ms) && current in ms && i <= ID_BITS && WellRouted(ask, ms, k)
    requires Within(current.id, PredecessorOf(k, ms).id, ID_BITS - i)
    ensures Walk(ask, i, current, k).outcome == Found(SuccessorOf(k, ms))
    decreases ID_BITS - i
  {
    var step := RouteStep(current, Next(current, ms), BuildFingers(current.id, ms), k);
    assert ask(i, current) == Says(step);
    AnswersPass(ms, current, BuildFingers(current.id, ms), k);
    if current != PredecessorOf(k, ms) {
      NextCutsABit(ms, current, k, ID_BITS - i);
      LookupFrom(ask, ms, i + 1, step.peer, k);
    }
  }

  /** On every ring of distinct identifiers with tables from BuildFingers, a lookup of any key from any
      member finds the true clockwise owner, in at most 65 requests. */
  lemma LookupFinds(ask: Network, ms: seq<Peer>, start: Peer, k: Id)
    requires Ring(ms) && start in ms && WellRouted(ask, ms, k)
    ensures var r := Walk(ask, 0, start, k);
            && r.outcome == Found(SuccessorOf(k, ms)) && 1 <= |r.path| <= MAX_REQUESTS
            && forall m | m in ms :: Gap(k, r.outcome.owner.id) <= Gap(k, m.id)
  {
    WholeRing();
    LookupFrom(ask, ms, 0, start, k);
    AlwaysCloser(ask, 0, start, k);
    forall m | m in ms
      ensures Gap(k, SuccessorOf(k, ms).id) <= Gap(k, m.id)
    {
      OwnerIsNearest(k, ms, m);
    }
  }

  // ---- the bound is reached ----

  /** Members at 0 and at 2^64 - 2^j for every j below 64, in order. */
  function TightRing(): (ms: seq<Peer>)
    ensures |ms| == 65 && forall t | 0 <= t <= 64 :: ms[t] == TightPeer(t)
  {
    seq(65, t requires 0 <= t <= 64 => TightPeer(t))
  }

  function TightPeer(t: nat): (p: Peer)
    requires t <= 64
    ensures t == 0 ==> p.id == 0
    ensures t > 0 ==> Pow2(64 - t) < M && p.id == M - Pow2(64 - t)
  {
    if t == 0 then Peer(0, "", 0)
    else
      PowersFit(64 - t);
      Peer(M - Pow2(64 - t), "", 0)
  }

  lemma TightSorted()
    ensures Ring(TightRing())
  {
    var ms := TightRing();
    forall i, j | 0 <= i < j < |ms|
      ensures ms[i].id < ms[j].id
    {
      if i > 0 {
        PowerRises(64 - j, 64 - i);
      }
    }
  }

  lemma {:induction false} ClosestIs(self: Peer, fs: seq<Peer>, k: Id, i: nat)
    requires i < |fs| && InRangeOO(fs[i].id, self.id, k)
    requires forall j | i < j < |fs| :: !InRangeOO(fs[j].id, self.id, k)
    ensures ClosestPreceding(self, fs, k) == fs[i]
    decreases |fs|
  {
    if i < |fs| - 1 {
      ClosestIs(self, fs[..|fs| - 1], k, i);
    }
  }

  /** Fingers of member t past the next one wrap round and fall short of it. */
  lemma TightLater(t: nat, i: nat)
    requires 1 <= t < 64 && 64 - t <= i < ID_BITS
    ensures var ms := TightRing();
            Ring(ms) && !InRangeOO(SuccessorOf(FingerStart(ms[t].id, i), ms).id, ms[t].id, 0)
  {
    var ms, j := TightRing(), 64 - t;
    TightSorted();
    var start := FingerStart(ms[t].id, i);
    PowersFit(i);
    PowerSteps(j, i);
    PowerSteps(j, 63);
    PowerSteps(i, 63);
    WholeRing();
    assert Pow2(64) == 2 * Pow2(63);
    if i == j {
      OwnerIsNearest(start, ms, ms[0]);
    } else {
      OwnerIsNearest(start, ms, ms[1]);
    }
  }

  lemma TightFinger(ms: seq<Peer>, t: nat, i: nat)
    requires t < 64 && i == 63 - t && ms == TightRing() && Ring(ms)
    ensures SuccessorOf(FingerStart(ms[t].id, i), ms) == ms[t + 1]
  {
    PowersFit(i);
    WholeRing();
    assert Pow2(64 - t) == 2 * Pow2(i);
    assert FingerStart(ms[t].id, i) == ms[t + 1].id;
    OwnerIsNearest(ms[t + 1].id, ms, ms[t + 1]);
  }

  lemma FingerAt(n: Id, ms: seq<Peer>, i: nat, fs: seq<Peer>, p: Peer)
    requires Ring(ms) && i < ID_BITS && fs == BuildFingers(n, ms) && SuccessorOf(FingerStart(n, i), ms) == p
    ensures |fs| == ID_BITS && fs[i] == p
  {
  }

  lemma TightClosest(ms: seq<Peer>, t: nat)
    requires t < 64 && ms == TightRing() && Ring(ms)
    ensures ClosestPreceding(ms[t], BuildFingers(ms[t].id, ms), 0) == ms[t + 1]
  {
    var fs := BuildFingers(ms[t].id, ms);
    TightAt(ms, t, 63 - t, fs);
    TightOthers(ms, t, fs);
    TightPick(ms[t], fs, 63 - t, ms[t + 1]);
  }

  lemma TightAt(ms: seq<Peer>, t: nat, i: nat, fs: seq<Peer>)
    requires t < 64 && i == 63 - t && ms == TightRing() && Ring(ms) && fs == BuildFingers(ms[t].id, ms)
    ensures |fs| == ID_BITS && fs[i] == ms[t + 1]
  {
    TightFinger(ms, t, i);
    FingerAt(ms[t].id, ms, i, fs, ms[t + 1]);
  }

  lemma TightPick(self: Peer, fs: seq<Peer>, i: nat, next: Peer)
    requires i < |fs| == ID_BITS && fs[i] == next && InRangeOO(next.id, self.id, 0)
    requires forall j | i < j < ID_BITS :: !InRangeOO(fs[j].id, self.id, 0)
    ensures ClosestPreceding(self, fs, 0) == next
  {
    ClosestIs(self, fs, 0, i);
  }

  lemma TightOthers(ms: seq<Peer>, t: nat, fs: seq<Peer>)
    requires t < 64 && ms == TightRing() && Ring(ms) && fs == BuildFingers(ms[t].id, ms)
    ensures InRangeOO(ms[t + 1].id, ms[t].id, 0)
    ensures forall j | 63 - t < j < ID_BITS :: !InRangeOO(fs[j].id, ms[t].id, 0)
  {
    assert ms[t].id < ms[t + 1].id;
    forall j | 63 - t < j < ID_BITS
      ensures !InRangeOO(fs[j].id, ms[t].id, 0)
    {
      TightLater(t, j);
    }
  }

  lemma TightStep(t: nat)
    requires t < 64
    ensures var ms := TightRing();
            Ring(ms) && RouteStep(ms[t], Next(ms[t], ms), BuildFingers(ms[t].id, ms), 0) == Ask(ms[t + 1])
  {
    var ms := TightRing();
    TightSorted();
    TightClosest(ms, t);
    assert ms[t].id < ms[t + 1].id && ms[t].id < ms[64].id;
    assert PredecessorOf(0, ms) == ms[64];
    OwnedByPredecessor(0, ms, ms[t]);
  }

  lemma {:induction false} TightFrom(ask: Network, t: nat)
    requires t <= 64 && Ring(TightRing()) && WellRouted(ask, TightRing(), 0)
    ensures |Walk(ask, t, TightRing()[t], 0).path| == 65 - t
    decreases 64 - t
  {
    var ms := TightRing();
    var n := ms[t];
    assert ask(t, n) == Says(RouteStep(n, Next(n, ms), BuildFingers(n.id, ms), 0));
    if t < 64 {
      TightStep(t);
      AnswersPass(ms, n, BuildFingers(n.id, ms), 0);
      TightFrom(ask, t + 1);
    } else {
      AnswersPass(ms, n, BuildFingers(n.id, ms), 0);
      assert PredecessorOf(0, ms) == ms[64];
    }
  }

  /** On this ring of 65 members one lookup takes exactly 65 requests: no smaller bound would do. */
  lemma BoundIsTight(ask: Network)
    requires Ring(TightRing()) && WellRouted(ask, TightRing(), 0)
    ensures |Walk(ask, 0, TightRing()[0], 0).path| == MAX_REQUESTS
  {
    TightFrom(ask, 0);
  }
}
