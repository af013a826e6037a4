/** One ring member's routing state and every change to it: evictions, strikes, neighbours taken over,
    notifications, joins and finger repair. Each function below is one critical section; a run of a
    member is any sequence of them, with any outcomes. */
module Stabilization {
  import opened Chord
  import opened Lookup
  import opened Text

  const MAX_SUCCESSORS: nat := 16
  const STRIKES_TO_EVICT: nat := 2
  const MAX_CONTACTS: nat := 32

  datatype State = State(
    self: Peer, r: nat,
    pred: Option<Peer>, succs: seq<Peer>, fingers: seq<Peer>, nextFinger: nat,
    orphaned: bool, contacts: seq<Peer>, nextContact: nat,
    strikes: map<Peer, nat>)

  predicate SameProcess(a: Peer, b: Peer) {
    a.ip == b.ip && a.port == b.port
  }

  // ---- the invariant ----

  /** No peer but the member itself carries its identifier. */
  predicate Stranger(s: State, p: Peer) {
    p.id == s.self.id ==> p == s.self
  }

  predicate Strangers(s: State, ps: seq<Peer>) {
    forall p | p in ps :: Stranger(s, p)
  }

  /** The member itself stands nowhere but in the first place. */
  predicate OnlyFirst(self: Peer, ps: seq<Peer>) {
    forall i | 0 < i < |ps| :: ps[i] != self
  }

  /** It is enough to look at each place. */
  lemma EachPlace(s: State, ps: seq<Peer>)
    requires forall i | 0 <= i < |ps| :: Stranger(s, ps[i])
    ensures Strangers(s, ps)
  {
  }

  predicate Ok(s: State) {
    && 1 <= s.r <= MAX_SUCCESSORS && 1 <= |s.succs| <= s.r
    && |s.fingers| == ID_BITS && s.fingers[0] == s.succs[0] && 1 <= s.nextFinger < ID_BITS
    && Strangers(s, s.succs) && Strangers(s, s.fingers)
    && OnlyFirst(s.self, s.succs)
    && (s.pred.Some? ==> s.pred.value.id != s.self.id)
    && ContactsOk(s.self, s.contacts)
  }

  /** Addresses to rejoin through: other processes, none twice, boundedly many. */
  predicate ContactsOk(self: Peer, cs: seq<Peer>) {
    && |cs| <= MAX_CONTACTS && (forall i | 0 <= i < |cs| :: !SameProcess(cs[i], self))
    && (forall i, j | 0 <= i < j < |cs| :: cs[i] != cs[j])
  }

  /** The peers a member routes by. */
  predicate Holds(s: State, p: Peer) {
    p in s.succs || p in s.fingers || s.pred == Some(p)
  }

  // ---- eviction ----

  /** Whom the evidence against `dead` removes: its whole process, or the member alone. */
  predicate Gone(dead: Peer, whole: bool, p: Peer) {
    if whole then SameProcess(p, dead) else p == dead
  }

  function Keep(ps: seq<Peer>, dead: Peer, whole: bool): (r: seq<Peer>)
    ensures |r| <= |ps| && forall p :: p in r <==> p in ps && !Gone(dead, whole, p)
  {
    if ps == [] then []
    else Keep(ps[..|ps| - 1], dead, whole) + if Gone(dead, whole, ps[|ps| - 1]) then [] else [ps[|ps| - 1]]
  }

  /** The first entry that stays. */
  function FirstKept(ps: seq<Peer>, dead: Peer, whole: bool): (r: Option<Peer>)
    ensures r.Some? ==> r.value in ps && !Gone(dead, whole, r.value)
  {
    if ps == [] then None else if !Gone(dead, whole, ps[0]) then Some(ps[0]) else FirstKept(ps[1..], dead, whole)
  }

  /** The first entry that stays after the first one that goes: it now owns what that one owned. */
  function Replacement(ps: seq<Peer>, dead: Peer, whole: bool): (r: Option<Peer>)
    ensures r.Some? ==> r.value in ps && !Gone(dead, whole, r.value)
  {
    if ps == [] then None
    else if Gone(dead, whole, ps[0]) then FirstKept(ps[1..], dead, whole)
    else Replacement(ps[1..], dead, whole)
  }

  predicate Eligible(self: Peer, dead: Peer, whole: bool, p: Peer) {
    p != self && !Gone(dead, whole, p) && p.id != self.id
  }

  /** The nearest eligible peer clockwise, the first of equals; the member itself if there is none. */
  function Nearest(self: Peer, ps: seq<Peer>, dead: Peer, whole: bool): (b: Peer)
    ensures b == self || (b in ps && Eligible(self, dead, whole, b))
    ensures forall p | p in ps && Eligible(self, dead, whole, p) ::
              b != self && Gap(self.id, b.id) <= Gap(self.id, p.id)
  {
    if ps == [] then self
    else
      var b, p := Nearest(self, ps[..|ps| - 1], dead, whole), ps[|ps| - 1];
      if Eligible(self, dead, whole, p) && (b == self || Gap(self.id, p.id) < Gap(self.id, b.id)) then p else b
  }

  function Known(s: State): seq<Peer> {
    s.fingers + if s.pred.Some? then [s.pred.value] else []
  }

  function Patch(fs: seq<Peer>, dead: Peer, whole: bool, q: Peer): (r: seq<Peer>)
    ensures |r| == |fs| && forall i | 0 <= i < |fs| :: r[i] == if Gone(dead, whole, fs[i]) then q else fs[i]
  {
    seq(|fs|, i requires 0 <= i < |fs| => if Gone(dead, whole, fs[i]) then q else fs[i])
  }

  function Forget(strikes: map<Peer, nat>, dead: Peer, whole: bool): (r: map<Peer, nat>) {
    map p | p in strikes && !Gone(dead, whole, p) :: strikes[p]
  }

  /** A member never acts on evidence against itself, nor on suspicion against its own process. */
  predicate Evictable(s: State, dead: Peer, said: bool) {
    dead != s.self && (SameProcess(dead, s.self) ==> said)
  }

  function Evict(s: State, dead: Peer, whole: bool, said: bool): (t: State)
    requires |s.succs| >= 1 && |s.fingers| >= 1
  {
    if !Evictable(s, dead, said) then s
    else
      var kept := Keep(s.succs, dead, whole);
      var fallback := Nearest(s.self, Known(s), dead, whole);
      var succs := if kept == [] then [fallback] else kept;
      var rep := Replacement(s.succs, dead, whole);
      var fingers := Patch(s.fingers, dead, whole, if rep.Some? then rep.value else succs[0])[0 := succs[0]];
      s.(succs := succs, fingers := fingers,
         pred := if s.pred.Some? && Gone(dead, whole, s.pred.value) then None else s.pred,
         orphaned := s.orphaned || (kept == [] && fallback == s.self && s.succs[0] != s.self),
         strikes := Forget(s.strikes, dead, whole))
  }

  /** A process is evicted whole only on a refusal, which no running process sends itself. */
  predicate Sane(s: State, dead: Peer, whole: bool, said: bool) {
    whole ==> !said
  }

  lemma SelfStays(s: State, dead: Peer, whole: bool, said: bool)
    requires Evictable(s, dead, said) && Sane(s, dead, whole, said)
    ensures !Gone(dead, whole, s.self)
  {
  }

  lemma {:induction false} KeepShape(ps: seq<Peer>, dead: Peer, whole: bool, self: Peer)
    requires OnlyFirst(self, ps)
    ensures OnlyFirst(self, Keep(ps, dead, whole))
  {
    if ps != [] {
      KeepShape(ps[..|ps| - 1], dead, whole, self);
    }
  }

  lemma SuccsOk(s: State, dead: Peer, whole: bool, said: bool)
    requires Ok(s) && Evictable(s, dead, said) && Sane(s, dead, whole, said)
    ensures var succs := Evict(s, dead, whole, said).succs;
            1 <= |succs| <= s.r && Strangers(s, succs) && OnlyFirst(s.self, succs)
  {
    var kept := Keep(s.succs, dead, whole);
    KeepShape(s.succs, dead, whole, s.self);
    var fallback := Nearest(s.self, Known(s), dead, whole);
    assert Evict(s, dead, whole, said).succs == if kept == [] then [fallback] else kept;
    assert Stranger(s, fallback);
    EachPlace(s, [fallback]);
    forall p | p in kept
      ensures Stranger(s, p)
    {
      assert p in s.succs;
    }
  }

  lemma FingersOk(s: State, fs: seq<Peer>, dead: Peer, whole: bool, q: Peer, first: Peer)
    requires |fs| >= 1 && Strangers(s, fs) && Stranger(s, q) && Stranger(s, first)
    ensures Strangers(s, Patch(fs, dead, whole, q)[0 := first])
  {
    EachPlace(s, Patch(fs, dead, whole, q)[0 := first]);
  }

  lemma EvictOk(s: State, dead: Peer, whole: bool, said: bool)
    requires Ok(s) && Sane(s, dead, whole, said)
    ensures Ok(Evict(s, dead, whole, said))
  {
    if Evictable(s, dead, said) {
      SuccsOk(s, dead, whole, said);
      var succs := Evict(s, dead, whole, said).succs;
      var rep := Replacement(s.succs, dead, whole);
      FingersOk(s, s.fingers, dead, whole, if rep.Some? then rep.value else succs[0], succs[0]);
    }
  }

  /** What is evicted is left in no routing structure, and its strikes are forgotten. */
  lemma EvictedIsGone(s: State, dead: Peer, whole: bool, said: bool, p: Peer)
    requires Ok(s) && Evictable(s, dead, said) && Sane(s, dead, whole, said) && Gone(dead, whole, p)
    ensures var t := Evict(s, dead, whole, said); !Holds(t, p) && p !in t.strikes
  {
    SelfStays(s, dead, whole, said);
  }

  /** Nothing else is lost, and nothing is held that was not. */
  lemma OthersStay(s: State, dead: Peer, whole: bool, said: bool, p: Peer)
    requires Ok(s) && p != s.self && !Gone(dead, whole, p)
    ensures Holds(Evict(s, dead, whole, said), p) <==> Holds(s, p)
  {
    if Evictable(s, dead, said) {
      var t := Evict(s, dead, whole, said);
      if p in s.fingers {
        var i :| 0 <= i < |s.fingers| && s.fingers[i] == p;
        assert i > 0 ==> t.fingers[i] == p;
        assert i == 0 ==> p in t.succs;
      }
    }
  }

  /** Falling back: the nearest peer still known takes over; a member that has nobody left, and had
      somebody, is orphaned. */
  lemma FallsBack(s: State, dead: Peer, whole: bool, said: bool)
    requires Ok(s) && Sane(s, dead, whole, said)
    ensures var t := Evict(s, dead, whole, said);
            && (t.succs[0] == s.self && s.succs[0] != s.self ==> t.orphaned)
            && (t.orphaned && !s.orphaned ==>
                  t.succs == [s.self] &&
                  forall p | Holds(s, p) :: p == s.self || Gone(dead, whole, p) || p.id == s.self.id)
  {
    if Evictable(s, dead, said) {
      SelfStays(s, dead, whole, said);
    }
  }

  // ---- strikes ----

  function StrikesOf(s: State, p: Peer): nat {
    if p in s.strikes then s.strikes[p] else 0
  }

  /** A failure that is not a refusal: the second in a row evicts the member. */
  function Strike(s: State, p: Peer): (t: State)
    requires |s.succs| >= 1 && |s.fingers| >= 1
  {
    if SameProcess(p, s.self) || !Holds(s, p) then s
    else
      var n := StrikesOf(s, p) + 1;
      Struck(s.(strikes := s.strikes[p := n]), p, n)
  }

  function Struck(s: State, p: Peer, n: nat): State
    requires |s.succs| >= 1 && |s.fingers| >= 1
  {
    if n >= STRIKES_TO_EVICT then Evict(s, p, false, false) else s
  }

  lemma StrikeIs(s: State, p: Peer, n: nat, t: State)
    requires |s.succs| >= 1 && |s.fingers| >= 1 && !SameProcess(p, s.self) && Holds(s, p)
    requires n == StrikesOf(s, p) + 1 && t == s.(strikes := s.strikes[p := n])
    ensures Strike(s, p) == Struck(t, p, n)
  {
  }

  function Clear(s: State, p: Peer): State {
    s.(strikes := s.strikes - {p})
  }

  /** What a call to a peer came to: a valid reply, its word that it is orphaned, a refused
      connection, or anything else. */
  datatype Outcome = Good | SaysOrphaned | ConnectionRefused | Bad

  function Report(s: State, to: Peer, o: Outcome): (t: State)
    requires |s.succs| >= 1 && |s.fingers| >= 1
  {
    match o
    case Good => Clear(s, to)
    case SaysOrphaned => Evict(s, to, false, true)
    case ConnectionRefused => Evict(s, to, true, false)
    case Bad => Strike(s, to)
  }

  lemma ReportOk(s: State, to: Peer, o: Outcome)
    requires Ok(s)
    ensures Ok(Report(s, to, o)) && Report(s, to, o).self == s.self && Report(s, to, o).r == s.r
  {
    match o
    case Good =>
    case SaysOrphaned => EvictOk(s, to, false, true);
    case ConnectionRefused => EvictOk(s, to, true, false);
    case Bad => EvictOk(s.(strikes := s.strikes[to := StrikesOf(s, to) + 1]), to, false, false);
  }

  // ---- contacts ----

  function Without(ps: seq<Peer>, p: Peer): (r: seq<Peer>)
    ensures |r| <= |ps| && (p in ps ==> |r| < |ps|)
    ensures forall q | q in r :: q in ps
  {
    if ps == [] then [] else if ps[0] == p then ps[1..] else [ps[0]] + Without(ps[1..], p)
  }

  lemma {:induction false} WithoutKeeps(self: Peer, ps: seq<Peer>, p: Peer)
    requires ContactsOk(self, ps)
    ensures ContactsOk(self, Without(ps, p)) && p !in Without(ps, p)
  {
    if ps != [] {
      if ps[0] == p {
        assert forall i | 0 <= i < |ps[1..]| :: ps[1..][i] != ps[0];
      } else {
        WithoutKeeps(self, ps[1..], p);
        assert ps[0] !in ps[1..];
      }
    }
  }

  /** Newest first, no repeats, bounded. */
  function Remember(s: State, p: Peer): State {
    if SameProcess(p, s.self) then s
    else
      var cs := [p] + Without(s.contacts, p);
      s.(contacts := if |cs| > MAX_CONTACTS then cs[..MAX_CONTACTS] else cs)
  }

  lemma RememberOk(s: State, p: Peer)
    requires ContactsOk(s.self, s.contacts)
    ensures ContactsOk(s.self, Remember(s, p).contacts) && Remember(s, p) == s.(contacts := Remember(s, p).contacts)
  {
    if !SameProcess(p, s.self) {
      WithoutKeeps(s.self, s.contacts, p);
    }
  }

  /** The last peer first, so that the first ends up newest. */
  function RememberAll(s: State, ps: seq<Peer>): State
    decreases |ps|
  {
    if ps == [] then s else RememberAll(Remember(s, ps[|ps| - 1]), ps[..|ps| - 1])
  }

  lemma {:induction false} RememberAllOk(s: State, ps: seq<Peer>)
    requires ContactsOk(s.self, s.contacts)
    ensures var t := RememberAll(s, ps); ContactsOk(s.self, t.contacts) && t == s.(contacts := t.contacts)
    decreases |ps|
  {
    if ps != [] {
      RememberOk(s, ps[|ps| - 1]);
      RememberAllOk(Remember(s, ps[|ps| - 1]), ps[..|ps| - 1]);
    }
  }

  // ---- the successor's own list ----

  /** succ first, then its list, cut where it wraps round to us, without repeats or anything that
      carries our identifier. */
  function Merge(self: Peer, out: seq<Peer>, list: seq<Peer>, r: nat): (m: seq<Peer>)
    ensures out <= m && (|out| <= r ==> |m| <= r)
    ensures forall i | |out| <= i < |m| :: m[i] in list && m[i].id != self.id
    decreases |list|
  {
    if list == [] || |out| >= r || list[0] == self then out
    else if list[0].id == self.id || list[0] in out then Merge(self, out, list[1..], r)
    else Merge(self, out + [list[0]], list[1..], r)
  }

  // ---- starting states ----

  function Alone(self: Peer, r: nat): State {
    State(self, r, None, [self], seq(ID_BITS, _ => self), 1, false, [], 0, map[])
  }

  // ---- the other critical sections ----

  /** Neighbours as a peer reports them. */
  datatype Neighbours = Neighbours(pred: Option<Peer>, succs: seq<Peer>)

  /** Apply what the successor said, if it is still the successor; the candidate to verify, if its
      predecessor lies between. */
  function Apply(s: State, succ: Peer, nb: Neighbours): (t: (State, Option<Peer>))
    requires |s.succs| >= 1 && |s.fingers| >= 1
  {
    if s.succs[0] != succ then (s, None)
    else
      var succs := Merge(s.self, [succ], nb.succs, s.r);
      var t := RememberAll(s.(succs := succs, fingers := s.fingers[0 := succs[0]]), succs);
      (t, if nb.pred.Some? && nb.pred.value != s.self && nb.pred.value != succ && nb.pred.value.id != s.self.id &&
             InRangeOO(nb.pred.value.id, s.self.id, succ.id)
          then nb.pred else None)
  }

  function Room(ps: seq<Peer>, self: Peer, r: nat): (out: seq<Peer>)
    ensures |out| <= r && forall p | p in out :: p in ps && p != self
  {
    if ps == [] || r == 0 then []
    else if ps[0] == self then Room(ps[1..], self, r)
    else [ps[0]] + Room(ps[1..], self, r - 1)
  }

  /** A closer successor that answered takes the first place. */
  function Adopt(s: State, succ: Peer, candidate: Peer): (t: State)
    requires |s.succs| >= 1 && |s.fingers| >= 1 && s.r >= 1
  {
    if s.succs[0] != succ then s
    else
      Remember(s.(succs := [candidate] + Room(s.succs, s.self, s.r - 1), fingers := s.fingers[0 := candidate]),
               candidate)
  }

  /** A peer says it is our predecessor. If it is not closer than the one we have, that one is to be
      probed. */
  function Notify(s: State, c: Peer): (t: (State, Option<Peer>)) {
    if c == s.self || c.id == s.self.id then (s, None)
    else if s.pred.None? || InRangeOO(c.id, s.pred.value.id, s.self.id) then
      (Remember(Clear(s.(pred := Some(c)), c), c), None)
    else (s, if s.pred.value != c then s.pred else None)
  }

  /** After a probe that failed: the notifier fills the place if it is empty now. */
  function FillPred(s: State, c: Peer): State {
    if s.pred.None? then Remember(s.(pred := Some(c)), c) else s
  }

  function After(i: nat): nat {
    if i + 1 >= ID_BITS then 1 else i + 1
  }

  /** How far the owner of finger i's start covers later starts. */
  function Reach(self: Peer, owner: Peer, j: nat): (k: nat)
    requires j <= ID_BITS
    ensures j <= k <= ID_BITS
    ensures forall x | j <= x < k :: InRangeOC(FingerStart(self.id, x), self.id, owner.id)
    decreases ID_BITS - j
  {
    if j < ID_BITS && InRangeOC(FingerStart(self.id, j), self.id, owner.id) then Reach(self, owner, j + 1) else j
  }

  function Fill(fs: seq<Peer>, from: nat, to: nat, p: Peer): (r: seq<Peer>)
    requires from <= to <= |fs|
    ensures |r| == |fs| && forall x | 0 <= x < |fs| :: r[x] == if from <= x < to then p else fs[x]
  {
    seq(|fs|, x requires 0 <= x < |fs| => if from <= x < to then p else fs[x])
  }

  /** A failed hop is evidence against the node that failed, unless no single node is to blame. */
  function Blame(s: State, path: seq<Peer>, error: Error): (t: State)
    requires |s.succs| >= 1 && |s.fingers| >= 1
  {
    if path == [] || error == TooManyRequests || error == Faulty(Unreachable) then s
    else if error == Faulty(Refused) then Evict(s, path[|path| - 1], true, false)
    else Strike(s, path[|path| - 1])
  }

  /** Every later start that the owner also covers has the same owner. */
  function FillForward(s: State, i: nat, owner: Peer): (t: State)
    requires |s.succs| >= 1 && |s.fingers| == ID_BITS && 1 <= i < ID_BITS
  {
    var j := Reach(s.self, owner, i);
    var end := if j == i then i + 1 else j;
    Remember(s.(fingers := Fill(s.fingers, i, end, owner)[0 := s.succs[0]],
                nextFinger := if end >= ID_BITS then 1 else end), owner)
  }

  /** The result of the lookup for finger i. */
  function Fix(s: State, i: nat, res: Lookup.Result): (t: State)
    requires |s.succs| >= 1 && |s.fingers| == ID_BITS && 1 <= i < ID_BITS
  {
    match res.outcome
    case Lost(error) => Blame(s, res.path, error).(nextFinger := After(i))
    case Found(owner) =>
      if owner.id == s.self.id && owner != s.self then s.(nextFinger := After(i)) else FillForward(s, i, owner)
  }

  /** A join through `known`: the owner of our identifier becomes the successor, with its list if it
      gave one. */
  function JoinThrough(s: State, known: Peer, owner: Peer, list: Option<seq<Peer>>): (t: State) {
    var succs := if list.Some? then Merge(s.self, [owner], list.value, s.r) else [owner];
    RememberAll(Remember(s.(pred := None, succs := succs, fingers := seq(ID_BITS, _ => owner), nextFinger := 1,
                            orphaned := false), known), succs)
  }

  // ---- every critical section keeps the invariant ----

  lemma MergeOk(s: State, succ: Peer, list: seq<Peer>)
    requires Stranger(s, succ) && s.r >= 1
    ensures var m := Merge(s.self, [succ], list, s.r);
            && 1 <= |m| <= s.r && m[0] == succ && Strangers(s, m) && OnlyFirst(s.self, m)
  {
  }

  lemma ApplyOk(s: State, succ: Peer, nb: Neighbours)
    requires Ok(s)
    ensures Ok(Apply(s, succ, nb).0) && Apply(s, succ, nb).0.self == s.self && Apply(s, succ, nb).0.r == s.r
    ensures Apply(s, succ, nb).1.Some? ==> Apply(s, succ, nb).1.value.id != s.self.id
    ensures Apply(s, succ, nb).0.succs[0] == s.succs[0] && Apply(s, succ, nb).0.orphaned == s.orphaned
    ensures Apply(s, succ, nb).0.strikes == s.strikes
  {
    if s.succs[0] == succ {
      MergeOk(s, succ, nb.succs);
      var succs := Merge(s.self, [succ], nb.succs, s.r);
      EachPlace(s, s.fingers[0 := succs[0]]);
      RememberAllOk(s.(succs := succs, fingers := s.fingers[0 := succs[0]]), succs);
    }
  }

  lemma AdoptOk(s: State, succ: Peer, candidate: Peer)
    requires Ok(s) && candidate.id != s.self.id
    ensures var t := Adopt(s, succ, candidate);
            && Ok(t) && t.self == s.self && t.r == s.r && t.orphaned == s.orphaned && t.strikes == s.strikes
            && (t.succs[0] == s.self ==> s.succs[0] == s.self)
  {
    if s.succs[0] == succ {
      var room := Room(s.succs, s.self, s.r - 1);
      assert forall i | 0 <= i < |room| :: room[i] in room;
      EachPlace(s, [candidate] + room);
      EachPlace(s, s.fingers[0 := candidate]);
      RememberOk(s.(succs := [candidate] + Room(s.succs, s.self, s.r - 1), fingers := s.fingers[0 := candidate]),
                 candidate);
    }
  }

  lemma NotifyOk(s: State, c: Peer)
    requires Ok(s)
    ensures var t := Notify(s, c).0;
            Ok(t) && t == s.(pred := t.pred, contacts := t.contacts, strikes := t.strikes) &&
            (t.strikes == s.strikes || t.strikes == s.strikes - {c})
  {
    RememberOk(Clear(s.(pred := Some(c)), c), c);
  }

  lemma FillPredOk(s: State, c: Peer)
    requires Ok(s) && c.id != s.self.id
    ensures var t := FillPred(s, c); Ok(t) && t == s.(pred := t.pred, contacts := t.contacts)
  {
    RememberOk(s.(pred := Some(c)), c);
  }

  /** A member that had another successor and now has itself is orphaned, and stays so. */
  predicate Orphans(s: State, t: State)
    requires |s.succs| >= 1 && |t.succs| >= 1
  {
    (t.succs[0] == s.self && s.succs[0] != s.self ==> t.orphaned) && (s.orphaned ==> t.orphaned)
  }

  predicate Kept(s: State, t: State) {
    Ok(s) && Ok(t) && t.self == s.self && t.r == s.r && Orphans(s, t)
  }

  lemma EvictKept(s: State, dead: Peer, whole: bool, said: bool)
    requires Ok(s) && Sane(s, dead, whole, said)
    ensures Kept(s, Evict(s, dead, whole, said))
  {
    EvictOk(s, dead, whole, said);
    FallsBack(s, dead, whole, said);
  }

  lemma StrikeKept(s: State, p: Peer)
    requires Ok(s)
    ensures Kept(s, Strike(s, p))
  {
    EvictKept(s.(strikes := s.strikes[p := StrikesOf(s, p) + 1]), p, false, false);
  }

  lemma AfterKept(s: State, t: State, i: nat)
    requires Kept(s, t) && 1 <= i < ID_BITS
    ensures Kept(s, t.(nextFinger := After(i)))
  {
  }

  lemma BlameKept(s: State, path: seq<Peer>, error: Error)
    requires Ok(s)
    ensures Kept(s, Blame(s, path, error))
  {
    if path != [] {
      EvictKept(s, path[|path| - 1], true, false);
      StrikeKept(s, path[|path| - 1]);
    }
  }

  lemma FixKept(s: State, i: nat, res: Lookup.Result)
    requires Ok(s) && 1 <= i < ID_BITS
    ensures Kept(s, Fix(s, i, res))
  {
    match res.outcome
    case Lost(error) =>
      BlameKept(s, res.path, error);
      AfterKept(s, Blame(s, res.path, error), i);
    case Found(owner) =>
      if Stranger(s, owner) {
        FilledOk(s, i, owner);
      }
  }

  lemma FilledOk(s: State, i: nat, owner: Peer)
    requires Ok(s) && 1 <= i < ID_BITS && Stranger(s, owner)
    ensures var t := FillForward(s, i, owner);
            && Ok(t) && t.succs == s.succs && t.orphaned == s.orphaned && t.self == s.self && t.r == s.r
            && t.strikes == s.strikes && t.pred == s.pred
  {
    var j := Reach(s.self, owner, i);
    var end := if j == i then i + 1 else j;
    EachPlace(s, Fill(s.fingers, i, end, owner)[0 := s.succs[0]]);
    RememberOk(s.(fingers := Fill(s.fingers, i, end, owner)[0 := s.succs[0]],
                  nextFinger := if end >= ID_BITS then 1 else end), owner);
  }

  lemma JoinOk(s: State, known: Peer, owner: Peer, list: Option<seq<Peer>>)
    requires Ok(s) && owner.id != s.self.id
    ensures var t := JoinThrough(s, known, owner, list);
            Ok(t) && t.self == s.self && t.r == s.r && t.succs[0] == owner && t.strikes == s.strikes
  {
    MergeOk(s, owner, if list.Some? then list.value else []);
    var succs := if list.Some? then Merge(s.self, [owner], list.value, s.r) else [owner];
    var t := s.(pred := None, succs := succs, fingers := seq(ID_BITS, _ => owner), nextFinger := 1, orphaned := false);
    RememberOk(t, known);
    RememberAllOk(Remember(t, known), succs);
  }
}
