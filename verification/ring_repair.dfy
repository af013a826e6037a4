/** Two things ring maintenance comes to: finger repair converges, and a correctly wired ring is a fixed
    point of it. */
module RingRepair {
  import opened Chord
  import opened Lookup
  import opened Text
  import opened Stabilization

  // ---- finger repair ----

  function OwnerOf(ms: seq<Peer>, self: Peer, i: nat): (p: Peer)
    requires Ring(ms) && i < ID_BITS
  {
    SuccessorOf(FingerStart(self.id, i), ms)
  }

  /** The owner of finger i's start lies at or past the start, and owns every later start up to it. */
  lemma CoversLater(ms: seq<Peer>, self: Peer, i: nat, x: nat)
    requires Ring(ms) && self in ms && i <= x < ID_BITS
    ensures InRangeOC(FingerStart(self.id, i), self.id, OwnerOf(ms, self, i).id)
    ensures InRangeOC(FingerStart(self.id, x), self.id, OwnerOf(ms, self, i).id) ==>
            OwnerOf(ms, self, x) == OwnerOf(ms, self, i)
  {
    var owner := OwnerOf(ms, self, i);
    PowersFit(i);
    PowersFit(x);
    PowerSteps(i, x);
    OwnerIsNearest(FingerStart(self.id, i), ms, self);
    OwnerIsNearest(FingerStart(self.id, x), ms, owner);
    OwnerIsNearest(FingerStart(self.id, x), ms, self);
    OwnerIsNearest(FingerStart(self.id, i), ms, OwnerOf(ms, self, x));
  }

  /** The two tables agree on the fingers from `from` up to `to`. */
  predicate Same(fs: seq<Peer>, table: seq<Peer>, from: nat, to: nat) {
    |fs| == |table| == ID_BITS && to <= ID_BITS && forall x | from <= x < to :: fs[x] == table[x]
  }

  /** One fix_next_finger whose lookup found the true owner. */
  function Repair(s: State, ms: seq<Peer>): (t: State)
    requires Ok(s) && Ring(ms)
  {
    Fix(s, s.nextFinger, Lookup.Result(Found(OwnerOf(ms, s.self, s.nextFinger)), []))
  }

  /** A member of the ring whose successor is right; its fingers may be anything. */
  predicate Placed(s: State, ms: seq<Peer>) {
    Ok(s) && Ring(ms) && s.self in ms && s.succs[0] == Next(s.self, ms)
  }

  lemma FirstFinger(s: State, ms: seq<Peer>)
    requires Placed(s, ms)
    ensures s.fingers[0] == BuildFingers(s.self.id, ms)[0]
  {
    PowersFit(0);
  }

  lemma MembersDiffer(s: State, ms: seq<Peer>, p: Peer)
    requires Placed(s, ms) && p in ms
    ensures Stranger(s, p)
  {
    if p != s.self {
      DistinctIds(ms, p, s.self);
    }
  }

  /** A repair makes the fingers it passes right and leaves right ones right. */
  lemma RepairFills(s: State, ms: seq<Peer>, table: seq<Peer>)
    requires Placed(s, ms) && table == BuildFingers(s.self.id, ms)
    ensures var t, i := Repair(s, ms), s.nextFinger;
            && Placed(t, ms) && t.self == s.self
            && (t.nextFinger == 1 || t.nextFinger > i)
            && Same(t.fingers, table, i, if t.nextFinger == 1 then ID_BITS else t.nextFinger)
            && (forall x | 0 <= x < ID_BITS && s.fingers[x] == table[x] :: t.fingers[x] == table[x])
  {
    var t, i := Repair(s, ms), s.nextFinger;
    var owner := OwnerOf(ms, s.self, i);
    MembersDiffer(s, ms, owner);
    FilledOk(s, i, owner);
    FirstFinger(s, ms);
    CoversLater(ms, s.self, i, i);
    var j := Reach(s.self, owner, i);
    forall x: nat | i <= x < j
      ensures table[x] == owner
    {
      CoversLater(ms, s.self, i, x);
    }
    assert t.fingers == Fill(s.fingers, i, j, owner)[0 := s.succs[0]];
  }

  /** Any way to go from one state to the next, and k times that. */
  type Stepping = State -> State

  function Many(step: Stepping, s: State, k: nat): State
    decreases k
  {
    if k == 0 then s else Many(step, step(s), k - 1)
  }

  function RepairOf(ms: seq<Peer>): Stepping {
    s => if Placed(s, ms) then Repair(s, ms) else s
  }

  /** k repairs, one after another, each by a lookup that succeeds. */
  function Repairs(s: State, ms: seq<Peer>, k: nat): State {
    Many(RepairOf(ms), s, k)
  }

  /** What has been passed since repair started at finger a: up to the next one, or, once it has gone
      round, everything from a on as well. */
  predicate Passed(s: State, table: seq<Peer>, a: nat, round: bool) {
    && s.fingers != [] && table != [] && s.fingers[0] == table[0]
    && if round then Same(s.fingers, table, a, ID_BITS) && Same(s.fingers, table, 1, s.nextFinger)
       else a <= s.nextFinger && Same(s.fingers, table, a, s.nextFinger)
  }

  function ToGo(next: nat, a: nat, round: bool): nat
    requires 1 <= a < ID_BITS && 1 <= next < ID_BITS
  {
    if round then if next < a then a - next else 0 else (ID_BITS - next) + (a - 1)
  }

  /** One repair passes at least one more finger. */
  lemma PassesMore(s: State, t: State, table: seq<Peer>, a: nat, round: bool)
    requires 1 <= a < ID_BITS && Passed(s, table, a, round) && 1 <= s.nextFinger < ID_BITS
    requires 1 <= t.nextFinger < ID_BITS
    requires t.nextFinger == 1 || t.nextFinger > s.nextFinger
    requires Same(t.fingers, table, s.nextFinger, if t.nextFinger == 1 then ID_BITS else t.nextFinger)
    requires forall x | 0 <= x < ID_BITS && s.fingers[x] == table[x] :: t.fingers[x] == table[x]
    requires |s.fingers| == ID_BITS
    ensures var round' := round || t.nextFinger == 1;
            && (ToGo(s.nextFinger, a, round) == 0 ==> Same(t.fingers, table, 0, ID_BITS))
            && (ToGo(s.nextFinger, a, round) > 0 && !(round && t.nextFinger == 1) ==>
                  Passed(t, table, a, round') && ToGo(t.nextFinger, a, round') < ToGo(s.nextFinger, a, round))
            && (round && t.nextFinger == 1 ==> Same(t.fingers, table, 0, ID_BITS))
  {
  }

  /** A measure that each step lowers, until what is right is reached; and right it stays. */
  ghost predicate Leads(step: Stepping, good: State -> bool, left: State -> nat, right: State -> bool) {
    && (forall t {:trigger good(t)} | good(t) ::
          right(t) || (left(t) > 0 && (right(step(t)) || (good(step(t)) && left(step(t)) < left(t)))))
    && (forall t {:trigger right(t)} | right(t) :: right(step(t)))
  }

  lemma {:induction false} ManyReaches(step: Stepping, s: State, k: nat, good: State -> bool, left: State -> nat,
                                       right: State -> bool)
    requires Leads(step, good, left, right) && (right(s) || (good(s) && left(s) <= k))
    ensures right(Many(step, s, k))
    decreases k
  {
    if k > 0 {
      ManyReaches(step, step(s), k - 1, good, left, right);
    }
  }

  /** Some stretch of the table has been passed, from finger a on. */
  predicate PartRight(s: State, ms: seq<Peer>, table: seq<Peer>, a: nat) {
    Placed(s, ms) && table == BuildFingers(s.self.id, ms) && (Passed(s, table, a, true) || Passed(s, table, a, false))
  }

  function Left(s: State, table: seq<Peer>, a: nat): nat
    requires 1 <= a < ID_BITS
  {
    if !(1 <= s.nextFinger < ID_BITS) then 0 else ToGo(s.nextFinger, a, Passed(s, table, a, true))
  }

  function PartOf(ms: seq<Peer>, table: seq<Peer>, a: nat): State -> bool {
    s => PartRight(s, ms, table, a)
  }

  function LeftOf(table: seq<Peer>, a: nat): State -> nat
    requires 1 <= a < ID_BITS
  {
    s => Left(s, table, a)
  }

  lemma PartFirst(s: State, ms: seq<Peer>, table: seq<Peer>, a: nat)
    requires Placed(s, ms) && table == BuildFingers(s.self.id, ms) && a == s.nextFinger
    ensures PartRight(s, ms, table, a) && Left(s, table, a) <= 63
  {
    FirstFinger(s, ms);
  }

  lemma SameIsEqual(fs: seq<Peer>, table: seq<Peer>)
    requires Same(fs, table, 0, ID_BITS)
    ensures fs == table
  {
  }

  lemma PartLeads(s: State, ms: seq<Peer>, table: seq<Peer>, a: nat, t: State)
    requires 1 <= a < ID_BITS && PartRight(s, ms, table, a) && t == Repair(s, ms)
    ensures Right(s, ms, table) || (Left(s, table, a) > 0 &&
                                    (Right(t, ms, table) ||
                                     (PartRight(t, ms, table, a) && Left(t, table, a) < Left(s, table, a))))
  {
    var round := Passed(s, table, a, true);
    RepairPasses(s, ms, table, a, round, t);
    if Left(s, table, a) == 0 {
      assert Right(s, ms, table);
    }
  }

  lemma RepairsLead(ms: seq<Peer>, table: seq<Peer>, a: nat)
    requires 1 <= a < ID_BITS
    ensures Leads(RepairOf(ms), PartOf(ms, table, a), LeftOf(table, a), RightOf(ms, table))
  {
    forall s | PartRight(s, ms, table, a)
      ensures Right(s, ms, table) || (Left(s, table, a) > 0 && (Right(Repair(s, ms), ms, table) ||
                (PartRight(Repair(s, ms), ms, table, a) && Left(Repair(s, ms), table, a) < Left(s, table, a))))
    {
      PartLeads(s, ms, table, a, Repair(s, ms));
    }
    RightKept(ms, table, RepairOf(ms));
  }

  /** One repair makes the whole table right, or passes more of it. */
  lemma RepairPasses(s: State, ms: seq<Peer>, table: seq<Peer>, a: nat, round: bool, t: State)
    requires Placed(s, ms) && table == BuildFingers(s.self.id, ms) && 1 <= a < ID_BITS && Passed(s, table, a, round)
    requires t == Repair(s, ms)
    ensures Placed(t, ms) && t.self == s.self
    ensures Right(t, ms, table) || (Passed(t, table, a, round || t.nextFinger == 1)
                                    && ToGo(t.nextFinger, a, round || t.nextFinger == 1) < ToGo(s.nextFinger, a, round))
  {
    RepairFills(s, ms, table);
    PassesMore(s, t, table, a, round);
  }

  predicate Right(s: State, ms: seq<Peer>, table: seq<Peer>) {
    Placed(s, ms) && table == BuildFingers(s.self.id, ms) && Same(s.fingers, table, 0, ID_BITS)
  }

  function RightOf(ms: seq<Peer>, table: seq<Peer>): State -> bool {
    s => Right(s, ms, table)
  }

  lemma RightKept(ms: seq<Peer>, table: seq<Peer>, step: Stepping)
    requires step == RepairOf(ms)
    ensures forall s | RightOf(ms, table)(s) :: RightOf(ms, table)(step(s))
  {
    forall s | RightOf(ms, table)(s)
      ensures RightOf(ms, table)(step(s))
    {
      RepairFills(s, ms, table);
    }
  }

  /** From any fingers whatever, 63 successful repairs, or more, make the table the one BuildFingers
      makes. */
  lemma FingersConverge(s: State, ms: seq<Peer>, k: nat)
    requires Placed(s, ms) && k >= 63
    ensures Repairs(s, ms, k).fingers == BuildFingers(s.self.id, ms)
  {
    var table, a := BuildFingers(s.self.id, ms), s.nextFinger;
    RepairsLead(ms, table, a);
    PartFirst(s, ms, table, a);
    ManyReaches(RepairOf(ms), s, k, PartOf(ms, table, a), LeftOf(table, a), RightOf(ms, table));
    SameIsEqual(Repairs(s, ms, k).fingers, table);
  }

  /** On a ring with right successors and any fingers whatever, a repair whose lookup succeeds is a Repair as above. */
  lemma LookupRepairs(s: State, ms: seq<Peer>, ask: Network, fingers: (nat, Peer) -> seq<Peer>)
    requires Placed(s, ms) && Routed(ask, ms, FingerStart(s.self.id, s.nextFinger), fingers) && OnlyMembers(ask, ms)
    requires Walk(ask, 0, s.self, FingerStart(s.self.id, s.nextFinger)).outcome.Found?
    ensures Fix(s, s.nextFinger, Walk(ask, 0, s.self, FingerStart(s.self.id, s.nextFinger))) == Repair(s, ms)
  {
    StaleLookup(ask, ms, 0, s.self, FingerStart(s.self.id, s.nextFinger), fingers);
  }

  // ---- a maintenance round ----

  const MAX_PASSES: nat := 80

  /** What the calls of one round come to. */
  datatype Net = Net(
    neighbours: (nat, Peer) -> (Stabilization.Outcome, Neighbours),
    ping: (nat, Peer) -> Stabilization.Outcome,
    notify: (nat, Peer) -> Stabilization.Outcome,
    ask: Id -> Network)

  function TellSuccessor(s: State, net: Net, pass: nat): (t: State)
    requires Ok(s)
    ensures Ok(t)
  {
    ReportOk(s, s.succs[0], net.notify(pass, s.succs[0]));
    if s.succs[0] == s.self then s else Report(s, s.succs[0], net.notify(pass, s.succs[0]))
  }

  /** One pass: ask the successor, apply what it says, and go on to a closer one if it answers; true if
      the next pass is to ask again. */
  function PassOnce(s: State, net: Net, pass: nat): (t: (State, bool))
    requires Ok(s)
    ensures Ok(t.0)
  {
    var succ := s.succs[0];
    var (o, nb) := net.neighbours(pass, succ);
    ReportOk(s, succ, o);
    var s1 := Report(s, succ, o);
    if o != Good then (s1, s1.succs[0] != succ)
    else
      ApplyOk(s1, succ, nb);
      var (s2, cand) := Apply(s1, succ, nb);
      if cand.None? then (TellSuccessor(s2, net, pass), false)
      else
        var o' := net.ping(pass, cand.value);
        ReportOk(s2, cand.value, o');
        var s3 := Report(s2, cand.value, o');
        if o' == Good && s3.succs[0] == succ then
          AdoptOk(s3, succ, cand.value);
          (Adopt(s3, succ, cand.value), true)
        else (TellSuccessor(s3, net, pass), false)
  }

  function StabilizeFrom(s: State, net: Net, pass: nat): (t: State)
    requires Ok(s)
    ensures Ok(t)
    decreases MAX_PASSES + 1 - pass
  {
    if pass > MAX_PASSES then s
    else
      var (t, again) := PassOnce(s, net, pass);
      if again then StabilizeFrom(t, net, pass + 1) else t
  }

  /** Any pass: from a state and a number to the next state, and whether another pass follows. */
  type Passing = (State, nat) -> (State, bool)

  function PassOf(net: Net): Passing {
    (s: State, i: nat) => if Ok(s) && i <= MAX_PASSES then PassOnce(s, net, i) else (s, false)
  }

  function Iterate(pass: Passing, s: State, i: nat): State
    decreases MAX_PASSES + 1 - i
  {
    if i > MAX_PASSES then s
    else if pass(s, i).1 then Iterate(pass, pass(s, i).0, i + 1)
    else pass(s, i).0
  }

  lemma {:induction false} IterateIs(s: State, net: Net, i: nat)
    requires Ok(s)
    ensures Iterate(PassOf(net), s, i) == StabilizeFrom(s, net, i)
    decreases MAX_PASSES + 1 - i
  {
    if i <= MAX_PASSES {
      var (t, again) := PassOnce(s, net, i);
      StabilizeStep(s, net, i, t, again);
      IterateIs(t, net, i + 1);
    }
  }

  /** Pass i of `n`: the last one ends the round, or is the last allowed. */
  predicate PassAt(pass: Passing, ss: seq<State>, i: nat, n: nat) {
    && i < n && i + 1 < |ss| && pass(ss[i], i).0 == ss[i + 1]
    && (if pass(ss[i], i).1 then i + 1 < n || i == MAX_PASSES else i + 1 == n)
  }

  /** The states a round passes through, up to the one it ends in. */
  predicate Course(pass: Passing, ss: seq<State>, first: nat, n: nat) {
    first <= n < |ss| && n <= MAX_PASSES + 1 && forall i {:trigger PassAt(pass, ss, i, n)} | first <= i < n ::
        PassAt(pass, ss, i, n)
  }

  lemma {:induction false} CourseOf(pass: Passing, s: State, first: nat, head: seq<State>)
      returns (ss: seq<State>, n: nat)
    requires first <= MAX_PASSES + 1 && |head| == first
    ensures Course(pass, ss, first, n) && head <= ss && ss[first] == s && ss[n] == Iterate(pass, s, first)
    ensures first <= MAX_PASSES ==> n > first
    decreases MAX_PASSES + 1 - first
  {
    if first == MAX_PASSES + 1 {
      ss, n := head + [s], first;
    } else {
      var t := pass(s, first).0;
      if pass(s, first).1 {
        ss, n := CourseOf(pass, t, first + 1, head + [s]);
        assert ss[first] == (head + [s])[first];
      } else {
        ss, n := head + [s, t], first + 1;
      }
      assert PassAt(pass, ss, first, n);
    }
  }

  lemma StabilizeStep(s: State, net: Net, pass: nat, t: State, again: bool)
    requires Ok(s) && pass <= MAX_PASSES && (t, again) == PassOnce(s, net, pass)
    ensures Ok(t) && StabilizeFrom(s, net, pass) == if again then StabilizeFrom(t, net, pass + 1) else t
  {
  }

  function CheckPredecessor(s: State, net: Net): (t: State)
    requires Ok(s)
    ensures Ok(t)
  {
    if s.pred.None? || s.pred.value == s.self then s
    else
      ReportOk(s, s.pred.value, net.ping(MAX_PASSES + 1, s.pred.value));
      Report(s, s.pred.value, net.ping(MAX_PASSES + 1, s.pred.value))
  }

  /** Checking the predecessor never replaces it: it stays, or goes; it goes if it refused or says it is orphaned, and
      stays if it answered; and nothing else is lost that was not of its process. */
  lemma CheckedPredecessor(s: State, net: Net)
    requires Ok(s) && s.pred.Some?
    ensures var t, p, o := CheckPredecessor(s, net), s.pred.value, net.ping(MAX_PASSES + 1, s.pred.value);
            && (t.pred == s.pred || t.pred == None)
            && (o == Good ==> Alike(s, t))
            && (o == SaysOrphaned || (o == ConnectionRefused && !SameProcess(p, s.self)) ==> t.pred == None)
            && forall q | q != s.self && !SameProcess(q, p) :: Holds(t, q) <==> Holds(s, q)
  {
    var p, o := s.pred.value, net.ping(MAX_PASSES + 1, s.pred.value);
    forall q | q != s.self && !SameProcess(q, p)
      ensures Holds(CheckPredecessor(s, net), q) <==> Holds(s, q)
    {
      CheckKeeps(s, p, o, q);
    }
  }

  lemma CheckKeeps(s: State, p: Peer, o: Stabilization.Outcome, q: Peer)
    requires Ok(s) && q != s.self && !SameProcess(q, p)
    ensures Holds(Report(s, p, o), q) <==> Holds(s, q)
  {
    match o
    case Good =>
    case SaysOrphaned => OthersStay(s, p, false, true, q);
    case ConnectionRefused => OthersStay(s, p, true, false, q);
    case Bad =>
      OthersStay(s.(strikes := s.strikes[p := StrikesOf(s, p) + 1]), p, false, false, q);
  }

  function FixNext(s: State, net: Net): (t: State)
    requires Ok(s)
    ensures Ok(t)
  {
    var start := FingerStart(s.self.id, s.nextFinger);
    var res := Walk(net.ask(start), 0, s.self, start);
    FixKept(s, s.nextFinger, res);
    Fix(s, s.nextFinger, res)
  }

  /** One attempt to rejoin through a contact. */
  function Rejoin(s: State, known: Peer, net: Net): (t: State)
    requires Ok(s)
    ensures Ok(t)
  {
    var res := Walk(net.ask(s.self.id), 0, known, s.self.id);
    if res.outcome.Lost? || res.outcome.owner.id == s.self.id then s
    else
      var (o, nb) := net.neighbours(0, res.outcome.owner);
      var list := if o == Good then Some(nb.succs) else None;
      JoinOk(s, known, res.outcome.owner, list);
      JoinThrough(s, known, res.outcome.owner, list)
  }

  function Round(s: State, net: Net): (t: State)
    requires Ok(s)
    ensures Ok(t)
  {
    if s.orphaned then
      if s.contacts == [] then s
      else Rejoin(s.(nextContact := s.nextContact + 1), s.contacts[s.nextContact % |s.contacts|], net)
    else FixNext(CheckPredecessor(StabilizeFrom(s, net, 0), net), net)
  }

  // ---- a wired ring ----

  function Wrap(x: nat, n: nat): (y: nat)
    requires x < 2 * n
    ensures y < n
  {
    if x < n then x else x - n
  }

  /** The next members clockwise from member i: r of them, or all the others. */
  function WiredSuccs(ms: seq<Peer>, i: nat, r: nat): (ps: seq<Peer>)
    requires i < |ms|
    ensures |ms| > 1 ==> |ps| == if r < |ms| - 1 then r else |ms| - 1
    ensures |ms| > 1 ==> forall t | 0 <= t < |ps| :: ps[t] == ms[Wrap(i + 1 + t, |ms|)]
  {
    if |ms| == 1 then [ms[0]]
    else seq(if r < |ms| - 1 then r else |ms| - 1, t requires 0 <= t < |ms| - 1 => ms[Wrap(i + 1 + t, |ms|)])
  }

  /** The tables a member starts with on a fixed ring; the rest of its state may be anything. */
  predicate Wired(s: State, ms: seq<Peer>, i: nat, r: nat) {
    && Ring(ms) && i < |ms| && Ok(s) && !s.orphaned && s.self == ms[i] && s.r == r
    && s.succs == WiredSuccs(ms, i, r)
    && s.fingers == BuildFingers(ms[i].id, ms)
    && s.pred == if |ms| > 1 then Some(PredecessorOf(ms[i].id, ms)) else None
  }

  lemma NextInOrder(ms: seq<Peer>, i: nat)
    requires Ring(ms) && i < |ms|
    ensures Next(ms[i], ms) == ms[Wrap(i + 1, |ms|)]
    ensures PredecessorOf(ms[Wrap(i + 1, |ms|)].id, ms) == ms[i]
  {
    var n := Wrap(i + 1, |ms|);
    BelowIs(ms[n].id, ms, n);
    if i + 1 < |ms| {
      assert ms[i].id < ms[i + 1].id;
      BelowIs(Plus(ms[i].id, 1), ms, i + 1);
    } else if ms[i].id + 1 < M {
      BelowIs(Plus(ms[i].id, 1), ms, |ms|);
    } else {
      BelowIs(0, ms, 0);
    }
  }

  /** The state a member of a fixed ring starts with. */
  function InitWired(ms: seq<Peer>, i: nat, r: nat): State
    requires Ring(ms) && i < |ms| && r >= 1
  {
    var succs := WiredSuccs(ms, i, r);
    RememberInTurn(State(ms[i], r, if |ms| > 1 then Some(PredecessorOf(ms[i].id, ms)) else None, succs,
                         BuildFingers(ms[i].id, ms)[0 := succs[0]], 1, false, [], 0, map[]), succs)
  }

  function RememberInTurn(s: State, ps: seq<Peer>): State {
    if ps == [] then s else Remember(RememberInTurn(s, ps[..|ps| - 1]), ps[|ps| - 1])
  }

  lemma {:induction false} RememberInTurnOk(s: State, ps: seq<Peer>)
    requires ContactsOk(s.self, s.contacts)
    ensures var t := RememberInTurn(s, ps); ContactsOk(s.self, t.contacts) && t == s.(contacts := t.contacts)
  {
    if ps != [] {
      RememberInTurnOk(s, ps[..|ps| - 1]);
      RememberOk(RememberInTurn(s, ps[..|ps| - 1]), ps[|ps| - 1]);
    }
  }

  /** Every membership has its wired ring: the state that each member starts with is wired. */
  lemma StartsWired(ms: seq<Peer>, i: nat, r: nat)
    requires Ring(ms) && i < |ms| && 1 <= r <= MAX_SUCCESSORS
    ensures Wired(InitWired(ms, i, r), ms, i, r)
  {
    var succs, fs := WiredSuccs(ms, i, r), BuildFingers(ms[i].id, ms);
    FirstIsNext(ms, i, r, fs);
    var s := State(ms[i], r, if |ms| > 1 then Some(PredecessorOf(ms[i].id, ms)) else None, succs, fs, 1, false, [], 0,
                   map[]);
    WiredStrangers(ms, i, r, s);
    RememberInTurnOk(s, succs);
  }

  lemma FirstIsNext(ms: seq<Peer>, i: nat, r: nat, fs: seq<Peer>)
    requires Ring(ms) && i < |ms| && r >= 1 && fs == BuildFingers(ms[i].id, ms)
    ensures WiredSuccs(ms, i, r) != [] && fs[0] == WiredSuccs(ms, i, r)[0] && fs[0 := fs[0]] == fs
  {
    NextInOrder(ms, i);
    assert FingerStart(ms[i].id, 0) == Plus(ms[i].id, 1);
  }

  lemma WiredStrangers(ms: seq<Peer>, i: nat, r: nat, s: State)
    requires Ring(ms) && i < |ms| && r >= 1 && s.self == ms[i] && s.succs == WiredSuccs(ms, i, r)
    requires s.fingers == BuildFingers(ms[i].id, ms)
    ensures Strangers(s, s.succs) && Strangers(s, s.fingers) && OnlyFirst(s.self, s.succs)
    ensures |ms| > 1 ==> PredecessorOf(ms[i].id, ms).id != ms[i].id
  {
    forall j: nat | j < |ms|
      ensures Stranger(s, ms[j])
    {
      if j != i {
        RingInjective(ms, i, j);
      }
    }
    assert forall p | p in s.succs :: p in ms;
    assert forall p | p in s.fingers :: p in ms;
    if |ms| > 1 {
      var b := if i == 0 then |ms| - 1 else i - 1;
      NextInOrder(ms, b);
      RingInjective(ms, b, i);
    }
  }

  /** Members one after another from place `at`. */
  predicate From(ms: seq<Peer>, at: nat, list: seq<Peer>) {
    at < |ms| && |list| <= |ms| && forall x | 0 <= x < |list| :: list[x] == ms[Wrap(at + x, |ms|)]
  }

  lemma FromRest(ms: seq<Peer>, at: nat, list: seq<Peer>)
    requires From(ms, at, list) && list != []
    ensures list[0] == ms[at] && From(ms, Wrap(at + 1, |ms|), list[1..])
  {
  }

  /** Taking over the successor's list gives back one's own. */
  lemma {:induction false} MergeInOrder(ms: seq<Peer>, i: nat, r: nat, t: nat, list: seq<Peer>, at: nat, all: seq<Peer>)
    requires Ring(ms) && i < |ms| && |ms| > 1 && all == WiredSuccs(ms, i, r) && 1 <= t <= |all| && r >= 1
    requires at == Wrap(i + 1 + t, |ms|) && From(ms, at, list) && |list| == |all| - (t - 1)
    ensures Merge(ms[i], all[..t], list, r) == all
    decreases |list|
  {
    FromRest(ms, at, list);
    if t == |all| {
      assert all[..t] == all;
    } else {
      assert list[0] == all[t];
      MergeTakes(ms, i, r, t);
      assert all[..t] + [all[t]] == all[..t + 1];
      MergeInOrder(ms, i, r, t + 1, list[1..], Wrap(at + 1, |ms|), all);
    }
  }

  lemma MergeTakes(ms: seq<Peer>, i: nat, r: nat, t: nat)
    requires Ring(ms) && i < |ms| && |ms| > 1 && 1 <= t < |WiredSuccs(ms, i, r)|
    ensures var all := WiredSuccs(ms, i, r); all[t] != ms[i] && all[t].id != ms[i].id && all[t] !in all[..t]
  {
    var all := WiredSuccs(ms, i, r);
    RingInjective(ms, Wrap(i + 1 + t, |ms|), i);
    forall x | 0 <= x < t
      ensures all[x] != all[t]
    {
      RingInjective(ms, Wrap(i + 1 + x, |ms|), Wrap(i + 1 + t, |ms|));
    }
  }

  lemma RingInjective(ms: seq<Peer>, a: nat, b: nat)
    requires Ring(ms) && a < |ms| && b < |ms| && a != b
    ensures ms[a].id != ms[b].id
  {
    assert a < b ==> ms[a].id < ms[b].id;
    assert b < a ==> ms[b].id < ms[a].id;
  }

  lemma MergeWired(ms: seq<Peer>, i: nat, r: nat)
    requires Ring(ms) && i < |ms| && r >= 1
    ensures var succ := WiredSuccs(ms, i, r)[0];
            Merge(ms[i], [succ], WiredSuccs(ms, Wrap(i + 1, |ms|), r), r) == WiredSuccs(ms, i, r)
  {
    if |ms| > 1 {
      var all, list := WiredSuccs(ms, i, r), WiredSuccs(ms, Wrap(i + 1, |ms|), r);
      assert all[..1] == [all[0]];
      NextFrom(ms, i, r, list);
      MergeInOrder(ms, i, r, 1, list, Wrap(i + 2, |ms|), all);
    }
  }

  lemma NextFrom(ms: seq<Peer>, i: nat, r: nat, list: seq<Peer>)
    requires Ring(ms) && i < |ms| && |ms| > 1 && r >= 1 && list == WiredSuccs(ms, Wrap(i + 1, |ms|), r)
    ensures From(ms, Wrap(i + 2, |ms|), list)
  {
  }

  /** Every call succeeds and is answered by a wired member. */
  ghost predicate Answered(net: Net, ms: seq<Peer>, r: nat)
    requires Ring(ms)
  {
    && NeighboursKnown(net, ms, r) && (forall k :: WellRouted(net.ask(k), ms, k))
    && (forall pass: nat, p :: net.ping(pass, p) == Good) && (forall pass: nat, p :: net.notify(pass, p) == Good)
  }

  ghost predicate NeighboursKnown(net: Net, ms: seq<Peer>, r: nat)
    requires Ring(ms)
  {
    forall pass: nat, j: nat | j < |ms| :: net.neighbours(pass, ms[j]) == (Good, WiredNeighbours(ms, j, r))
  }

  function WiredNeighbours(ms: seq<Peer>, j: nat, r: nat): Neighbours
    requires Ring(ms) && j < |ms|
  {
    Neighbours(if |ms| > 1 then Some(PredecessorOf(ms[j].id, ms)) else None, WiredSuccs(ms, j, r))
  }

  /** The same member with the same tables. */
  predicate Alike(s: State, t: State) {
    t.pred == s.pred && t.succs == s.succs && t.fingers == s.fingers && t.self == s.self && t.r == s.r &&
        t.orphaned == s.orphaned
  }

  predicate SameTables(s: State, t: State) {
    Alike(s, t) && t.nextFinger == s.nextFinger
  }

  /** Applying a wired successor's answer changes nothing and finds nobody closer. */
  lemma ApplyRests(s: State, ms: seq<Peer>, i: nat, r: nat, nb: Neighbours)
    requires Wired(s, ms, i, r) && nb == WiredNeighbours(ms, Wrap(i + 1, |ms|), r)
    ensures var (t, cand) := Apply(s, s.succs[0], nb); cand.None? && SameTables(s, t) && Ok(t)
  {
    MergeWired(ms, i, r);
    NextInOrder(ms, i);
    ApplyOk(s, s.succs[0], nb);
    RememberAllOk(s.(succs := s.succs, fingers := s.fingers[0 := s.succs[0]]), s.succs);
    assert s.fingers[0 := s.succs[0]] == s.fingers;
  }

  lemma StabilizeRests(s: State, ms: seq<Peer>, i: nat, r: nat, net: Net)
    requires Wired(s, ms, i, r) && Answered(net, ms, r)
    ensures SameTables(s, StabilizeFrom(s, net, 0))
  {
    var succ := s.succs[0];
    var nb := net.neighbours(0, succ).1;
    assert succ == ms[Wrap(i + 1, |ms|)];
    ReportOk(s, succ, Good);
    ApplyRests(Report(s, succ, Good), ms, i, r, nb);
    PassRests(s, net, succ, nb);
    StabilizeStep(s, net, 0, PassOnce(s, net, 0).0, false);
  }

  lemma PassRests(s: State, net: Net, succ: Peer, nb: Neighbours)
    requires Ok(s) && succ == s.succs[0] && net.neighbours(0, succ) == (Good, nb) && net.notify(0, succ) == Good
    requires Ok(Report(s, succ, Good))
    requires var (t, cand) := Apply(Report(s, succ, Good), succ, nb); cand.None? && SameTables(s, t) && Ok(t)
    ensures SameTables(s, PassOnce(s, net, 0).0) && !PassOnce(s, net, 0).1
  {
  }

  lemma FixRests(s: State, ms: seq<Peer>, i: nat, r: nat, net: Net)
    requires Wired(s, ms, i, r) && Answered(net, ms, r)
    ensures Alike(s, FixNext(s, net))
  {
    var start := FingerStart(s.self.id, s.nextFinger);
    assert WellRouted(net.ask(start), ms, start);
    LookupFinds(net.ask(start), ms, s.self, start);
    WiredIsPlaced(s, ms, i, r);
    RepairRests(s, ms);
    assert FixNext(s, net) == Repair(s, ms);
  }

  /** Repairing a table that is right changes none of the tables. */
  lemma RepairRests(s: State, ms: seq<Peer>)
    requires Placed(s, ms) && s.fingers == BuildFingers(s.self.id, ms)
    ensures Alike(s, Repair(s, ms))
  {
    var owner := OwnerOf(ms, s.self, s.nextFinger);
    RepairFills(s, ms, s.fingers);
    MembersDiffer(s, ms, owner);
    FilledOk(s, s.nextFinger, owner);
  }

  lemma WiredIsPlaced(s: State, ms: seq<Peer>, i: nat, r: nat)
    requires Wired(s, ms, i, r)
    ensures Placed(s, ms)
  {
    NextInOrder(ms, i);
  }

  /** A wired ring is a fixed point: a maintenance round at any member, with every call answered by the
      others, leaves its predecessor, successor list and fingers as they were, so that it is wired still. */
  lemma WiredIsFixed(s: State, ms: seq<Peer>, i: nat, r: nat, net: Net)
    requires Wired(s, ms, i, r) && Answered(net, ms, r)
    ensures Alike(s, Round(s, net)) && Wired(Round(s, net), ms, i, r)
  {
    StabilizeRests(s, ms, i, r, net);
    var s1 := StabilizeFrom(s, net, 0);
    var s2 := CheckPredecessor(s1, net);
    assert SameTables(s1, s2);
    FixRests(s2, ms, i, r, net);
  }

  /** And so does it at the members it calls: the one request that changes anything, NOTIFY, finds the
      notifier already in place. */
  lemma NotifiedIsFixed(t: State, ms: seq<Peer>, i: nat, r: nat)
    requires Ring(ms) && i < |ms| && |ms| > 1 && Wired(t, ms, Wrap(i + 1, |ms|), r)
    ensures Notify(t, ms[i]) == (t, None)
  {
    NextInOrder(ms, i);
    ArcTests(ms[i].id, ms[i].id, t.self.id);
    RingInjective(ms, i, Wrap(i + 1, |ms|));
  }

  // ---- the whole ring ----

  ghost predicate AllWired(ss: seq<State>, ms: seq<Peer>, r: nat) {
    |ss| == |ms| > 0 && forall j {:trigger ss[j]} | 0 <= j < |ss| :: Wired(ss[j], ms, j, r)
  }

  function MemberAt(ss: seq<State>, p: Peer): Option<State> {
    if ss == [] then None
    else if ss[|ss| - 1].self == p then Some(ss[|ss| - 1])
    else MemberAt(ss[..|ss| - 1], p)
  }

  lemma {:induction false} MemberIs(ss: seq<State>, ms: seq<Peer>, j: nat)
    requires Ring(ms) && j < |ss| <= |ms| && forall x | 0 <= x < |ss| :: ss[x].self == ms[x]
    ensures MemberAt(ss, ms[j]) == Some(ss[j])
  {
    if j < |ss| - 1 {
      RingInjective(ms, j, |ss| - 1);
      MemberIs(ss[..|ss| - 1], ms, j);
    }
  }

  /** Every call reaches its member, which answers from its own state: its neighbours, or a step of a lookup. */
  function RingNet(ss: seq<State>): Net {
    Net((pass: nat, p: Peer) => AnswerNeighbours(MemberAt(ss, p)),
        (pass: nat, p: Peer) => Good,
        (pass: nat, p: Peer) => Good,
        (k: Id) => (i: nat, p: Peer) => AnswerStep(MemberAt(ss, p), k))
  }

  function AnswerNeighbours(m: Option<State>): (Stabilization.Outcome, Neighbours) {
    match m
    case Some(s) => (Good, Neighbours(s.pred, s.succs))
    case None => (ConnectionRefused, Neighbours(None, []))
  }

  function AnswerStep(m: Option<State>, k: Id): Reply {
    match m
    case Some(s) => if s.succs == [] then Failed(ErrReply) else Says(RouteStep(s.self, s.succs[0], s.fingers, k))
    case None => Failed(Fault.Refused)
  }

  lemma WiredSteps(s: State, ms: seq<Peer>, j: nat, r: nat, k: Id)
    requires Wired(s, ms, j, r)
    ensures AnswerStep(Some(s), k) == Says(RouteStep(ms[j], Next(ms[j], ms), BuildFingers(ms[j].id, ms), k))
  {
    NextInOrder(ms, j);
  }

  lemma AllPresent(ss: seq<State>, ms: seq<Peer>, r: nat)
    requires AllWired(ss, ms, r)
    ensures forall j: nat | j < |ms| :: MemberAt(ss, ms[j]) == Some(ss[j])
  {
    WiredRing(ss, ms, r);
    forall x | 0 <= x < |ss|
      ensures ss[x].self == ms[x]
    {
      assert Wired(ss[x], ms, x, r);
    }
    forall j: nat | j < |ms|
      ensures MemberAt(ss, ms[j]) == Some(ss[j])
    {
      MemberIs(ss, ms, j);
    }
  }

  /** A ring of wired members answers every call as the fixed point needs. */
  lemma RingAnswers(ss: seq<State>, ms: seq<Peer>, r: nat)
    requires AllWired(ss, ms, r)
    ensures Ring(ms) && Answered(RingNet(ss), ms, r)
  {
    WiredRing(ss, ms, r);
    AllPresent(ss, ms, r);
    AllNeighbours(ss, ms, r);
    AllRoutes(ss, ms, r);
  }

  lemma WiredRing(ss: seq<State>, ms: seq<Peer>, r: nat)
    requires AllWired(ss, ms, r)
    ensures Ring(ms)
  {
    assert Wired(ss[0], ms, 0, r);
  }

  lemma AllRoutes(ss: seq<State>, ms: seq<Peer>, r: nat)
    requires AllWired(ss, ms, r) && Ring(ms) && forall j: nat | j < |ms| :: MemberAt(ss, ms[j]) == Some(ss[j])
    ensures forall k :: WellRouted(RingNet(ss).ask(k), ms, k)
  {
    forall k
      ensures WellRouted(RingNet(ss).ask(k), ms, k)
    {
      RingRoutes(ss, ms, r, k);
    }
  }

  lemma AllNeighbours(ss: seq<State>, ms: seq<Peer>, r: nat)
    requires AllWired(ss, ms, r) && Ring(ms) && forall j: nat | j < |ms| :: MemberAt(ss, ms[j]) == Some(ss[j])
    ensures NeighboursKnown(RingNet(ss), ms, r)
  {
    forall pass: nat, j: nat | j < |ms|
      ensures RingNet(ss).neighbours(pass, ms[j]) == (Good, WiredNeighbours(ms, j, r))
    {
      assert Wired(ss[j], ms, j, r);
      RingNeighbours(ss, ms, r, pass, j);
    }
  }

  lemma RingNeighbours(ss: seq<State>, ms: seq<Peer>, r: nat, pass: nat, j: nat)
    requires |ss| == |ms| && j < |ms| && Wired(ss[j], ms, j, r) && MemberAt(ss, ms[j]) == Some(ss[j])
    ensures RingNet(ss).neighbours(pass, ms[j]) == (Good, WiredNeighbours(ms, j, r))
  {
  }

  lemma RingRoutes(ss: seq<State>, ms: seq<Peer>, r: nat, k: Id)
    requires AllWired(ss, ms, r) && Ring(ms) && forall j: nat | j < |ms| :: MemberAt(ss, ms[j]) == Some(ss[j])
    ensures WellRouted(RingNet(ss).ask(k), ms, k)
  {
    forall i: nat, p | p in ms
      ensures RingNet(ss).ask(k)(i, p) == Says(RouteStep(p, Next(p, ms), BuildFingers(p.id, ms), k))
    {
      var j :| 0 <= j < |ms| && ms[j] == p;
      assert Wired(ss[j], ms, j, r);
      WiredSteps(ss[j], ms, j, r, k);
    }
  }

  /** A round of member i, answered by the others, and the NOTIFY it sends, taken by its successor. */
  function RoundAt(ss: seq<State>, i: nat): seq<State>
    requires i < |ss| && Ok(ss[i])
  {
    var ss1 := ss[i := Round(ss[i], RingNet(ss))];
    var n := Wrap(i + 1, |ss|);
    if |ss| == 1 then ss1 else ss1[n := Notify(ss1[n], ss[i].self).0]
  }

  function RoundsAt(ss: seq<State>, turns: seq<nat>): seq<State> {
    if turns == [] then ss else Turn(RoundsAt(ss, turns[..|turns| - 1]), turns[|turns| - 1])
  }

  function Turn(ss: seq<State>, i: nat): seq<State> {
    if i < |ss| && Ok(ss[i]) then RoundAt(ss, i) else ss
  }

  predicate AllAlike(ss: seq<State>, ts: seq<State>) {
    |ss| == |ts| && forall j | 0 <= j < |ss| :: Alike(ss[j], ts[j])
  }

  lemma StillWired(ss: seq<State>, ms: seq<Peer>, r: nat, i: nat, t: State)
    requires AllWired(ss, ms, r) && i < |ss| && Wired(t, ms, i, r) && Alike(ss[i], t)
    ensures AllWired(ss[i := t], ms, r) && AllAlike(ss, ss[i := t])
  {
    var ts := ss[i := t];
    forall j | 0 <= j < |ts|
      ensures Wired(ts[j], ms, j, r)
    {
      assert j != i ==> ts[j] == ss[j];
      assert Wired(ss[j], ms, j, r);
    }
  }

  lemma NotifyRests(ss: seq<State>, ms: seq<Peer>, r: nat, i: nat, n: nat)
    requires AllWired(ss, ms, r) && i < |ss| && |ss| > 1 && n == Wrap(i + 1, |ss|)
    ensures ss[n := Notify(ss[n], ms[i]).0] == ss
  {
    assert Wired(ss[n], ms, n, r);
    NotifiedIsFixed(ss[n], ms, i, r);
  }

  lemma RoundRests(ss: seq<State>, ms: seq<Peer>, r: nat, i: nat)
    requires AllWired(ss, ms, r) && i < |ss| && Ok(ss[i])
    ensures AllWired(RoundAt(ss, i), ms, r) && AllAlike(ss, RoundAt(ss, i))
  {
    assert Wired(ss[i], ms, i, r);
    var t := Round(ss[i], RingNet(ss));
    RingAnswers(ss, ms, r);
    WiredIsFixed(ss[i], ms, i, r, RingNet(ss));
    StillWired(ss, ms, r, i, t);
    if |ss| > 1 {
      NotifyRests(ss[i := t], ms, r, i, Wrap(i + 1, |ss|));
    }
  }

  lemma OneRoundRests(ss: seq<State>, before: seq<State>, ms: seq<Peer>, r: nat, i: nat)
    requires AllWired(before, ms, r) && AllAlike(ss, before)
    ensures AllWired(Turn(before, i), ms, r) && AllAlike(ss, Turn(before, i))
  {
    if i < |before| && Ok(before[i]) {
      RoundRests(before, ms, r, i);
      AlikeOn(ss, before, RoundAt(before, i));
    }
  }

  lemma AlikeOn(a: seq<State>, b: seq<State>, c: seq<State>)
    requires AllAlike(a, b) && AllAlike(b, c)
    ensures AllAlike(a, c)
  {
    forall j | 0 <= j < |a|
      ensures Alike(a[j], c[j])
    {
      assert Alike(a[j], b[j]) && Alike(b[j], c[j]);
    }
  }

  /** Every member of a ring as it starts. */
  function StartRing(ms: seq<Peer>, r: nat): (ss: seq<State>)
    requires Ring(ms) && r >= 1
    ensures |ss| == |ms| && forall i | 0 <= i < |ms| :: ss[i] == InitWired(ms, i, r)
  {
    seq(|ms|, i requires 0 <= i < |ms| => InitWired(ms, i, r))
  }

  lemma RingStarts(ms: seq<Peer>, r: nat)
    requires Ring(ms) && 1 <= r <= MAX_SUCCESSORS
    ensures AllWired(StartRing(ms, r), ms, r)
  {
    forall i | 0 <= i < |ms|
      ensures Wired(StartRing(ms, r)[i], ms, i, r)
    {
      StartsWired(ms, i, r);
    }
  }

  /** For every membership, every r, and any number of maintenance rounds at any members in any order, with every call
      answered by the members as they then are: every predecessor, successor list and finger table is unchanged. */
  lemma {:induction false} RingIsFixed(ss: seq<State>, ms: seq<Peer>, r: nat, turns: seq<nat>)
    requires AllWired(ss, ms, r)
    ensures AllWired(RoundsAt(ss, turns), ms, r) && AllAlike(ss, RoundsAt(ss, turns))
    decreases |turns|
  {
    if turns != [] {
      RingIsFixed(ss, ms, r, turns[..|turns| - 1]);
      OneRoundRests(ss, RoundsAt(ss, turns[..|turns| - 1]), ms, r, turns[|turns| - 1]);
    }
  }
}
