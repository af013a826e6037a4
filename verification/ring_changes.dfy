/** How a ring takes up changes: a member that joins is found by its neighbours, one that fails is routed
    round, and an orphan finds its way back. Distances are clockwise arcs, a whole turn from a member to
    itself. */
module RingChanges {
  import opened Chord
  import opened Lookup
  import opened Text
  import opened Stabilization
  import opened RingRepair
  import ManifestTrees

  // ---- one pass of stabilization ----

  /** c lies before succ, going clockwise from self. */
  predicate Closer(self: Peer, c: Option<Peer>, succ: Peer) {
    c.Some? && c.value.id != self.id && Arc(self.id, c.value.id) < Arc(self.id, succ.id)
  }

  /** The calls of this pass all succeed. */
  predicate AllGood(s: State, net: Net, pass: nat)
    requires |s.succs| >= 1
  {
    var (o, nb) := net.neighbours(pass, s.succs[0]);
    o == Good && net.notify(pass, s.succs[0]) == Good && (nb.pred.Some? ==> net.ping(pass, nb.pred.value) == Good)
  }

  lemma ApplyFinds(s: State, succ: Peer, nb: Neighbours)
    requires Ok(s) && s.succs[0] == succ
    ensures Apply(s, succ, nb).1 == if Closer(s.self, nb.pred, succ) then nb.pred else None
    ensures |Apply(s, succ, nb).0.succs| >= 1 && Apply(s, succ, nb).0.succs[0] == succ
  {
    ApplyOk(s, succ, nb);
    if nb.pred.Some? {
      ArcTests(nb.pred.value.id, s.self.id, succ.id);
    }
  }

  /** A pass whose calls succeed takes the successor's predecessor for its new successor exactly if that is closer,
      and then asks again; otherwise it keeps its successor and is done. */
  lemma PassExact(s: State, net: Net, pass: nat)
    requires Ok(s) && AllGood(s, net, pass)
    ensures var succ, c := s.succs[0], net.neighbours(pass, s.succs[0]).1.pred;
            var (t, again) := PassOnce(s, net, pass);
            && again == Closer(s.self, c, succ) && t.self == s.self
            && t.succs[0] == if Closer(s.self, c, succ) then c.value else succ
  {
    var succ, nb := s.succs[0], net.neighbours(pass, s.succs[0]).1;
    var s1 := Clear(s, succ);
    ReportOk(s, succ, Good);
    ApplyFinds(s1, succ, nb);
    ApplyOk(s1, succ, nb);
    var (s2, cand) := Apply(s1, succ, nb);
    if cand.Some? {
      var s3 := Clear(s2, cand.value);
      ReportOk(s2, cand.value, Good);
      AdoptOk(s3, succ, cand.value);
      AdoptFirst(s3, succ, cand.value);
    }
  }

  lemma AdoptFirst(s: State, succ: Peer, c: Peer)
    requires Ok(s) && s.succs[0] == succ
    ensures Adopt(s, succ, c).succs[0] == c && Adopt(s, succ, c).self == s.self
  {
  }

  /** A pass that finds nobody closer tells the successor, and what comes of that call counts: one that refuses it is
      gone. */
  lemma PassTells(s: State, net: Net, pass: nat)
    requires Ok(s) && net.neighbours(pass, s.succs[0]).0 == Good && !SameProcess(s.succs[0], s.self)
    requires !Closer(s.self, net.neighbours(pass, s.succs[0]).1.pred, s.succs[0])
    requires net.notify(pass, s.succs[0]) == ConnectionRefused
    ensures !Holds(PassOnce(s, net, pass).0, s.succs[0])
  {
    var succ, nb := s.succs[0], net.neighbours(pass, s.succs[0]).1;
    var s1 := Clear(s, succ);
    ReportOk(s, succ, Good);
    ApplyFinds(s1, succ, nb);
    ApplyOk(s1, succ, nb);
    EvictedIsGone(Apply(s1, succ, nb).0, succ, true, false, succ);
  }

  // ---- a whole round of it ----

  ghost predicate NoneFails(net: Net) {
    forall pass: nat, p :: net.neighbours(pass, p).0 == Good && net.ping(pass, p) == Good && net.notify(pass, p) == Good
  }

  /** From s to t in one pass: to the peer named if that is closer, and then on. */
  predicate MovesIn(s: State, t: State, again: bool, c: Option<Peer>) {
    && s.succs != [] && t.succs != [] && t.self == s.self && again == Closer(s.self, c, s.succs[0])
    && t.succs[0] == if again then c.value else s.succs[0]
  }

  ghost predicate AllMoveIn(step: Passing, net: Net) {
    forall s: State, i: nat {:trigger step(s, i)} | Ok(s) && i <= MAX_PASSES ::
      Ok(step(s, i).0) && MovesIn(s, step(s, i).0, step(s, i).1, net.neighbours(i, s.succs[0]).1.pred)
  }

  lemma PassesMoveIn(net: Net)
    requires NoneFails(net)
    ensures AllMoveIn(PassOf(net), net)
  {
    forall s: State, i: nat | Ok(s) && i <= MAX_PASSES
      ensures var (t, again) := PassOf(net)(s, i);
              Ok(t) && MovesIn(s, t, again, net.neighbours(i, s.succs[0]).1.pred)
    {
      PassExact(s, net, i);
    }
  }

  lemma {:induction false} IterateInward(step: Passing, net: Net, s: State, i: nat) returns (last: nat)
    requires AllMoveIn(step, net) && Ok(s) && i <= MAX_PASSES
    ensures Inward(s, Iterate(step, s, i), net, last)
    decreases MAX_PASSES + 1 - i
  {
    var (t, again) := step(s, i);
    last := i;
    if again && i < MAX_PASSES {
      last := IterateInward(step, net, t, i + 1);
    } else if again {
      last := MAX_PASSES + 1;
    }
  }

  /** t is no further in its successor, and at pass `last`, if that is one, its successor names nobody closer. */
  predicate Inward(s: State, t: State, net: Net, last: nat) {
    && s.succs != [] && t.succs != [] && t.self == s.self
    && Arc(s.self.id, t.succs[0].id) <= Arc(s.self.id, s.succs[0].id)
    && (last > MAX_PASSES || !Closer(s.self, net.neighbours(last, t.succs[0]).1.pred, t.succs[0]))
  }

  /** If no call fails, stabilizing never moves the successor further away. It ends where the successor names nobody
      closer, unless every pass allowed has found somebody. */
  lemma StabilizeInward(s: State, net: Net) returns (last: nat)
    requires Ok(s) && NoneFails(net)
    ensures Inward(s, StabilizeFrom(s, net, 0), net, last)
  {
    PassesMoveIn(net);
    last := IterateInward(PassOf(net), net, s, 0);
    IterateIs(s, net, 0);
  }

  // ---- a notification ----

  /** A notifier becomes the predecessor exactly if there is none, or it lies between that one and this member. Any
      other that is not the predecessor already has the predecessor probed. */
  lemma NotifyExact(s: State, c: Peer)
    requires Ok(s) && c.id != s.self.id
    ensures var (t, probe) := Notify(s, c);
            && (t.pred == Some(c) <==> s.pred == None || s.pred == Some(c) ||
                                       Arc(c.id, s.self.id) < Arc(s.pred.value.id, s.self.id))
            && (t.pred != Some(c) ==> t == s && probe == s.pred)
            && (t.pred == Some(c) ==> probe == None)
  {
    NotifyOk(s, c);
    RememberOk(Clear(s.(pred := Some(c)), c), c);
    if s.pred.Some? {
      ArcTests(c.id, s.pred.value.id, s.self.id);
    }
  }

  // ---- a member joins ----

  /** x is no member yet, and its identifier lies between member i and the next. */
  predicate Between(ms: seq<Peer>, i: nat, x: Peer) {
    && Ring(ms) && i < |ms| && (forall j | 0 <= j < |ms| :: ms[j].id != x.id)
    && Arc(ms[i].id, x.id) < Arc(ms[i].id, Next(ms[i], ms).id)
  }

  /** A member that has joined there has the next member for its successor, and no predecessor yet. */
  predicate Joined(xs: State, x: Peer, ms: seq<Peer>, i: nat) {
    Between(ms, i, x) && Ok(xs) && !xs.orphaned && xs.self == x && xs.succs[0] == Next(ms[i], ms) && xs.pred == None
  }

  /** Where a joiner lands is where its lookup says: the owner of its identifier. */
  lemma JoinLands(s: State, ms: seq<Peer>, i: nat, known: Peer, net: Net)
    requires Ok(s) && Between(ms, i, s.self) && known in ms && WellRouted(net.ask(s.self.id), ms, s.self.id)
    ensures Joined(Rejoin(s, known, net), s.self, ms, i)
  {
    LookupFinds(net.ask(s.self.id), ms, known, s.self.id);
    ArcTests(s.self.id, ms[i].id, Next(ms[i], ms).id);
    OwnedByPredecessor(s.self.id, ms, ms[i]);
    var owner := SuccessorOf(s.self.id, ms);
    var (o, nb) := net.neighbours(0, owner);
    var list := if o == Good then Some(nb.succs) else None;
    JoinOk(s, known, owner, list);
    JoinFirst(s, known, owner, list);
  }

  lemma JoinFirst(s: State, known: Peer, owner: Peer, list: Option<seq<Peer>>)
    requires Ok(s) && owner.id != s.self.id
    ensures var t := JoinThrough(s, known, owner, list);
            |t.succs| >= 1 && t.succs[0] == owner && t.pred == None && !t.orphaned && t.self == s.self && t.r == s.r
  {
    var succs := if list.Some? then Merge(s.self, [owner], list.value, s.r) else [owner];
    var t := s.(pred := None, succs := succs, fingers := seq(ID_BITS, _ => owner), nextFinger := 1, orphaned := false);
    RememberOk(t, known);
    RememberAllOk(Remember(t, known), succs);
  }

  /** The joiner keeps its successor, whose predecessor lies behind, and so tells it of itself. */
  lemma JoinerTells(xs: State, x: Peer, ms: seq<Peer>, i: nat, net: Net, pass: nat)
    requires Joined(xs, x, ms, i) && AllGood(xs, net, pass)
    requires net.neighbours(pass, xs.succs[0]).1.pred == if |ms| > 1 then Some(ms[i]) else None
    ensures PassOnce(xs, net, pass).0.succs[0] == Next(ms[i], ms) && !PassOnce(xs, net, pass).1
  {
    PassExact(xs, net, pass);
    ArcTests(x.id, ms[i].id, Next(ms[i], ms).id);
  }

  /** Told so, the successor takes it for its predecessor. */
  lemma OwnerHears(ws: State, x: Peer, ms: seq<Peer>, i: nat, r: nat)
    requires Between(ms, i, x) && Wired(ws, ms, Wrap(i + 1, |ms|), r)
    ensures Notify(ws, x).0.pred == Some(x)
  {
    NextInOrder(ms, i);
    assert ms[Wrap(i + 1, |ms|)].id != x.id;
    NotifyExact(ws, x);
    ArcTests(x.id, ms[i].id, Next(ms[i], ms).id);
  }

  /** Asked then, the successor names it, and the member before it takes it for its own successor. */
  lemma PredecessorFinds(s: State, x: Peer, ms: seq<Peer>, i: nat, net: Net)
    requires Between(ms, i, x) && Ok(s) && s.self == ms[i] && s.succs[0] == Next(ms[i], ms) && NoneFails(net)
    requires forall pass: nat :: net.neighbours(pass, Next(ms[i], ms)).1.pred == Some(x)
    requires forall pass: nat :: net.neighbours(pass, x).1.pred in {None, Some(ms[i])}
    ensures StabilizeFrom(s, net, 0).succs[0] == x && StabilizeFrom(s, net, 0).self == s.self
  {
    assert ms[i].id != x.id;
    PassExact(s, net, 0);
    var (t, again) := PassOnce(s, net, 0);
    StabilizeStep(s, net, 0, t, again);
    PassExact(t, net, 1);
    var (u, more) := PassOnce(t, net, 1);
    StabilizeStep(t, net, 1, u, more);
  }

  /** A join completes: once the joiner has told its successor, and the member before it has stabilized and told the
      joiner, all four links between the three are right. */
  lemma JoinCompletes(s: State, ws: State, xs: State, x: Peer, ms: seq<Peer>, i: nat, r: nat, early: Net, late: Net)
    requires Joined(xs, x, ms, i) && Wired(s, ms, i, r) && Wired(ws, ms, Wrap(i + 1, |ms|), r)
    requires AllGood(xs, early, 0) && early.neighbours(0, ws.self).1.pred == ws.pred
    requires NoneFails(late) && forall pass: nat :: late.neighbours(pass, ws.self).1.pred == Notify(ws, x).0.pred
    requires forall pass: nat :: late.neighbours(pass, x).1.pred == xs.pred
    ensures StabilizeFrom(xs, early, 0).succs[0] == ws.self && Notify(ws, x).0.pred == Some(x)
    ensures StabilizeFrom(s, late, 0).succs[0] == x && Notify(xs, s.self).0.pred == Some(s.self)
  {
    NextInOrder(ms, i);
    OwnerHears(ws, x, ms, i, r);
    JoinerTells(xs, x, ms, i, early, 0);
    var (t, again) := PassOnce(xs, early, 0);
    StabilizeStep(xs, early, 0, t, again);
    WiredNext(s, ms, i, r);
    PredecessorFinds(s, x, ms, i, late);
    assert ms[i].id != x.id;
    NotifyExact(xs, ms[i]);
  }

  lemma WiredNext(s: State, ms: seq<Peer>, i: nat, r: nat)
    requires Wired(s, ms, i, r)
    ensures s.succs[0] == Next(ms[i], ms)
  {
    FirstIsNext(ms, i, r, s.fingers);
    NextInOrder(ms, i);
  }

  /** So does a whole maintenance round of that member, if its lookup succeeds too. */
  lemma RoundFinds(s: State, x: Peer, ms: seq<Peer>, i: nat, r: nat, net: Net)
    requires Between(ms, i, x) && Wired(s, ms, i, r) && NoneFails(net)
    requires forall pass: nat :: net.neighbours(pass, Next(ms[i], ms)).1.pred == Some(x)
    requires forall pass: nat :: net.neighbours(pass, x).1.pred in {None, Some(ms[i])}
    requires forall k :: Walk(net.ask(k), 0, ms[i], k).outcome.Found?
    ensures Round(s, net).succs[0] == x
  {
    WiredNext(s, ms, i, r);
    PredecessorFinds(s, x, ms, i, net);
    RoundKeepsFirst(s, net, StabilizeFrom(s, net, 0));
  }

  lemma RoundKeepsFirst(s: State, net: Net, t: State)
    requires Ok(s) && !s.orphaned && NoneFails(net) && t == StabilizeFrom(s, net, 0) && t.self == s.self
    requires forall k :: Walk(net.ask(k), 0, s.self, k).outcome.Found?
    ensures Round(s, net).succs[0] == t.succs[0]
  {
    var u := CheckPredecessor(t, net);
    assert u.succs == t.succs && u.self == t.self;
    var start := FingerStart(u.self.id, u.nextFinger);
    FixKeepsSuccs(u, u.nextFinger, Walk(net.ask(start), 0, u.self, start));
  }

  lemma FixKeepsSuccs(s: State, i: nat, res: Lookup.Result)
    requires Ok(s) && 1 <= i < ID_BITS && res.outcome.Found?
    ensures Fix(s, i, res).succs == s.succs
  {
  }

  // ---- the successor's list ----

  /** What is taken over of the successor's list: everyone on it before this member itself and not carrying its
      identifier, unless there is no room. */
  lemma {:induction false} MergeComplete(self: Peer, out: seq<Peer>, list: seq<Peer>, r: nat, j: nat)
    requires j < |list| && list[j].id != self.id && forall x | 0 <= x < j :: list[x] != self
    ensures list[j] in Merge(self, out, list, r) || |Merge(self, out, list, r)| >= r
    decreases |list|
  {
    if |out| < r {
      var skip := list[0].id == self.id || list[0] in out;
      var more := if skip then out else out + [list[0]];
      assert Merge(self, out, list, r) == Merge(self, more, list[1..], r);
      if j > 0 {
        assert forall x | 0 <= x < j - 1 :: list[1..][x] == list[x + 1];
        MergeComplete(self, more, list[1..], r, j - 1);
      } else {
        assert list[0] in more;
      }
    }
  }

  lemma {:induction false} RoomComplete(ps: seq<Peer>, self: Peer, r: nat, q: Peer)
    requires q in ps && q != self
    ensures q in Room(ps, self, r) || |Room(ps, self, r)| == r
    decreases |ps|
  {
    if r > 0 && ps[0] != q {
      RoomComplete(ps[1..], self, if ps[0] == self then r else r - 1, q);
    }
  }

  /** A closer successor goes before those there were, of whom none is lost unless there is no room. */
  lemma AdoptedKeeps(s: State, c: Peer, q: Peer)
    requires Ok(s) && q in s.succs && q != s.self
    ensures var t := Adopt(s, s.succs[0], c); t.succs != [] && t.succs[0] == c && (q in t.succs || |t.succs| == s.r)
  {
    RoomComplete(s.succs, s.self, s.r - 1, q);
    var t := s.(succs := [c] + Room(s.succs, s.self, s.r - 1), fingers := s.fingers[0 := c]);
    RememberOk(t, c);
  }

  // ---- an orphan's way back ----

  function RoundOf(net: Net): Stepping {
    s => if Ok(s) then Round(s, net) else s
  }

  /** A step that gets an orphan back, or changes nothing but whom it tries next. */
  ghost predicate TriesOn(step: Stepping) {
    forall s | Ok(s) && s.orphaned && s.contacts != [] ::
      !step(s).orphaned || step(s) == s.(nextContact := s.nextContact + 1)
  }

  lemma RoundTriesOn(net: Net)
    ensures TriesOn(RoundOf(net))
  {
    forall s | Ok(s) && s.orphaned && s.contacts != []
      ensures !RoundOf(net)(s).orphaned || RoundOf(net)(s) == s.(nextContact := s.nextContact + 1)
    {
      OrphanRound(s, net);
    }
  }

  /** If the step that starts at turn `at` gets the orphan back, it is back by then. */
  lemma {:induction false} ComesBack(step: Stepping, s: State, at: nat) returns (j: nat)
    requires TriesOn(step) && Ok(s) && s.orphaned && s.contacts != [] && s.nextContact <= at
    requires !step(s.(nextContact := at)).orphaned
    ensures j <= at - s.nextContact + 1 && !Many(step, s, j).orphaned
    decreases at - s.nextContact
  {
    var t := step(s);
    assert s.(nextContact := s.nextContact) == s;
    assert Many(step, s, 1) == Many(step, t, 0) == t;
    if t.orphaned {
      var i := ComesBack(step, t, at);
      j := i + 1;
    } else {
      j := 1;
    }
  }

  lemma OrphanRound(s: State, net: Net)
    requires Ok(s) && s.orphaned && s.contacts != []
    ensures !Round(s, net).orphaned || Round(s, net) == s.(nextContact := s.nextContact + 1)
  {
    var s1, known := s.(nextContact := s.nextContact + 1), s.contacts[s.nextContact % |s.contacts|];
    var res := Walk(net.ask(s.self.id), 0, known, s.self.id);
    if res.outcome.Found? && res.outcome.owner.id != s.self.id {
      var (o, nb) := net.neighbours(0, res.outcome.owner);
      JoinFirst(s1, known, res.outcome.owner, if o == Good then Some(nb.succs) else None);
    }
  }

  /** An orphan tries its contacts in turn: if one of them is a member of a ring that routes, the orphan is back in it
      within as many rounds as it has contacts. */
  lemma OrphanReturns(s: State, net: Net, ms: seq<Peer>, i: nat, c: nat) returns (j: nat)
    requires Ok(s) && s.orphaned && c < |s.contacts| && s.contacts[c] in ms && Between(ms, i, s.self)
    requires WellRouted(net.ask(s.self.id), ms, s.self.id)
    ensures j <= |s.contacts| && !Many(RoundOf(net), s, j).orphaned
  {
    var step, at := TurnComes(s, net, ms, i, c);
    j := ComesBack(step, s, at);
  }

  lemma TurnComes(s: State, net: Net, ms: seq<Peer>, i: nat, c: nat) returns (step: Stepping, at: nat)
    requires Ok(s) && s.orphaned && c < |s.contacts| && s.contacts[c] in ms && Between(ms, i, s.self)
    requires WellRouted(net.ask(s.self.id), ms, s.self.id)
    ensures step == RoundOf(net) && TriesOn(step) && s.nextContact <= at < s.nextContact + |s.contacts|
    ensures !step(s.(nextContact := at)).orphaned
  {
    step := RoundOf(net);
    RoundTriesOn(net);
    at := TurnOf(s.nextContact, |s.contacts|, c);
    ContactLetsIn(s, net, ms, i, c, at, step);
  }

  lemma Turned(s: State, at: nat)
    requires Ok(s)
    ensures Ok(s.(nextContact := at))
  {
  }

  lemma ContactLetsIn(s: State, net: Net, ms: seq<Peer>, i: nat, c: nat, at: nat, step: Stepping)
    requires Ok(s) && s.orphaned && c < |s.contacts| && s.contacts[c] in ms && Between(ms, i, s.self)
    requires WellRouted(net.ask(s.self.id), ms, s.self.id) && at % |s.contacts| == c && step == RoundOf(net)
    ensures !step(s.(nextContact := at)).orphaned
  {
    Turned(s, at);
    Turned(s, at + 1);
    RoundIsRejoin(s.(nextContact := at), net, s.(nextContact := at + 1), s.contacts[c]);
    JoinLands(s.(nextContact := at + 1), ms, i, s.contacts[c], net);
  }

  lemma RoundIsRejoin(s: State, net: Net, s1: State, known: Peer)
    requires Ok(s) && s.orphaned && s.contacts != [] && known == s.contacts[s.nextContact % |s.contacts|]
    requires Ok(s1) && s1 == s.(nextContact := s.nextContact + 1)
    ensures RoundOf(net)(s) == Rejoin(s1, known, net)
  {
    OrphanRoundIs(s, net, s1, known, Rejoin(s1, known, net));
    RoundApplied(net, s, Round(s, net));
  }

  lemma OrphanRoundIs(s: State, net: Net, s1: State, known: Peer, t: State)
    requires Ok(s) && s.orphaned && s.contacts != [] && known == s.contacts[s.nextContact % |s.contacts|]
    requires Ok(s1) && s1 == s.(nextContact := s.nextContact + 1) && t == Rejoin(s1, known, net)
    ensures Round(s, net) == t
  {
  }

  lemma RoundApplied(net: Net, s: State, t: State)
    requires Ok(s) && t == Round(s, net)
    ensures RoundOf(net)(s) == t
  {
  }

  /** Counting on from a, place c comes up within n turns. */
  lemma TurnOf(a: nat, n: nat, c: nat) returns (at: nat)
    requires c < n
    ensures a <= at < a + n && at % n == c
  {
    var q, r := a / n, a % n;
    assert a == q * n + r;
    if c >= r {
      at := a + c - r;
      ManifestTrees.Quotient(at, n, q, c);
    } else {
      at := a + c - r + n;
      assert (q + 1) * n == q * n + n;
      ManifestTrees.Quotient(at, n, q + 1, c);
    }
  }

  // ---- a member fails ----

  /** What each outcome of a call does to the peer called: a refusal takes out its whole process, its word that it is
      orphaned takes it out, and so does the second failure in a row; an answer forgives the first. */
  lemma Evidence(s: State, p: Peer, q: Peer)
    requires Ok(s) && !SameProcess(p, s.self)
    ensures SameProcess(q, p) ==> !Holds(Report(s, p, ConnectionRefused), q)
    ensures !Holds(Report(s, p, SaysOrphaned), p)
    ensures !Holds(Twice(s, p, Bad), p)
    ensures Holds(Twice(s, p, Good), q) <==> Holds(s, q)
  {
    if SameProcess(q, p) {
      EvictedIsGone(s, p, true, false, q);
    }
    EvictedIsGone(s, p, false, true, p);
    TwoStrikes(s, p);
    OneStrike(s, p, q);
  }

  lemma TwoStrikes(s: State, p: Peer)
    requires Ok(s) && !SameProcess(p, s.self)
    ensures !Holds(Twice(s, p, Bad), p)
  {
    ReportOk(s, p, Bad);
    if Holds(s, p) && StrikesOf(s, p) == 0 {
      SecondStrike(s.(strikes := s.strikes[p := 1]), p);
    } else if Holds(s, p) {
      SecondStrike(s, p);
    }
  }

  lemma OneStrike(s: State, p: Peer, q: Peer)
    requires Ok(s)
    ensures Holds(Twice(s, p, Good), q) <==> Holds(s, q)
  {
    ReportOk(s, p, Good);
  }

  /** An outcome, and then a failure. */
  function Twice(s: State, p: Peer, o: Stabilization.Outcome): State
    requires Ok(s)
  {
    ReportOk(s, p, o);
    Report(Report(s, p, o), p, Bad)
  }

  lemma SecondStrike(s: State, p: Peer)
    requires Ok(s) && !SameProcess(p, s.self) && Holds(s, p) && StrikesOf(s, p) >= 1
    ensures Ok(Report(s, p, Bad)) && !Holds(Report(s, p, Bad), p)
  {
    ReportOk(s, p, Bad);
    EvictedIsGone(s.(strikes := s.strikes[p := StrikesOf(s, p) + 1]), p, false, false, p);
  }

  /** A finger's lookup that fails is evidence against the node it failed at, as a call to it would be, unless that
      says nothing of the node; and the next finger's turn comes. */
  lemma LookupIsEvidence(s: State, i: nat, res: Lookup.Result)
    requires Ok(s) && 1 <= i < ID_BITS && res.outcome.Lost? && res.path != []
    ensures var t, e, p := Fix(s, i, res), res.outcome.error, res.path[|res.path| - 1];
            && t.nextFinger == (if i == 63 then 1 else i + 1)
            && (e == TooManyRequests || e == Faulty(Unreachable) ==> t == s.(nextFinger := t.nextFinger))
            && (e == Faulty(Refused) ==> t == Report(s, p, ConnectionRefused).(nextFinger := t.nextFinger))
            && (e !in {TooManyRequests, Faulty(Unreachable), Faulty(Refused)} ==>
                  t == Report(s, p, Bad).(nextFinger := t.nextFinger))
  {
  }

  /** A notification that is not from closer by has the predecessor probed: one that does not answer any more makes room
      for the notifier, and one that does stays. */
  lemma ProbeDecides(s: State, c: Peer)
    requires Ok(s) && c.id != s.self.id && Notify(s, c).1.Some?
    ensures var p := s.pred;
            && Notify(s, c) == (s, p) && p.Some? && FillPred(Report(s, p.value, Good), c).pred == p
            && FillPred(Report(s, p.value, SaysOrphaned), c).pred == Some(c)
            && (!SameProcess(p.value, s.self) ==> FillPred(Report(s, p.value, ConnectionRefused), c).pred == Some(c))
  {
    NotifyExact(s, c);
    var p := s.pred.value;
    EvictedIsGone(s, p, false, true, p);
    RememberOk(Evict(s, p, false, true).(pred := Some(c)), c);
    if !SameProcess(p, s.self) {
      EvictedIsGone(s, p, true, false, p);
    }
  }

  /** A peer remembered is the newest contact, and none is forgotten for it unless there is no room. */
  lemma Remembered(s: State, p: Peer, q: Peer)
    requires ContactsOk(s.self, s.contacts) && !SameProcess(p, s.self)
    ensures var cs := Remember(s, p).contacts;
            cs != [] && cs[0] == p && (q in s.contacts ==> q in cs || |cs| == MAX_CONTACTS)
  {
    if q in s.contacts && q != p {
      WithoutOthers(s.contacts, p, q);
    }
  }

  lemma {:induction false} WithoutOthers(ps: seq<Peer>, p: Peer, q: Peer)
    requires q in ps && q != p
    ensures q in Without(ps, p)
  {
    if ps[0] != q && ps[0] != p {
      WithoutOthers(ps[1..], p, q);
    }
  }

  /** When no successor is left, the nearest peer still known takes over. */
  lemma FallbackIsNearest(s: State, dead: Peer, whole: bool, said: bool, q: Peer)
    requires Ok(s) && Evictable(s, dead, said) && Sane(s, dead, whole, said)
    requires forall p | p in s.succs :: Gone(dead, whole, p)
    requires Holds(s, q) && q.id != s.self.id && !Gone(dead, whole, q)
    ensures var t := Evict(s, dead, whole, said);
            |t.succs| == 1 && t.succs[0] != s.self && Holds(s, t.succs[0]) && !Gone(dead, whole, t.succs[0]) &&
            Gap(s.self.id, t.succs[0].id) <= Gap(s.self.id, q.id)
  {
    KeepNone(s.succs, dead, whole);
    assert q in Known(s);
  }

  lemma {:induction false} KeepNone(ps: seq<Peer>, dead: Peer, whole: bool)
    requires forall p | p in ps :: Gone(dead, whole, p)
    ensures Keep(ps, dead, whole) == []
  {
    if ps != [] {
      assert ps[|ps| - 1] in ps;
      KeepNone(ps[..|ps| - 1], dead, whole);
    }
  }

  // ---- on a wired ring, eviction rewires ----

  function WithoutAt(ms: seq<Peer>, d: nat): seq<Peer>
    requires d < |ms|
  {
    ms[..d] + ms[d + 1..]
  }

  lemma RingWithout(ms: seq<Peer>, d: nat)
    requires Ring(ms) && d < |ms| && |ms| > 1
    ensures Ring(WithoutAt(ms, d)) && forall p :: p in WithoutAt(ms, d) <==> p in ms && p != ms[d]
  {
    var rest := WithoutAt(ms, d);
    forall i, j | 0 <= i < j < |rest|
      ensures rest[i].id < rest[j].id
    {
      assert rest[i] == ms[if i < d then i else i + 1] && rest[j] == ms[if j < d then j else j + 1];
    }
    forall p
      ensures p in rest <==> p in ms && p != ms[d]
    {
      WithoutMember(ms, d, p);
    }
  }

  lemma WithoutMember(ms: seq<Peer>, d: nat, p: Peer)
    requires Ring(ms) && d < |ms|
    ensures p in WithoutAt(ms, d) <==> p in ms && p != ms[d]
  {
    var rest := WithoutAt(ms, d);
    if p in rest {
      var i :| 0 <= i < |rest| && rest[i] == p;
      var j := if i < d then i else i + 1;
      assert rest[i] == ms[j];
      RingInjective(ms, j, d);
    }
    if p in ms && p != ms[d] {
      var j :| 0 <= j < |ms| && ms[j] == p;
      assert rest[if j < d then j else j - 1] == p;
    }
  }

  /** Further than d from k means past d. */
  lemma GapThrough(k: Id, d: Id, x: Id)
    requires Gap(k, d) < Gap(k, x)
    ensures Gap(k, x) == Gap(k, d) + 1 + Gap(Plus(d, 1), x)
  {
  }

  /** Without one member, its keys belong to the next, and all others to whom they did. */
  lemma OwnerWithout(k: Id, ms: seq<Peer>, d: nat)
    requires Ring(ms) && d < |ms| && |ms| > 1
    ensures Ring(WithoutAt(ms, d))
    ensures SuccessorOf(k, WithoutAt(ms, d)) ==
            if SuccessorOf(k, ms) == ms[d] then Next(ms[d], ms) else SuccessorOf(k, ms)
  {
    RingWithout(ms, d);
    var rest := WithoutAt(ms, d);
    var o, o' := SuccessorOf(k, ms), SuccessorOf(k, rest);
    OwnerIsNearest(k, ms, o');
    if o == ms[d] {
      var n := Next(ms[d], ms);
      NextInOrder(ms, d);
      RingInjective(ms, Wrap(d + 1, |ms|), d);
      OwnerIsNearest(k, rest, n);
      OwnerIsNearest(k, ms, n);
      OwnerIsNearest(Plus(ms[d].id, 1), ms, o');
      GapThrough(k, ms[d].id, o'.id);
      GapThrough(k, ms[d].id, n.id);
    } else {
      OwnerIsNearest(k, rest, o);
    }
  }

  /** What is left of a list. */
  function Left(ps: seq<Peer>, gone: Peer -> bool): seq<Peer> {
    if ps == [] then [] else Left(ps[..|ps| - 1], gone) + if gone(ps[|ps| - 1]) then [] else [ps[|ps| - 1]]
  }

  function GoneOf(dead: Peer, whole: bool): Peer -> bool {
    p => Gone(dead, whole, p)
  }

  lemma {:induction false} KeepIsLeft(ps: seq<Peer>, dead: Peer, whole: bool)
    ensures Keep(ps, dead, whole) == Left(ps, GoneOf(dead, whole))
  {
    if ps != [] {
      KeepIsLeft(ps[..|ps| - 1], dead, whole);
    }
  }

  lemma {:induction false} LeftWith(a: seq<Peer>, b: seq<Peer>, gone: Peer -> bool)
    requires forall j | 0 <= j < |b| :: !gone(b[j])
    ensures Left(a + b, gone) == Left(a, gone) + b
    decreases |b|
  {
    if b == [] {
      assert a + b == a;
    } else {
      var k := |b| - 1;
      LeftWith(a, b[..k], gone);
      assert (a + b)[..|a + b| - 1] == a + b[..k];
      assert b == b[..k] + [b[k]];
    }
  }

  lemma KeepRest(ps: seq<Peer>, dead: Peer, whole: bool, t: nat)
    requires t < |ps| && forall j | 0 <= j < |ps| :: Gone(dead, whole, ps[j]) <==> j == t
    ensures Keep(ps, dead, whole) == ps[..t] + ps[t + 1..]
  {
    KeepIsLeft(ps, dead, whole);
    LeftAt(ps, GoneOf(dead, whole), t);
  }

  lemma LeftAt(ps: seq<Peer>, gone: Peer -> bool, t: nat)
    requires t < |ps| && forall j | 0 <= j < |ps| :: gone(ps[j]) <==> j == t
    ensures Left(ps, gone) == ps[..t] + ps[t + 1..]
  {
    RestStay(ps, gone, t);
    LeftRest(ps[..t], ps[t], ps[t + 1..], gone);
    Parts(ps, t);
  }

  lemma RestStay(ps: seq<Peer>, gone: Peer -> bool, t: nat)
    requires t < |ps| && forall j | 0 <= j < |ps| :: gone(ps[j]) <==> j == t
    ensures forall p | p in ps[..t] || p in ps[t + 1..] :: !gone(p)
  {
  }

  lemma Parts(ps: seq<Peer>, t: nat)
    requires t < |ps|
    ensures ps == ps[..t] + [ps[t]] + ps[t + 1..]
  {
  }

  lemma LeftRest(a: seq<Peer>, x: Peer, b: seq<Peer>, gone: Peer -> bool)
    requires gone(x) && forall p | p in a || p in b :: !gone(p)
    ensures Left(a + [x] + b, gone) == a + b
  {
    LeftAll(a, gone);
    LeftSkips(a, x, gone);
    LeftWith(a + [x], b, gone);
  }

  lemma LeftAll(a: seq<Peer>, gone: Peer -> bool)
    requires forall j | 0 <= j < |a| :: !gone(a[j])
    ensures Left(a, gone) == a
  {
    LeftWith([], a, gone);
    assert [] + a == a;
  }

  lemma LeftSkips(a: seq<Peer>, x: Peer, gone: Peer -> bool)
    requires gone(x)
    ensures Left(a + [x], gone) == Left(a, gone)
  {
    assert (a + [x])[..|a|] == a;
  }

  lemma {:induction false} ReplacementAt(ps: seq<Peer>, dead: Peer, whole: bool, t: nat)
    requires t + 1 < |ps| && forall j | 0 <= j < |ps| :: Gone(dead, whole, ps[j]) <==> j == t
    ensures Replacement(ps, dead, whole) == Some(ps[t + 1])
    decreases t
  {
    if t > 0 {
      assert forall j | 0 <= j < |ps| - 1 :: ps[1..][j] == ps[j + 1];
      ReplacementAt(ps[1..], dead, whole, t - 1);
    } else {
      assert ps[1..][0] == ps[1];
    }
  }

  /** Of the members only this one is gone. */
  predicate OnlyGone(ms: seq<Peer>, dead: Peer, whole: bool) {
    forall m | m in ms :: Gone(dead, whole, m) <==> m == dead
  }

  lemma SuccsDiffer(ms: seq<Peer>, i: nat, r: nat, succs: seq<Peer>, t: nat, whole: bool)
    requires Ring(ms) && i < |ms| && |ms| > 1 && succs == WiredSuccs(ms, i, r) && t < |succs|
    requires OnlyGone(ms, succs[t], whole)
    ensures forall j | 0 <= j < |succs| :: Gone(succs[t], whole, succs[j]) <==> j == t
  {
    forall j | 0 <= j < |succs|
      ensures Gone(succs[t], whole, succs[j]) <==> j == t
    {
      if j != t {
        RingInjective(ms, Wrap(i + 1 + j, |ms|), Wrap(i + 1 + t, |ms|));
      }
    }
  }

  /** On a wired ring, a member that evicts a dead successor has the fingers of the ring without it, and its other
      successors in order, if there is one after the dead one. */
  lemma EvictionRewires(s: State, ms: seq<Peer>, i: nat, r: nat, t: nat, whole: bool, said: bool)
    requires Wired(s, ms, i, r) && |ms| > 1 && t + 1 < |s.succs| && OnlyGone(ms, s.succs[t], whole)
    requires Evictable(s, s.succs[t], said) && Sane(s, s.succs[t], whole, said)
    ensures var d := Wrap(i + 1 + t, |ms|);
            var u := Evict(s, s.succs[t], whole, said);
            && ms[d] == s.succs[t] && Ring(WithoutAt(ms, d)) && u.succs == s.succs[..t] + s.succs[t + 1..]
            && u.fingers == BuildFingers(s.self.id, WithoutAt(ms, d))
  {
    SuccsDiffer(ms, i, r, s.succs, t, whole);
    EvictedTables(s, t, whole, said);
    FingersAfter(s, ms, i, r, t, Wrap(i + 1 + t, |ms|), whole, Evict(s, s.succs[t], whole, said).fingers);
  }

  lemma FingersAfter(s: State, ms: seq<Peer>, i: nat, r: nat, t: nat, d: nat, whole: bool, fs: seq<Peer>)
    requires Wired(s, ms, i, r) && |ms| > 1 && t + 1 < |s.succs| && d == Wrap(i + 1 + t, |ms|)
    requires OnlyGone(ms, s.succs[t], whole)
    requires fs == Patch(s.fingers, s.succs[t], whole, s.succs[t + 1])[0 := if t == 0 then s.succs[1] else s.succs[0]]
    ensures ms[d] == s.succs[t] && Ring(WithoutAt(ms, d)) && fs == BuildFingers(s.self.id, WithoutAt(ms, d))
  {
    NextInOrder(ms, d);
    RingWithout(ms, d);
    FingersRewired(s, ms, i, r, t, d, whole, fs);
  }

  lemma EvictedTables(s: State, t: nat, whole: bool, said: bool)
    requires Ok(s) && t + 1 < |s.succs| && Evictable(s, s.succs[t], said)
    requires forall j | 0 <= j < |s.succs| :: Gone(s.succs[t], whole, s.succs[j]) <==> j == t
    ensures var u := Evict(s, s.succs[t], whole, said);
            && u.succs == s.succs[..t] + s.succs[t + 1..]
            && u.fingers == Patch(s.fingers, s.succs[t], whole, s.succs[t + 1])
                              [0 := if t == 0 then s.succs[1] else s.succs[0]]
  {
    KeepRest(s.succs, s.succs[t], whole, t);
    ReplacementAt(s.succs, s.succs[t], whole, t);
  }

  lemma FingersRewired(s: State, ms: seq<Peer>, i: nat, r: nat, t: nat, d: nat, whole: bool, fs: seq<Peer>)
    requires Wired(s, ms, i, r) && |ms| > 1 && t + 1 < |s.succs| && d == Wrap(i + 1 + t, |ms|) && ms[d] == s.succs[t]
    requires OnlyGone(ms, ms[d], whole) && Ring(WithoutAt(ms, d)) && s.succs[t + 1] == Next(ms[d], ms)
    requires fs == Patch(s.fingers, ms[d], whole, s.succs[t + 1])[0 := if t == 0 then s.succs[1] else s.succs[0]]
    ensures fs == BuildFingers(s.self.id, WithoutAt(ms, d))
  {
    FirstIsNext(ms, i, r, s.fingers);
    forall j | 0 <= j < ID_BITS
      ensures fs[j] == SuccessorOf(FingerStart(s.self.id, j), WithoutAt(ms, d))
    {
      OwnerWithout(FingerStart(s.self.id, j), ms, d);
      assert s.fingers[j] in ms;
      if j == 0 && t > 0 {
        SuccsDiffer(ms, i, r, s.succs, t, whole);
      }
    }
  }
}
