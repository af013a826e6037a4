/** A ring member as the program has it: an object whose critical sections update its tables place by
    place. Each method computes what Stabilization says. */
module Members {
  import opened Chord
  import opened Lookup
  import opened Text
  import opened Stabilization
  import opened RingRepair

  // ---- loops over lists ----

  method KeepAll(ps: seq<Peer>, dead: Peer, whole: bool) returns (kept: seq<Peer>)
    ensures kept == Keep(ps, dead, whole)
  {
    kept := [];
    for i := 0 to |ps|
      invariant kept == Keep(ps[..i], dead, whole)
    {
      assert ps[..i + 1][..i] == ps[..i];
      if !Gone(dead, whole, ps[i]) {
        kept := kept + [ps[i]];
      }
    }
    assert ps[..|ps|] == ps;
  }

  /** Two nested scans: the first entry that goes, then the first after it that stays. */
  method FindReplacement(ps: seq<Peer>, dead: Peer, whole: bool) returns (r: Option<Peer>)
    ensures r == Replacement(ps, dead, whole)
  {
    ghost var goal := Replacement(ps, dead, whole);
    assert ps[0..] == ps;
    for i := 0 to |ps|
      invariant goal == Replacement(ps[i..], dead, whole)
    {
      assert ps[i..][1..] == ps[i + 1..];
      if Gone(dead, whole, ps[i]) {
        r := FindKept(ps, i + 1, dead, whole);
        return;
      }
    }
    return None;
  }

  method FindKept(ps: seq<Peer>, from: nat, dead: Peer, whole: bool) returns (r: Option<Peer>)
    requires from <= |ps|
    ensures r == FirstKept(ps[from..], dead, whole)
  {
    ghost var goal := FirstKept(ps[from..], dead, whole);
    for j := from to |ps|
      invariant goal == FirstKept(ps[j..], dead, whole)
    {
      assert ps[j..][1..] == ps[j + 1..];
      if !Gone(dead, whole, ps[j]) {
        return Some(ps[j]);
      }
    }
    return None;
  }

  method FindNearest(self: Peer, ps: seq<Peer>, dead: Peer, whole: bool) returns (best: Peer)
    ensures best == Nearest(self, ps, dead, whole)
  {
    best := self;
    for i := 0 to |ps|
      invariant best == Nearest(self, ps[..i], dead, whole)
    {
      assert ps[..i + 1][..i] == ps[..i];
      var p := ps[i];
      if Eligible(self, dead, whole, p) && (best == self || Gap(self.id, p.id) < Gap(self.id, best.id)) {
        best := p;
      }
    }
    assert ps[..|ps|] == ps;
  }

  method PatchAll(fs: seq<Peer>, dead: Peer, whole: bool, q: Peer) returns (r: seq<Peer>)
    ensures r == Patch(fs, dead, whole, q)
  {
    r := fs;
    for i := 0 to |fs|
      invariant |r| == |fs| && forall x | 0 <= x < |fs| :: r[x] == if x < i && Gone(dead, whole, fs[x]) then q
                else fs[x]
    {
      if Gone(dead, whole, r[i]) {
        r := r[i := q];
      }
    }
  }

  method FindPeer(ms: seq<Peer>, p: Peer) returns (i: nat)
    requires p in ms
    ensures i < |ms| && ms[i] == p
  {
    i := 0;
    while ms[i] != p
      invariant i < |ms| && p in ms[i..]
      decreases |ms| - i
    {
      assert ms[i..] == [ms[i]] + ms[i + 1..];
      i := i + 1;
    }
  }

  /** The next members clockwise, stopping at r of them or before the list wraps round. */
  method NextMembers(ms: seq<Peer>, me: nat, r: nat) returns (succs: seq<Peer>)
    requires me < |ms| && r >= 1
    ensures succs == WiredSuccs(ms, me, r)
  {
    succs := [];
    var step := 1;
    while step < |ms| && |succs| < r
      invariant 1 <= step <= |ms| && |succs| == step - 1 <= r
      invariant forall t | 0 <= t < |succs| :: succs[t] == ms[Wrap(me + 1 + t, |ms|)]
    {
      succs := succs + [ms[Wrap(me + step, |ms|)]];
      step := step + 1;
    }
    if succs == [] {
      succs := [ms[me]];
    }
  }

  method MergeList(self: Peer, succ: Peer, list: seq<Peer>, r: nat) returns (out: seq<Peer>)
    ensures out == Merge(self, [succ], list, r)
  {
    out := [succ];
    var i := 0;
    assert list[0..] == list;
    while i < |list|
      invariant i <= |list| && Merge(self, [succ], list, r) == Merge(self, out, list[i..], r)
    {
      assert list[i..][1..] == list[i + 1..];
      if |out| >= r || list[i] == self {
        return;
      }
      if list[i].id != self.id && list[i] !in out {
        out := out + [list[i]];
      }
      i := i + 1;
    }
  }

  method MakeRoom(candidate: Peer, ps: seq<Peer>, self: Peer, r: nat) returns (out: seq<Peer>)
    requires r >= 1
    ensures out == [candidate] + Room(ps, self, r - 1)
  {
    out := [candidate];
    var i := 0;
    assert ps[0..] == ps;
    while i < |ps|
      invariant i <= |ps| && |out| <= r
      invariant [candidate] + Room(ps, self, r - 1) == out + Room(ps[i..], self, r - |out|)
    {
      assert ps[i..][1..] == ps[i + 1..];
      if ps[i] != self && |out| < r {
        assert out + ([ps[i]] + Room(ps[i + 1..], self, r - |out| - 1)) == (out + [ps[i]])
               + Room(ps[i + 1..], self, r - |out| - 1);
        out := out + [ps[i]];
      } else if |out| == r {
        assert Room(ps[i..], self, 0) == [] == Room(ps[i + 1..], self, 0);
      }
      i := i + 1;
    }
    assert out + [] == out;
  }

  method ForgetAll(strikes: map<Peer, nat>, dead: Peer, whole: bool) returns (r: map<Peer, nat>)
    ensures r == Forget(strikes, dead, whole)
  {
    r := strikes;
    var todo := strikes.Keys;
    while todo != {}
      invariant todo <= strikes.Keys
      invariant forall p :: p in r <==> p in strikes && (p in todo || !Gone(dead, whole, p))
      invariant forall p | p in r :: r[p] == strikes[p]
      decreases todo
    {
      var p :| p in todo;
      if Gone(dead, whole, p) {
        r := r - {p};
      }
      todo := todo - {p};
    }
  }

  // ---- the object ----

  class Member {
    const self: Peer
    const r: nat
    var pred: Option<Peer>
    var succs: seq<Peer>
    var fingers: seq<Peer>
    var nextFinger: nat
    var orphaned: bool
    var contacts: seq<Peer>
    var nextContact: nat
    var strikes: map<Peer, nat>

    function Abs(): State
      reads this
    {
      State(self, r, pred, succs, fingers, nextFinger, orphaned, contacts, nextContact, strikes)
    }

    ghost predicate Valid()
      reads this
    {
      Ok(Abs())
    }

    /** A ring of one. */
    constructor (me: Peer, successors: nat)
      requires 1 <= successors <= MAX_SUCCESSORS
      ensures Valid() && Abs() == Alone(me, successors)
    {
      self, r := me, successors;
      pred, succs, fingers, nextFinger := None, [me], seq(ID_BITS, _ => me), 1;
      orphaned, contacts, nextContact, strikes := false, [], 0, map[];
    }

    /** On a fixed ring: the tables from the list of members. */
    method StartWired(ms: seq<Peer>) returns (me: nat)
      requires Ring(ms) && self in ms && 1 <= r <= MAX_SUCCESSORS && Abs() == Alone(self, r)
      modifies this
      ensures me < |ms| && ms[me] == self && Abs() == InitWired(ms, me, r) && Wired(Abs(), ms, me, r)
    {
      var fs := FillFingers(self.id, ms);
      me := FindPeer(ms, self);
      var next := NextMembers(ms, me, r);
      StartsWired(ms, me, r);
      pred := if |ms| > 1 then Some(PredecessorOf(self.id, ms)) else None;
      succs, fingers, nextFinger := next, fs[0 := next[0]], 1;
      RememberEach(next);
    }

    // ---- contacts ----

    method RememberPeer(p: Peer)
      modifies this`contacts
      ensures Abs() == Remember(old(Abs()), p)
    {
      if SameProcess(p, self) {
        return;
      }
      var cs := [p] + Without(contacts, p);
      contacts := if |cs| > MAX_CONTACTS then cs[..MAX_CONTACTS] else cs;
    }

    method RememberEach(ps: seq<Peer>)
      modifies this`contacts
      ensures Abs() == RememberInTurn(old(Abs()), ps)
    {
      for k := 0 to |ps|
        invariant Abs() == RememberInTurn(old(Abs()), ps[..k])
      {
        assert ps[..k + 1][..k] == ps[..k];
        RememberPeer(ps[k]);
      }
      assert ps[..|ps|] == ps;
    }

    /** The last peer first, so that the first ends up newest. */
    method RememberPeers(ps: seq<Peer>)
      modifies this`contacts
      ensures Abs() == RememberAll(old(Abs()), ps)
    {
      var i := |ps|;
      assert ps[..i] == ps;
      while i > 0
        invariant 0 <= i <= |ps| && RememberAll(old(Abs()), ps) == RememberAll(Abs(), ps[..i])
      {
        i := i - 1;
        assert ps[..i + 1][..i] == ps[..i];
        RememberPeer(ps[i]);
      }
    }

    // ---- evidence ----

    /** The successors that stay; the nearest peer still known, if none does. */
    method Remaining(dead: Peer, whole: bool) returns (kept: seq<Peer>, alone: bool)
      requires |succs| >= 1
      ensures var all, fallback := Keep(succs, dead, whole), Nearest(self, Known(Abs()), dead, whole);
              && kept == (if all == [] then [fallback] else all)
              && alone == (all == [] && fallback == self && succs[0] != self)
    {
      alone := false;
      kept := KeepAll(succs, dead, whole);
      if kept == [] {
        var fallback := FindNearest(self, fingers + if pred.Some? then [pred.value] else [], dead, whole);
        kept := [fallback];
        alone := fallback == self && succs[0] != self;
      }
    }

    method Remove(dead: Peer, whole: bool)
      requires |succs| >= 1 && |fingers| >= 1
      modifies this`pred, this`succs, this`fingers, this`orphaned, this`strikes
      ensures var kept := Keep(old(succs), dead, whole);
              var fallback := Nearest(self, Known(old(Abs())), dead, whole);
              var rep := Replacement(old(succs), dead, whole);
              && succs == (if kept == [] then [fallback] else kept)
              && fingers == Patch(old(fingers), dead, whole, if rep.Some? then rep.value else succs[0])[0 := succs[0]]
              && pred == (if old(pred).Some? && Gone(dead, whole, old(pred).value) then None else old(pred))
              && orphaned == (old(orphaned) || (kept == [] && fallback == self && old(succs)[0] != self))
              && strikes == Forget(old(strikes), dead, whole)
    {
      var rep := FindReplacement(succs, dead, whole);
      var kept, alone := Remaining(dead, whole);
      var patched := PatchAll(fingers, dead, whole, if rep.Some? then rep.value else kept[0]);
      var forgiven := ForgetAll(strikes, dead, whole);
      Install(kept, patched[0 := kept[0]], if pred.Some? && Gone(dead, whole, pred.value) then None else pred,
              orphaned || alone, forgiven);
    }

    method Install(succs': seq<Peer>, fingers': seq<Peer>, pred': Option<Peer>, orphaned': bool,
                   strikes': map<Peer, nat>)
      modifies this`pred, this`succs, this`fingers, this`orphaned, this`strikes
      ensures succs == succs' && fingers == fingers' && pred == pred' && orphaned == orphaned' && strikes == strikes'
    {
      succs := succs';
      pred := pred';
      fingers := fingers';
      orphaned := orphaned';
      strikes := strikes';
    }

    method EvictPeer(dead: Peer, whole: bool, said: bool)
      requires |succs| >= 1 && |fingers| >= 1
      modifies this`pred, this`succs, this`fingers, this`orphaned, this`strikes
      ensures Abs() == Evict(old(Abs()), dead, whole, said)
    {
      if dead == self || (SameProcess(dead, self) && !said) {
        return;
      }
      Remove(dead, whole);
    }

    method StrikePeer(p: Peer)
      requires |succs| >= 1 && |fingers| >= 1
      modifies this`pred, this`succs, this`fingers, this`orphaned, this`strikes
      ensures Abs() == Strike(old(Abs()), p)
    {
      if SameProcess(p, self) || !(pred == Some(p) || p in succs || p in fingers) {
        return;
      }
      ghost var before := Abs();
      var n := CountStrike(p);
      StrikeIs(before, p, n, Abs());
      if n >= STRIKES_TO_EVICT {
        EvictPeer(p, false, false);
      }
    }

    method CountStrike(p: Peer) returns (n: nat)
      modifies this`strikes
      ensures n == StrikesOf(old(Abs()), p) + 1 && Abs() == old(Abs()).(strikes := old(strikes)[p := n])
    {
      n := (if p in strikes then strikes[p] else 0) + 1;
      strikes := strikes[p := n];
    }

    /** The end of every call to a peer. */
    method ReportCall(to: Peer, o: Stabilization.Outcome)
      requires Valid()
      modifies this`pred, this`succs, this`fingers, this`orphaned, this`strikes
      ensures Valid() && Abs() == Report(old(Abs()), to, o)
    {
      ReportOk(Abs(), to, o);
      match o
      case Good => strikes := strikes - {to};
      case SaysOrphaned => EvictPeer(to, false, true);
      case ConnectionRefused => EvictPeer(to, true, false);
      case Bad => StrikePeer(to);
    }

    // ---- requests ----

    /** NOTIFY: the peer to probe afterwards, if any. */
    method HandleNotify(c: Peer) returns (probe: Option<Peer>)
      requires Valid()
      modifies this`pred, this`strikes, this`contacts
      ensures Valid() && (Abs(), probe) == Notify(old(Abs()), c)
    {
      NotifyOk(Abs(), c);
      probe := None;
      if c == self || c.id == self.id {
        return;
      }
      if pred.None? || InRangeOO(c.id, pred.value.id, self.id) {
        pred := Some(c);
        strikes := strikes - {c};
        RememberPeer(c);
      } else if pred.value != c {
        probe := pred;
      }
    }

    /** The probe of the old predecessor, once the notifier has its reply. */
    method AfterProbe(old': Peer, c: Peer, o: Stabilization.Outcome)
      requires Valid() && c.id != self.id
      modifies this`pred, this`succs, this`fingers, this`orphaned, this`strikes, this`contacts
      ensures Valid()
      ensures var t := Report(old(Abs()), old', o); Abs() == if o == Good then t else FillPred(t, c)
    {
      ReportCall(old', o);
      FillPredOk(Abs(), c);
      if o != Good && pred.None? {
        pred := Some(c);
        RememberPeer(c);
      }
    }

    /** SUSPECT: a hint acted on only when our own probe is refused. */
    method HandleSuspect(target: Peer, refused: bool)
      requires Valid()
      modifies this`pred, this`succs, this`fingers, this`orphaned, this`strikes
      ensures Valid() && Abs() == if refused then Evict(old(Abs()), target, true, false) else old(Abs())
    {
      if refused {
        EvictOk(Abs(), target, true, false);
        EvictPeer(target, true, false);
      }
    }

    // ---- maintenance ----

    method ApplyNeighbours(succ: Peer, nb: Neighbours) returns (candidate: Option<Peer>)
      requires Valid()
      modifies this`succs, this`fingers, this`contacts
      ensures Valid() && (Abs(), candidate) == Apply(old(Abs()), succ, nb)
    {
      ApplyOk(Abs(), succ, nb);
      candidate := None;
      if succs[0] != succ {
        return;
      }
      succs := MergeList(self, succ, nb.succs, r);
      fingers := fingers[0 := succs[0]];
      RememberPeers(succs);
      if nb.pred.Some? && nb.pred.value != self && nb.pred.value != succ && nb.pred.value.id != self.id &&
         InRangeOO(nb.pred.value.id, self.id, succ.id)
      {
        candidate := nb.pred;
      }
    }

    method AdoptPeer(succ: Peer, candidate: Peer)
      requires Valid() && candidate.id != self.id
      modifies this`succs, this`fingers, this`contacts
      ensures Valid() && Abs() == Adopt(old(Abs()), succ, candidate)
    {
      AdoptOk(Abs(), succ, candidate);
      if succs[0] == succ {
        succs := MakeRoom(candidate, succs, self, r);
        fingers := fingers[0 := candidate];
        RememberPeer(candidate);
      }
    }

    method Tell(net: Net, pass: nat)
      requires Valid()
      modifies this`pred, this`succs, this`fingers, this`orphaned, this`strikes
      ensures Valid() && Abs() == TellSuccessor(old(Abs()), net, pass)
    {
      var target := succs[0];
      if target != self {
        ReportCall(target, net.notify(pass, target));
      }
    }

    /** One pass asks the successor and applies what it says; false if the round is over. */
    method Pass(net: Net, pass: nat) returns (again: bool)
      requires Valid() && pass <= MAX_PASSES
      modifies this`pred, this`succs, this`fingers, this`orphaned, this`strikes, this`contacts
      ensures Valid() && (Abs(), again) == PassOnce(old(Abs()), net, pass)
    {
      var succ := succs[0];
      var (o, nb) := net.neighbours(pass, succ);
      ReportCall(succ, o);
      if o != Good {
        return succs[0] != succ;
      }
      var candidate := ApplyNeighbours(succ, nb);
      if candidate.Some? {
        again := Verify(succ, candidate.value, net, pass);
      } else {
        again := false;
        Tell(net, pass);
      }
    }

    method Verify(succ: Peer, candidate: Peer, net: Net, pass: nat) returns (again: bool)
      requires Valid() && candidate.id != self.id
      modifies this`pred, this`succs, this`fingers, this`orphaned, this`strikes, this`contacts
      ensures Valid()
      ensures var s3 := Report(old(Abs()), candidate, net.ping(pass, candidate));
              && Ok(s3) && again == (net.ping(pass, candidate) == Good && s3.succs[0] == succ)
              && Abs() == if again then Adopt(s3, succ, candidate) else TellSuccessor(s3, net, pass)
    {
      ReportOk(Abs(), candidate, net.ping(pass, candidate));
      ReportCall(candidate, net.ping(pass, candidate));
      if net.ping(pass, candidate) == Good && succs[0] == succ {
        AdoptPeer(succ, candidate);
        return true;
      }
      Tell(net, pass);
      return false;
    }

    method Stabilize(net: Net)
      requires Valid()
      modifies this`pred, this`succs, this`fingers, this`orphaned, this`strikes, this`contacts
      ensures Valid() && Abs() == StabilizeFrom(old(Abs()), net, 0)
    {
      ghost var pass := PassOf(net);
      ghost var ss, n := CourseOf(pass, Abs(), 0, []);
      IterateIs(Abs(), net, 0);
      Passes(net, 0, pass, ss, n);
    }

    method Passes(net: Net, first: nat, ghost along: Passing, ghost ss: seq<State>, ghost n: nat)
      requires along == PassOf(net) && Course(along, ss, first, n) && first < n && Abs() == ss[first] && Ok(ss[first])
      modifies this`pred, this`succs, this`fingers, this`orphaned, this`strikes, this`contacts
      ensures Abs() == ss[n] && Ok(ss[n])
    {
      for pass := first to MAX_PASSES + 1
        invariant first <= pass <= n && (pass <= MAX_PASSES ==> pass < n) && Abs() == ss[pass] && Ok(ss[pass])
      {
        var again := PassAlong(net, pass, first, along, ss, n);
        if !again {
          return;
        }
      }
    }

    method PassAlong(net: Net, pass: nat, ghost first: nat, ghost along: Passing, ghost ss: seq<State>, ghost n: nat)
        returns (again: bool)
      requires along == PassOf(net) && Course(along, ss, first, n) && first <= pass < n && Abs() == ss[pass]
      requires Ok(ss[pass])
      modifies this`pred, this`succs, this`fingers, this`orphaned, this`strikes, this`contacts
      ensures Abs() == ss[pass + 1] && Ok(ss[pass + 1]) && (again ==> pass == MAX_PASSES || pass + 1 < n)
      ensures (!again ==> pass + 1 == n)
    {
      assert PassAt(along, ss, pass, n);
      again := Pass(net, pass);
    }

    method CheckPred(net: Net)
      requires Valid()
      modifies this`pred, this`succs, this`fingers, this`orphaned, this`strikes
      ensures Valid() && Abs() == CheckPredecessor(old(Abs()), net)
    {
      if pred.None? || pred.value == self {
        return;
      }
      ReportCall(pred.value, net.ping(MAX_PASSES + 1, pred.value));
    }

    method FillRange(i: nat, owner: Peer) returns (end: nat)
      requires |fingers| == ID_BITS && 1 <= i < ID_BITS
      modifies this`fingers
      ensures end == (if Reach(self, owner, i) == i then i + 1 else Reach(self, owner, i)) && i < end <= ID_BITS
      ensures fingers == Fill(old(fingers), i, end, owner)
    {
      ghost var reach := Reach(self, owner, i);
      end := i;
      while end < ID_BITS && InRangeOC(FingerStart(self.id, end), self.id, owner.id)
        invariant i <= end <= ID_BITS && reach == Reach(self, owner, end)
        invariant fingers == Fill(old(fingers), i, end, owner)
      {
        fingers := fingers[end := owner];
        end := end + 1;
      }
      assert reach == end;
      if end == i {
        fingers := fingers[i := owner];
        end := i + 1;
      }
    }

    method FillFrom(i: nat, owner: Peer)
      requires |succs| >= 1 && |fingers| == ID_BITS && 1 <= i < ID_BITS
      modifies this`fingers, this`nextFinger, this`contacts
      ensures Abs() == FillForward(old(Abs()), i, owner)
    {
      var end := FillRange(i, owner);
      fingers := fingers[0 := succs[0]];
      nextFinger := if end >= ID_BITS then 1 else end;
      RememberPeer(owner);
    }

    method BlameFor(path: seq<Peer>, error: Error)
      requires |succs| >= 1 && |fingers| >= 1
      modifies this`pred, this`succs, this`fingers, this`orphaned, this`strikes
      ensures Abs() == Blame(old(Abs()), path, error)
    {
      if error == TooManyRequests || error == Faulty(Unreachable) || path == [] {
        return;
      }
      if error == Faulty(Refused) {
        EvictPeer(path[|path| - 1], true, false);
      } else {
        StrikePeer(path[|path| - 1]);
      }
    }

    method FixNextFinger(net: Net)
      requires Valid()
      modifies this`pred, this`succs, this`fingers, this`orphaned, this`strikes, this`contacts, this`nextFinger
      ensures Valid() && Abs() == FixNext(old(Abs()), net)
    {
      var i := nextFinger;
      var start := FingerStart(self.id, i);
      var res := RunLookup(net.ask(start), self, start);
      FixKept(Abs(), i, res);
      match res.outcome
      case Lost(error) =>
        BlameFor(res.path, error);
        nextFinger := After(i);
      case Found(owner) =>
        if owner.id == self.id && owner != self {
          nextFinger := After(i);
        } else {
          FillFrom(i, owner);
        }
    }

    method JoinVia(known: Peer, net: Net)
      requires Valid()
      modifies this
      ensures Valid() && Abs() == Rejoin(old(Abs()), known, net)
    {
      var res := RunLookup(net.ask(self.id), known, self.id);
      if res.outcome.Lost? || res.outcome.owner.id == self.id {
        return;
      }
      var owner := res.outcome.owner;
      var (o, nb) := net.neighbours(0, owner);
      JoinOk(Abs(), known, owner, if o == Good then Some(nb.succs) else None);
      Settle(owner, if o == Good then Some(nb.succs) else None);
      RememberPeer(known);
      RememberPeers(succs);
    }

    method Settle(owner: Peer, list: Option<seq<Peer>>)
      modifies this`pred, this`succs, this`fingers, this`nextFinger, this`orphaned
      ensures pred == None && succs == (if list.Some? then Merge(self, [owner], list.value, r) else [owner])
      ensures fingers == seq(ID_BITS, _ => owner) && nextFinger == 1 && !orphaned
    {
      pred := None;
      if list.Some? {
        succs := MergeList(self, owner, list.value, r);
      } else {
        succs := [owner];
      }
      fingers := seq(ID_BITS, _ => owner);
      nextFinger := 1;
      orphaned := false;
    }

    /** One round: stabilise, check the predecessor, repair a finger; an orphan tries one contact. */
    method MaintenanceRound(net: Net)
      requires Valid()
      modifies this
      ensures Valid() && Abs() == Round(old(Abs()), net)
    {
      if orphaned {
        if contacts != [] {
          var contact := contacts[nextContact % |contacts|];
          nextContact := nextContact + 1;
          JoinVia(contact, net);
        }
        return;
      }
      Stabilize(net);
      CheckPred(net);
      FixNextFinger(net);
    }
  }
}
