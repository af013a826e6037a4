/** What a member keeps over every run of its critical sections, and what repair and a whole
    maintenance round come to. */
module StabilizationRuns {
  import opened Chord
  import opened Lookup
  import opened Text
  import opened Stabilization

  // ---- runs ----

  /** One critical section, with what the calls around it came to. */
  datatype Section =
    | Reported(to: Peer, outcome: Stabilization.Outcome)          // the end of any call to a peer
    | GotNeighbours(succ: Peer, nb: Neighbours)                   // a successor's reply, applied
    | Verified(succ: Peer, candidate: Peer)                       // a closer successor answered
    | Notified(c: Peer)
    | ProbeFailed(c: Peer)                                        // after a notification's probe
    | SuspectRefused(target: Peer)                                // a client's hint, confirmed
    | Fixed(i: nat, res: Lookup.Result)
    | Joined(known: Peer, owner: Peer, list: Option<seq<Peer>>)
    | TookContact

  /** What the code has checked when it enters the section. */
  predicate Enters(s: State, a: Section) {
    match a
    case Verified(_, candidate) => candidate.id != s.self.id
    case ProbeFailed(c) => c.id != s.self.id
    case Fixed(i, _) => 1 <= i < ID_BITS
    case Joined(_, owner, _) => owner.id != s.self.id
    case _ => true
  }

  function Do(s: State, a: Section): (t: State)
    requires Ok(s) && Enters(s, a)
  {
    match a
    case Reported(to, o) => Report(s, to, o)
    case GotNeighbours(succ, nb) => Apply(s, succ, nb).0
    case Verified(succ, candidate) => Adopt(s, succ, candidate)
    case Notified(c) => Notify(s, c).0
    case ProbeFailed(c) => FillPred(s, c)
    case SuspectRefused(target) => Evict(s, target, true, false)
    case Fixed(i, res) => Fix(s, i, res)
    case Joined(known, owner, list) => JoinThrough(s, known, owner, list)
    case TookContact => s.(nextContact := s.nextContact + 1)
  }

  /** Once a member has had another successor, it has itself for one only while it is orphaned. */
  predicate Lonely(s: State, hadOther: bool)
    requires |s.succs| >= 1
  {
    hadOther && s.succs[0] == s.self ==> s.orphaned
  }

  lemma ReportKept(s: State, to: Peer, o: Stabilization.Outcome)
    requires Ok(s)
    ensures Kept(s, Report(s, to, o))
  {
    match o
    case Good =>
    case SaysOrphaned => EvictKept(s, to, false, true);
    case ConnectionRefused => EvictKept(s, to, true, false);
    case Bad => StrikeKept(s, to);
  }

  lemma DoKeeps(s: State, a: Section, hadOther: bool)
    requires Ok(s) && Enters(s, a) && Lonely(s, hadOther)
    ensures var t := Do(s, a); Ok(t) && t.self == s.self && t.r == s.r && Lonely(t, hadOther || s.succs[0] != s.self)
  {
    match a
    case Reported(to, o) => ReportKept(s, to, o);
    case GotNeighbours(succ, nb) => ApplyOk(s, succ, nb);
    case Verified(succ, candidate) => AdoptOk(s, succ, candidate);
    case Notified(c) => NotifyOk(s, c);
    case ProbeFailed(c) => FillPredOk(s, c);
    case SuspectRefused(target) => EvictKept(s, target, true, false);
    case Fixed(i, res) => FixKept(s, i, res);
    case Joined(known, owner, list) => JoinOk(s, known, owner, list);
    case TookContact =>
  }

  ghost predicate Run(ss: seq<State>, acts: seq<Section>) {
    && |ss| == |acts| + 1 && Ok(ss[0])
    && forall i: nat {:trigger RunStep(ss, acts, i)} | i < |acts| :: RunStep(ss, acts, i)
  }

  ghost predicate RunStep(ss: seq<State>, acts: seq<Section>, i: nat)
    requires i < |acts| && |ss| == |acts| + 1
  {
    Ok(ss[i]) ==> Enters(ss[i], acts[i]) && ss[i + 1] == Do(ss[i], acts[i])
  }

  /** Over every run: 1 to r successors, 64 fingers, the first finger the first successor, no other
      peer with the member's own identifier; and a member that once had another successor and has
      fallen back to itself is orphaned. */
  lemma {:induction false} RunKeeps(ss: seq<State>, acts: seq<Section>, i: nat, j: nat)
    requires Run(ss, acts) && i <= j < |ss|
    ensures Ok(ss[j]) && ss[j].self == ss[0].self && ss[j].r == ss[0].r
    ensures Ok(ss[i]) && (i < j && ss[i].succs[0] != ss[i].self && ss[j].succs[0] == ss[j].self ==> ss[j].orphaned)
    decreases j
  {
    if j > 0 {
      if i < j {
        RunKeeps(ss, acts, i, j - 1);
      } else {
        RunKeeps(ss, acts, i - 1, j - 1);
      }
      assert RunStep(ss, acts, j - 1);
      var had := i < j - 1 && ss[i].succs[0] != ss[i].self;
      DoKeeps(ss[j - 1], acts[j - 1], had);
    }
  }

  // ---- why a peer is evicted ----

  datatype Evidence = Heard(p: Peer) | Failure(p: Peer) | Refusal(p: Peer) | Orphan(p: Peer)

  function EvidenceOf(a: Section): seq<Evidence> {
    match a
    case Reported(to, Good) => [Heard(to)]
    case Reported(to, SaysOrphaned) => [Orphan(to)]
    case Reported(to, ConnectionRefused) => [Refusal(to)]
    case Reported(to, Bad) => [Failure(to)]
    case SuspectRefused(target) => [Refusal(target)]
    case Fixed(_, res) =>
      if res.outcome.Found? || res.path == [] then []
      else
        var p, e := res.path[|res.path| - 1], res.outcome.error;
        if e == TooManyRequests || e == Faulty(Unreachable) then []
        else if e == Faulty(Refused) then [Refusal(p)] else [Failure(p)]
    case _ => []
  }

  /** Failures of p since its last valid reply to a call. */
  function FailsSince(h: seq<Evidence>, p: Peer): nat {
    if h == [] then 0
    else
      var e := h[|h| - 1];
      if e == Heard(p) then 0 else FailsSince(h[..|h| - 1], p) + if e == Failure(p) then 1 else 0
  }

  ghost predicate Counted(s: State, h: seq<Evidence>) {
    forall p :: StrikesOf(s, p) <= FailsSince(h, p)
  }

  lemma FailsAfter(h: seq<Evidence>, e: Evidence, p: Peer)
    ensures FailsSince(h + [e], p) == if e == Heard(p) then 0 else FailsSince(h, p) + if e == Failure(p) then 1 else 0
  {
    assert (h + [e])[..|h|] == h;
  }

  lemma ForgetLess(s: State, dead: Peer, whole: bool, said: bool, p: Peer)
    requires |s.succs| >= 1 && |s.fingers| >= 1
    ensures StrikesOf(Evict(s, dead, whole, said), p) <= StrikesOf(s, p)
  {
  }

  lemma StrikeCounts(s: State, q: Peer, p: Peer)
    requires |s.succs| >= 1 && |s.fingers| >= 1
    ensures StrikesOf(Strike(s, q), p) <= StrikesOf(s, p) + if p == q then 1 else 0
  {
    ForgetLess(s.(strikes := s.strikes[q := StrikesOf(s, q) + 1]), q, false, false, p);
  }

  lemma DoCounts(s: State, a: Section, h: seq<Evidence>, p: Peer)
    requires Ok(s) && Enters(s, a) && StrikesOf(s, p) <= FailsSince(h, p)
    ensures StrikesOf(Do(s, a), p) <= FailsSince(h + EvidenceOf(a), p)
  {
    assert h + [] == h;
    if |EvidenceOf(a)| == 1 {
      FailsAfter(h, EvidenceOf(a)[0], p);
      assert EvidenceOf(a) == [EvidenceOf(a)[0]];
    }
    match a
    case Reported(to, Good) =>
    case Reported(to, SaysOrphaned) => ForgetLess(s, to, false, true, p);
    case Reported(to, ConnectionRefused) => ForgetLess(s, to, true, false, p);
    case Reported(to, Bad) => StrikeCounts(s, to, p);
    case GotNeighbours(succ, nb) => ApplyOk(s, succ, nb);
    case Verified(succ, candidate) => AdoptOk(s, succ, candidate);
    case Notified(c) => NotifyOk(s, c);
    case ProbeFailed(c) => FillPredOk(s, c);
    case SuspectRefused(target) => ForgetLess(s, target, true, false, p);
    case Fixed(i, res) => FixCounts(s, i, res, p);
    case Joined(known, owner, list) => JoinOk(s, known, owner, list);
    case TookContact =>
  }

  lemma FixCounts(s: State, i: nat, res: Lookup.Result, p: Peer)
    requires Ok(s) && 1 <= i < ID_BITS
    ensures StrikesOf(Fix(s, i, res), p) <= StrikesOf(s, p) + if EvidenceOf(Fixed(i, res)) == [Failure(p)] then 1 else 0
  {
    match res.outcome
    case Lost(error) =>
      if res.path != [] {
        ForgetLess(s, res.path[|res.path| - 1], true, false, p);
        StrikeCounts(s, res.path[|res.path| - 1], p);
      }
    case Found(owner) =>
      if Stranger(s, owner) {
        FilledOk(s, i, owner);
      }
  }

  /** The evidence at the end of h against p: a refusal of its process, its own word that it is
      orphaned, or a failure that is at least the second with no valid reply between. */
  predicate Justified(h: seq<Evidence>, p: Peer) {
    && h != []
    && var e := h[|h| - 1];
    || (e.Refusal? && SameProcess(p, e.p))
    || e == Orphan(p)
    || (e == Failure(p) && FailsSince(h, p) >= STRIKES_TO_EVICT)
  }

  /** The sections that evict; the others only put one peer in another's place. */
  predicate Evicts(a: Section) {
    a.Reported? || a.SuspectRefused? || (a.Fixed? && a.res.outcome.Lost?)
  }

  lemma EvictLoses(s: State, dead: Peer, whole: bool, said: bool, p: Peer)
    requires Ok(s) && p != s.self && Holds(s, p) && !Holds(Evict(s, dead, whole, said), p)
    ensures Gone(dead, whole, p)
  {
    if !Gone(dead, whole, p) {
      OthersStay(s, dead, whole, said, p);
    }
  }

  lemma StrikeLoses(s: State, q: Peer, p: Peer)
    requires Ok(s) && p != s.self && Holds(s, p) && !Holds(Strike(s, q), p)
    ensures p == q && StrikesOf(s, p) + 1 >= STRIKES_TO_EVICT
  {
    EvictLoses(s.(strikes := s.strikes[q := StrikesOf(s, q) + 1]), q, false, false, p);
  }

  /** Every eviction is justified. */
  lemma EvictionsJustified(s: State, a: Section, h: seq<Evidence>, p: Peer)
    requires Ok(s) && Enters(s, a) && Evicts(a) && StrikesOf(s, p) <= FailsSince(h, p)
    requires p != s.self && Holds(s, p) && !Holds(Do(s, a), p)
    ensures Justified(h + EvidenceOf(a), p)
  {
    match a
    case Reported(to, Good) =>
    case Reported(to, SaysOrphaned) => EvictLoses(s, to, false, true, p);
    case Reported(to, ConnectionRefused) => EvictLoses(s, to, true, false, p);
    case Reported(to, Bad) =>
      StrikeLoses(s, to, p);
      FailsAfter(h, Failure(to), p);
    case SuspectRefused(target) => EvictLoses(s, target, true, false, p);
    case Fixed(i, res) => BlameJustified(s, i, res, h, p);
    case _ =>
  }

  lemma BlameJustified(s: State, i: nat, res: Lookup.Result, h: seq<Evidence>, p: Peer)
    requires Ok(s) && 1 <= i < ID_BITS && res.outcome.Lost? && StrikesOf(s, p) <= FailsSince(h, p)
    requires p != s.self && Holds(s, p) && !Holds(Blame(s, res.path, res.outcome.error), p)
    ensures Justified(h + EvidenceOf(Fixed(i, res)), p)
  {
    var last, e := res.path[|res.path| - 1], res.outcome.error;
    if e == Faulty(Refused) {
      EvictLoses(s, last, true, false, p);
    } else {
      StrikeLoses(s, last, p);
      FailsAfter(h, Failure(last), p);
    }
  }

  function HistoryOf(acts: seq<Section>): seq<Evidence> {
    if acts == [] then [] else HistoryOf(acts[..|acts| - 1]) + EvidenceOf(acts[|acts| - 1])
  }

  /** Over every run that starts with no strikes, every peer that a section evicts was refused, said
      it was orphaned, or failed twice with no valid reply between. */
  lemma {:induction false} RunCounts(ss: seq<State>, acts: seq<Section>, i: nat, p: Peer)
    requires Run(ss, acts) && i < |ss| && ss[0].strikes == map[]
    ensures Ok(ss[i]) && StrikesOf(ss[i], p) <= FailsSince(HistoryOf(acts[..i]), p)
  {
    RunKeeps(ss, acts, i, i);
    if i > 0 {
      RunCounts(ss, acts, i - 1, p);
      assert RunStep(ss, acts, i - 1);
      DoCounts(ss[i - 1], acts[i - 1], HistoryOf(acts[..i - 1]), p);
      assert acts[..i][..i - 1] == acts[..i - 1];
    }
  }

  lemma RunJustifies(ss: seq<State>, acts: seq<Section>, i: nat, p: Peer)
    requires Run(ss, acts) && i < |acts| && ss[0].strikes == map[] && Evicts(acts[i])
    requires p != ss[i].self && Holds(ss[i], p) && !Holds(ss[i + 1], p)
    ensures Justified(HistoryOf(acts[..i + 1]), p)
  {
    RunCounts(ss, acts, i, p);
    assert RunStep(ss, acts, i);
    EvictionsJustified(ss[i], acts[i], HistoryOf(acts[..i]), p);
    assert acts[..i + 1][..i] == acts[..i];
  }
}
