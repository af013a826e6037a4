/** Every call that a reachable replica makes survives the wire. */
module WireTheorems {
  import opened RaftTypes
  import opened RaftCore
  import opened Ledgers
  import opened ReplicaTie
  import opened RaftGroup
  import opened RaftTheorems
  import FileStorages
  import DiskTheorems
  import opened Text
  import opened Wire
  import opened AppendWire

  const MAX_BODY: nat := 512 * 1024

  /** The numbers of a call are in the parser's range. */
  predicate InWireRange(r: AppendRequest) {
    r.term < LIMIT && r.prevIndex + |r.entries| < LIMIT && r.commit < LIMIT && r.number < LIMIT
  }

  lemma EntryCost(e: Entry)
    requires e.term < LIMIT
    ensures |EntryText(e)| + 1 <= Cost(e)
  {
    DigitsLength(e.term, 18);
    LimitIsPow();
  }

  lemma {:induction false} BodyCost(es: seq<Entry>)
    requires forall i | 0 <= i < |es| :: es[i].term < LIMIT
    ensures |Body(es)| <= FileStorages.CostSum(es)
  {
    if es != [] {
      BodyCost(es[1..]);
      EntryCost(es[0]);
      var ls := Each(EntryWriter(), es);
      assert ls[1..] == Each(EntryWriter(), es[1..]);
      assert ls[0] == EntryWriter()(es[0]);
    }
  }

  /** A call carries a slice of its leader's log, so its terms are in order. */
  lemma PushInOrder(log: seq<Entry>, r: AppendRequest)
    requires PushTie(log, r) && Rising(log) && Bounded(log, r.term)
    ensures InOrder(r.entries, r.prevTerm, r.term) && r.prevTerm <= r.term
  {
    assert forall i | 0 <= i < |r.entries| :: r.entries[i] == log[r.prevIndex + i];
  }

  lemma BodyIsShort(es: seq<Entry>, max: nat)
    requires DiskTheorems.Proper(es) && FileStorages.Light(es, max) && forall i | 0 <= i < |es| :: es[i].term < LIMIT
    ensures |Body(es)| <= if max < 512 then 512 else max
  {
    BodyCost(es);
    if |es| == 1 {
      DiskTheorems.CommandFits(es[0].command);
      assert FileStorages.CostSum(es[1..]) == 0;
    }
  }

  lemma PushSendable(l: Ledger, to: nat, r: AppendRequest, max: nat)
    requires Inv(l) && CallTie(l, Push(to, r)) && l.Size() <= MAX_ID + 1 && max <= MAX_BODY
    requires DiskTheorems.LightCall(Push(to, r), max) && InWireRange(r)
    ensures Sendable(r) && |Body(r.entries)| <= MAX_BODY
  {
    assert ReignHolds(l, r.term);
    PushInOrder(l.reign[r.term].log, r);
    CallSendable(r, max);
  }

  lemma CallSendable(r: AppendRequest, max: nat)
    requires DiskTheorems.Proper(r.entries) && FileStorages.Light(r.entries, max) && max <= MAX_BODY && InWireRange(r)
    requires InOrder(r.entries, r.prevTerm, r.term) && r.prevTerm <= r.term && r.leader <= MAX_ID
    ensures Sendable(r) && |Body(r.entries)| <= MAX_BODY
  {
    BodyIsShort(r.entries, max);
    assert All(GoodEntry(), r.entries);
    var length := |Body(r.entries)|;
    assert Small(NumbersOf(r, length));
  }

  /** In any run of the group in which every command proposed is valid, every APPEND that any leader ever makes is read
      back unchanged by whoever receives it, and its body fits one message. */
  lemma AppendsSurvive(gs: seq<Group>, acts: seq<Action>, i: nat, to: nat, r: AppendRequest, group: string)
    requires Run(gs, acts) && DiskTheorems.ProperRun(acts) && i < |gs| && Push(to, r) in gs[i].calls
    requires |gs[i].nodes| <= MAX_ID + 1 && gs[0].maxBytes <= MAX_BODY && InWireRange(r) && !Has(group, ' ')
    ensures var (line, body) := EncodeAppend(group, r);
            ParseAppend(Split(line), body) == Some((group, r)) && |body| <= MAX_BODY
  {
    RunSound(gs, acts, i);
    DiskTheorems.RunProper(gs, acts, i);
    assert CallTie(gs[i].book, Push(to, r));
    PushSendable(gs[i].book, to, r, gs[i].maxBytes);
    AppendRoundTrip(group, r);
  }

  /** And so does every request for a vote. */
  lemma VotesSurvive(gs: seq<Group>, acts: seq<Action>, i: nat, to: nat, r: VoteRequest, group: string)
    requires Run(gs, acts) && i < |gs| && Ask(to, r) in gs[i].calls
    requires |gs[i].nodes| <= MAX_ID + 1 && r.term < LIMIT && r.lastIndex < LIMIT && !Has(group, ' ')
    ensures ParseVote(Split(EncodeVote(group, r))) == Some((group, r))
  {
    RunSound(gs, acts, i);
    assert CallTie(gs[i].book, Ask(to, r));
    StoodInRange(gs[i].book, to, r);
    VoteRoundTrip(group, r);
  }

  lemma StoodInRange(l: Ledger, to: nat, r: VoteRequest)
    requires Inv(l) && CallTie(l, Ask(to, r)) && l.Size() <= MAX_ID + 1
    ensures r.lastTerm <= r.term && r.candidate <= MAX_ID
  {
    assert StoodHolds(l, Ballot(r.term, r.candidate));
  }
}
