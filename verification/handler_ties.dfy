/** Each part of each handler, and the actions it adds to the record. */
module HandlerTies {
  import opened RaftTypes
  import opened RaftCore
  import opened Ledgers
  import opened ReplicaTie

  /** The record grew soundly, and only by what replica v did. */
  ghost predicate Grew(l: Ledger, m: Ledger, v: nat) {
    Inv(m) && Extends(l, m) && OnlyBy(l, m, v)
  }

  lemma ExtendsSelf(l: Ledger)
    requires |l.log| == l.Size()
    ensures Extends(l, l)
  {
  }

  lemma GrewSelf(l: Ledger, v: nat)
    requires Inv(l)
    ensures Grew(l, l, v)
  {
    ExtendsSelf(l);
  }

  lemma GrewTransitive(l: Ledger, m: Ledger, k: Ledger, v: nat)
    requires Grew(l, m, v) && Grew(m, k, v)
    ensures Grew(l, k, v)
  {
    ExtendsTransitive(l, m, k);
    OnlyByTransitive(l, m, k, v);
  }

  // ---- following a term ----

  ghost function FollowRecord(l: Ledger, v: nat, s: Core, term: nat): (m: Ledger)
    requires v < l.Size()
    ensures m.Size() == l.Size() && m.log == l.log
  {
    if term > s.term then Advance(l, v, term) else l
  }

  lemma SettledTieStays(l: Ledger, m: Ledger, s: Core, s': Core)
    requires Extends(l, m) && SettledTie(l, s)
    requires s.log <= s'.log && s.term <= s'.term && s.commit == s'.commit && s.applied == s'.applied
    ensures SettledTie(m, s')
  {
    SettledStays(l, m, s.log, s.commit, s.term, s'.term);
    SettledStays(l, m, s.log, s.applied, s.term, s'.term);
    SettledLonger(m, s.log, s'.log, s.commit, s'.term);
    SettledLonger(m, s.log, s'.log, s.applied, s'.term);
  }

  lemma FollowGrew(l: Ledger, v: nat, s: Core, term: nat)
    requires Inv(l) && v < l.Size() && l.term[v] == s.term && term >= s.term
    ensures Grew(l, FollowRecord(l, v, s, term), v)
    ensures term > s.term ==> Ballot(term, v) !in l.votes
  {
    assert Ballot(term, v) in l.votes ==> VoteHolds(l, Ballot(term, v));
    if term > s.term {
      AdvanceKeeps(l, v, term);
    } else {
      GrewSelf(l, v);
    }
  }

  lemma FollowDisk(l: Ledger, v: nat, s: Core, term: nat)
    requires DiskTie(l, v, Saved(s)) && term >= s.term
    requires term > s.term ==> Ballot(term, v) !in l.votes
    ensures DiskTie(FollowRecord(l, v, s, term), v,
                    Durable(term, if term > s.term then NOBODY else s.votedFor, s.log))
  {
  }

  lemma FollowFields(s: Core, term: nat, leader: int)
    requires Fits(s) && (s.role != Leader ==> s.pending == []) && term >= s.term
    ensures var r := BecomeFollower(s, term, leader);
            && Fits(r) && r.id == s.id && r.size == s.size && r.stopped == s.stopped
            && r.role == Follower && r.pending == [] && r.log == s.log && r.commit == s.commit && r.applied == s.applied
            && r.term == term && r.votedFor == (if term > s.term then NOBODY else s.votedFor)
  {
  }

  lemma FollowTie(l: Ledger, v: nat, s: Core, term: nat, leader: int)
    requires CoreTie(l, v, s) && term >= s.term && Extends(l, FollowRecord(l, v, s, term))
    requires term > s.term ==> Ballot(term, v) !in l.votes
    ensures CoreTie(FollowRecord(l, v, s, term), v, BecomeFollower(s, term, leader))
  {
    var m, s' := FollowRecord(l, v, s, term), BecomeFollower(s, term, leader);
    FollowFields(s, term, leader);
    SettledTieStays(l, m, s, s');
    FollowDisk(l, v, s, term);
  }

  lemma FollowKeeps(l: Ledger, v: nat, s: Core, term: nat, leader: int)
    requires Inv(l) && CoreTie(l, v, s) && term >= s.term
    ensures Grew(l, FollowRecord(l, v, s, term), v)
    ensures CoreTie(FollowRecord(l, v, s, term), v, BecomeFollower(s, term, leader))
  {
    FollowGrew(l, v, s, term);
    FollowTie(l, v, s, term, leader);
  }

  // ---- standing ----

  /** StartElection before it either wins at once or asks for votes. */
  function Candidacy(s: Core): Core
    requires Fits(s)
  {
    FailReads(ChangedMeta(s.(term := s.term + 1, votedFor := s.id, role := Candidate, leader := NOBODY)))
      .(votes := Only(s.id, s.size))
  }

  lemma StandGrew(l: Ledger, v: nat)
    requires Inv(l) && v < l.Size()
    ensures Grew(l, Stand(l, v), v)
    ensures l.term[v] + 1 in l.reign ==> l.reign[l.term[v] + 1].leader != v
  {
    StandKeeps(l, v);
    NotYetLed(l, v);
    StandOnlyBy(l, v);
  }

  lemma StandOnlyBy(l: Ledger, v: nat)
    requires |l.log| == l.Size() && v < l.Size()
    ensures OnlyBy(l, Stand(l, v), v)
  {
  }

  lemma StandTie(l: Ledger, v: nat, s: Core)
    requires CoreTie(l, v, s) && Extends(l, Stand(l, v))
    requires s.term + 1 in l.reign ==> l.reign[s.term + 1].leader != v
    ensures CoreTie(Stand(l, v), v, Candidacy(s))
  {
    SettledTieStays(l, Stand(l, v), s, Candidacy(s));
    assert CandidateTie(Stand(l, v), v, Candidacy(s));
  }

  lemma NotYetLed(l: Ledger, v: nat)
    requires ReignOk(l) && StoodOk(l) && VotesOk(l) && v < l.Size()
    ensures forall t | t in l.reign && t > l.term[v] :: l.reign[t].leader != v
  {
    forall t | t in l.reign && t > l.term[v]
      ensures l.reign[t].leader != v
    {
      var b := Ballot(t, l.reign[t].leader);
      assert ReignHolds(l, t);
      assert StoodHolds(l, b);
      assert VoteHolds(l, b);
    }
  }

  lemma AskTies(l: Ledger, v: nat, s: Core, to: seq<nat>)
    requires CoreTie(l, v, s) && s.role == Candidate && Peers(v, s.size, to)
    ensures var vote := VoteRequest(s.term, v, |s.log|, TermAt(s.log, |s.log|));
            forall c | c in Asks(vote, to) :: CallTie(l, c)
  {
  }

  // ---- winning ----

  ghost function CrownRecord(l: Ledger, v: nat, s: Core): Ledger
    requires v < l.Size() && |l.log| == l.Size()
  {
    Win(l, v, Trues(s.votes))
  }

  lemma VotesMeanWin(l: Ledger, v: nat, s: Core)
    requires Inv(l) && CoreTie(l, v, s) && s.role == Candidate && Most(Count(s.votes), s.size)
    ensures CanWin(l, v, Trues(s.votes))
  {
    MostIsMajority(s.votes, s.size);
    if s.term in l.reign {
      ElectionSafety(l, s.term, v, Trues(s.votes));
      assert false;
    }
  }

  lemma CrownGrew(l: Ledger, v: nat, s: Core)
    requires Inv(l) && CoreTie(l, v, s) && s.role == Candidate && Most(Count(s.votes), s.size)
    ensures Grew(l, CrownRecord(l, v, s), v)
    ensures s.term !in l.reign && StoodOk(l) && CommittedOk(l)
  {
    VotesMeanWin(l, v, s);
    WinKeeps(l, v, Trues(s.votes));
    WinOnlyBy(l, v, Trues(s.votes));
  }

  lemma WinOnlyBy(l: Ledger, v: nat, q: set<nat>)
    requires CanWin(l, v, q)
    ensures OnlyBy(l, Win(l, v, q), v)
  {
  }

  lemma CrownTie(l: Ledger, v: nat, s: Core)
    requires StoodOk(l) && CommittedOk(l) && s.term !in l.reign
    requires CoreTie(l, v, s) && s.role == Candidate && Extends(l, CrownRecord(l, v, s))
    ensures CoreTie(CrownRecord(l, v, s), v, Crown(s))
  {
    SettledTieStays(l, CrownRecord(l, v, s), s, Crown(s));
    SettledWithin(l, s.log, s.commit, s.term);
    CrownLeads(l, v, s);
  }

  lemma CrownLeads(l: Ledger, v: nat, s: Core)
    requires StoodOk(l) && CommittedOk(l)
    requires CoreTie(l, v, s) && s.role == Candidate && s.term !in l.reign && s.commit <= |s.log|
    ensures LeaderTie(CrownRecord(l, v, s), v, Crown(s))
  {
    assert s.term in l.committed ==> CommitHolds(l, s.term);
    assert StoodHolds(l, Ballot(s.term, v));
    assert TermAt(Crown(s).log, s.commit) != s.term;
  }

  // ---- a leader's calls ----

  lemma NextCallTie(l: Ledger, v: nat, s: Core, p: nat)
    requires CoreTie(l, v, s) && s.role == Leader && p < s.size && p != v
    ensures CallTie(l, Push(p, NextCall(s, p)))
  {
    assert PeerTie(l, s, p);
  }

  lemma SendTie(l: Ledger, v: nat, s: Core, p: nat)
    requires CoreTie(l, v, s) && s.role == Leader && p < s.size && p != v
    ensures CoreTie(l, v, SendAppend(s, p))
  {
    var s' := SendAppend(s, p);
    forall q: nat | q < s.size
      ensures PeerTie(l, s', q)
    {
      assert PeerTie(l, s, q);
    }
  }

  lemma {:induction false} SendListTie(l: Ledger, v: nat, s: Core, ps: seq<nat>)
    requires CoreTie(l, v, s) && s.role == Leader && Peers(v, s.size, ps)
    ensures var s' := SendList(s, ps);
            && CoreTie(l, v, s') && s' == s.(number := s'.number, out := s'.out)
            && s'.number == s.number + |ps|
            && |s'.out| == |s.out| + |ps| && s'.out[..|s.out|] == s.out
            && forall i | |s.out| <= i < |s'.out| ::
                 s'.out[i].Push? && CallTie(l, s'.out[i]) && s'.out[i].append.leader == v &&
                 s'.out[i].append.term == s.term && s.number < s'.out[i].append.number <= s'.number
  {
    if ps != [] {
      var k := |ps| - 1;
      SendListTie(l, v, s, ps[..k]);
      var mid := SendList(s, ps[..k]);
      SendTie(l, v, mid, ps[k]);
      NextCallTie(l, v, mid, ps[k]);
    }
  }

  // ---- voting ----

  ghost function VoteRecord(l: Ledger, v: nat, s: Core, candidate: nat): Ledger
    requires v < l.Size()
  {
    if s.votedFor == NOBODY then Vote(l, v, candidate) else l
  }

  lemma VoteGrew(l: Ledger, v: nat, s: Core, ask: VoteRequest)
    requires Inv(l) && DiskTie(l, v, Saved(s)) && CallTie(l, Ask(v, ask)) && ask.term == s.term
    requires s.votedFor == NOBODY || s.votedFor == ask.candidate
    requires AtLeastAsUpToDate(s.log, ask.lastTerm, ask.lastIndex)
    ensures var m := VoteRecord(l, v, s, ask.candidate);
            && Grew(l, m, v)
            && Ballot(ask.term, v) in m.votes && m.votes[Ballot(ask.term, v)] == ask.candidate
  {
    if s.votedFor == NOBODY {
      VoteKeeps(l, v, ask.candidate);
    } else {
      GrewSelf(l, v);
    }
  }

  /** The vote itself, once the replica is in the candidate's term. */
  lemma VoteCast(l: Ledger, v: nat, s: Core, candidate: nat)
    requires CoreTie(l, v, s) && Extends(l, VoteRecord(l, v, s, candidate))
    requires s.votedFor == NOBODY || s.votedFor == candidate
    ensures CoreTie(VoteRecord(l, v, s, candidate), v, ChangedMeta(s.(votedFor := candidate)))
  {
    var s' := ChangedMeta(s.(votedFor := candidate));
    SettledTieStays(l, VoteRecord(l, v, s, candidate), s, s');
    if s.votedFor == NOBODY {
      VoteLeaves(l, v, s, candidate);
    }
    if s.role == Leader {
      LeaderSame(VoteRecord(l, v, s, candidate), v, s, s');
    }
  }

  lemma LeaderSame(l: Ledger, v: nat, s: Core, s': Core)
    requires Fits(s) && Fits(s') && LeaderTie(l, v, s)
    requires s'.term == s.term && s'.log == s.log && s'.commit == s.commit && s'.size == s.size
    requires s'.matched == s.matched && s'.next == s.next
    ensures LeaderTie(l, v, s')
  {
    forall p: nat | p < s'.size
      ensures PeerTie(l, s', p)
    {
      assert PeerTie(l, s, p);
    }
  }

  /** A vote changes nothing a candidate or a leader relies on. (A replica in either role has
      voted for itself, so in fact none votes again.) */
  lemma VoteLeaves(l: Ledger, v: nat, s: Core, c: nat)
    requires CoreTie(l, v, s) && s.votedFor == NOBODY && Extends(l, Vote(l, v, c))
    ensures s.role == Candidate ==> CandidateTie(Vote(l, v, c), v, s)
    ensures s.role == Leader ==> LeaderTie(Vote(l, v, c), v, s)
  {
    if s.role == Leader {
      var m := Vote(l, v, c);
      forall p: nat | p < s.size
        ensures PeerTie(m, s, p)
      {
        assert PeerTie(l, s, p);
      }
    }
  }
}
