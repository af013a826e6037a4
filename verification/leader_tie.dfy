/** A leader counting replies, adding entries and committing. */
module LeaderTies {
  import opened RaftTypes
  import opened RaftCore
  import opened Ledgers
  import opened ReplicaTie
  import opened HandlerTies

  /** A reply, together with the call it answers. */
  datatype Answer =
    | Voted(from: nat, ask: VoteRequest, vote: VoteReply)
    | Appended(from: nat, push: AppendRequest, append: AppendReply)

  ghost predicate AnswerTie(l: Ledger, a: Answer) {
    match a
    case Voted(from, ask, vote) =>
      && from < l.Size()
      && (vote.granted ==>
            vote.term == ask.term && Ballot(ask.term, from) in l.votes &&
                l.votes[Ballot(ask.term, from)] == ask.candidate)
    case Appended(from, push, append) =>
      && CallTie(l, Push(from, push))
      && append.term <= l.term[from]
      && (append.success ==> append.term == push.term && Acked(l, from, push.term, push.prevIndex + |push.entries|))
  }

  lemma AnswerStays(l: Ledger, m: Ledger, a: Answer)
    requires Extends(l, m) && AnswerTie(l, a)
    ensures AnswerTie(m, a)
  {
    if a.Appended? {
      CallStays(l, m, Push(a.from, a.push));
    }
  }

  // ---- counting votes ----

  lemma CountVote(l: Ledger, v: nat, s: Core, from: nat)
    requires CoreTie(l, v, s) && s.role == Candidate && from < s.size
    requires Ballot(s.term, from) in l.votes && l.votes[Ballot(s.term, from)] == v
    ensures CoreTie(l, v, s.(votes := s.votes[from := true]))
  {
  }

  // ---- replication bookkeeping ----

  lemma BookkeepPeer(l: Ledger, v: nat, s: Core, from: nat, push: AppendRequest, reply: AppendReply)
    requires CoreTie(l, v, s) && s.role == Leader && from < s.size
    requires AnswerTie(l, Appended(from, push, reply)) && push.term == s.term
    ensures Fits(Bookkeep(s, from, push, reply)) && PeerTie(l, Bookkeep(s, from, push, reply), from)
  {
    assert PeerTie(l, s, from);
  }

  lemma BookkeepTie(l: Ledger, v: nat, s: Core, from: nat, push: AppendRequest, reply: AppendReply)
    requires CoreTie(l, v, s) && s.role == Leader && from < s.size
    requires AnswerTie(l, Appended(from, push, reply)) && push.term == s.term
    ensures CoreTie(l, v, Bookkeep(s, from, push, reply))
  {
    var s' := Bookkeep(s, from, push, reply);
    BookkeepPeer(l, v, s, from, push, reply);
    forall p: nat | p < s.size
      ensures PeerTie(l, s', p)
    {
      assert PeerTie(l, s, p);
    }
    assert SettledTie(l, s');
  }

  /** Anything that leaves the durable state, the role and the peers' slots alone keeps the tie. */
  lemma QuietTie(l: Ledger, v: nat, s: Core, s': Core)
    requires CoreTie(l, v, s) && Fits(s')
    requires s' == s.(pending := s'.pending, results := s'.results, number := s'.number, out := s'.out,
                      dirty := s'.dirty, dirtyFrom := s'.dirtyFrom, leader := s'.leader)
    requires s.role != Leader ==> s'.pending == []
    ensures CoreTie(l, v, s')
  {
    assert SettledTie(l, s');
    if s.role == Leader {
      LeaderSame(l, v, s, s');
    }
    if s.role == Candidate {
      assert CandidateTie(l, v, s');
    }
  }

  // ---- proposing ----

  function Lengthened(s: Core, command: string): Core {
    ChangedFrom(s.(log := s.log + [Entry(s.term, command)]), |s.log| + 1)
  }

  lemma ProposeGrew(l: Ledger, v: nat, s: Core, command: string)
    requires Inv(l) && CoreTie(l, v, s) && s.role == Leader
    ensures CanLengthen(l, v) && Grew(l, Lengthen(l, v, command), v)
  {
    LengthenKeeps(l, v, command);
    LengthenOnlyBy(l, v, command);
  }

  lemma LengthenOnlyBy(l: Ledger, v: nat, command: string)
    requires CanLengthen(l, v)
    ensures OnlyBy(l, Lengthen(l, v, command), v)
  {
  }

  lemma ProposeLeads(l: Ledger, v: nat, s: Core, command: string)
    requires CoreTie(l, v, s) && s.role == Leader && CanLengthen(l, v) && s.commit <= |s.log|
    requires Extends(l, Lengthen(l, v, command))
    ensures LeaderTie(Lengthen(l, v, command), v, Lengthened(s, command))
  {
    var m, s' := Lengthen(l, v, command), Lengthened(s, command);
    forall p: nat | p < s.size
      ensures PeerTie(m, s', p)
    {
      assert PeerTie(l, s, p);
    }
    assert TermAt(s'.log, s.commit) == TermAt(s.log, s.commit);
  }

  lemma ProposeTie(l: Ledger, v: nat, s: Core, command: string)
    requires CoreTie(l, v, s) && s.role == Leader && CanLengthen(l, v) && Extends(l, Lengthen(l, v, command))
    ensures CoreTie(Lengthen(l, v, command), v, Lengthened(s, command))
  {
    SettledTieStays(l, Lengthen(l, v, command), s, Lengthened(s, command));
    SettledWithin(l, s.log, s.commit, s.term);
    ProposeLeads(l, v, s, command);
  }

  // ---- committing ----

  ghost function CommitRecord(l: Ledger, v: nat, s: Core): Ledger
    requires Fits(s) && v < l.Size()
  {
    var n := BestCommit(s, |s.log|);
    if s.role == Leader && n > s.commit then Commit(l, v, n) else l
  }

  /** A majority of copies, by the leader's count, is a majority of durable copies. */
  lemma HoldersAcked(l: Ledger, v: nat, s: Core, n: nat)
    requires CoreTie(l, v, s) && s.role == Leader && 0 < n <= |s.log| && Most(Count(Holders(s, n)), s.size)
    ensures Chosen(l, s.term, n)
  {
    var bits := Holders(s, n);
    MostIsMajority(bits, s.size);
    forall p | p in Trues(bits)
      ensures p in Ackers(l, s.term, n)
    {
      assert PeerTie(l, s, p);
    }
    MajorityGrows(Trues(bits), Ackers(l, s.term, n), s.size);
  }

  lemma CommitGrew(l: Ledger, v: nat, s: Core)
    requires Inv(l) && CoreTie(l, v, s)
    ensures Grew(l, CommitRecord(l, v, s), v)
  {
    var n := BestCommit(s, |s.log|);
    if s.role == Leader && n > s.commit {
      HoldersAcked(l, v, s, n);
      CommitKeeps(l, v, n);
      CommitOnlyBy(l, v, n);
    } else {
      GrewSelf(l, v);
    }
  }

  lemma CommitOnlyBy(l: Ledger, v: nat, n: nat)
    requires |l.log| == l.Size() && v < l.Size() && l.term[v] in l.reign && l.reign[l.term[v]].leader == v
    ensures OnlyBy(l, Commit(l, v, n), v)
  {
  }

  lemma AdvanceLeads(l: Ledger, v: nat, s: Core)
    requires CoreTie(l, v, s) && s.role == Leader && Extends(l, CommitRecord(l, v, s))
    ensures LeaderTie(CommitRecord(l, v, s), v, AdvanceCommit(s))
    ensures AdvanceCommit(s).commit > s.commit ==> s.term in CommitRecord(l, v, s).committed
  {
    var m, s' := CommitRecord(l, v, s), AdvanceCommit(s);
    forall p: nat | p < s.size
      ensures PeerTie(m, s', p)
    {
      assert PeerTie(l, s, p);
    }
  }

  lemma AdvanceTie(l: Ledger, v: nat, s: Core)
    requires CoreTie(l, v, s) && Extends(l, CommitRecord(l, v, s))
    ensures CoreTie(CommitRecord(l, v, s), v, AdvanceCommit(s))
  {
    var m, s' := CommitRecord(l, v, s), AdvanceCommit(s);
    SettledTieStays(l, m, s, s);
    if s.role == Leader {
      AdvanceLeads(l, v, s);
      if s'.commit > s.commit {
        assert SettledBy(m, s.log, s'.commit, s.term, s.term);
      }
    }
  }

  lemma ApplyTie(l: Ledger, v: nat, s: Core)
    requires CoreTie(l, v, s)
    ensures CoreTie(l, v, ApplyCommitted(s))
  {
    if s.role == Leader {
      LeaderSame(l, v, s, ApplyCommitted(s));
    }
    if s.role == Candidate {
      assert CandidateTie(l, v, ApplyCommitted(s));
    }
  }
}
