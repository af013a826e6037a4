/** One replica's state against the record of the group: what the replica knows is true of the
    record, and every part of every handler keeps it so while the record grows. */
module ReplicaTie {
  import opened RaftTypes
  import opened RaftCore
  import opened Ledgers

  ghost predicate VoteTie(l: Ledger, v: nat, term: nat, votedFor: int) {
    var b := Ballot(term, v);
    && (votedFor == NOBODY ==> b !in l.votes)
    && (votedFor != NOBODY ==> b in l.votes && l.votes[b] == votedFor)
  }

  ghost predicate DiskTie(l: Ledger, v: nat, d: Durable) {
    && v < l.Size() && |l.log| == l.Size()
    && l.term[v] == d.term && l.log[v] == d.log && VoteTie(l, v, d.term, d.votedFor)
  }

  ghost predicate CandidateTie(l: Ledger, v: nat, s: Core)
    requires Fits(s)
  {
    var b := Ballot(s.term, v);
    && b in l.stood && l.stood[b] == s.log
    && (s.term in l.reign ==> l.reign[s.term].leader != v)
    && (forall p | 0 <= p < s.size && s.votes[p] :: Ballot(s.term, p) in l.votes && l.votes[Ballot(s.term, p)] == v)
  }

  /** A leader's own log is its reign's log; what it believes of a peer, the peer has made durable;
      and next stays above matched and at most one past the end. */
  ghost predicate PeerTie(l: Ledger, s: Core, p: nat)
    requires Fits(s) && p < s.size
  {
    && s.matched[p] < s.next[p] <= |s.log| + 1
    && (s.matched[p] > 0 ==> Acked(l, p, s.term, s.matched[p]))
  }

  ghost predicate LeaderTie(l: Ledger, v: nat, s: Core)
    requires Fits(s)
  {
    && s.term in l.reign && l.reign[s.term].leader == v && l.reign[s.term].log == s.log
    && Acked(l, v, s.term, |s.log|)
    && (forall p: nat | p < s.size :: PeerTie(l, s, p))
    && (s.term in l.committed ==> s.commit == l.committed[s.term])
    && (TermAt(s.log, s.commit) == s.term ==> s.term in l.committed)
  }

  ghost predicate SettledTie(l: Ledger, s: Core) {
    Settled(l, s.log, s.commit, s.term) && Settled(l, s.log, s.applied, s.term)
  }

  ghost predicate CoreTie(l: Ledger, v: nat, s: Core) {
    && Fits(s) && s.id == v && s.size == l.Size() && !s.stopped
    && DiskTie(l, v, Saved(s))
    && SettledTie(l, s)
    && (s.role == Candidate ==> CandidateTie(l, v, s))
    && (s.role == Leader ==> LeaderTie(l, v, s))
    && (s.role != Leader ==> s.pending == [])
  }

  // ---- calls and answers ----

  ghost predicate CallTie(l: Ledger, c: Outgoing) {
    match c
    case Ask(to, vote) =>
      var b := Ballot(vote.term, vote.candidate);
      && to < l.Size() && to != vote.candidate && vote.candidate < l.Size()
      && b in l.stood
      && vote.lastIndex == |l.stood[b]| && vote.lastTerm == TermAt(l.stood[b], |l.stood[b]|)
    case Push(to, push) =>
      && to < l.Size() && to != push.leader && push.leader < l.Size()
      && push.term in l.reign && l.reign[push.term].leader == push.leader
      && PushTie(l.reign[push.term].log, push)
      && Settled(l, l.reign[push.term].log, push.commit, push.term)
  }

  /** The call's entries are a slice of the leader's log, after the entry it names. */
  ghost predicate PushTie(log: seq<Entry>, push: AppendRequest) {
    && push.prevIndex + |push.entries| <= |log|
    && push.entries == log[push.prevIndex..push.prevIndex + |push.entries|]
    && push.prevTerm == TermAt(log, push.prevIndex)
  }

  lemma CallStays(l: Ledger, m: Ledger, c: Outgoing)
    requires Extends(l, m) && CallTie(l, c)
    ensures CallTie(m, c)
  {
    if c.Push? {
      var push := c.append;
      var r, r' := l.reign[push.term].log, m.reign[push.term].log;
      assert r <= r';
      SettledStays(l, m, r, push.commit, push.term, push.term);
      SettledLonger(m, r, r', push.commit, push.term);
    }
  }

  lemma SettledLonger(l: Ledger, a: seq<Entry>, b: seq<Entry>, k: nat, bound: nat)
    requires Settled(l, a, k, bound) && a <= b
    ensures Settled(l, b, k, bound)
  {
    if k > 0 {
      var t :| SettledBy(l, a, k, bound, t);
      assert b[..k] == a[..k];
      assert SettledBy(l, b, k, bound, t);
    }
  }

  lemma SettledWithin(l: Ledger, a: seq<Entry>, k: nat, bound: nat)
    requires Settled(l, a, k, bound)
    ensures k <= |a|
  {
    if k > 0 {
      var t :| SettledBy(l, a, k, bound, t);
    }
  }

  // ---- the other replicas ----

  /** Only replica v acted between the two records. */
  ghost predicate OnlyBy(l: Ledger, m: Ledger, v: nat) {
    && |l.log| == |m.log| == l.Size() == m.Size()
    && (forall w: nat | w < l.Size() && w != v :: m.term[w] == l.term[w] && m.log[w] == l.log[w])
    && (forall b | b in m.votes && b.who != v :: b in l.votes)
    && (forall t | t in m.reign && (t !in l.reign || m.reign[t] != l.reign[t]) :: m.reign[t].leader == v)
    && (forall t | t in m.committed && (t !in l.committed || m.committed[t] != l.committed[t]) ::
          t in m.reign && m.reign[t].leader == v)
  }

  lemma OnlyByTransitive(l: Ledger, m: Ledger, k: Ledger, v: nat)
    requires OnlyBy(l, m, v) && OnlyBy(m, k, v) && Extends(m, k)
    ensures OnlyBy(l, k, v)
  {
  }

  lemma DiskStays(l: Ledger, m: Ledger, v: nat, w: nat, d: Durable)
    requires Extends(l, m) && OnlyBy(l, m, v) && w != v && DiskTie(l, w, d)
    ensures DiskTie(m, w, d)
  {
  }

  lemma LeaderStays(l: Ledger, m: Ledger, v: nat, w: nat, s: Core)
    requires Extends(l, m) && OnlyBy(l, m, v) && w != v && CoreTie(l, w, s) && s.role == Leader
    ensures LeaderTie(m, w, s)
  {
    assert m.reign[s.term] == l.reign[s.term];
    forall p: nat | p < s.size
      ensures PeerTie(m, s, p)
    {
      assert PeerTie(l, s, p);
    }
  }

  lemma CoreStays(l: Ledger, m: Ledger, v: nat, w: nat, s: Core)
    requires Extends(l, m) && OnlyBy(l, m, v) && w != v && CoreTie(l, w, s)
    ensures CoreTie(m, w, s)
  {
    DiskStays(l, m, v, w, Saved(s));
    SettledStays(l, m, s.log, s.commit, s.term, s.term);
    SettledStays(l, m, s.log, s.applied, s.term, s.term);
    if s.role == Leader {
      LeaderStays(l, m, v, w, s);
    }
  }
}
