/** What a Raft group has ever made durable, as one growing record, and the safety argument of
    the Raft paper carried out on that record. No message, timer or volatile field appears here:
    the group model (raft_group.dfy) shows that every step of every replica, torn saves and
    crashes included, is a sequence of the actions below. */
module Ledgers {
  import opened RaftTypes

  /** A replica in a term: one possible vote, one possible candidacy, one possible matching. */
  datatype Ballot = Ballot(term: nat, who: nat)

  /** The one leadership of a term: who led, who voted for it, and its log, which only grows. */
  datatype Reign = Reign(leader: nat, voters: set<nat>, log: seq<Entry>)

  datatype Ledger = Ledger(
    term: seq<nat>,                     // each replica's durable term
    log: seq<seq<Entry>>,               // each replica's durable log
    votes: map<Ballot, nat>,            // every vote ever durable: voter's ballot to candidate
    stood: map<Ballot, seq<Entry>>,     // every candidacy: the log it stood with
    reign: map<nat, Reign>,             // every leadership, by term
    acks: map<Ballot, nat>,             // how far a replica matched the leader of a term
    committed: map<nat, nat>)           // how far the leader of a term committed
  {
    ghost function Size(): nat { |term| }
  }

  // ---- vocabulary ----

  ghost predicate Acked(l: Ledger, v: nat, t: nat, n: nat) {
    Ballot(t, v) in l.acks && n <= l.acks[Ballot(t, v)]
  }

  ghost function Ackers(l: Ledger, t: nat, n: nat): set<nat> {
    set v | v in Members(l.Size()) && Acked(l, v, t, n)
  }

  /** Replicas that have left term t without matching its leader through n, and so never will. */
  ghost function Deserters(l: Ledger, t: nat, n: nat): set<nat> {
    set v | v in Members(l.Size()) && l.term[v] > t && !Acked(l, v, t, n)
  }

  ghost predicate Chosen(l: Ledger, t: nat, n: nat) {
    Majority(Ackers(l, t, n), l.Size())
  }

  /** Entry n of term t's leader can never be matched by a majority in term t. */
  ghost predicate Dead(l: Ledger, t: nat, n: nat) {
    Majority(Deserters(l, t, n), l.Size())
  }

  /** Entry n of term t's leader was made in term t (not inherited). */
  ghost predicate Own(l: Ledger, t: nat, n: nat) {
    t in l.reign && 1 <= n <= |l.reign[t].log| && l.reign[t].log[n - 1].term == t
  }

  ghost predicate Covers(l: Ledger, log: seq<Entry>, t: nat, n: nat)
    requires t in l.reign
  {
    Agree(log, l.reign[t].log, n) || Dead(l, t, n)
  }

  /** Every entry was made by its term's leader, at this index, over this very prefix. */
  ghost predicate Traced(l: Ledger, log: seq<Entry>) {
    forall i | 0 <= i < |log| ::
      log[i].term in l.reign && Agree(log, l.reign[log[i].term].log, i + 1)
  }

  /** The first k entries of `log` are committed, by a leader of term at most `bound`. */
  ghost predicate Settled(l: Ledger, log: seq<Entry>, k: nat, bound: nat) {
    k == 0 || exists t :: SettledBy(l, log, k, bound, t)
  }

  ghost predicate SettledBy(l: Ledger, log: seq<Entry>, k: nat, bound: nat, t: nat) {
    t in l.committed && t in l.reign && t <= bound && k <= l.committed[t] && Agree(log, l.reign[t].log, k)
  }

  // ---- the invariant ----

  ghost predicate VoteHolds(l: Ledger, b: Ballot)
    requires b in l.votes
  {
    b.who < l.Size() && l.votes[b] < l.Size() && b.term <= l.term[b.who] &&
    Ballot(b.term, l.votes[b]) in l.stood
  }

  ghost predicate VotesOk(l: Ledger) {
    forall b {:trigger VoteHolds(l, b)} | b in l.votes :: VoteHolds(l, b)
  }

  ghost predicate GoodLog(l: Ledger, log: seq<Entry>, bound: nat) {
    Traced(l, log) && Rising(log) && Bounded(log, bound)
  }

  ghost predicate StoodHolds(l: Ledger, b: Ballot)
    requires b in l.stood
  {
    1 <= b.term && b.who < l.Size() && b in l.votes && l.votes[b] == b.who &&
    GoodLog(l, l.stood[b], b.term - 1)
  }

  ghost predicate StoodOk(l: Ledger) {
    forall b {:trigger StoodHolds(l, b)} | b in l.stood :: StoodHolds(l, b)
  }

  ghost predicate ReignHolds(l: Ledger, t: nat)
    requires t in l.reign
  {
    var r := l.reign[t];
    && Majority(r.voters, l.Size())
    && r.leader < l.Size()
    && (forall q | q in r.voters :: Ballot(t, q) in l.votes && l.votes[Ballot(t, q)] == r.leader)
    && Ballot(t, r.leader) in l.stood
    && l.stood[Ballot(t, r.leader)] < r.log
    && (forall i | |l.stood[Ballot(t, r.leader)]| <= i < |r.log| :: r.log[i].term == t)
    && GoodLog(l, r.log, t)
  }

  ghost predicate ReignOk(l: Ledger) {
    forall t {:trigger ReignHolds(l, t)} | t in l.reign :: ReignHolds(l, t)
  }

  ghost predicate LogHolds(l: Ledger, v: nat)
    requires |l.log| == l.Size() && v < l.Size()
  {
    GoodLog(l, l.log[v], l.term[v])
  }

  ghost predicate LogsOk(l: Ledger)
    requires |l.log| == l.Size()
  {
    forall v: nat {:trigger LogHolds(l, v)} | v < l.Size() :: LogHolds(l, v)
  }

  ghost predicate AckHolds(l: Ledger, b: Ballot)
    requires b in l.acks && |l.log| == l.Size()
  {
    && b.who < l.Size() && b.term in l.reign && b.term <= l.term[b.who]
    && l.acks[b] <= |l.reign[b.term].log|
    && (l.term[b.who] == b.term ==> Agree(l.log[b.who], l.reign[b.term].log, l.acks[b]))
    && (forall n | n <= l.acks[b] && Own(l, b.term, n) :: Covers(l, l.log[b.who], b.term, n))
  }

  ghost predicate AcksOk(l: Ledger)
    requires |l.log| == l.Size()
  {
    forall b {:trigger AckHolds(l, b)} | b in l.acks :: AckHolds(l, b)
  }

  /** Leader Completeness in the form that is inductive: a later leader holds entry n of term t,
      or entry n of term t can never be committed in term t. */
  ghost predicate CompleteOk(l: Ledger) {
    forall t: nat, u: nat, n: nat {:trigger Covers(l, l.reign[u].log, t, n)} |
      t < u && u in l.reign && Own(l, t, n) :: Covers(l, l.reign[u].log, t, n)
  }

  /** A vote carries the same promise: the candidate holds whatever the voter had matched. */
  ghost predicate BallotSafe(l: Ledger, b: Ballot, t: nat)
    requires b in l.votes
  {
    && Ballot(b.term, l.votes[b]) in l.stood
    && forall n | Own(l, t, n) && Acked(l, b.who, t, n) :: Covers(l, l.stood[Ballot(b.term, l.votes[b])], t, n)
  }

  ghost predicate BallotsOk(l: Ledger) {
    forall b, t: nat {:trigger BallotSafe(l, b, t)} | b in l.votes && t < b.term :: BallotSafe(l, b, t)
  }

  ghost predicate CommitHolds(l: Ledger, t: nat)
    requires t in l.committed
  {
    Own(l, t, l.committed[t]) && Chosen(l, t, l.committed[t])
  }

  ghost predicate CommittedOk(l: Ledger) {
    forall t {:trigger CommitHolds(l, t)} | t in l.committed :: CommitHolds(l, t)
  }

  ghost predicate Inv(l: Ledger) {
    && |l.log| == l.Size()
    && VotesOk(l)
    && StoodOk(l)
    && ReignOk(l)
    && LogsOk(l)
    && AcksOk(l)
    && CompleteOk(l)
    && BallotsOk(l)
    && CommittedOk(l)
  }

  // ---- how the record grows ----

  ghost predicate Extends(l: Ledger, m: Ledger) {
    && m.Size() == l.Size() && |l.log| == |m.log| == l.Size()
    && (forall v: nat | v < l.Size() :: l.term[v] <= m.term[v])
    && (forall b | b in l.votes :: b in m.votes && m.votes[b] == l.votes[b])
    && (forall b | b in l.stood :: b in m.stood && m.stood[b] == l.stood[b])
    && (forall t | t in l.reign ::
          t in m.reign && m.reign[t].leader == l.reign[t].leader && m.reign[t].voters == l.reign[t].voters &&
          l.reign[t].log <= m.reign[t].log)
    && (forall b | b in l.acks :: b in m.acks && l.acks[b] <= m.acks[b])
    && (forall b | b in m.acks && b.who < l.Size() && l.term[b.who] > b.term :: b in l.acks && m.acks[b] == l.acks[b])
    && (forall t | t in l.committed :: t in m.committed && l.committed[t] <= m.committed[t])
  }

  lemma ExtendsTransitive(l: Ledger, m: Ledger, k: Ledger)
    requires Extends(l, m) && Extends(m, k)
    ensures Extends(l, k)
  {
    forall t | t in l.reign
      ensures t in k.reign && l.reign[t].log <= k.reign[t].log
    {
      assert l.reign[t].log <= m.reign[t].log <= k.reign[t].log;
    }
  }

  lemma DeadStays(l: Ledger, m: Ledger, t: nat, n: nat)
    requires Extends(l, m) && Dead(l, t, n)
    ensures Dead(m, t, n)
  {
    assert Deserters(l, t, n) <= Deserters(m, t, n) <= Members(m.Size());
    MajorityGrows(Deserters(l, t, n), Deserters(m, t, n), m.Size());
  }

  lemma ChosenStays(l: Ledger, m: Ledger, t: nat, n: nat)
    requires Extends(l, m) && Chosen(l, t, n)
    ensures Chosen(m, t, n)
  {
    assert Ackers(l, t, n) <= Ackers(m, t, n) <= Members(m.Size());
    MajorityGrows(Ackers(l, t, n), Ackers(m, t, n), m.Size());
  }

  lemma ChosenNotDead(l: Ledger, t: nat, n: nat)
    requires Chosen(l, t, n)
    ensures !Dead(l, t, n)
  {
    if Dead(l, t, n) {
      var x := Overlap(Ackers(l, t, n), Deserters(l, t, n), l.Size());
      assert false;
    }
  }

  lemma CoversStays(l: Ledger, m: Ledger, log: seq<Entry>, t: nat, n: nat)
    requires Extends(l, m) && t in l.reign && n <= |l.reign[t].log| && Covers(l, log, t, n)
    ensures Covers(m, log, t, n)
  {
    if Dead(l, t, n) {
      DeadStays(l, m, t, n);
    } else {
      assert m.reign[t].log[..n] == l.reign[t].log[..n];
    }
  }

  lemma CoversGrows(l: Ledger, m: Ledger, log: seq<Entry>, longer: seq<Entry>, t: nat, n: nat)
    requires Extends(l, m) && t in l.reign && n <= |l.reign[t].log| && Covers(l, log, t, n) && log <= longer
    ensures Covers(m, longer, t, n)
  {
    CoversStays(l, m, log, t, n);
    if n <= |log| {
      assert longer[..n] == log[..n];
    }
  }

  lemma TracedStays(l: Ledger, m: Ledger, log: seq<Entry>)
    requires Extends(l, m) && Traced(l, log)
    ensures Traced(m, log)
  {
    forall i | 0 <= i < |log|
      ensures log[i].term in m.reign && Agree(log, m.reign[log[i].term].log, i + 1)
    {
      var t := log[i].term;
      assert m.reign[t].log[..i + 1] == l.reign[t].log[..i + 1];
    }
  }

  lemma SettledStays(l: Ledger, m: Ledger, log: seq<Entry>, k: nat, bound: nat, bound': nat)
    requires Extends(l, m) && Settled(l, log, k, bound) && bound <= bound'
    ensures Settled(m, log, k, bound')
  {
    if k > 0 {
      var t :| SettledBy(l, log, k, bound, t);
      assert m.reign[t].log[..k] == l.reign[t].log[..k];
      assert SettledBy(m, log, k, bound', t);
    }
  }

  // ---- the actions ----

  ghost function Advance(l: Ledger, v: nat, t: nat): Ledger
    requires v < l.Size()
  {
    l.(term := l.term[v := t])
  }

  ghost function Vote(l: Ledger, v: nat, c: nat): Ledger
    requires v < l.Size()
  {
    l.(votes := l.votes[Ballot(l.term[v], v) := c])
  }

  ghost function Stand(l: Ledger, v: nat): Ledger
    requires v < l.Size() && |l.log| == l.Size()
  {
    var t := l.term[v] + 1;
    l.(term := l.term[v := t],
       votes := l.votes[Ballot(t, v) := v],
       stood := l.stood[Ballot(t, v) := l.log[v]])
  }

  ghost function Win(l: Ledger, c: nat, q: set<nat>): Ledger
    requires c < l.Size() && |l.log| == l.Size()
  {
    var t := l.term[c];
    var log := l.log[c] + [Entry(t, "NOOP")];
    l.(log := l.log[c := log],
       reign := l.reign[t := Reign(c, q, log)],
       acks := l.acks[Ballot(t, c) := |log|])
  }

  ghost function Lengthen(l: Ledger, c: nat, command: string): Ledger
    requires c < l.Size() && |l.log| == l.Size() && l.term[c] in l.reign
  {
    var t := l.term[c];
    var log := l.log[c] + [Entry(t, command)];
    l.(log := l.log[c := log],
       reign := l.reign[t := l.reign[t].(log := log)],
       acks := l.acks[Ballot(t, c) := |log|])
  }

  ghost function Accept(l: Ledger, v: nat, log: seq<Entry>): Ledger
    requires v < l.Size() && |l.log| == l.Size()
  {
    l.(log := l.log[v := log])
  }

  ghost function Match(l: Ledger, v: nat, n: nat): Ledger
    requires v < l.Size()
  {
    var b := Ballot(l.term[v], v);
    if b in l.acks && l.acks[b] >= n then l else l.(acks := l.acks[b := n])
  }

  ghost function Commit(l: Ledger, c: nat, n: nat): Ledger
    requires c < l.Size()
  {
    l.(committed := l.committed[l.term[c] := n])
  }

  // ---- when each action is allowed ----

  ghost predicate CanVote(l: Ledger, v: nat, c: nat) {
    && v < l.Size() && |l.log| == l.Size()
    && Ballot(l.term[v], v) !in l.votes
    && Ballot(l.term[v], c) in l.stood
    && var s := l.stood[Ballot(l.term[v], c)];
    AtLeastAsUpToDate(l.log[v], TermAt(s, |s|), |s|)
  }

  ghost predicate CanWin(l: Ledger, c: nat, q: set<nat>) {
    && c < l.Size() && |l.log| == l.Size()
    && l.term[c] !in l.reign
    && Ballot(l.term[c], c) in l.stood && l.stood[Ballot(l.term[c], c)] == l.log[c]
    && Majority(q, l.Size())
    && forall p | p in q :: Ballot(l.term[c], p) in l.votes && l.votes[Ballot(l.term[c], p)] == c
  }

  ghost predicate CanLengthen(l: Ledger, c: nat) {
    && c < l.Size() && |l.log| == l.Size()
    && l.term[c] in l.reign && l.reign[l.term[c]].leader == c && l.reign[l.term[c]].log == l.log[c]
  }

  /** `log` replaces replica v's log on the word of the leader of v's term: it is a prefix of that
      leader's log, and either continues v's log or starts where v's log conflicts. */
  ghost predicate CanAccept(l: Ledger, v: nat, log: seq<Entry>) {
    && v < l.Size() && |l.log| == l.Size()
    && l.term[v] in l.reign
    && log <= l.reign[l.term[v]].log
    && (l.log[v] <= log || exists j: nat :: ConflictAt(l, v, j) && j <= |log|)
  }

  ghost predicate ConflictAt(l: Ledger, v: nat, j: nat)
    requires v < l.Size() && |l.log| == l.Size() && l.term[v] in l.reign
  {
    var r := l.reign[l.term[v]].log;
    j < |l.log[v]| && j < |r| && l.log[v][j] != r[j]
  }

  ghost predicate CanMatch(l: Ledger, v: nat, n: nat) {
    && v < l.Size() && |l.log| == l.Size()
    && l.term[v] in l.reign && Agree(l.log[v], l.reign[l.term[v]].log, n)
  }

  ghost predicate CanCommit(l: Ledger, c: nat, n: nat) {
    && c < l.Size()
    && Own(l, l.term[c], n) && Chosen(l, l.term[c], n)
    && (l.term[c] in l.committed ==> l.committed[l.term[c]] <= n)
  }

  // ---- frames: what follows when an action leaves reigns and matchings alone ----

  lemma GoodLogStays(l: Ledger, m: Ledger, log: seq<Entry>, bound: nat)
    requires Extends(l, m) && GoodLog(l, log, bound)
    ensures GoodLog(m, log, bound)
  {
    TracedStays(l, m, log);
  }

  lemma BallotStays(l: Ledger, m: Ledger, b: Ballot, t: nat)
    requires Inv(l) && Extends(l, m) && b in l.votes && t < b.term
    ensures b in m.votes && BallotSafe(m, b, t)
  {
    assert BallotSafe(l, b, t) && VoteHolds(l, b);
    forall n | Own(m, t, n) && Acked(m, b.who, t, n)
      ensures Covers(m, m.stood[Ballot(b.term, m.votes[b])], t, n)
    {
      assert Ballot(t, b.who) in l.acks;
      assert AckHolds(l, Ballot(t, b.who));
      assert Own(l, t, n);
      CoversStays(l, m, l.stood[Ballot(b.term, l.votes[b])], t, n);
    }
  }

  lemma ReignFrame(l: Ledger, m: Ledger)
    requires Inv(l) && Extends(l, m) && m.reign == l.reign
    ensures ReignOk(m) && CompleteOk(m)
  {
    forall t | t in m.reign
      ensures ReignHolds(m, t)
    {
      assert ReignHolds(l, t);
      GoodLogStays(l, m, l.reign[t].log, t);
    }
    forall t: nat, u: nat, n: nat | t < u && u in m.reign && Own(m, t, n)
      ensures Covers(m, m.reign[u].log, t, n)
    {
      assert Own(l, t, n) && Covers(l, l.reign[u].log, t, n);
      CoversStays(l, m, l.reign[u].log, t, n);
    }
  }

  lemma CommittedFrame(l: Ledger, m: Ledger)
    requires CommittedOk(l) && Extends(l, m) && m.committed == l.committed
    ensures CommittedOk(m)
  {
    forall t | t in m.committed
      ensures CommitHolds(m, t)
    {
      assert CommitHolds(l, t);
      ChosenStays(l, m, t, l.committed[t]);
    }
  }

  lemma LogsFrame(l: Ledger, m: Ledger)
    requires Inv(l) && Extends(l, m) && m.acks == l.acks && m.log == l.log
    ensures LogsOk(m) && AcksOk(m)
  {
    LogsStay(l, m);
    forall b | b in m.acks
      ensures AckHolds(m, b)
    {
      assert AckHolds(l, b);
      AckStays(l, m, b);
    }
  }

  lemma KeepsFrame(l: Ledger, m: Ledger)
    requires Inv(l) && Extends(l, m)
    requires m.reign == l.reign && m.acks == l.acks && m.log == l.log && m.committed == l.committed
    ensures ReignOk(m) && LogsOk(m) && AcksOk(m) && CompleteOk(m) && CommittedOk(m)
  {
    ReignFrame(l, m);
    CommittedFrame(l, m);
    LogsFrame(l, m);
  }

  // ---- every action grows the record and keeps the invariant ----

  lemma AdvanceKeeps(l: Ledger, v: nat, t: nat)
    requires Inv(l) && v < l.Size() && t > l.term[v]
    ensures Extends(l, Advance(l, v, t)) && Inv(Advance(l, v, t))
  {
    var m := Advance(l, v, t);
    KeepsFrame(l, m);
    VotelessFrame(l, m);
  }

  lemma StoodStays(l: Ledger, m: Ledger, b: Ballot)
    requires StoodOk(l) && Extends(l, m) && b in l.stood
    ensures StoodHolds(m, b)
  {
    assert StoodHolds(l, b);
    GoodLogStays(l, m, l.stood[b], b.term - 1);
  }

  lemma VoteStays(l: Ledger, m: Ledger, b: Ballot)
    requires VotesOk(l) && Extends(l, m) && b in l.votes
    ensures VoteHolds(m, b)
  {
    assert VoteHolds(l, b);
  }

  /** Two logs that hold an entry of one term at their ends: the shorter is a prefix of the longer. */
  lemma SameLastTerm(l: Ledger, a: seq<Entry>, b: seq<Entry>)
    requires Traced(l, a) && Traced(l, b) && 0 < |a| <= |b|
    requires a[|a| - 1].term == b[|b| - 1].term
    ensures a <= b
  {
    var t := a[|a| - 1].term;
    assert Agree(a, l.reign[t].log, |a|) && Agree(b, l.reign[t].log, |b|);
    assert b[..|a|] == l.reign[t].log[..|b|][..|a|] == l.reign[t].log[..|a|];
  }

  /** A log whose last entry is of a term after t, made by a leader that holds entry n of term t. */
  lemma LaterTermCovers(l: Ledger, cand: seq<Entry>, t: nat, n: nat)
    requires Own(l, t, n)
    requires 0 < |cand| && t < cand[|cand| - 1].term
    requires cand[|cand| - 1].term in l.reign
    requires Agree(cand, l.reign[cand[|cand| - 1].term].log, |cand|)
    requires Rising(l.reign[cand[|cand| - 1].term].log)
    requires Agree(l.reign[cand[|cand| - 1].term].log, l.reign[t].log, n)
    ensures Agree(cand, l.reign[t].log, n)
  {
    var r := l.reign[cand[|cand| - 1].term].log;
    assert r[..n][n - 1] == l.reign[t].log[..n][n - 1];
    assert r[..|cand|][|cand| - 1] == cand[|cand| - 1];
    assert n <= |cand|;
    assert cand[..n] == r[..|cand|][..n] == r[..n];
  }

  /** The heart of section 5.4.1: a log at least as up to date as one holding entry n of term t
      holds it too, unless that entry is dead. */
  lemma UpToDateCovers(l: Ledger, voter: seq<Entry>, cand: seq<Entry>, t: nat, n: nat)
    requires Own(l, t, n) && t >= 1
    requires Traced(l, voter) && Traced(l, cand) && Rising(voter)
    requires CompleteOk(l) && forall u | u in l.reign :: Rising(l.reign[u].log)
    requires Agree(voter, l.reign[t].log, n)
    requires AtLeastAsUpToDate(voter, TermAt(cand, |cand|), |cand|)
    ensures Covers(l, cand, t, n)
  {
    assert voter[..n][n - 1] == l.reign[t].log[..n][n - 1];
    var mine := voter[|voter| - 1].term;
    var u := cand[|cand| - 1].term;
    if u == mine {
      SameLastTerm(l, voter, cand);
      assert cand[..n] == cand[..|voter|][..n] == voter[..n];
    } else {
      assert t < u;
      assert Covers(l, l.reign[u].log, t, n);
      if !Dead(l, t, n) {
        LaterTermCovers(l, cand, t, n);
      }
    }
  }

  /** A vote by v in `term` for a candidate standing with `log` is safe. */
  ghost predicate SafeVote(l: Ledger, v: nat, term: nat, log: seq<Entry>) {
    forall t: nat, n: nat | t < term && Own(l, t, n) && Acked(l, v, t, n) :: Covers(l, log, t, n)
  }

  lemma UpToDateIsSafe(l: Ledger, v: nat, c: nat)
    requires Inv(l) && CanVote(l, v, c)
    ensures SafeVote(l, v, l.term[v], l.stood[Ballot(l.term[v], c)])
  {
    var s := l.stood[Ballot(l.term[v], c)];
    forall t: nat, n: nat | t < l.term[v] && Own(l, t, n) && Acked(l, v, t, n)
      ensures Covers(l, s, t, n)
    {
      assert AckHolds(l, Ballot(t, v));
      assert ReignHolds(l, t) && StoodHolds(l, Ballot(t, l.reign[t].leader));
      if Agree(l.log[v], l.reign[t].log, n) {
        assert LogHolds(l, v) && StoodHolds(l, Ballot(l.term[v], c));
        RisingReigns(l);
        UpToDateCovers(l, l.log[v], s, t, n);
      }
    }
  }

  lemma OwnLogIsSafe(l: Ledger, v: nat)
    requires Inv(l) && v < l.Size()
    ensures SafeVote(l, v, l.term[v] + 1, l.log[v])
  {
    forall t: nat, n: nat | t < l.term[v] + 1 && Own(l, t, n) && Acked(l, v, t, n)
      ensures Covers(l, l.log[v], t, n)
    {
      assert AckHolds(l, Ballot(t, v));
    }
  }

  lemma RisingReigns(l: Ledger)
    requires ReignOk(l)
    ensures forall u | u in l.reign :: Rising(l.reign[u].log)
  {
    forall u | u in l.reign
      ensures Rising(l.reign[u].log)
    {
      assert ReignHolds(l, u);
    }
  }

  /** A new ballot keeps BallotsOk if it is safe itself. */
  lemma BallotsStay(l: Ledger, m: Ledger, mine: Ballot)
    requires Inv(l) && Extends(l, m) && VotesOk(m)
    requires m.reign == l.reign && m.acks == l.acks
    requires mine in m.votes && forall b | b in m.votes && b != mine :: b in l.votes
    requires Ballot(mine.term, m.votes[mine]) in m.stood
    requires SafeVote(l, mine.who, mine.term, m.stood[Ballot(mine.term, m.votes[mine])])
    ensures BallotsOk(m)
  {
    forall b, u: nat | b in m.votes && u < b.term
      ensures BallotSafe(m, b, u)
    {
      if b != mine {
        BallotStays(l, m, b, u);
      } else {
        forall n | Own(m, u, n) && Acked(m, b.who, u, n)
          ensures Covers(m, m.stood[Ballot(b.term, m.votes[b])], u, n)
        {
          assert Own(l, u, n) && Acked(l, b.who, u, n);
          CoversStays(l, m, m.stood[Ballot(b.term, m.votes[b])], u, n);
        }
      }
    }
  }

  lemma VoteExtends(l: Ledger, v: nat, c: nat)
    requires VotesOk(l) && StoodOk(l) && CanVote(l, v, c)
    ensures Extends(l, Vote(l, v, c)) && VotesOk(Vote(l, v, c)) && StoodOk(Vote(l, v, c))
  {
    var m := Vote(l, v, c);
    assert Extends(l, m);
    assert StoodHolds(l, Ballot(l.term[v], c));
    forall b | b in m.votes
      ensures VoteHolds(m, b)
    {
      if b in l.votes {
        VoteStays(l, m, b);
      }
    }
    forall b | b in m.stood
      ensures StoodHolds(m, b)
    {
      StoodStays(l, m, b);
    }
  }

  lemma VoteKeeps(l: Ledger, v: nat, c: nat)
    requires Inv(l) && CanVote(l, v, c)
    ensures Extends(l, Vote(l, v, c)) && Inv(Vote(l, v, c))
  {
    var m := Vote(l, v, c);
    VoteExtends(l, v, c);
    KeepsFrame(l, m);
    UpToDateIsSafe(l, v, c);
    BallotsStay(l, m, Ballot(l.term[v], v));
  }

  lemma StandExtends(l: Ledger, v: nat)
    requires |l.log| == l.Size() && VotesOk(l) && StoodOk(l) && v < l.Size() && LogHolds(l, v)
    ensures Extends(l, Stand(l, v)) && VotesOk(Stand(l, v)) && StoodOk(Stand(l, v))
    ensures Ballot(l.term[v] + 1, v) !in l.votes
  {
    var m := Stand(l, v);
    var mine := Ballot(l.term[v] + 1, v);
    assert mine in l.votes ==> VoteHolds(l, mine);
    assert mine in l.stood ==> StoodHolds(l, mine);
    assert Extends(l, m);
    GoodLogStays(l, m, l.log[v], l.term[v]);
    forall b | b in m.votes
      ensures VoteHolds(m, b)
    {
      if b in l.votes {
        VoteStays(l, m, b);
      }
    }
    forall b | b in m.stood
      ensures StoodHolds(m, b)
    {
      if b in l.stood {
        StoodStays(l, m, b);
      }
    }
  }

  lemma StandKeeps(l: Ledger, v: nat)
    requires Inv(l) && v < l.Size()
    ensures Extends(l, Stand(l, v)) && Inv(Stand(l, v))
  {
    var m := Stand(l, v);
    assert LogHolds(l, v);
    StandExtends(l, v);
    KeepsFrame(l, m);
    OwnLogIsSafe(l, v);
    BallotsStay(l, m, Ballot(l.term[v] + 1, v));
  }

  // ---- actions that change logs ----

  /** What every action that casts no vote keeps. */
  lemma VotelessFrame(l: Ledger, m: Ledger)
    requires Inv(l) && Extends(l, m) && m.votes == l.votes && m.stood == l.stood
    ensures VotesOk(m) && StoodOk(m) && BallotsOk(m)
  {
    forall b | b in m.votes
      ensures VoteHolds(m, b)
    {
      VoteStays(l, m, b);
    }
    forall b | b in m.stood
      ensures StoodHolds(m, b)
    {
      StoodStays(l, m, b);
    }
    forall b, u: nat | b in m.votes && u < b.term
      ensures BallotSafe(m, b, u)
    {
      BallotStays(l, m, b, u);
    }
  }

  lemma ReignStays(l: Ledger, m: Ledger, t: nat)
    requires Extends(l, m) && t in l.reign && ReignHolds(l, t) && m.reign[t] == l.reign[t]
    ensures ReignHolds(m, t)
  {
    GoodLogStays(l, m, l.reign[t].log, t);
  }

  lemma AckStays(l: Ledger, m: Ledger, b: Ballot)
    requires Extends(l, m) && b in l.acks && AckHolds(l, b) && m.acks[b] == l.acks[b]
    requires l.log[b.who] <= m.log[b.who]
    ensures AckHolds(m, b)
  {
    var r, s := l.reign[b.term].log, m.reign[b.term].log;
    assert s[..l.acks[b]] == r[..l.acks[b]];
    forall n: nat | n <= m.acks[b] && Own(m, b.term, n)
      ensures Covers(m, m.log[b.who], b.term, n)
    {
      assert Own(l, b.term, n);
      CoversStays(l, m, l.log[b.who], b.term, n);
      assert m.log[b.who][..|l.log[b.who]|] == l.log[b.who];
      if Agree(l.log[b.who], m.reign[b.term].log, n) {
        assert m.log[b.who][..n] == l.log[b.who][..n];
      }
    }
    if l.term[b.who] == b.term {
      assert m.log[b.who][..l.acks[b]] == l.log[b.who][..l.acks[b]];
    }
  }

  // ---- winning an election ----

  lemma WinExtends(l: Ledger, c: nat, q: set<nat>)
    requires |l.log| == l.Size() && AcksOk(l) && CanWin(l, c, q)
    ensures Extends(l, Win(l, c, q))
  {
    var m := Win(l, c, q);
    var b := Ballot(l.term[c], c);
    assert b in l.acks ==> AckHolds(l, b);
  }

  /** The new leader holds, or knows to be dead, every entry made by an earlier leader. */
  lemma WinnerCovers(l: Ledger, c: nat, q: set<nat>, t: nat, n: nat)
    requires Inv(l) && CanWin(l, c, q) && Own(l, t, n) && t < l.term[c]
    ensures Covers(l, l.log[c], t, n)
  {
    if exists v :: v in q && Acked(l, v, t, n) {
      var v :| v in q && Acked(l, v, t, n);
      assert BallotSafe(l, Ballot(l.term[c], v), t);
    } else {
      forall v | v in q
        ensures v in Deserters(l, t, n)
      {
        assert VoteHolds(l, Ballot(l.term[c], v));
        assert v in Members(l.Size());
      }
      assert Deserters(l, t, n) <= Members(l.Size());
      MajorityGrows(q, Deserters(l, t, n), l.Size());
    }
  }

  /** What the leader of t makes after a later leader u was elected can never be committed. */
  lemma BelatedIsDead(l: Ledger, m: Ledger, t: nat, u: nat, n: nat)
    requires ReignOk(l) && VotesOk(l) && u in l.reign && t < u && Extends(l, m)
    requires forall v: nat | v < l.Size() && l.term[v] > t :: !Acked(m, v, t, n)
    ensures Dead(m, t, n)
  {
    assert ReignHolds(l, u);
    var q := l.reign[u].voters;
    forall v | v in q
      ensures v in Deserters(m, t, n)
    {
      assert VoteHolds(l, Ballot(u, v));
      assert v in Members(l.Size());
    }
    assert Deserters(m, t, n) <= Members(m.Size());
    MajorityGrows(q, Deserters(m, t, n), m.Size());
  }

  lemma WinReigns(l: Ledger, c: nat, q: set<nat>)
    requires Inv(l) && CanWin(l, c, q) && Extends(l, Win(l, c, q))
    ensures ReignOk(Win(l, c, q)) && LogsOk(Win(l, c, q))
  {
    var m := Win(l, c, q);
    var t := l.term[c];
    assert StoodHolds(l, Ballot(t, c));
    GoodLogStays(l, m, l.log[c], t - 1);
    assert m.log[c][..|l.log[c]|] == l.log[c];
    assert Traced(m, m.log[c]) by { TracedAppend(m, l.log[c], Entry(t, "NOOP")); }
    forall u | u in m.reign
      ensures ReignHolds(m, u)
    {
      if u != t {
        assert ReignHolds(l, u);
        ReignStays(l, m, u);
      }
    }
    forall v: nat | v < m.Size()
      ensures LogHolds(m, v)
    {
      if v != c {
        assert LogHolds(l, v);
        GoodLogStays(l, m, l.log[v], l.term[v]);
      }
    }
  }

  lemma TracedAppend(m: Ledger, log: seq<Entry>, e: Entry)
    requires Traced(m, log) && e.term in m.reign && m.reign[e.term].log == log + [e]
    ensures Traced(m, log + [e])
  {
    var log' := log + [e];
    forall i | 0 <= i < |log'|
      ensures log'[i].term in m.reign && Agree(log', m.reign[log'[i].term].log, i + 1)
    {
      if i < |log| {
        assert log'[..i + 1] == log[..i + 1];
      }
    }
  }

  lemma WinComplete(l: Ledger, c: nat, q: set<nat>)
    requires Inv(l) && CanWin(l, c, q) && Extends(l, Win(l, c, q))
    ensures CompleteOk(Win(l, c, q))
  {
    var m := Win(l, c, q);
    var t := l.term[c];
    forall s: nat, u: nat, n: nat | s < u && u in m.reign && Own(m, s, n)
      ensures Covers(m, m.reign[u].log, s, n)
    {
      if s == t {
        forall v: nat | v < l.Size() && l.term[v] > t
          ensures !Acked(m, v, t, n)
        {
          assert Ballot(t, v) in l.acks ==> AckHolds(l, Ballot(t, v));
        }
        BelatedIsDead(l, m, t, u, n);
      } else {
        assert Own(l, s, n);
        if u == t {
          WinnerCovers(l, c, q, s, n);
          CoversStays(l, m, l.log[c], s, n);
          assert Agree(l.log[c], m.reign[s].log, n) ==> m.reign[u].log[..n] == l.log[c][..n];
        } else {
          assert Covers(l, l.reign[u].log, s, n);
          CoversStays(l, m, l.reign[u].log, s, n);
        }
      }
    }
  }

  lemma WinAcks(l: Ledger, c: nat, q: set<nat>)
    requires |l.log| == l.Size() && AcksOk(l) && CanWin(l, c, q) && Extends(l, Win(l, c, q))
    ensures AcksOk(Win(l, c, q))
  {
    var m := Win(l, c, q);
    forall b | b in m.acks
      ensures AckHolds(m, b)
    {
      if b != Ballot(l.term[c], c) {
        assert m.log[c][..|l.log[c]|] == l.log[c] && AckHolds(l, b);
        AckStays(l, m, b);
      }
    }
  }

  lemma WinKeeps(l: Ledger, c: nat, q: set<nat>)
    requires Inv(l) && CanWin(l, c, q)
    ensures Extends(l, Win(l, c, q)) && Inv(Win(l, c, q))
  {
    WinExtends(l, c, q);
    WinReigns(l, c, q);
    WinAcks(l, c, q);
    WinComplete(l, c, q);
    CommittedFrame(l, Win(l, c, q));
    VotelessFrame(l, Win(l, c, q));
  }

  // ---- a leader's own entries ----

  lemma LengthenExtends(l: Ledger, c: nat, command: string)
    requires |l.log| == l.Size() && AcksOk(l) && CanLengthen(l, c)
    ensures Extends(l, Lengthen(l, c, command))
  {
    var m := Lengthen(l, c, command);
    var b := Ballot(l.term[c], c);
    if b in l.acks {
      assert AckHolds(l, b);
    }
    assert m.reign[l.term[c]].log[..|l.log[c]|] == l.log[c];
  }

  lemma LengthenReigns(l: Ledger, c: nat, command: string)
    requires Inv(l) && CanLengthen(l, c) && Extends(l, Lengthen(l, c, command))
    ensures ReignOk(Lengthen(l, c, command)) && LogsOk(Lengthen(l, c, command))
  {
    var m := Lengthen(l, c, command);
    var t := l.term[c];
    assert ReignHolds(l, t);
    GoodLogStays(l, m, l.log[c], t);
    TracedAppend(m, l.log[c], Entry(t, command));
    forall u | u in m.reign
      ensures ReignHolds(m, u)
    {
      if u != t {
        assert ReignHolds(l, u);
        ReignStays(l, m, u);
      }
    }
    forall v: nat | v < m.Size()
      ensures LogHolds(m, v)
    {
      if v != c {
        assert LogHolds(l, v);
        GoodLogStays(l, m, l.log[v], l.term[v]);
      }
    }
  }

  lemma LengthenAcks(l: Ledger, c: nat, command: string)
    requires |l.log| == l.Size() && AcksOk(l) && CanLengthen(l, c) && Extends(l, Lengthen(l, c, command))
    ensures AcksOk(Lengthen(l, c, command))
  {
    var m := Lengthen(l, c, command);
    forall b | b in m.acks
      ensures AckHolds(m, b)
    {
      if b != Ballot(l.term[c], c) {
        assert m.log[c][..|l.log[c]|] == l.log[c] && AckHolds(l, b);
        AckStays(l, m, b);
      }
    }
  }

  /** The leader's newest entry was matched by nobody who has left its term. */
  lemma NewestUnmatched(l: Ledger, c: nat, command: string)
    requires |l.log| == l.Size() && AcksOk(l) && CanLengthen(l, c)
    ensures var m := Lengthen(l, c, command);
            forall v: nat | v < l.Size() && l.term[v] > l.term[c] :: !Acked(m, v, l.term[c], |m.log[c]|)
  {
    var m := Lengthen(l, c, command);
    var t := l.term[c];
    forall v: nat | v < l.Size() && l.term[v] > t
      ensures !Acked(m, v, t, |m.log[c]|)
    {
      assert Ballot(t, v) in l.acks ==> AckHolds(l, Ballot(t, v));
    }
  }

  lemma LengthenComplete(l: Ledger, c: nat, command: string)
    requires Inv(l) && CanLengthen(l, c) && Extends(l, Lengthen(l, c, command))
    ensures CompleteOk(Lengthen(l, c, command))
  {
    var m := Lengthen(l, c, command);
    var t := l.term[c];
    NewestUnmatched(l, c, command);
    forall s: nat, u: nat, n: nat | s < u && u in m.reign && Own(m, s, n)
      ensures Covers(m, m.reign[u].log, s, n)
    {
      if s == t && n == |m.log[c]| {
        BelatedIsDead(l, m, t, u, n);
      } else {
        assert Own(l, s, n) && Covers(l, l.reign[u].log, s, n);
        CoversGrows(l, m, l.reign[u].log, m.reign[u].log, s, n);
      }
    }
  }

  lemma LengthenKeeps(l: Ledger, c: nat, command: string)
    requires Inv(l) && CanLengthen(l, c)
    ensures Extends(l, Lengthen(l, c, command)) && Inv(Lengthen(l, c, command))
  {
    LengthenExtends(l, c, command);
    LengthenReigns(l, c, command);
    LengthenAcks(l, c, command);
    LengthenComplete(l, c, command);
    CommittedFrame(l, Lengthen(l, c, command));
    VotelessFrame(l, Lengthen(l, c, command));
  }

  // ---- a follower's log ----

  /** Whatever part of the leader's log replica v held before, it holds after. */
  lemma AcceptHolds(l: Ledger, v: nat, log: seq<Entry>, n: nat)
    requires CanAccept(l, v, log) && Agree(l.log[v], l.reign[l.term[v]].log, n)
    ensures Agree(log, l.reign[l.term[v]].log, n)
  {
    var r := l.reign[l.term[v]].log;
    if !(l.log[v] <= log) {
      var j: nat :| ConflictAt(l, v, j) && j <= |log|;
      assert forall i | 0 <= i < n :: l.log[v][i] == l.log[v][..n][i] && r[i] == r[..n][i];
      assert n <= j;
    }
    assert log[..n] == r[..n];
  }

  lemma AcceptCovers(l: Ledger, v: nat, log: seq<Entry>, t: nat, n: nat)
    requires CanAccept(l, v, log) && CompleteOk(l) && Own(l, t, n) && t <= l.term[v]
    requires Covers(l, l.log[v], t, n)
    ensures Covers(l, log, t, n)
  {
    var u := l.term[v];
    if !Dead(l, t, n) {
      assert t < u ==> Covers(l, l.reign[u].log, t, n);
      AcceptHolds(l, v, log, n);
    }
  }

  lemma AcceptAck(l: Ledger, v: nat, log: seq<Entry>, b: Ballot)
    requires |l.log| == l.Size() && CanAccept(l, v, log) && CompleteOk(l)
    requires b in l.acks && b.who == v && AckHolds(l, b)
    requires Extends(l, Accept(l, v, log))
    ensures AckHolds(Accept(l, v, log), b)
  {
    var m := Accept(l, v, log);
    if b.term == l.term[v] {
      AcceptHolds(l, v, log, l.acks[b]);
    }
    forall n: nat | n <= m.acks[b] && Own(m, b.term, n)
      ensures Covers(m, m.log[v], b.term, n)
    {
      assert Own(l, b.term, n);
      AcceptCovers(l, v, log, b.term, n);
      CoversStays(l, m, log, b.term, n);
    }
  }

  lemma AcceptAcks(l: Ledger, v: nat, log: seq<Entry>)
    requires |l.log| == l.Size() && CanAccept(l, v, log) && CompleteOk(l) && AcksOk(l)
    requires Extends(l, Accept(l, v, log))
    ensures AcksOk(Accept(l, v, log))
  {
    var m := Accept(l, v, log);
    forall b | b in m.acks
      ensures AckHolds(m, b)
    {
      assert AckHolds(l, b);
      if b.who == v {
        AcceptAck(l, v, log, b);
      } else {
        AckStays(l, m, b);
      }
    }
  }

  lemma AcceptKeeps(l: Ledger, v: nat, log: seq<Entry>)
    requires Inv(l) && CanAccept(l, v, log)
    ensures Extends(l, Accept(l, v, log)) && Inv(Accept(l, v, log))
  {
    var m := Accept(l, v, log);
    SameRecordExtends(l, m);
    ReignFrame(l, m);
    CommittedFrame(l, m);
    VotelessFrame(l, m);
    AcceptLogs(l, v, log);
    AcceptAcks(l, v, log);
  }

  lemma SameRecordExtends(l: Ledger, m: Ledger)
    requires |l.log| == l.Size() && m == l.(log := m.log) && |m.log| == |l.log|
    ensures Extends(l, m)
  {
  }

  lemma AcceptLogs(l: Ledger, v: nat, log: seq<Entry>)
    requires Inv(l) && CanAccept(l, v, log) && Extends(l, Accept(l, v, log))
    ensures LogsOk(Accept(l, v, log))
  {
    var m := Accept(l, v, log);
    var r := l.reign[l.term[v]].log;
    assert ReignHolds(l, l.term[v]);
    forall w: nat | w < m.Size()
      ensures LogHolds(m, w)
    {
      if w == v {
        TracedPrefix(m, r, |log|);
        assert log == r[..|log|];
      } else {
        assert LogHolds(l, w);
        GoodLogStays(l, m, l.log[w], l.term[w]);
      }
    }
  }

  lemma TracedPrefix(l: Ledger, log: seq<Entry>, n: nat)
    requires Traced(l, log) && n <= |log|
    ensures Traced(l, log[..n])
  {
    forall i | 0 <= i < n
      ensures log[..n][i].term in l.reign && Agree(log[..n], l.reign[log[..n][i].term].log, i + 1)
    {
      assert log[..n][..i + 1] == log[..i + 1];
    }
  }

  lemma MatchExtends(l: Ledger, v: nat, n: nat)
    requires |l.log| == l.Size() && v < l.Size()
    ensures Extends(l, Match(l, v, n))
  {
  }

  lemma MatchKeeps(l: Ledger, v: nat, n: nat)
    requires Inv(l) && CanMatch(l, v, n)
    ensures Extends(l, Match(l, v, n)) && Inv(Match(l, v, n))
    ensures Acked(Match(l, v, n), v, l.term[v], n)
  {
    var m := Match(l, v, n);
    MatchExtends(l, v, n);
    if m != l {
      ReignFrame(l, m);
      CommittedFrame(l, m);
      VotelessFrame(l, m);
      MatchAcks(l, v, n);
      LogsStay(l, m);
    }
  }

  lemma LogsStay(l: Ledger, m: Ledger)
    requires Inv(l) && Extends(l, m) && m.log == l.log
    ensures LogsOk(m)
  {
    forall v: nat | v < m.Size()
      ensures LogHolds(m, v)
    {
      assert LogHolds(l, v);
      GoodLogStays(l, m, l.log[v], l.term[v]);
    }
  }

  lemma MatchAcks(l: Ledger, v: nat, n: nat)
    requires |l.log| == l.Size() && AcksOk(l) && CanMatch(l, v, n) && Match(l, v, n) != l && Extends(l, Match(l, v, n))
    ensures AcksOk(Match(l, v, n))
  {
    var m := Match(l, v, n);
    var mine := Ballot(l.term[v], v);
    forall b | b in m.acks
      ensures AckHolds(m, b)
    {
      if b != mine {
        assert AckHolds(l, b);
        AckStays(l, m, b);
      } else {
        forall k: nat | k <= n && Own(m, b.term, k)
          ensures Covers(m, m.log[v], b.term, k)
        {
          assert m.log[v][..k] == m.log[v][..n][..k] == m.reign[b.term].log[..k];
        }
      }
    }
  }

  lemma CommitCommitted(l: Ledger, c: nat, n: nat)
    requires |l.log| == l.Size() && CommittedOk(l) && CanCommit(l, c, n)
    ensures Extends(l, Commit(l, c, n)) && CommittedOk(Commit(l, c, n))
  {
    var m := Commit(l, c, n);
    assert Extends(l, m);
    forall t | t in m.committed
      ensures CommitHolds(m, t)
    {
      assert t != l.term[c] ==> CommitHolds(l, t);
      ChosenStays(l, m, t, m.committed[t]);
    }
  }

  lemma CommitKeeps(l: Ledger, c: nat, n: nat)
    requires Inv(l) && CanCommit(l, c, n)
    ensures Extends(l, Commit(l, c, n)) && Inv(Commit(l, c, n))
  {
    var m := Commit(l, c, n);
    CommitCommitted(l, c, n);
    ReignFrame(l, m);
    LogsFrame(l, m);
    VotelessFrame(l, m);
  }

  // ---- what the invariant means ----

  /** Election Safety: the leaders of one term are one replica, whoever's votes they count. */
  lemma ElectionSafety(l: Ledger, t: nat, c: nat, q: set<nat>)
    requires Inv(l) && t in l.reign && Majority(q, l.Size())
    requires forall p | p in q :: Ballot(t, p) in l.votes && l.votes[Ballot(t, p)] == c
    ensures l.reign[t].leader == c
  {
    assert ReignHolds(l, t);
    var x := Overlap(q, l.reign[t].voters, l.Size());
  }

  /** Log Matching: two replicas' logs with one term at one index are equal up to it. */
  lemma LogMatching(l: Ledger, v: nat, w: nat, i: nat)
    requires Inv(l) && v < l.Size() && w < l.Size()
    requires 1 <= i <= |l.log[v]| && i <= |l.log[w]| && TermAt(l.log[v], i) == TermAt(l.log[w], i)
    ensures l.log[v][..i] == l.log[w][..i]
  {
    assert LogHolds(l, v) && LogHolds(l, w);
    assert Agree(l.log[v], l.reign[TermAt(l.log[v], i)].log, i);
    assert Agree(l.log[w], l.reign[TermAt(l.log[w], i)].log, i);
  }

  /** Leader Completeness: what the leader of t committed is in every later leader's log. */
  lemma LeaderCompleteness(l: Ledger, t: nat, u: nat)
    requires CompleteOk(l) && CommittedOk(l) && t in l.committed && u in l.reign && t <= u
    ensures t in l.reign && Agree(l.reign[u].log, l.reign[t].log, l.committed[t])
  {
    var n := l.committed[t];
    assert CommitHolds(l, t);
    ChosenNotDead(l, t, n);
    if t < u {
      assert Covers(l, l.reign[u].log, t, n);
    }
  }

  lemma AgreeLess(a: seq<Entry>, b: seq<Entry>, n: nat, k: nat)
    requires Agree(a, b, n) && k <= n
    ensures Agree(a, b, k)
  {
    assert a[..k] == a[..n][..k] && b[..k] == b[..n][..k];
  }
}
