/** Reads waiting at a leader, and why one that resolves is linearizable. */
module ReadTies {
  import opened RaftTypes
  import opened RaftCore
  import opened Ledgers
  import opened ReplicaTie
  import opened HandlerTies
  import opened LeaderTies
  import opened RaftGroup

  // ---- what has been applied ----

  ghost predicate DoneBy(l: Ledger, d: Done, t: nat) {
    t in l.committed && t in l.reign && 1 <= d.index <= l.committed[t] && d.index <= |l.reign[t].log| &&
    l.reign[t].log[d.index - 1] == d.entry
  }

  ghost predicate DoneTie(l: Ledger, d: Done) {
    exists t :: DoneBy(l, d, t)
  }

  lemma DoneStays(l: Ledger, m: Ledger, d: Done)
    requires Extends(l, m) && DoneTie(l, d)
    ensures DoneTie(m, d)
  {
    var t :| DoneBy(l, d, t);
    assert DoneBy(m, d, t);
  }

  // ---- one waiting read ----

  /** An answer that a read counts: to a call its leader sent, in its term, after the read arrived. */
  predicate Confirms(a: Answer, v: nat, t: nat, number: nat) {
    a.Appended? && a.push.leader == v && a.push.term == t && a.push.number >= number && a.append.term == t
  }

  /** `was` is the record when the read arrived. Whoever confirms the read was in no later term then;
      and the read's index, once set, is past everything this leader had committed then. */
  ghost predicate ReadTie(l: Ledger, was: Ledger, v: nat, t: nat, r: PendingRead, answers: set<Answer>) {
    && Inv(was) && Extends(was, l) && |r.acks| == l.Size()
    && (forall p: nat | p < |r.acks| && r.acks[p] :: was.term[p] <= t)
    && AnswersConfirm(was, v, t, r.number, answers)
    && (r.index == 0 ==> t !in was.committed)
    && (r.index > 0 ==> Own(l, t, r.index) && (t in was.committed ==> was.committed[t] <= r.index))
  }

  ghost predicate AnswersConfirm(was: Ledger, v: nat, t: nat, number: nat, answers: set<Answer>) {
    forall a | a in answers && Confirms(a, v, t, number) :: AnswerEarly(was, a, t)
  }

  ghost predicate AnswerEarly(was: Ledger, a: Answer, t: nat) {
    a.from < was.Size() && was.term[a.from] <= t
  }

  lemma ReadStays(l: Ledger, m: Ledger, was: Ledger, v: nat, t: nat, r: PendingRead, answers: set<Answer>,
                  more: set<Answer>)
    requires ReadTie(l, was, v, t, r, answers) && Extends(l, m)
    requires forall a | a in more && a.Appended? :: a.from < m.Size() && a.append.term == m.term[a.from]
    ensures ReadTie(m, was, v, t, r, answers + more)
  {
    ExtendsTransitive(was, l, m);
    forall a | a in answers + more && Confirms(a, v, t, r.number)
      ensures AnswerEarly(was, a, t)
    {
      assert a in answers ==> AnswerEarly(was, a, t);
    }
  }

  /** A confirmation is counted. */
  lemma ReadConfirmed(l: Ledger, was: Ledger, v: nat, t: nat, r: PendingRead, answers: set<Answer>, a: Answer)
    requires ReadTie(l, was, v, t, r, answers) && a in answers && Confirms(a, v, t, r.number) && a.from < |r.acks|
    ensures ReadTie(l, was, v, t, r.(acks := r.acks[a.from := true]), answers)
  {
    assert AnswerEarly(was, a, t);
  }

  /** A read that has just arrived. */
  lemma ReadArrives(l: Ledger, v: nat, s: Core, id: nat, answers: set<Answer>)
    requires Inv(l) && CoreTie(l, v, s) && s.role == Leader
    requires forall a | a in answers && a.Appended? && a.push.leader == v &&
             a.push.term == s.term :: a.push.number <= s.number
    ensures ReadTie(l, l, v, s.term, NewRead(s, id), answers)
  {
    ExtendsSelf(l);
    CommitIsOwn(l, v, s);
  }

  /** A leader's commit index is of its own term exactly when it has committed in its term. */
  lemma CommitIsOwn(l: Ledger, v: nat, s: Core)
    requires CommittedOk(l) && CoreTie(l, v, s) && s.role == Leader
    ensures TermAt(s.log, s.commit) == s.term <==> s.term in l.committed
    ensures s.term in l.committed ==> s.commit == l.committed[s.term] && Own(l, s.term, s.commit)
  {
    assert s.term in l.committed ==> CommitHolds(l, s.term);
  }

  /** Its index is set, once the leader has committed in its own term. */
  lemma ReadIndexed(l: Ledger, was: Ledger, v: nat, s: Core, r: PendingRead, answers: set<Answer>)
    requires CommittedOk(l) && CoreTie(l, v, s) && s.role == Leader && ReadTie(l, was, v, s.term, r, answers)
    ensures ReadTie(l, was, v, s.term, Indexed(s, r), answers)
  {
    CommitIsOwn(l, v, s);
    assert r.index == 0 && s.term in l.committed ==> Own(l, s.term, s.commit) && s.commit > 0;
  }

  // ---- the theorem for one read ----

  /** Any leader that had committed when the read arrived did so in a term no later than t. */
  lemma EarlierCommit(was: Ledger, acks: seq<bool>, t: nat, u: nat)
    requires CommittedOk(was) && |was.log| == was.Size() && AcksOk(was) && u in was.committed && |acks| == was.Size()
    requires Most(Count(acks), was.Size())
    requires forall p: nat | p < |acks| && acks[p] :: was.term[p] <= t
    ensures u <= t
  {
    var n := was.committed[u];
    assert CommitHolds(was, u);
    MostIsMajority(acks, was.Size());
    var p := Overlap(Trues(acks), Ackers(was, u, n), was.Size());
    assert AckHolds(was, Ballot(u, p));
  }

  /** Everything committed when the read arrived lies at or below its index. */
  lemma ReadSafe(l: Ledger, was: Ledger, v: nat, t: nat, r: PendingRead, answers: set<Answer>, u: nat)
    requires Inv(l) && ReadTie(l, was, v, t, r, answers)
    requires r.index > 0 && Most(Count(r.acks), l.Size()) && u in was.committed
    ensures was.committed[u] <= r.index
  {
    EarlierCommit(was, r.acks, t, u);
    assert CommitHolds(was, u);
    if u < t {
      LeaderCompleteness(l, u, t);
      assert ReignHolds(l, t);
      var n := was.committed[u];
      assert was.reign[u].log[n - 1] == l.reign[u].log[n - 1] == l.reign[u].log[..l.committed[u]][n - 1];
      assert l.reign[t].log[n - 1] == l.reign[t].log[..l.committed[u]][n - 1];
    }
  }

  lemma ReadCovers(l: Ledger, was: Ledger, v: nat, t: nat, r: PendingRead, answers: set<Answer>, d: Done)
    requires Inv(l) && ReadTie(l, was, v, t, r, answers) && r.index > 0 && Most(Count(r.acks), l.Size())
    requires DoneTie(was, d)
    ensures d.index <= r.index
  {
    var u :| DoneBy(was, d, u);
    ReadSafe(l, was, v, t, r, answers, u);
  }

  // ---- all the reads waiting at one replica ----

  ghost predicate ReadHolds(l: Ledger, tickets: map<Ticket, Snapshot>, v: nat, life: nat, t: nat, r: PendingRead,
                            answers: set<Answer>) {
    var k := Ticket(v, life, r.id);
    k in tickets && ReadTie(l, tickets[k].book, v, t, r, answers)
  }

  ghost predicate ReadsTie(l: Ledger, tickets: map<Ticket, Snapshot>, v: nat, life: nat, s: Core,
                           answers: set<Answer>) {
    forall r {:trigger ReadHolds(l, tickets, v, life, s.term, r, answers)} | r in s.pending ::
      ReadHolds(l, tickets, v, life, s.term, r, answers)
  }

  ghost predicate Freshly(l: Ledger, more: set<Answer>) {
    forall a | a in more && a.Appended? :: a.from < l.Size() && a.append.term == l.term[a.from]
  }

  ghost predicate KeepsTickets(tickets: map<Ticket, Snapshot>, more: map<Ticket, Snapshot>) {
    forall k | k in tickets :: k in more && more[k] == tickets[k]
  }

  lemma ReadsStay(l: Ledger, m: Ledger, tickets: map<Ticket, Snapshot>, tickets': map<Ticket, Snapshot>,
                  v: nat, life: nat, s: Core, s': Core, answers: set<Answer>, more: set<Answer>)
    requires ReadsTie(l, tickets, v, life, s, answers) && Extends(l, m) && Freshly(m, more)
    requires KeepsTickets(tickets, tickets')
    requires s'.pending == [] || (s'.pending == s.pending && s'.term == s.term)
    ensures ReadsTie(m, tickets', v, life, s', answers + more)
  {
    forall r | r in s'.pending
      ensures ReadHolds(m, tickets', v, life, s'.term, r, answers + more)
    {
      assert ReadHolds(l, tickets, v, life, s.term, r, answers);
      ReadStays(l, m, tickets[Ticket(v, life, r.id)].book, v, s.term, r, answers, more);
    }
  }

  lemma ReadsConfirmed(l: Ledger, tickets: map<Ticket, Snapshot>, v: nat, life: nat, s: Core, s': Core,
                       answers: set<Answer>, a: Answer)
    requires ReadsTie(l, tickets, v, life, s, answers) && a in answers && Confirms(a, v, s.term, 0)
    requires s'.pending == Confirm(s.pending, a.from, a.push.number) && s'.term == s.term
    ensures ReadsTie(l, tickets, v, life, s', answers)
  {
    forall r' | r' in s'.pending
      ensures ReadHolds(l, tickets, v, life, s'.term, r', answers)
    {
      var i :| 0 <= i < |s'.pending| && s'.pending[i] == r';
      var r := s.pending[i];
      assert ReadHolds(l, tickets, v, life, s.term, r, answers);
      if a.push.number >= r.number && a.from < |r.acks| {
        ReadConfirmed(l, tickets[Ticket(v, life, r.id)].book, v, s.term, r, answers, a);
      }
    }
  }

  lemma ReadsArrive(l: Ledger, tickets: map<Ticket, Snapshot>, v: nat, life: nat, s: Core, s': Core,
                    answers: set<Answer>, id: nat, done: set<Done>)
    requires ReadsTie(l, tickets, v, life, s, answers) && Inv(l) && CoreTie(l, v, s) && s.role == Leader
    requires Ticket(v, life, id) !in tickets
    requires forall a | a in answers && a.Appended? && a.push.leader == v &&
             a.push.term == s.term :: a.push.number <= s.number
    requires s'.pending == s.pending + [NewRead(s, id)] && s'.term == s.term
    ensures ReadsTie(l, tickets[Ticket(v, life, id) := Snapshot(l, done)], v, life, s', answers)
  {
    var tickets' := tickets[Ticket(v, life, id) := Snapshot(l, done)];
    forall r | r in s'.pending
      ensures ReadHolds(l, tickets', v, life, s'.term, r, answers)
    {
      if r in s.pending {
        assert ReadHolds(l, tickets, v, life, s.term, r, answers);
      } else {
        ReadArrives(l, v, s, id, answers);
      }
    }
  }

  // ---- the end of a step ----

  lemma {:induction false} WaitingFrom(s: Core, pending: seq<PendingRead>, r': PendingRead) returns (r: PendingRead)
    requires r' in Waiting(s, pending)
    ensures r in pending && r' == Indexed(s, r) && !Answerable(s, r')
  {
    var k := |pending| - 1;
    r := pending[k];
    if r' in Waiting(s, pending[..k]) {
      r := WaitingFrom(s, pending[..k], r');
    }
  }

  lemma {:induction false} AnsweredFrom(s: Core, pending: seq<PendingRead>, o: ReadResult) returns (r: PendingRead)
    requires o in Answered(s, pending)
    ensures r in pending && Answerable(s, Indexed(s, r)) && o == ReadResult(r.id, true)
  {
    var k := |pending| - 1;
    r := pending[k];
    if o in Answered(s, pending[..k]) {
      r := AnsweredFrom(s, pending[..k], o);
    }
  }

  lemma ReadsWait(l: Ledger, tickets: map<Ticket, Snapshot>, v: nat, life: nat, s: Core, s': Core, answers: set<Answer>)
    requires CommittedOk(l) && CoreTie(l, v, s) && s.role == Leader && ReadsTie(l, tickets, v, life, s, answers)
    requires s'.pending == Waiting(s, s.pending) && s'.term == s.term
    ensures ReadsTie(l, tickets, v, life, s', answers)
  {
    forall r' | r' in s'.pending
      ensures ReadHolds(l, tickets, v, life, s'.term, r', answers)
    {
      var r := WaitingFrom(s, s.pending, r');
      assert ReadHolds(l, tickets, v, life, s.term, r, answers);
      ReadIndexed(l, tickets[Ticket(v, life, r.id)].book, v, s, r, answers);
    }
  }

  /** An answered read was answered at or past everything applied anywhere when it arrived. */
  lemma ReadAnswered(l: Ledger, tickets: map<Ticket, Snapshot>, v: nat, life: nat, s: Core, answers: set<Answer>,
                     o: ReadResult, d: Done)
    requires Inv(l) && CoreTie(l, v, s) && s.role == Leader && ReadsTie(l, tickets, v, life, s, answers)
    requires o in Answered(s, s.pending)
    ensures Ticket(v, life, o.id) in tickets
    ensures DoneTie(tickets[Ticket(v, life, o.id)].book, d) ==> d.index <= s.applied
  {
    var r := AnsweredFrom(s, s.pending, o);
    assert ReadHolds(l, tickets, v, life, s.term, r, answers);
    var was := tickets[Ticket(v, life, r.id)].book;
    ReadIndexed(l, was, v, s, r, answers);
    if DoneTie(was, d) {
      ReadCovers(l, was, v, s.term, Indexed(s, r), answers, d);
    }
  }
}
