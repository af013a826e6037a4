/** What a leader does with the replies it gets: it commits exactly what a majority holds, and answers
    exactly the reads that a majority has confirmed. */
module RaftProgress {
  import opened RaftTypes
  import opened RaftCore
  import opened Ledgers
  import opened ReplicaTie
  import opened HandlerTies
  import opened LeaderTies
  import opened RaftGroup
  import opened InputTies
  import opened GroupSafety
  import opened ActSafety
  import opened RaftTheorems

  // ---- what may be committed ----

  /** The replicas known to hold the leader's log up to index n. */
  function Keepers(s: Core, n: nat): set<nat>
    requires Fits(s)
  {
    set p: nat | p < s.size && (p == s.id || s.matched[p] >= n)
  }

  /** Index n is past the commit index, of the leader's own term, and held by a majority. */
  predicate Committable(s: Core, n: nat)
    requires Fits(s)
  {
    s.commit < n <= |s.log| && TermAt(s.log, n) == s.term && Majority(Keepers(s, n), s.size)
  }

  lemma HoldersAre(s: Core, n: nat)
    requires Fits(s)
    ensures Most(Count(Holders(s, n)), s.size) <==> Majority(Keepers(s, n), s.size)
  {
    MostIsMajority(Holders(s, n), s.size);
    assert Trues(Holders(s, n)) == Keepers(s, n);
  }

  lemma {:induction false} BestIsLast(s: Core, n: nat, j: nat)
    requires Fits(s) && Rising(s.log) && Bounded(s.log, s.term) && Committable(s, n) && n <= j <= |s.log|
    ensures BestCommit(s, j) >= n
    decreases j
  {
    HoldersAre(s, n);
    assert s.log[n - 1].term <= s.log[j - 1].term;
    if j > n {
      BestIsLast(s, n, j - 1);
    }
  }

  /** The commit index moves to the last index that may be committed, and stays if there is none. */
  lemma CommitExact(s: Core)
    requires Fits(s) && s.role == Leader && Rising(s.log) && Bounded(s.log, s.term)
    ensures var c := AdvanceCommit(s).commit;
            (c == s.commit || Committable(s, c)) && forall n: nat | Committable(s, n) :: n <= c
  {
    HoldersAre(s, BestCommit(s, |s.log|));
    forall n: nat | Committable(s, n)
      ensures n <= AdvanceCommit(s).commit
    {
      BestIsLast(s, n, |s.log|);
    }
  }

  // ---- which reads are answered ----

  /** The index a read is answered at: set once the leader has committed in its own term. */
  function ReadIndex(s: Core, r: PendingRead): nat {
    if r.index == 0 && TermAt(s.log, s.commit) == s.term then s.commit else r.index
  }

  function Confirmers(r: PendingRead): set<nat> {
    set p: nat | p < |r.acks| && r.acks[p]
  }

  /** A majority has confirmed the read, and its index is known and applied. */
  predicate Due(s: Core, r: PendingRead) {
    0 < ReadIndex(s, r) <= s.applied && Majority(Confirmers(r), s.size)
  }

  lemma DueIs(s: Core, r: PendingRead)
    requires |r.acks| == s.size
    ensures Indexed(s, r) == r.(index := ReadIndex(s, r)) && (Answerable(s, Indexed(s, r)) <==> Due(s, r))
  {
    MostIsMajority(r.acks, s.size);
    assert Trues(r.acks) == Confirmers(r);
  }

  /** Every waiting read is answered or waits on, by what is due in `s`. */
  ghost predicate Dealt(s: Core, pending: seq<PendingRead>, results: seq<ReadResult>, waiting: seq<PendingRead>) {
    && (forall r | r in pending && Due(s, r) :: ReadResult(r.id, true) in results)
    && (forall r | r in pending && !Due(s, r) :: r.(index := ReadIndex(s, r)) in waiting)
    && (forall o | o in results :: exists r :: r in pending && Due(s, r) && o == ReadResult(r.id, true))
    && (forall w | w in waiting :: exists r :: r in pending && !Due(s, r) && w == r.(index := ReadIndex(s, r)))
    && |results| + |waiting| == |pending|
  }

  lemma DealtMore(s: Core, pending: seq<PendingRead>, results: seq<ReadResult>, waiting: seq<PendingRead>,
                   r: PendingRead)
    requires Dealt(s, pending, results, waiting)
    ensures Due(s, r) ==> Dealt(s, pending + [r], results + [ReadResult(r.id, true)], waiting)
    ensures !Due(s, r) ==> Dealt(s, pending + [r], results, waiting + [r.(index := ReadIndex(s, r))])
  {
    assert r in pending + [r] && forall x | x in pending :: x in pending + [r];
  }

  lemma {:induction false} ReadsDealt(s: Core, pending: seq<PendingRead>)
    requires forall i | 0 <= i < |pending| :: |pending[i].acks| == s.size
    ensures Dealt(s, pending, Answered(s, pending), Waiting(s, pending))
  {
    if pending != [] {
      var k := |pending| - 1;
      ReadsDealt(s, pending[..k]);
      DueIs(s, pending[k]);
      DealtLast(s, pending, k, Answered(s, pending[..k]), Waiting(s, pending[..k]));
    }
  }

  lemma DealtLast(s: Core, pending: seq<PendingRead>, k: nat, results: seq<ReadResult>, waiting: seq<PendingRead>)
    requires |pending| == k + 1 && Dealt(s, pending[..k], results, waiting)
    ensures Due(s, pending[k]) ==> Dealt(s, pending, results + [ReadResult(pending[k].id, true)], waiting)
    ensures !Due(s, pending[k]) ==>
              Dealt(s, pending, results, waiting + [pending[k].(index := ReadIndex(s, pending[k]))])
  {
    DealtMore(s, pending[..k], results, waiting, pending[k]);
    assert pending == pending[..k] + [pending[k]];
  }

  /** The end of a leader's step: a read is answered exactly if it is due then, and otherwise waits on
      with its confirmations as they were. */
  lemma ReadsSettled(mid: Core) returns (answered: seq<ReadResult>)
    requires Fits(mid) && mid.role == Leader
    ensures var fin := Settle(mid);
            fin.results == mid.results + answered && Dealt(fin, mid.pending, answered, fin.pending)
  {
    var p := Applied(mid);
    AppliedFields(mid);
    ReadsDealt(p, p.pending);
    answered := Answered(p, p.pending);
    DealtAlike(p, Settle(mid), p.pending, answered, Waiting(p, p.pending));
  }

  lemma DealtAlike(p: Core, s: Core, pending: seq<PendingRead>, results: seq<ReadResult>, waiting: seq<PendingRead>)
    requires Dealt(p, pending, results, waiting)
    requires s.log == p.log && s.commit == p.commit && s.term == p.term && s.applied == p.applied && s.size == p.size
    ensures Dealt(s, pending, results, waiting)
  {
    assert forall r :: ReadIndex(s, r) == ReadIndex(p, r) && (Due(s, r) <==> Due(p, r));
  }

  /** And at any other replica every waiting read is answered no. */
  lemma ReadsRefused(mid: Core)
    requires Fits(mid) && mid.role != Leader
    ensures var fin := Settle(mid);
            && fin.pending == [] && |fin.results| == |mid.results| + |mid.pending|
            && fin.results[..|mid.results|] == mid.results
            && forall k | 0 <= k < |mid.pending| ::
                 fin.results[|mid.results| + k] == ReadResult(mid.pending[k].id, false)
  {
  }

  // ---- votes ----

  /** A vote is given exactly if the candidate's term is not behind, this replica has given it to no other in that
      term, and its log is no further on: first by its last term, then by its length. */
  lemma VoteExact(s: Core, ask: VoteRequest)
    requires Fits(s)
    ensures var (r, reply) := OnVote(s, ask);
            var last := if s.log == [] then 0 else s.log[|s.log| - 1].term;
            && (reply.granted <==>
                  && ask.term >= s.term
                  && (ask.term == s.term ==> s.votedFor == NOBODY || s.votedFor == ask.candidate)
                  && (ask.lastTerm > last || (ask.lastTerm == last && ask.lastIndex >= |s.log|)))
            && (reply.granted ==> r.term == reply.term == ask.term && r.votedFor == ask.candidate && r.log == s.log)
  {
  }

  function Voters(s: Core): set<nat> {
    set p: nat | p < |s.votes| && s.votes[p]
  }

  /** A candidate takes office exactly when the vote that arrives, with those it has, makes a majority. */
  lemma ElectionExact(s: Core, from: nat, asked: VoteRequest, voted: VoteReply)
    requires Fits(s) && s.role == Candidate && from < s.size && asked.term == voted.term == s.term && voted.granted
    ensures var r := OnVoteReply(s, from, asked, voted);
            && (r.role == Leader <==> Majority(Voters(s) + {from}, s.size))
            && (r.role != Leader ==> r.role == Candidate && Voters(r) == Voters(s) + {from})
  {
    var s1 := s.(votes := s.votes[from := true]);
    MostIsMajority(s1.votes, s.size);
    assert Trues(s1.votes) == Voters(s1) == Voters(s) + {from};
    SendFields(Crown(s1), Others(s.id, s.size));
  }

  // ---- a leader at rest ----

  lemma StepOf(gs: seq<Group>, acts: seq<Action>, i: nat, v: nat) returns (mid: Core)
    requires Run(gs, acts) && i < |acts| && acts[i].v == v && v < |gs[i].nodes| && gs[i].nodes[v].Up?
    requires v < |gs[i + 1].nodes| && gs[i + 1].nodes[v].Up?
    ensures acts[i].Act? && Allowed(gs[i].nodes[v].core, acts[i].i) && mid == Handle(gs[i].nodes[v].core, acts[i].i)
    ensures !mid.stopped && gs[i + 1].nodes[v] == Up(Rested(mid), gs[i].nodes[v].life)
    ensures forall o | o in Settle(mid).results && o.ok :: Ticket(v, gs[i].nodes[v].life, o.id) in gs[i + 1].served
  {
    assert StepAt(gs, acts, i);
    mid := Handle(gs[i].nodes[v].core, acts[i].i);
  }

  lemma StepKept(gs: seq<Group>, acts: seq<Action>, i: nat, v: nat)
    requires Run(gs, acts) && i < |acts| && v < |gs[i].nodes|
    ensures |gs[i + 1].nodes| == |gs[i].nodes| && gs[i].served.Keys <= gs[i + 1].served.Keys
    ensures acts[i].v != v ==> gs[i + 1].nodes[v] == gs[i].nodes[v]
    ensures gs[i].nodes[v].life <= gs[i + 1].nodes[v].life
    ensures gs[i].nodes[v].Down? && gs[i + 1].nodes[v].Up? ==>
              gs[i].nodes[v].life < gs[i + 1].nodes[v].life && gs[i + 1].nodes[v].core.role == Follower
  {
    assert StepAt(gs, acts, i);
  }

  /** A leader is as the end of its last step left it. */
  lemma {:induction false} AtRest(gs: seq<Group>, acts: seq<Action>, i: nat, v: nat) returns (mid: Core)
    requires Run(gs, acts) && i < |gs| && Leads(gs[i], v)
    ensures Fits(mid) && mid.role == Leader && gs[i].nodes[v].core == Rested(mid)
    decreases i
  {
    var h := i - 1;
    assert StepAt(gs, acts, h);
    StepKept(gs, acts, h, v);
    if acts[h].v != v {
      mid := AtRest(gs, acts, h, v);
    } else {
      mid := StepOf(gs, acts, h, v);
      AppliedFields(mid);
    }
  }

  lemma RestCommit(mid: Core, s: Core)
    requires Fits(mid) && mid.role == Leader && s == Rested(mid) && Rising(s.log) && Bounded(s.log, s.term)
    ensures Fits(s) && s.commit <= s.applied && forall n: nat :: !Committable(s, n)
  {
    AppliedFields(mid);
    var p := Applied(mid);
    WaitingFits(p, p.pending, p.size);
    CommitExact(Clean(mid));
    forall n: nat
      ensures !Committable(s, n)
    {
      assert Keepers(s, n) == Keepers(Clean(mid), n);
      assert Committable(s, n) ==> Committable(Clean(mid), n);
    }
  }

  lemma RestReads(mid: Core, s: Core)
    requires Fits(mid) && mid.role == Leader && s == Rested(mid)
    ensures forall r | r in s.pending :: !Due(s, r)
  {
    var fin := Settle(mid);
    var answered := ReadsSettled(mid);
    forall w | w in s.pending
      ensures !Due(s, w)
    {
      var r :| r in mid.pending && !Due(fin, r) && w == r.(index := ReadIndex(fin, r));
      assert ReadIndex(s, w) == ReadIndex(fin, r) && Confirmers(w) == Confirmers(r);
    }
  }

  /** In every state of every run a leader has committed all that it may, and answered every read that
      is due. */
  lemma NothingLeft(gs: seq<Group>, acts: seq<Action>, i: nat, v: nat)
    requires Run(gs, acts) && i < |gs| && Leads(gs[i], v)
    ensures var s := gs[i].nodes[v].core;
            && Fits(s) && s.commit <= s.applied && (forall n: nat :: !Committable(s, n))
            && forall r | r in s.pending :: !Due(s, r)
  {
    var mid := AtRest(gs, acts, i, v);
    LogsMatch(gs, acts, i, i, v, v, 0);
    RestCommit(mid, gs[i].nodes[v].core);
    RestReads(mid, gs[i].nodes[v].core);
  }

  // ---- a term of office ----

  /** Leading in term t, in life `life`. */
  predicate Holds(node: Node, t: nat, life: nat) {
    node.Up? && node.life == life && node.core.role == Leader && node.core.term == t
  }

  /** Never again leading in that term and life. */
  predicate Out(node: Node, t: nat, life: nat) {
    || node.life > life
    || (node.life == life &&
        (node.Down? || node.core.term > t || (node.core.term == t && node.core.role == Follower)))
  }

  predicate OutCore(s: Core, t: nat) {
    s.term > t || (s.term == t && s.role == Follower)
  }

  lemma FollowOut(s: Core, term: nat, leader: int, t: nat)
    requires Fits(s)
    ensures OutCore(s, t) ==> OutCore(BecomeFollower(s, term, leader), t) && OutCore(Met(s, term), t)
    ensures s.role == Leader && s.term == t ==> OutCore(BecomeFollower(s, term, leader), t)
    ensures s.role == Leader && s.term == t ==> OutCore(Met(s, term), t) || Met(s, term) == s
  {
  }

  lemma OutStays(s: Core, i: Input, t: nat)
    requires Fits(s) && Allowed(s, i) && OutCore(s, t)
    ensures OutCore(Handle(s, i), t)
  {
    match i
    case Timeout => SendFields(Crown(Candidacy(s)), Others(s.id, s.size));
    case StepDown => FollowOut(s, s.term, NOBODY, t);
    case GetVote(ask) => FollowOut(s, ask.term, NOBODY, t);
    case GetAppend(push) =>
      FollowOut(s, push.term, push.leader, t);
      TryFields(BecomeFollower(s, push.term, push.leader), push);
    case GetVoteReply(from, asked, voted) => VoteReplyOut(s, from, asked, voted, t);
    case GetAppendReply(from, pushed, appended, resend) => FollowOut(s, appended.term, NOBODY, t);
    case _ => ClientFields(s, i);
  }

  lemma VoteReplyOut(s: Core, from: nat, asked: VoteRequest, voted: VoteReply, t: nat)
    requires Fits(s) && from < s.size && OutCore(s, t)
    ensures OutCore(OnVoteReply(s, from, asked, voted), t)
  {
    FollowOut(s, voted.term, NOBODY, t);
    SendFields(Crown(s.(votes := s.votes[from := true])), Others(s.id, s.size));
  }

  /** What a client or a timer makes a leader do. */
  lemma ClientFields(s: Core, i: Input)
    requires Fits(s) && Allowed(s, i) && (i.Heartbeat? || i.Propose? || i.Read?)
    ensures var mid := Handle(s, i);
            && mid.term == s.term && mid.role == s.role && s.log <= mid.log && mid.commit == s.commit
            && mid.applied == s.applied && mid.matched == s.matched
            && mid.pending == if i.Read? then s.pending + [NewRead(s, i.readId)] else s.pending
  {
    match i
    case Heartbeat(to) => SendFields(s, to);
    case Propose(command, to) => SendFields(Lengthened(s, command), to);
    case Read(id, to) => SendFields(s.(pending := s.pending + [NewRead(s, id)]), to);
  }

  /** A leader leads on or is out. */
  lemma LeadsOn(s: Core, i: Input)
    requires Fits(s) && Allowed(s, i) && s.role == Leader
    ensures OutCore(Handle(s, i), s.term) || Led(s, i, Handle(s, i))
  {
    match i
    case StepDown => FollowOut(s, s.term, NOBODY, s.term);
    case GetVote(ask) => FollowOut(s, ask.term, NOBODY, s.term);
    case GetAppend(push) =>
      FollowOut(s, push.term, push.leader, s.term);
      TryFields(BecomeFollower(s, push.term, push.leader), push);
    case GetVoteReply(from, asked, voted) => FollowOut(s, voted.term, NOBODY, s.term);
    case GetAppendReply(from, pushed, appended, resend) =>
      ReplyLeadsOn(s, from, pushed, appended, resend);
    case _ => ClientFields(s, i);
  }

  lemma ReplyLeadsOn(s: Core, from: nat, pushed: AppendRequest, appended: AppendReply, resend: bool)
    requires Fits(s) && from < s.size && s.role == Leader
    ensures var i := GetAppendReply(from, pushed, appended, resend);
            var mid := OnAppendReply(s, from, pushed, appended, resend);
            OutCore(mid, s.term) || Led(s, i, mid)
  {
    FollowOut(s, appended.term, NOBODY, s.term);
  }

  /** A reply in the leader's term to a call of it. */
  predicate Counts(s: Core, i: Input) {
    i.GetAppendReply? && i.pushed.term == s.term && i.appended.term == s.term
  }

  /** What a step does to a leader that leads on: its log grows, a reply that counts is noted, and nothing
      known of the peers is forgotten. */
  predicate Led(s: Core, i: Input, mid: Core)
    requires Fits(s)
  {
    && mid.role == Leader && mid.term == s.term && s.log <= mid.log
    && mid.commit == s.commit && mid.applied == s.applied
    && |mid.matched| == s.size && (forall p | 0 <= p < s.size :: s.matched[p] <= mid.matched[p])
    && (Counts(s, i) && i.appended.success && i.from < s.size ==>
          mid.matched[i.from] >= i.pushed.prevIndex + |i.pushed.entries|)
    && mid.pending == if Counts(s, i) then Confirm(s.pending, i.from, i.pushed.number)
                      else if i.Read? then s.pending + [NewRead(s, i.readId)] else s.pending
  }

  lemma OfficeStep(gs: seq<Group>, acts: seq<Action>, i: nat, v: nat, t: nat, life: nat)
    requires Run(gs, acts) && i < |acts| && v < |gs[i].nodes|
    ensures v < |gs[i + 1].nodes|
    ensures Out(gs[i].nodes[v], t, life) ==> Out(gs[i + 1].nodes[v], t, life)
    ensures Holds(gs[i].nodes[v], t, life) ==> Holds(gs[i + 1].nodes[v], t, life) || Out(gs[i + 1].nodes[v], t, life)
  {
    StepKept(gs, acts, i, v);
    if acts[i].v == v && gs[i].nodes[v].Up? && gs[i + 1].nodes[v].Up? {
      var s := gs[i].nodes[v].core;
      var mid := StepOf(gs, acts, i, v);
      AppliedFields(mid);
      if OutCore(s, t) {
        OutStays(s, acts[i].i, t);
      } else if s.role == Leader {
        LeadsOn(s, acts[i].i);
      }
    } else if acts[i].v == v && gs[i].nodes[v].Up? {
      DownSame(gs, acts, i, v);
    }
  }

  lemma DownSame(gs: seq<Group>, acts: seq<Action>, i: nat, v: nat)
    requires Run(gs, acts) && i < |acts| && v < |gs[i].nodes| == |gs[i + 1].nodes| && acts[i].v == v
    requires gs[i].nodes[v].Up? && gs[i + 1].nodes[v].Down?
    ensures gs[i + 1].nodes[v].life == gs[i].nodes[v].life
  {
    assert StepAt(gs, acts, i);
  }

  lemma {:induction false} OutLasts(gs: seq<Group>, acts: seq<Action>, i: nat, k: nat, v: nat, t: nat, life: nat)
    requires Run(gs, acts) && i <= k < |gs| && v < |gs[i].nodes| && Out(gs[i].nodes[v], t, life)
    ensures v < |gs[k].nodes| && Out(gs[k].nodes[v], t, life)
    decreases k
  {
    if i < k {
      OutLasts(gs, acts, i, k - 1, v, t, life);
      OfficeStep(gs, acts, k - 1, v, t, life);
    }
  }

  /** A leader that still leads in its term and life has led all along. */
  lemma {:induction false} HoldsThrough(gs: seq<Group>, acts: seq<Action>, i: nat, m: nat, k: nat, v: nat, t: nat,
                                        life: nat)
    requires Run(gs, acts) && i <= m <= k < |gs| && v < |gs[i].nodes| && v < |gs[k].nodes|
    requires Holds(gs[i].nodes[v], t, life) && Holds(gs[k].nodes[v], t, life)
    ensures v < |gs[m].nodes| && Holds(gs[m].nodes[v], t, life)
    decreases m
  {
    if i < m {
      HoldsThrough(gs, acts, i, m - 1, k, v, t, life);
      OfficeStep(gs, acts, m - 1, v, t, life);
      if Out(gs[m].nodes[v], t, life) {
        OutLasts(gs, acts, m, k, v, t, life);
      }
    }
  }

  /** One step of a leader that leads on. */
  lemma LedStep(gs: seq<Group>, acts: seq<Action>, i: nat, v: nat, t: nat, life: nat) returns (mid: Core)
    requires Run(gs, acts) && i < |acts| && acts[i].v == v && v < |gs[i].nodes| && v < |gs[i + 1].nodes|
    requires Holds(gs[i].nodes[v], t, life) && Holds(gs[i + 1].nodes[v], t, life)
    ensures acts[i].Act? && Fits(gs[i].nodes[v].core) && Led(gs[i].nodes[v].core, acts[i].i, mid) && Fits(mid)
    ensures gs[i + 1].nodes[v].core == Rested(mid) && Settled(mid, Rested(mid))
    ensures forall o | o in Settle(mid).results && o.ok :: Ticket(v, life, o.id) in gs[i + 1].served
  {
    mid := StepOf(gs, acts, i, v);
    AppliedFields(mid);
    LeadsOn(gs[i].nodes[v].core, acts[i].i);
  }

  predicate Settled(mid: Core, s: Core) {
    s.log == mid.log && s.matched == mid.matched && s.size == mid.size && s.id == mid.id && s.applied >= mid.applied
  }

  // ---- a proposal that a majority takes ----

  /** What the leader knows of peer p, while it leads, it does not forget; and its log only grows. */
  lemma {:induction false} KnownStays(gs: seq<Group>, acts: seq<Action>, i: nat, k: nat, v: nat, t: nat, life: nat,
                                      p: nat)
    requires Run(gs, acts) && i <= k < |gs| && v < |gs[i].nodes| && v < |gs[k].nodes|
    requires Holds(gs[i].nodes[v], t, life) && Holds(gs[k].nodes[v], t, life)
    ensures var s, fin := gs[i].nodes[v].core, gs[k].nodes[v].core;
            && Fits(s) && Fits(fin) && s.size == fin.size && s.log <= fin.log && s.applied <= fin.applied
            && (p < s.size ==> s.matched[p] <= fin.matched[p])
    decreases k
  {
    RunSound(gs, acts, k);
    assert NodeTie(gs[k].book, gs[k].nodes[v], v);
    if i < k {
      HoldsThrough(gs, acts, i, k - 1, k, v, t, life);
      KnownStays(gs, acts, i, k - 1, v, t, life, p);
      StepKept(gs, acts, k - 1, v);
      if acts[k - 1].v == v {
        var mid := LedStep(gs, acts, k - 1, v, t, life);
      }
    }
  }

  /** Leader v hears that p has taken its log of term t up to index n. */
  predicate Took(a: Action, v: nat, p: nat, t: nat, n: nat) {
    && a.Act? && a.v == v && a.i.GetAppendReply? && a.i.from == p && a.i.pushed.term == t && a.i.appended.term == t
    && a.i.appended.success && a.i.pushed.prevIndex + |a.i.pushed.entries| >= n
  }

  lemma TookIsKnown(gs: seq<Group>, acts: seq<Action>, i: nat, a: nat, k: nat, v: nat, t: nat, life: nat, p: nat,
                    n: nat)
    requires Run(gs, acts) && i <= a < k < |gs| && v < |gs[i].nodes| && v < |gs[k].nodes|
    requires Holds(gs[i].nodes[v], t, life) && Holds(gs[k].nodes[v], t, life) && Took(acts[a], v, p, t, n)
    ensures var fin := gs[k].nodes[v].core; Fits(fin) && p < fin.size && fin.matched[p] >= n
  {
    HoldsThrough(gs, acts, i, a, k, v, t, life);
    HoldsThrough(gs, acts, i, a + 1, k, v, t, life);
    assert StepAt(gs, acts, a);
    var mid := LedStep(gs, acts, a, v, t, life);
    KnownStays(gs, acts, a + 1, k, v, t, life, p);
  }

  lemma ProposalIsLogged(gs: seq<Group>, acts: seq<Action>, i: nat, v: nat, command: string, to: seq<nat>, t: nat,
                         life: nat)
    requires Run(gs, acts) && i < |acts| && acts[i] == Act(v, Propose(command, to)) && v < |gs[i].nodes|
    requires v < |gs[i + 1].nodes| && Holds(gs[i].nodes[v], t, life) && Holds(gs[i + 1].nodes[v], t, life)
    ensures gs[i + 1].nodes[v].core.log == gs[i].nodes[v].core.log + [Entry(t, command)]
  {
    var s := gs[i].nodes[v].core;
    var mid := StepOf(gs, acts, i, v);
    SendFields(Lengthened(s, command), to);
    AppliedFields(mid);
  }

  /** A proposal whose entry a majority has taken, by what the leader has heard while it leads, is committed and
      applied. */
  lemma ProposalIsCommitted(gs: seq<Group>, acts: seq<Action>, i: nat, k: nat, v: nat, command: string, to: seq<nat>,
                            q: set<nat>, at: nat -> nat)
    requires Run(gs, acts) && i < k < |gs| && acts[i] == Act(v, Propose(command, to)) && Leads(gs[i], v)
    requires v < |gs[k].nodes| && Holds(gs[k].nodes[v], gs[i].nodes[v].core.term, gs[i].nodes[v].life)
    requires Majority(q, |gs[i].nodes|)
    requires forall p | p in q && p != v ::
               i < at(p) < k && Took(acts[at(p)], v, p, gs[i].nodes[v].core.term, |gs[i].nodes[v].core.log| + 1)
    ensures var s, fin, n := gs[i].nodes[v].core, gs[k].nodes[v].core, |gs[i].nodes[v].core.log| + 1;
            n <= fin.commit <= fin.applied && n <= |fin.log| && fin.log[n - 1] == Entry(s.term, command)
  {
    var s, fin, t, life := gs[i].nodes[v].core, gs[k].nodes[v].core, gs[i].nodes[v].core.term, gs[i].nodes[v].life;
    var n := |s.log| + 1;
    HoldsThrough(gs, acts, i, i + 1, k, v, t, life);
    ProposalIsLogged(gs, acts, i, v, command, to, t, life);
    KnownStays(gs, acts, i + 1, k, v, t, life, 0);
    NothingLeft(gs, acts, k, v);
    forall p | p in q && p != v
      ensures p < fin.size && fin.matched[p] >= n
    {
      TookIsKnown(gs, acts, i, at(p), k, v, t, life, p, n);
    }
    SameSize(gs, acts, i, k, v);
    assert q <= Keepers(fin, n);
    MajorityGrows(q, Keepers(fin, n), fin.size);
    assert !Committable(fin, n);
  }

  lemma SameSize(gs: seq<Group>, acts: seq<Action>, i: nat, k: nat, v: nat)
    requires Run(gs, acts) && i <= k < |gs| && Leads(gs[k], v)
    ensures |gs[i].nodes| == |gs[k].nodes| == gs[k].nodes[v].core.size && gs[k].nodes[v].core.id == v
  {
    RunLater(gs, acts, i, k);
    RunSound(gs, acts, i);
    RunSound(gs, acts, k);
    assert NodeTie(gs[k].book, gs[k].nodes[v], v);
  }

  // ---- a read that a majority confirms ----

  /** Leader v hears from p, in its term t, an answer to a call numbered n or later. */
  predicate Heard(a: Action, v: nat, p: nat, t: nat, n: nat) {
    && a.Act? && a.v == v && a.i.GetAppendReply? && a.i.from == p && a.i.pushed.term == t && a.i.appended.term == t
    && a.i.pushed.number >= n
  }

  /** Read `id`, numbered n, waits at the leader, and all these have confirmed it. */
  ghost predicate Waits(s: Core, id: nat, n: nat, hs: set<nat>) {
    exists r :: r in s.pending && Waiter(s, r, id, n, hs)
  }

  predicate Waiter(s: Core, r: PendingRead, id: nat, n: nat, hs: set<nat>) {
    r.id == id && r.number == n && |r.acks| == s.size && r.index <= s.applied && hs <= Confirmers(r)
  }

  /** Those heard by the end of this input. */
  function Hearers(s: Core, i: Input, n: nat, hs: set<nat>): set<nat> {
    if Counts(s, i) && i.pushed.number >= n then hs + {i.from} else hs
  }

  lemma ConfirmAt(pending: seq<PendingRead>, from: nat, number: nat, r: PendingRead) returns (r': PendingRead)
    requires r in pending
    ensures r' in Confirm(pending, from, number)
    ensures r'.id == r.id && r'.number == r.number && |r'.acks| == |r.acks| && r'.index == r.index
    ensures Confirmers(r') == if number >= r.number && from < |r.acks| then Confirmers(r) + {from} else Confirmers(r)
  {
    var k :| 0 <= k < |pending| && pending[k] == r;
    r' := Confirm(pending, from, number)[k];
  }

  /** Through the input, the read still waits, with the reply counted. */
  lemma WaitsMid(s: Core, i: Input, mid: Core, id: nat, n: nat, hs: set<nat>)
    requires Fits(s) && Allowed(s, i) && Led(s, i, mid) && mid.size == s.size && Waits(s, id, n, hs)
    ensures Waits(mid, id, n, Hearers(s, i, n, hs))
  {
    var r :| r in s.pending && Waiter(s, r, id, n, hs);
    if Counts(s, i) {
      var r' := ConfirmAt(s.pending, i.from, i.pushed.number, r);
      assert Waiter(mid, r', id, n, Hearers(s, i, n, hs));
    } else {
      assert Waiter(mid, r, id, n, hs);
      assert r in mid.pending;
    }
  }

  /** Through the end of the step, it is answered or waits on. */
  lemma WaitsRest(mid: Core, id: nat, n: nat, hs: set<nat>)
    requires Fits(mid) && mid.role == Leader && Waits(mid, id, n, hs)
    ensures ReadResult(id, true) in Settle(mid).results || Waits(Rested(mid), id, n, hs)
  {
    var r :| r in mid.pending && Waiter(mid, r, id, n, hs);
    var fin := Settle(mid);
    var answered := ReadsSettled(mid);
    if !Due(fin, r) {
      AppliedFields(mid);
      WaiterOn(mid, fin, r, r.(index := ReadIndex(fin, r)), id, n, hs);
      assert Waiter(Rested(mid), r.(index := ReadIndex(fin, r)), id, n, hs);
    }
  }

  lemma WaiterOn(mid: Core, fin: Core, r: PendingRead, w: PendingRead, id: nat, n: nat, hs: set<nat>)
    requires Waiter(mid, r, id, n, hs) && w == r.(index := ReadIndex(fin, r)) && fin.size == mid.size
    requires fin.applied >= mid.applied && fin.commit <= fin.applied
    ensures Waiter(fin, w, id, n, hs)
  {
    assert Confirmers(w) == Confirmers(r);
  }

  lemma WaitsStep(gs: seq<Group>, acts: seq<Action>, i: nat, v: nat, t: nat, life: nat, id: nat, n: nat, hs: set<nat>)
    requires Run(gs, acts) && i < |acts| && acts[i].v == v && v < |gs[i].nodes| && v < |gs[i + 1].nodes|
    requires Holds(gs[i].nodes[v], t, life) && Holds(gs[i + 1].nodes[v], t, life)
    requires Waits(gs[i].nodes[v].core, id, n, hs)
    ensures acts[i].Act?
    ensures || Ticket(v, life, id) in gs[i + 1].served
            || Waits(gs[i + 1].nodes[v].core, id, n, Hearers(gs[i].nodes[v].core, acts[i].i, n, hs))
  {
    var s := gs[i].nodes[v].core;
    var mid := StepOf(gs, acts, i, v);
    AppliedFields(mid);
    LeadsOn(s, acts[i].i);
    WaitsMid(s, acts[i].i, mid, id, n, hs);
    WaitsRest(mid, id, n, Hearers(s, acts[i].i, n, hs));
  }

  /** Of q, the leader itself and those heard before step m. */
  function HeardBy(q: set<nat>, v: nat, at: nat -> nat, m: nat): set<nat> {
    set p | p in q && (p == v || at(p) < m)
  }

  lemma ReadArrives(gs: seq<Group>, acts: seq<Action>, i: nat, v: nat, t: nat, life: nat, id: nat, to: seq<nat>, n: nat)
    requires Run(gs, acts) && i < |acts| && acts[i] == Act(v, Read(id, to)) && v < |gs[i].nodes|
    requires v < |gs[i + 1].nodes| && Holds(gs[i].nodes[v], t, life) && Holds(gs[i + 1].nodes[v], t, life)
    requires n == gs[i].nodes[v].core.number + 1 && gs[i].nodes[v].core.id == v
    requires gs[i].nodes[v].core.commit <= gs[i].nodes[v].core.applied
    ensures Ticket(v, life, id) in gs[i + 1].served || Waits(gs[i + 1].nodes[v].core, id, n, {v})
  {
    var s := gs[i].nodes[v].core;
    var mid := StepOf(gs, acts, i, v);
    LeadsOn(s, acts[i].i);
    var r := NewRead(s, id);
    assert r in mid.pending && v in Confirmers(r);
    assert Waiter(mid, r, id, n, {v});
    WaitsRest(mid, id, n, {v});
  }

  lemma {:induction false} WaitsThrough(gs: seq<Group>, acts: seq<Action>, i: nat, m: nat, k: nat, v: nat, t: nat,
                                        life: nat, id: nat, to: seq<nat>, n: nat, q: set<nat>, at: nat -> nat)
    requires Run(gs, acts) && i < m <= k < |gs| && acts[i] == Act(v, Read(id, to)) && v < |gs[i].nodes|
    requires v < |gs[k].nodes| && Holds(gs[i].nodes[v], t, life) && Holds(gs[k].nodes[v], t, life)
    requires n == gs[i].nodes[v].core.number + 1
    requires forall p | p in q && p != v :: i < at(p) < k && Heard(acts[at(p)], v, p, t, n)
    ensures v < |gs[m].nodes| && Holds(gs[m].nodes[v], t, life)
    ensures Ticket(v, life, id) in gs[m].served || Waits(gs[m].nodes[v].core, id, n, HeardBy(q, v, at, m))
    decreases m
  {
    HoldsThrough(gs, acts, i, m, k, v, t, life);
    HoldsThrough(gs, acts, i, m - 1, k, v, t, life);
    StepKept(gs, acts, m - 1, v);
    if m - 1 == i {
      NothingLeft(gs, acts, i, v);
      SameSize(gs, acts, i, i, v);
      ReadArrives(gs, acts, i, v, t, life, id, to, n);
      assert HeardBy(q, v, at, m) <= {v};
      WaitsFewer(gs[m].nodes[v].core, id, n, {v}, HeardBy(q, v, at, m));
    } else {
      WaitsThrough(gs, acts, i, m - 1, k, v, t, life, id, to, n, q, at);
      WaitsNext(gs, acts, m - 1, v, t, life, id, n, q, at);
    }
  }

  lemma WaitsFewer(s: Core, id: nat, n: nat, hs: set<nat>, gs: set<nat>)
    requires gs <= hs
    ensures Waits(s, id, n, hs) ==> Waits(s, id, n, gs)
  {
    if Waits(s, id, n, hs) {
      var r :| r in s.pending && Waiter(s, r, id, n, hs);
      assert Waiter(s, r, id, n, gs);
    }
  }

  lemma WaitsNext(gs: seq<Group>, acts: seq<Action>, h: nat, v: nat, t: nat, life: nat, id: nat, n: nat, q: set<nat>,
                  at: nat -> nat)
    requires Run(gs, acts) && h < |acts| && v < |gs[h].nodes| && v < |gs[h + 1].nodes|
    requires Holds(gs[h].nodes[v], t, life) && Holds(gs[h + 1].nodes[v], t, life)
    requires Ticket(v, life, id) in gs[h].served || Waits(gs[h].nodes[v].core, id, n, HeardBy(q, v, at, h))
    requires forall p | p in q && p != v :: at(p) < |acts| && Heard(acts[at(p)], v, p, t, n)
    ensures Ticket(v, life, id) in gs[h + 1].served || Waits(gs[h + 1].nodes[v].core, id, n, HeardBy(q, v, at, h + 1))
  {
    StepKept(gs, acts, h, v);
    var was, now := HeardBy(q, v, at, h), HeardBy(q, v, at, h + 1);
    if Ticket(v, life, id) !in gs[h].served {
      if acts[h].v == v {
        WaitsStep(gs, acts, h, v, t, life, id, n, was);
        assert now <= Hearers(gs[h].nodes[v].core, acts[h].i, n, was);
        WaitsFewer(gs[h + 1].nodes[v].core, id, n, Hearers(gs[h].nodes[v].core, acts[h].i, n, was), now);
      } else {
        assert now <= was;
        WaitsFewer(gs[h + 1].nodes[v].core, id, n, was, now);
      }
    }
  }

  /** A read is answered once a majority has answered calls made since it arrived, if the leader leads on and has
      committed in its own term by then. */
  lemma ReadIsAnswered(gs: seq<Group>, acts: seq<Action>, i: nat, k: nat, v: nat, id: nat, to: seq<nat>, q: set<nat>,
                       at: nat -> nat)
    requires Run(gs, acts) && i < k < |gs| && acts[i] == Act(v, Read(id, to)) && Leads(gs[i], v)
    requires v < |gs[k].nodes| && Holds(gs[k].nodes[v], gs[i].nodes[v].core.term, gs[i].nodes[v].life)
    requires Majority(q, |gs[i].nodes|)
    requires forall p | p in q && p != v ::
               i < at(p) < k && Heard(acts[at(p)], v, p, gs[i].nodes[v].core.term, gs[i].nodes[v].core.number + 1)
    requires var s := gs[k].nodes[v].core; s.commit > 0 && TermAt(s.log, s.commit) == s.term
    ensures Ticket(v, gs[i].nodes[v].life, id) in gs[k].served
  {
    var t, life, n := gs[i].nodes[v].core.term, gs[i].nodes[v].life, gs[i].nodes[v].core.number + 1;
    var s := gs[k].nodes[v].core;
    WaitsThrough(gs, acts, i, k, k, v, t, life, id, to, n, q, at);
    SameSize(gs, acts, i, k, v);
    NothingLeft(gs, acts, k, v);
    if Ticket(v, life, id) !in gs[k].served {
      var r :| r in s.pending && Waiter(s, r, id, n, HeardBy(q, v, at, k));
      assert HeardBy(q, v, at, k) == q;
      MajorityGrows(q, Confirmers(r), s.size);
    }
  }
}
