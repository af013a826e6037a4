/** A handled input keeps the group's invariant. */
module ActSafety {
  import opened RaftTypes
  import opened RaftCore
  import opened Ledgers
  import opened ReplicaTie
  import opened HandlerTies
  import AppendTie
  import opened LeaderTies
  import opened RaftGroup
  import opened InputTies
  import opened ReplyTies
  import opened ReadTies
  import opened GroupSafety

  /** Committed and applied, reads still waiting. */
  function Applied(mid: Core): (p: Core)
    requires Fits(mid)
    ensures Kin(mid, p)
  {
    ApplyCommitted(AdvanceCommit(Clean(mid)))
  }

  /** The replica as the step leaves it. */
  function Rested(mid: Core): Core
    requires Fits(mid)
  {
    Settle(mid).(out := [], results := [])
  }

  lemma AppliedFields(mid: Core)
    requires Fits(mid)
    ensures var p := Applied(mid);
            && p == mid.(commit := p.commit, applied := p.applied, dirty := false, dirtyFrom := 0)
            && Settle(mid) == ResolveReads(p)
  {
  }

  lemma {:induction false} WaitingFits(s: Core, pending: seq<PendingRead>, size: nat)
    requires forall r | r in pending :: |r.acks| == size
    ensures forall r | r in Waiting(s, pending) :: |r.acks| == size
  {
    if pending != [] {
      WaitingFits(s, pending[..|pending| - 1], size);
    }
  }

  lemma SettleGrew(f: Ledger, m: Ledger, v: nat, mid: Core)
    requires Inv(f) && CoreTie(f, v, mid) && m == CommitRecord(f, v, Clean(mid))
    ensures Grew(f, m, v) && CoreTie(m, v, Applied(mid)) && m.term == f.term
  {
    QuietTie(f, v, mid, Clean(mid));
    CommitGrew(f, v, Clean(mid));
    AdvanceTie(f, v, Clean(mid));
    ApplyTie(m, v, AdvanceCommit(Clean(mid)));
  }

  lemma RestedTie(m: Ledger, v: nat, mid: Core)
    requires Fits(mid) && CoreTie(m, v, Applied(mid))
    ensures CoreTie(m, v, Rested(mid)) && Quiet(Rested(mid))
  {
    var p := Applied(mid);
    AppliedFields(mid);
    WaitingFits(p, p.pending, p.size);
    QuietTie(m, v, p, Rested(mid));
  }

  // ---- what an input does to numbers, reads and results ----

  /** A leader that stays one keeps its term and numbers its calls upward; one that has just won was
      a candidate of its term, or has just stood. */
  predicate LeadRule(s: Core, mid: Core) {
    mid.role == Leader ==>
      if s.role == Leader then mid.term == s.term && mid.number >= s.number
      else mid.term == s.term + 1 || (s.role == Candidate && mid.term == s.term)
  }

  /** The reads waiting after an input: none, or the same ones in the same term, but for the new
      read of a Read and the confirmations of a counted reply. */
  predicate PendingRule(s: Core, i: Input, mid: Core)
    requires Fits(s)
  {
    || mid.pending == []
    || (mid.term == s.term && mid.pending == s.pending && !i.Read?)
    || (mid.term == s.term && i.Read? && s.role == Leader && mid.pending == s.pending + [NewRead(s, i.readId)])
    || (mid.term == s.term && i.GetAppendReply? && i.pushed.term == s.term && i.appended.term == s.term &&
        mid.pending == Confirm(s.pending, i.from, i.pushed.number))
  }

  /** Before the save a read can only fail. */
  predicate AllFailed(rs: seq<ReadResult>) {
    forall r | r in rs :: !r.ok
  }

  predicate Rules(s: Core, i: Input, mid: Core)
    requires Fits(s)
  {
    LeadRule(s, mid) && PendingRule(s, i, mid) && AllFailed(mid.results) && mid.applied == s.applied
  }

  predicate Idle(s: Core) {
    Fits(s) && s.results == [] && (s.role != Leader ==> s.pending == [])
  }

  lemma {:induction false} SendNumbers(s: Core, ps: seq<nat>)
    requires Fits(s) && Peers(s.id, s.size, ps)
    ensures var r := SendList(s, ps); r == s.(number := r.number, out := r.out) && r.number >= s.number
  {
    if ps != [] {
      SendNumbers(s, ps[..|ps| - 1]);
    }
  }

  lemma FollowRules(s: Core, i: Input, term: nat, leader: int)
    requires Idle(s) && !i.Read?
    ensures Rules(s, i, BecomeFollower(s, term, leader)) && Rules(s, i, Met(s, term))
    ensures BecomeFollower(s, term, leader).role == Follower
  {
    assert AllFailed(s.results + Failures(s.pending));
  }

  lemma TimeoutRules(s: Core)
    requires Idle(s) && s.role != Leader
    ensures Rules(s, Timeout, StartElection(s))
  {
    SendFields(Crown(Candidacy(s)), Others(s.id, s.size));
  }

  lemma VoteRules(s: Core, ask: VoteRequest)
    requires Idle(s)
    ensures Rules(s, GetVote(ask), OnVote(s, ask).0)
  {
    FollowRules(s, GetVote(ask), ask.term, NOBODY);
  }

  lemma AppendRules(s: Core, push: AppendRequest)
    requires Idle(s)
    ensures Rules(s, GetAppend(push), OnAppend(s, push).0)
  {
    FollowRules(s, GetAppend(push), push.term, push.leader);
    TryFields(BecomeFollower(s, push.term, push.leader), push);
  }

  lemma TryFields(s: Core, push: AppendRequest)
    ensures var r := TryAppend(s, push).0;
            r == s.(log := r.log, dirty := r.dirty, dirtyFrom := r.dirtyFrom, stopped := r.stopped, commit := r.commit)
  {
    if push.prevIndex <= |s.log| {
      AppendTie.AbsorbFields(s, push.prevIndex, push.entries, FirstNew(s.log, push.prevIndex, push.entries));
    }
  }

  lemma VoteReplyRules(s: Core, from: nat, asked: VoteRequest, voted: VoteReply)
    requires Idle(s) && from < s.size
    ensures Rules(s, GetVoteReply(from, asked, voted), OnVoteReply(s, from, asked, voted))
  {
    FollowRules(s, GetVoteReply(from, asked, voted), voted.term, NOBODY);
    SendFields(Crown(s.(votes := s.votes[from := true])), Others(s.id, s.size));
  }

  lemma AppendReplyRules(s: Core, from: nat, pushed: AppendRequest, appended: AppendReply, resend: bool)
    requires Idle(s) && from < s.size
    ensures Rules(s, GetAppendReply(from, pushed, appended, resend), OnAppendReply(s, from, pushed, appended, resend))
  {
    FollowRules(s, GetAppendReply(from, pushed, appended, resend), appended.term, NOBODY);
  }

  lemma ClientRules(s: Core, i: Input)
    requires Idle(s) && Allowed(s, i) && (i.Propose? || i.Read? || i.Heartbeat?)
    ensures Rules(s, i, Handle(s, i))
  {
    match i
    case Heartbeat(to) => SendNumbers(s, to);
    case Propose(command, to) => SendNumbers(Lengthened(s, command), to);
    case Read(id, to) => SendNumbers(s.(pending := s.pending + [NewRead(s, id)]), to);
  }

  lemma HandleRules(s: Core, i: Input)
    requires Idle(s) && Allowed(s, i)
    ensures Rules(s, i, Handle(s, i))
  {
    match i
    case Timeout => TimeoutRules(s);
    case StepDown => FollowRules(s, i, s.term, NOBODY);
    case GetVote(ask) => VoteRules(s, ask);
    case GetAppend(push) => AppendRules(s, push);
    case GetVoteReply(from, asked, voted) => VoteReplyRules(s, from, asked, voted);
    case GetAppendReply(from, pushed, appended, resend) => AppendReplyRules(s, from, pushed, appended, resend);
    case _ => ClientRules(s, i);
  }

  /** A replica that has just won never led this term before. */
  lemma FreshLeader(l: Ledger, v: nat, s: Core, mid: Core)
    requires Inv(l) && CoreTie(l, v, s) && LeadRule(s, mid) && mid.role == Leader && s.role != Leader
    ensures mid.term in l.reign ==> l.reign[mid.term].leader != v
  {
    NotYetLed(l, v);
  }

  // ---- the parts of the invariant, for the replica that acts ----

  lemma NumbersKept(l: Ledger, nodes: seq<Node>, calls: set<Outgoing>, v: nat, s: Core, mid: Core, node: Node,
                    more: set<Outgoing>)
    requires NumbersOk(nodes, calls) && CallsOk(l, calls) && v < |nodes| && nodes[v].Up? && nodes[v].core == s
    requires Inv(l) && CoreTie(l, v, s) && LeadRule(s, mid) && (forall c | c in more :: CallOf(c, v, s, mid))
    requires node.Up? && node.core.role == mid.role && node.core.term == mid.term && node.core.number == mid.number
    ensures NumbersOk(nodes[v := node], calls + more)
  {
    var nodes' := nodes[v := node];
    forall w: nat | w < |nodes|
      ensures NumberTie(nodes'[w], w, calls + more)
    {
      assert NumberTie(nodes[w], w, calls);
      if w == v && mid.role == Leader && s.role != Leader {
        FreshLeader(l, v, s, mid);
        assert forall c | c in calls :: CallTie(l, c);
      }
    }
  }

  lemma NewlyDone(m: Ledger, p: Core, from: nat)
    requires Settled(m, p.log, p.applied, p.term)
    ensures DoneOk(m, Newly(p.log, from, p.applied))
  {
    forall d | d in Newly(p.log, from, p.applied)
      ensures DoneTie(m, d)
    {
      var t :| SettledBy(m, p.log, p.applied, p.term, t);
      assert p.log[..p.applied][d.index - 1] == m.reign[t].log[..p.applied][d.index - 1];
      assert DoneBy(m, d, t);
    }
  }

  /** A proposal comes after everything applied before it, or never takes effect. */
  lemma ProposalAfter(l: Ledger, t: nat, d: Done)
    requires Inv(l) && t in l.reign && DoneTie(l, d)
    ensures Before(l, Slot(t, |l.reign[t].log| + 1), d)
  {
    var u: nat :| DoneBy(l, d, u);
    var slot := Slot(t, |l.reign[t].log| + 1);
    assert CommitHolds(l, u);
    if u <= t {
      LeaderCompleteness(l, u, t);
    } else if d.index >= slot.index {
      assert ReignHolds(l, u);
      assert LostTo(l, slot, u);
    }
  }

  lemma BeforeStays(l: Ledger, m: Ledger, slot: Slot, d: Done)
    requires Extends(l, m) && Before(l, slot, d)
    ensures Before(m, slot, d)
  {
    if d.index >= slot.index {
      var u :| LostTo(l, slot, u);
      assert LostTo(m, slot, u);
    }
  }

  lemma NewSlot(l: Ledger, m: Ledger, v: nat, s: Core, mid: Core, command: string, done: set<Done>)
    requires Inv(l) && CoreTie(l, v, s) && s.role == Leader && DoneOk(l, done) && Extends(l, m)
    requires CoreTie(m, v, mid) && mid.role == Leader && mid.term == s.term
    requires mid.log == s.log + [Entry(s.term, command)]
    ensures SlotTie(m, Slot(s.term, |s.log| + 1), Proposal(command, done))
  {
    forall d | d in done
      ensures Before(m, Slot(s.term, |s.log| + 1), d)
    {
      assert DoneTie(l, d);
      ProposalAfter(l, s.term, d);
      BeforeStays(l, m, Slot(s.term, |s.log| + 1), d);
    }
  }

  lemma ProposedKept(g: Group, m: Ledger, v: nat, s: Core, i: Input, mid: Core)
    requires Inv(g.book) && CoreTie(g.book, v, s) && Allowed(s, i) && DoneOk(g.book, g.done)
    requires ProposedOk(g.book, g.proposed)
    requires Extends(g.book, m) && mid == Handle(s, i) && CoreTie(m, v, Applied(mid))
    ensures ProposedOk(m, Proposed(g, s, i))
  {
    ProposedStay(g.book, m, g.proposed);
    match i
    case Propose(command, to) =>
      ProposedFields(s, command, to, mid);
      NewSlot(g.book, m, v, s, Applied(mid), command, g.done);
      SlotAdded(m, g.proposed, Slot(s.term, |s.log| + 1), Proposal(command, g.done));
    case _ =>
  }

  lemma ProposedFields(s: Core, command: string, to: seq<nat>, mid: Core)
    requires Fits(s) && Allowed(s, Propose(command, to)) && mid == Handle(s, Propose(command, to))
    ensures var p := Applied(mid); p.role == Leader && p.term == s.term && p.log == s.log + [Entry(s.term, command)]
  {
    SendFields(Lengthened(s, command), to);
    AppliedFields(mid);
  }

  lemma SlotAdded(m: Ledger, proposed: map<Slot, Proposal>, slot: Slot, p: Proposal)
    requires ProposedOk(m, proposed) && SlotTie(m, slot, p)
    ensures ProposedOk(m, proposed[slot := p])
  {
    var proposed' := proposed[slot := p];
    forall k | k in proposed'
      ensures SlotTie(m, k, proposed'[k])
    {
      assert k != slot ==> SlotTie(m, k, proposed[k]);
    }
  }

  // ---- reads ----

  lemma TicketsKept(g: Group, v: nat, i: Input)
    requires v < |g.nodes| && TicketsOk(g.tickets) && DoneOk(g.book, g.done) && Available(g, v, i)
    ensures TicketsOk(Tickets(g, v, i)) && KeepsTickets(g.tickets, Tickets(g, v, i))
  {
  }

  ghost predicate Counted(g: Group, v: nat, s: Core) {
    forall a | a in g.answers && a.Appended? && a.push.leader == v && a.push.term == s.term :: a.push.number <= s.number
  }

  lemma CountedAnswers(g: Group, v: nat, s: Core)
    requires v < |g.nodes| && g.nodes[v].Up? && g.nodes[v].core == s && s.role == Leader
    requires NumbersOk(g.nodes, g.calls) && AnswersOk(g.book, g.calls, g.answers)
    ensures Counted(g, v, s)
  {
    assert NumberTie(g.nodes[v], v, g.calls);
    forall a | a in g.answers && a.Appended? && a.push.leader == v && a.push.term == s.term
      ensures a.push.number <= s.number
    {
      assert AnswerKnown(g.book, g.calls, a);
    }
  }

  lemma MidReads(g: Group, f: Ledger, v: nat, s: Core, i: Input, mid: Core, more: set<Answer>)
    requires v < |g.nodes| && Inv(g.book) && CoreTie(g.book, v, s) && Available(g, v, i) && Extends(g.book, f)
    requires s.role == Leader ==> Counted(g, v, s)
    requires ReadsTie(g.book, g.tickets, v, g.nodes[v].life, s, g.answers) && PendingRule(s, i, mid) && Freshly(f, more)
    requires TicketsOk(g.tickets) && DoneOk(g.book, g.done)
    ensures ReadsTie(f, Tickets(g, v, i), v, g.nodes[v].life, mid, g.answers + more)
  {
    var l, life, tickets' := g.book, g.nodes[v].life, Tickets(g, v, i);
    TicketsKept(g, v, i);
    if mid.pending == [] || (mid.term == s.term && mid.pending == s.pending && !i.Read?) {
      ReadsStay(l, f, g.tickets, tickets', v, life, s, mid, g.answers, more);
    } else if i.Read? {
      ReadsArrive(l, g.tickets, v, life, s, mid, g.answers, i.readId, g.done);
      ReadsStay(l, f, tickets', tickets', v, life, mid, mid, g.answers, more);
    } else {
      ReadsConfirmed(l, g.tickets, v, life, s, mid, g.answers, Appended(i.from, i.pushed, i.appended));
      ReadsStay(l, f, g.tickets, tickets', v, life, mid, mid, g.answers, more);
    }
  }

  lemma RestReads(f: Ledger, m: Ledger, tickets: map<Ticket, Snapshot>, v: nat, life: nat, mid: Core,
                  answers: set<Answer>)
    requires Fits(mid) && ReadsTie(f, tickets, v, life, mid, answers) && Extends(f, m) && Inv(m)
    requires CoreTie(m, v, Applied(mid))
    ensures ReadsTie(m, tickets, v, life, Applied(mid), answers) && ReadsTie(m, tickets, v, life, Rested(mid), answers)
  {
    var p := Applied(mid);
    AppliedFields(mid);
    ReadsStay(f, m, tickets, tickets, v, life, mid, p, answers, {});
    assert answers + {} == answers;
    if p.role == Leader {
      ReadsWait(m, tickets, v, life, p, Rested(mid), answers);
    }
  }

  lemma OkResults(mid: Core, o: ReadResult)
    requires Fits(mid) && AllFailed(mid.results) && o in Settle(mid).results && o.ok
    ensures var p := Applied(mid); p.role == Leader && o in Answered(p, p.pending)
  {
    AppliedFields(mid);
  }

  lemma ServedKept(g: Group, m: Ledger, v: nat, mid: Core, tickets: map<Ticket, Snapshot>, answers: set<Answer>)
    requires v < |g.nodes| && ServedOk(g.tickets, g.served) && KeepsTickets(g.tickets, tickets) && TicketsOk(tickets)
    requires Inv(m) && Fits(mid) && AllFailed(mid.results) && CoreTie(m, v, Applied(mid))
    requires ReadsTie(m, tickets, v, g.nodes[v].life, Applied(mid), answers)
    ensures ServedOk(tickets, Served(g, v, Settle(mid)))
  {
    var p, fin, life := Applied(mid), Settle(mid), g.nodes[v].life;
    AppliedFields(mid);
    forall o | o in fin.results && o.ok
      ensures Ticket(v, life, o.id) in tickets && ServedPast(tickets[Ticket(v, life, o.id)].done, p.applied)
    {
      OkResults(mid, o);
      ReadAnswered(m, tickets, v, life, p, answers, o, Done(0, Entry(0, "")));
      var was := tickets[Ticket(v, life, o.id)];
      forall d | d in was.done
        ensures d.index <= p.applied
      {
        assert DoneTie(was.book, d);
        ReadAnswered(m, tickets, v, life, p, answers, o, d);
      }
    }
  }

  // ---- the step as a whole ----

  /** What HandleKeeps and SettleGrew give: the input's record f, and the record m once the step has
      committed. */
  ghost predicate Acted(l: Ledger, f: Ledger, m: Ledger, v: nat, s: Core, i: Input, mid: Core) {
    && Fits(s) && Fits(mid)
    && Grew(l, f, v) && Grew(f, m, v) && Grew(l, m, v) && m.term == f.term
    && CallsTie(f, v, s, mid) && RepliesTie(f, v, s, i)
    && CoreTie(m, v, Applied(mid))
    && Rules(s, i, mid)
  }

  lemma ActRecord(l: Ledger, f: Ledger, m: Ledger, v: nat, s: Core, i: Input, mid: Core)
    requires Inv(l) && CoreTie(l, v, s) && Quiet(s) && Allowed(s, i) && InputTie(l, v, i) && mid == Handle(s, i)
    requires f == InputRecord(l, v, s, i, mid) && m == CommitRecord(f, v, Clean(mid))
    ensures Acted(l, f, m, v, s, i, mid) && !mid.stopped
  {
    HandleKeeps(l, v, s, i);
    SettleGrew(f, m, v, mid);
    GrewTransitive(l, f, m, v);
    HandleRules(s, i);
  }

  lemma ActCalls(f: Ledger, m: Ledger, v: nat, s: Core, mid: Core)
    requires CallsTie(f, v, s, mid) && Extends(f, m)
    ensures CallsOk(m, set c | c in mid.out)
  {
    forall c | c in mid.out
      ensures CallTie(m, c)
    {
      CallStays(f, m, c);
    }
  }

  lemma ActAnswers(g: Group, f: Ledger, m: Ledger, v: nat, s: Core, i: Input, calls: set<Outgoing>)
    requires Fits(s) && v < |g.nodes| && v < f.Size() && RepliesTie(f, v, s, i) && Extends(f, m) && m.term == f.term
    requires Available(g, v, i) && g.calls <= calls
    ensures AnswersOk(m, calls, Replies(v, s, i)) && Freshly(f, Replies(v, s, i)) && Freshly(m, Replies(v, s, i))
  {
    forall a | a in Replies(v, s, i)
      ensures AnswerKnown(m, calls, a) && a.from == v
    {
      AnswerStays(f, m, a);
    }
  }

  lemma ActWaits(g: Group, f: Ledger, m: Ledger, v: nat, s: Core, i: Input, mid: Core)
    requires Sound(g) && v < |g.nodes| && g.nodes[v].Up? && g.nodes[v].core == s && Available(g, v, i)
    requires Acted(g.book, f, m, v, s, i, mid)
    requires Freshly(f, Replies(v, s, i)) && Freshly(m, Replies(v, s, i))
    ensures WaitsOk(m, Tickets(g, v, i), g.nodes[v := Up(Rested(mid), g.nodes[v].life)], g.answers + Replies(v, s, i))
    ensures ServedOk(Tickets(g, v, i), Served(g, v, Settle(mid)))
  {
    var more, tickets, node := Replies(v, s, i), Tickets(g, v, i), Up(Rested(mid), g.nodes[v].life);
    assert NodeTie(g.book, g.nodes[v], v) && WaitTie(g.book, g.tickets, g.nodes[v], v, g.answers);
    if s.role == Leader {
      CountedAnswers(g, v, s);
    }
    MidReads(g, f, v, s, i, mid, more);
    RestReads(f, m, tickets, v, g.nodes[v].life, mid, g.answers + more);
    TicketsKept(g, v, i);
    WaitsStay(g.book, m, g.tickets, tickets, g.nodes, v, node, g.answers, more);
    ServedKept(g, m, v, mid, tickets, g.answers + more);
  }

  lemma ActNodes(g: Group, f: Ledger, m: Ledger, v: nat, s: Core, i: Input, mid: Core)
    requires Sound(g) && v < |g.nodes| && g.nodes[v].Up? && g.nodes[v].core == s
    requires Acted(g.book, f, m, v, s, i, mid)
    ensures var node := Up(Rested(mid), g.nodes[v].life);
            && NodesOk(m, g.nodes[v := node])
            && NumbersOk(g.nodes[v := node], g.calls + (set c | c in mid.out))
  {
    var node := Up(Rested(mid), g.nodes[v].life);
    assert NodeTie(g.book, g.nodes[v], v);
    RestedTie(m, v, mid);
    AppliedFields(mid);
    NodesStay(g.book, m, g.nodes, v, node);
    NumbersKept(g.book, g.nodes, g.calls, v, s, mid, node, set c | c in mid.out);
  }

  lemma ActNetwork(g: Group, f: Ledger, m: Ledger, v: nat, s: Core, i: Input, mid: Core)
    requires Sound(g) && v < |g.nodes| && g.nodes[v].Up? && g.nodes[v].core == s && Available(g, v, i)
    requires Acted(g.book, f, m, v, s, i, mid)
    ensures var calls := g.calls + (set c | c in mid.out);
            CallsOk(m, calls) && AnswersOk(m, calls, g.answers + Replies(v, s, i))
    ensures Freshly(f, Replies(v, s, i)) && Freshly(m, Replies(v, s, i))
    ensures DoneOk(m, g.done + Newly(Applied(mid).log, s.applied, Applied(mid).applied))
  {
    var calls, p := g.calls + (set c | c in mid.out), Applied(mid);
    ActCalls(f, m, v, s, mid);
    CallsStay(g.book, m, g.calls, set c | c in mid.out);
    ActAnswers(g, f, m, v, s, i, calls);
    AnswersStay(g.book, m, g.calls, calls, g.answers, Replies(v, s, i));
    NewlyDone(m, p, s.applied);
    DoneStay(g.book, m, g.done, Newly(p.log, s.applied, p.applied));
  }

  lemma ActKeeps(g: Group, v: nat, i: Input)
    requires Sound(g) && Enabled(g, Act(v, i))
    ensures Sound(Step(g, Act(v, i)))
  {
    var l, s := g.book, g.nodes[v].core;
    var mid := Handle(s, i);
    var f := InputRecord(l, v, s, i, mid);
    var m := CommitRecord(f, v, Clean(mid));
    assert NodeTie(l, g.nodes[v], v);
    DeliveredTie(g, v, i);
    ActRecord(l, f, m, v, s, i, mid);
    ActSound(g, f, m, v, s, i, mid);
    AppliedFields(mid);
  }

  ghost function ActResult(g: Group, m: Ledger, v: nat, s: Core, i: Input, mid: Core): Group
    requires v < |g.nodes| && Fits(s) && Fits(mid)
  {
    var p := Applied(mid);
    Group(g.maxBytes, g.nodes[v := Up(Rested(mid), g.nodes[v].life)],
          g.calls + (set c | c in mid.out), g.answers + Replies(v, s, i), m,
          g.done + Newly(p.log, s.applied, p.applied), Tickets(g, v, i), Served(g, v, Settle(mid)), Proposed(g, s, i))
  }

  lemma ActSound(g: Group, f: Ledger, m: Ledger, v: nat, s: Core, i: Input, mid: Core)
    requires Sound(g) && v < |g.nodes| && g.nodes[v].Up? && g.nodes[v].core == s && Available(g, v, i) && Allowed(s, i)
    requires Acted(g.book, f, m, v, s, i, mid) && mid == Handle(s, i)
    ensures Sound(ActResult(g, m, v, s, i, mid))
  {
    assert NodeTie(g.book, g.nodes[v], v);
    ActNodes(g, f, m, v, s, i, mid);
    ActNetwork(g, f, m, v, s, i, mid);
    ActWaits(g, f, m, v, s, i, mid);
    TicketsKept(g, v, i);
    ProposedKept(g, m, v, s, i, mid);
  }

  /** Every step of the group keeps the invariant. */
  lemma StepKeeps(g: Group, a: Action)
    requires Sound(g) && Enabled(g, a)
    ensures Sound(Step(g, a))
  {
    match a
    case Act(v, i) => ActKeeps(g, v, i);
    case Tear(v, i, k) => TornKeeps(g, v, i, k);
    case Crash(v) => CrashKeeps(g, v);
    case Restart(v) => RestartKeeps(g, v);
  }
}
