/** The invariant of the whole group, kept by every step: handled inputs, torn saves, crashes and
    restarts, over a network that may lose, repeat, delay and reorder. */
module GroupSafety {
  import opened RaftTypes
  import opened RaftCore
  import opened Ledgers
  import opened ReplicaTie
  import opened HandlerTies
  import opened LeaderTies
  import opened RaftGroup
  import opened InputTies
  import opened TornTies
  import opened ReadTies

  // ---- the invariant, part by part ----

  ghost predicate NodeTie(l: Ledger, node: Node, v: nat) {
    match node
    case Up(core, _) => CoreTie(l, v, core) && Quiet(core)
    case Down(disk, _) => DiskTie(l, v, disk)
  }

  ghost predicate NodesOk(l: Ledger, nodes: seq<Node>) {
    forall v: nat {:trigger NodeTie(l, nodes[v], v)} | v < |nodes| :: NodeTie(l, nodes[v], v)
  }

  ghost predicate CallsOk(l: Ledger, calls: set<Outgoing>) {
    forall c {:trigger CallTie(l, c)} | c in calls :: CallTie(l, c)
  }

  ghost predicate AnswerKnown(l: Ledger, calls: set<Outgoing>, a: Answer) {
    AnswerTie(l, a) && (a.Appended? ==> Push(a.from, a.push) in calls)
  }

  ghost predicate AnswersOk(l: Ledger, calls: set<Outgoing>, answers: set<Answer>) {
    forall a {:trigger AnswerKnown(l, calls, a)} | a in answers :: AnswerKnown(l, calls, a)
  }

  /** A leader has numbered every call of its term. */
  predicate NumberTie(node: Node, v: nat, calls: set<Outgoing>) {
    node.Up? && node.core.role == Leader ==>
      forall c | c in calls :: c.Push? && c.append.leader == v && c.append.term == node.core.term ==>
        c.append.number <= node.core.number
  }

  ghost predicate NumbersOk(nodes: seq<Node>, calls: set<Outgoing>) {
    forall v: nat {:trigger NumberTie(nodes[v], v, calls)} | v < |nodes| :: NumberTie(nodes[v], v, calls)
  }

  ghost predicate WaitTie(l: Ledger, tickets: map<Ticket, Snapshot>, node: Node, v: nat, answers: set<Answer>) {
    node.Up? ==> ReadsTie(l, tickets, v, node.life, node.core, answers)
  }

  ghost predicate WaitsOk(l: Ledger, tickets: map<Ticket, Snapshot>, nodes: seq<Node>, answers: set<Answer>) {
    forall v: nat {:trigger WaitTie(l, tickets, nodes[v], v, answers)} | v < |nodes| ::
      WaitTie(l, tickets, nodes[v], v, answers)
  }

  ghost predicate DoneOk(l: Ledger, done: set<Done>) {
    forall d {:trigger DoneTie(l, d)} | d in done :: DoneTie(l, d)
  }

  ghost predicate TicketsOk(tickets: map<Ticket, Snapshot>) {
    forall k | k in tickets :: DoneOk(tickets[k].book, tickets[k].done)
  }

  ghost predicate ServedOk(tickets: map<Ticket, Snapshot>, served: map<Ticket, nat>) {
    forall k | k in served :: k in tickets && ServedPast(tickets[k].done, served[k])
  }

  ghost predicate ServedPast(done: set<Done>, index: nat) {
    forall d | d in done :: d.index <= index
  }

  /** A committed entry of another term stands at the slot: the proposal never takes effect. */
  ghost predicate LostTo(l: Ledger, slot: Slot, u: nat) {
    u in l.committed && u in l.reign && 1 <= slot.index <= l.committed[u] && slot.index <= |l.reign[u].log| &&
    l.reign[u].log[slot.index - 1].term != slot.term
  }

  ghost predicate Before(l: Ledger, slot: Slot, d: Done) {
    d.index < slot.index || exists u :: LostTo(l, slot, u)
  }

  ghost predicate SlotTie(l: Ledger, slot: Slot, p: Proposal) {
    && slot.term in l.reign && 1 <= slot.index <= |l.reign[slot.term].log|
    && l.reign[slot.term].log[slot.index - 1] == Entry(slot.term, p.command)
    && forall d {:trigger Before(l, slot, d)} | d in p.done :: Before(l, slot, d)
  }

  ghost predicate ProposedOk(l: Ledger, proposed: map<Slot, Proposal>) {
    forall slot {:trigger SlotTie(l, slot, proposed[slot])} | slot in proposed :: SlotTie(l, slot, proposed[slot])
  }

  ghost predicate Sound(g: Group) {
    && Sized(g) && Inv(g.book)
    && NodesOk(g.book, g.nodes)
    && CallsOk(g.book, g.calls) && AnswersOk(g.book, g.calls, g.answers)
    && NumbersOk(g.nodes, g.calls) && WaitsOk(g.book, g.tickets, g.nodes, g.answers)
    && DoneOk(g.book, g.done)
    && TicketsOk(g.tickets) && ServedOk(g.tickets, g.served)
    && ProposedOk(g.book, g.proposed)
  }

  // ---- what a growing record leaves true ----

  lemma NodesStay(l: Ledger, m: Ledger, nodes: seq<Node>, v: nat, node: Node)
    requires NodesOk(l, nodes) && v < |nodes| && Extends(l, m) && OnlyBy(l, m, v) && NodeTie(m, node, v)
    ensures NodesOk(m, nodes[v := node])
  {
    var nodes' := nodes[v := node];
    forall w: nat | w < |nodes|
      ensures NodeTie(m, nodes'[w], w)
    {
      if w != v {
        assert NodeTie(l, nodes[w], w);
        match nodes[w]
        case Up(core, _) => CoreStays(l, m, v, w, core);
        case Down(disk, _) => DiskStays(l, m, v, w, disk);
      }
    }
  }

  lemma CallsStay(l: Ledger, m: Ledger, calls: set<Outgoing>, more: set<Outgoing>)
    requires CallsOk(l, calls) && Extends(l, m) && CallsOk(m, more)
    ensures CallsOk(m, calls + more)
  {
    forall c | c in calls + more
      ensures CallTie(m, c)
    {
      if c !in more {
        assert CallTie(l, c);
        CallStays(l, m, c);
      }
    }
  }

  lemma AnswersStay(l: Ledger, m: Ledger, calls: set<Outgoing>, calls': set<Outgoing>, answers: set<Answer>,
                    more: set<Answer>)
    requires AnswersOk(l, calls, answers) && calls <= calls' && Extends(l, m) && AnswersOk(m, calls', more)
    ensures AnswersOk(m, calls', answers + more)
  {
    forall a | a in answers + more
      ensures AnswerKnown(m, calls', a)
    {
      if a !in more {
        assert AnswerKnown(l, calls, a);
        AnswerStays(l, m, a);
      }
    }
  }

  lemma DoneStay(l: Ledger, m: Ledger, done: set<Done>, more: set<Done>)
    requires DoneOk(l, done) && Extends(l, m) && DoneOk(m, more)
    ensures DoneOk(m, done + more)
  {
    forall d | d in done + more
      ensures DoneTie(m, d)
    {
      if d !in more {
        assert DoneTie(l, d);
        DoneStays(l, m, d);
      }
    }
  }

  lemma WaitsStay(l: Ledger, m: Ledger, tickets: map<Ticket, Snapshot>, tickets': map<Ticket, Snapshot>,
                  nodes: seq<Node>, v: nat, node: Node, answers: set<Answer>, more: set<Answer>)
    requires WaitsOk(l, tickets, nodes, answers) && Extends(l, m) && KeepsTickets(tickets, tickets') && Freshly(m, more)
    requires v < |nodes| && WaitTie(m, tickets', node, v, answers + more)
    ensures WaitsOk(m, tickets', nodes[v := node], answers + more)
  {
    var nodes' := nodes[v := node];
    forall w: nat | w < |nodes|
      ensures WaitTie(m, tickets', nodes'[w], w, answers + more)
    {
      if w != v && nodes[w].Up? {
        assert WaitTie(l, tickets, nodes[w], w, answers);
        ReadsStay(l, m, tickets, tickets', w, nodes[w].life, nodes[w].core, nodes[w].core, answers, more);
      }
    }
  }

  lemma SlotStays(l: Ledger, m: Ledger, slot: Slot, p: Proposal)
    requires Extends(l, m) && SlotTie(l, slot, p)
    ensures SlotTie(m, slot, p)
  {
    forall d | d in p.done
      ensures Before(m, slot, d)
    {
      assert Before(l, slot, d);
      if d.index >= slot.index {
        var u :| LostTo(l, slot, u);
        assert LostTo(m, slot, u);
      }
    }
  }

  lemma ProposedStay(l: Ledger, m: Ledger, proposed: map<Slot, Proposal>)
    requires Extends(l, m) && ProposedOk(l, proposed)
    ensures ProposedOk(m, proposed)
  {
    forall slot | slot in proposed
      ensures SlotTie(m, slot, proposed[slot])
    {
      assert SlotTie(l, slot, proposed[slot]);
      SlotStays(l, m, slot, proposed[slot]);
    }
  }

  // ---- a replica goes down, or comes back ----

  lemma DownKeeps(g: Group, m: Ledger, v: nat, node: Node)
    requires Sound(g) && v < |g.nodes| && Grew(g.book, m, v) && NodeTie(m, node, v)
    requires node.Up? ==> node.core.role != Leader && node.core.pending == []
    ensures Sound(g.(nodes := g.nodes[v := node], book := m))
  {
    var l := g.book;
    NodesStay(l, m, g.nodes, v, node);
    CallsStay(l, m, g.calls, {});
    AnswersStay(l, m, g.calls, g.calls, g.answers, {});
    DoneStay(l, m, g.done, {});
    assert g.calls + {} == g.calls && g.answers + {} == g.answers && g.done + {} == g.done;
    WaitsStay(l, m, g.tickets, g.tickets, g.nodes, v, node, g.answers, {});
    ProposedStay(l, m, g.proposed);
    NumbersDown(g.nodes, g.calls, v, node);
  }

  lemma NumbersDown(nodes: seq<Node>, calls: set<Outgoing>, v: nat, node: Node)
    requires NumbersOk(nodes, calls) && v < |nodes| && NumberTie(node, v, calls)
    ensures NumbersOk(nodes[v := node], calls)
  {
    var nodes' := nodes[v := node];
    forall w: nat | w < |nodes|
      ensures NumberTie(nodes'[w], w, calls)
    {
      assert NumberTie(nodes[w], w, calls);
    }
  }

  lemma CrashKeeps(g: Group, v: nat)
    requires Sound(g) && Enabled(g, Crash(v))
    ensures Sound(Step(g, Crash(v)))
  {
    var node := g.nodes[v];
    assert NodeTie(g.book, node, v);
    GrewSelf(g.book, v);
    DownKeeps(g, g.book, v, Down(Saved(node.core), node.life));
  }

  lemma BootTie(l: Ledger, v: nat, maxBytes: nat, d: Durable)
    requires DiskTie(l, v, d)
    ensures CoreTie(l, v, Boot(v, l.Size(), maxBytes, d)) && Quiet(Boot(v, l.Size(), maxBytes, d))
  {
  }

  lemma RestartKeeps(g: Group, v: nat)
    requires Sound(g) && Enabled(g, Restart(v))
    ensures Sound(Step(g, Restart(v)))
  {
    var node := g.nodes[v];
    assert NodeTie(g.book, node, v);
    BootTie(g.book, v, g.maxBytes, node.disk);
    GrewSelf(g.book, v);
    DownKeeps(g, g.book, v, Up(Boot(v, |g.nodes|, g.maxBytes, node.disk), node.life + 1));
  }

  /** What the network delivers is true of the record. */
  lemma DeliveredTie(g: Group, v: nat, i: Input)
    requires CallsOk(g.book, g.calls) && AnswersOk(g.book, g.calls, g.answers) && v < |g.nodes| && Available(g, v, i)
    ensures InputTie(g.book, v, i)
  {
    match i
    case GetVote(ask) => assert CallTie(g.book, Ask(v, ask));
    case GetAppend(push) => assert CallTie(g.book, Push(v, push));
    case GetVoteReply(from, asked, voted) => assert AnswerKnown(g.book, g.calls, Voted(from, asked, voted));
    case GetAppendReply(from, pushed, appended, _) =>
        assert AnswerKnown(g.book, g.calls, Appended(from, pushed, appended));
    case _ =>
  }

  lemma TornKeeps(g: Group, v: nat, i: Input, k: nat)
    requires Sound(g) && Enabled(g, Tear(v, i, k))
    ensures Sound(Step(g, Tear(v, i, k)))
  {
    var s := g.nodes[v].core;
    var mid := Handle(s, i);
    assert NodeTie(g.book, g.nodes[v], v);
    DeliveredTie(g, v, i);
    TearKeeps(g.book, v, s, i, mid, k);
    var disk := TornDisk(s, mid, k);
    DownKeeps(g, TearRecord(g.book, v, s, i, mid, disk), v, Down(disk, g.nodes[v].life));
  }
}
