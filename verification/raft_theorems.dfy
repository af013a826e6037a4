/** What holds over every run of the group: any number of replicas, any interleaving of inputs,
    lost, repeated, late and reordered calls, torn saves, crashes and restarts. */
module RaftTheorems {
  import opened RaftTypes
  import opened RaftCore
  import opened Ledgers
  import opened ReplicaTie
  import opened HandlerTies
  import opened AppendTie
  import opened LeaderTies
  import opened RaftGroup
  import opened ReplyTies
  import opened TornTies
  import opened ReadTies
  import opened GroupSafety
  import opened ActSafety
  import Reconciliation

  // ---- runs ----

  /** A new group: every replica down, with an empty disk. */
  ghost predicate New(g: Group) {
    && g.nodes != [] && (forall v | 0 <= v < |g.nodes| :: g.nodes[v] == Down(Durable(0, NOBODY, []), 0))
    && g.calls == {} && g.answers == {} && g.done == {} && g.tickets == map[] && g.served == map[] &&
        g.proposed == map[]
    && g.book == Ledger(seq(|g.nodes|, _ => 0), seq(|g.nodes|, _ => []), map[], map[], map[], map[], map[])
  }

  ghost predicate Next(g: Group, a: Action, g': Group) {
    Sized(g) && Enabled(g, a) && g' == Step(g, a)
  }

  ghost predicate Run(gs: seq<Group>, acts: seq<Action>) {
    && |gs| == |acts| + 1 && New(gs[0])
    && forall i: nat {:trigger StepAt(gs, acts, i)} | i < |acts| :: StepAt(gs, acts, i)
  }

  ghost predicate StepAt(gs: seq<Group>, acts: seq<Action>, i: nat)
    requires i < |acts| && |gs| == |acts| + 1
  {
    Next(gs[i], acts[i], gs[i + 1])
  }

  lemma NewSound(g: Group)
    requires New(g)
    ensures Sound(g)
  {
    forall v: nat | v < |g.nodes|
      ensures NodeTie(g.book, g.nodes[v], v)
    {
    }
  }

  lemma {:induction false} RunSound(gs: seq<Group>, acts: seq<Action>, i: nat)
    requires Run(gs, acts) && i < |gs|
    ensures Sound(gs[i])
  {
    if i == 0 {
      NewSound(gs[0]);
    } else {
      RunSound(gs, acts, i - 1);
      assert StepAt(gs, acts, i - 1);
      StepKeeps(gs[i - 1], acts[i - 1]);
    }
  }

  // ---- nothing durable, applied or asked is ever undone ----

  ghost predicate Later(g: Group, h: Group) {
    && |h.nodes| == |g.nodes| && Extends(g.book, h.book) && g.done <= h.done && KeepsTickets(g.tickets, h.tickets)
  }

  lemma StepLater(g: Group, a: Action)
    requires Sound(g) && Enabled(g, a)
    ensures Later(g, Step(g, a))
  {
    assert NodeTie(g.book, g.nodes[a.v], a.v);
    match a
    case Act(v, i) =>
      var s := g.nodes[v].core;
      var mid := Handle(s, i);
      DeliveredTie(g, v, i);
      var f := InputRecord(g.book, v, s, i, mid);
      ActRecord(g.book, f, CommitRecord(f, v, Clean(mid)), v, s, i, mid);
      TicketsKept(g, v, i);
    case Tear(v, i, k) =>
      DeliveredTie(g, v, i);
      TearKeeps(g.book, v, g.nodes[v].core, i, Handle(g.nodes[v].core, i), k);
    case Crash(v) => ExtendsSelf(g.book);
    case Restart(v) => ExtendsSelf(g.book);
  }

  lemma {:induction false} RunLater(gs: seq<Group>, acts: seq<Action>, i: nat, j: nat)
    requires Run(gs, acts) && i <= j < |gs|
    ensures Later(gs[i], gs[j])
    decreases j
  {
    RunSound(gs, acts, i);
    if i == j {
      ExtendsSelf(gs[i].book);
    } else {
      RunLater(gs, acts, i, j - 1);
      RunSound(gs, acts, j - 1);
      assert StepAt(gs, acts, j - 1);
      StepLater(gs[j - 1], acts[j - 1]);
      ExtendsTransitive(gs[i].book, gs[j - 1].book, gs[j].book);
    }
  }

  // ---- the theorems ----

  /** One index, one entry: whatever any two replicas ever applied at an index, in any of their
      lives, is the same. */
  lemma StateMachineSafety(gs: seq<Group>, acts: seq<Action>, i: nat, j: nat, d: Done, e: Done)
    requires Run(gs, acts) && i < |gs| && j < |gs| && d in gs[i].done && e in gs[j].done && d.index == e.index
    ensures d == e
  {
    var k := if i <= j then j else i;
    RunLater(gs, acts, i, k);
    RunLater(gs, acts, j, k);
    RunSound(gs, acts, k);
    DoneUnique(gs[k].book, d, e);
  }

  lemma DoneUnique(l: Ledger, d: Done, e: Done)
    requires Inv(l) && DoneOk(l, {d, e}) && d.index == e.index
    ensures d == e
  {
    assert DoneTie(l, d) && DoneTie(l, e);
    var t: nat :| DoneBy(l, d, t);
    var u: nat :| DoneBy(l, e, u);
    DoneSame(l, d, t, e, u);
  }

  lemma DoneSame(l: Ledger, d: Done, t: nat, e: Done, u: nat)
    requires Inv(l) && DoneBy(l, d, t) && DoneBy(l, e, u) && d.index == e.index
    ensures d == e
  {
    if t <= u {
      LeaderCompleteness(l, t, u);
      assert l.reign[u].log[..l.committed[t]][d.index - 1] == l.reign[t].log[..l.committed[t]][d.index - 1];
    } else {
      LeaderCompleteness(l, u, t);
      assert l.reign[u].log[..l.committed[u]][d.index - 1] == l.reign[t].log[..l.committed[u]][d.index - 1];
    }
  }

  /** A replica never finds a leader's entry in conflict with one it knows committed, so the stop
      that guards against it is never taken. */
  lemma NeverStops(gs: seq<Group>, acts: seq<Action>, i: nat, v: nat, input: Input)
    requires Run(gs, acts) && i < |gs| && Enabled(gs[i], Act(v, input))
    ensures !Handle(gs[i].nodes[v].core, input).stopped
  {
    var g := gs[i];
    RunSound(gs, acts, i);
    assert NodeTie(g.book, g.nodes[v], v);
    DeliveredTie(g, v, input);
    HandleKeeps(g.book, v, g.nodes[v].core, input);
  }

  ghost predicate Leads(g: Group, v: nat) {
    v < |g.nodes| && g.nodes[v].Up? && g.nodes[v].core.role == Leader
  }

  /** At most one leader per term, over all time. */
  lemma OneLeaderPerTerm(gs: seq<Group>, acts: seq<Action>, i: nat, j: nat, v: nat, w: nat)
    requires Run(gs, acts) && i <= j < |gs| && Leads(gs[i], v) && Leads(gs[j], w)
    requires gs[i].nodes[v].core.term == gs[j].nodes[w].core.term
    ensures v == w && gs[i].nodes[v].core.log <= gs[j].nodes[w].core.log
  {
    RunLater(gs, acts, i, j);
    RunSound(gs, acts, i);
    RunSound(gs, acts, j);
    assert NodeTie(gs[i].book, gs[i].nodes[v], v) && NodeTie(gs[j].book, gs[j].nodes[w], w);
  }

  function DiskOf(node: Node): Durable {
    if node.Up? then Saved(node.core) else node.disk
  }

  lemma DiskTied(g: Group, v: nat)
    requires Sound(g) && v < |g.nodes|
    ensures DiskTie(g.book, v, DiskOf(g.nodes[v])) && LogHolds(g.book, v)
  {
    assert NodeTie(g.book, g.nodes[v], v);
  }

  /** Two durable logs, at any two times, that agree on the term at an index agree up to it; terms
      never fall along a log and never pass the replica's own. */
  lemma LogsMatch(gs: seq<Group>, acts: seq<Action>, i: nat, j: nat, v: nat, w: nat, n: nat)
    requires Run(gs, acts) && i <= j < |gs| && v < |gs[i].nodes| && w < |gs[j].nodes|
    ensures var a, b := DiskOf(gs[i].nodes[v]).log, DiskOf(gs[j].nodes[w]).log;
            n <= |a| && n <= |b| && TermAt(a, n) == TermAt(b, n) ==> Agree(a, b, n)
    ensures Rising(DiskOf(gs[i].nodes[v]).log) && Bounded(DiskOf(gs[i].nodes[v]).log, DiskOf(gs[i].nodes[v]).term)
  {
    RunLater(gs, acts, i, j);
    RunSound(gs, acts, i);
    RunSound(gs, acts, j);
    DiskTied(gs[i], v);
    DiskTied(gs[j], w);
    var a, b := DiskOf(gs[i].nodes[v]).log, DiskOf(gs[j].nodes[w]).log;
    TracedStays(gs[i].book, gs[j].book, a);
    if n <= |a| && n <= |b| && TermAt(a, n) == TermAt(b, n) {
      SameTermAgree(gs[j].book, a, b, n);
    }
  }

  /** What any replica has ever known committed is in the log of every leader, then or later, of its
      term or a later one. */
  lemma LeadersComplete(gs: seq<Group>, acts: seq<Action>, i: nat, j: nat, v: nat, w: nat)
    requires Run(gs, acts) && i <= j < |gs| && v < |gs[i].nodes| && gs[i].nodes[v].Up? && Leads(gs[j], w)
    requires gs[i].nodes[v].core.term <= gs[j].nodes[w].core.term
    ensures Agree(gs[i].nodes[v].core.log, gs[j].nodes[w].core.log, gs[i].nodes[v].core.commit)
    ensures Agree(gs[i].nodes[v].core.log, gs[j].nodes[w].core.log, gs[i].nodes[v].core.applied)
  {
    RunLater(gs, acts, i, j);
    RunSound(gs, acts, i);
    RunSound(gs, acts, j);
    var l, m := gs[i].book, gs[j].book;
    var s, c := gs[i].nodes[v].core, gs[j].nodes[w].core;
    assert NodeTie(l, gs[i].nodes[v], v) && NodeTie(m, gs[j].nodes[w], w);
    SettledStays(l, m, s.log, s.commit, s.term, c.term);
    SettledStays(l, m, s.log, s.applied, s.term, c.term);
    SettledInReign(m, s.log, s.commit, c.term);
    SettledInReign(m, s.log, s.applied, c.term);
  }

  /** Any two replicas, at any two times, agree on everything both have applied. */
  lemma AppliedAgree(gs: seq<Group>, acts: seq<Action>, i: nat, j: nat, v: nat, w: nat, n: nat)
    requires Run(gs, acts) && i <= j < |gs| && v < |gs[i].nodes| && gs[i].nodes[v].Up? && w < |gs[j].nodes|
    requires gs[j].nodes[w].Up?
    requires n <= gs[i].nodes[v].core.applied && n <= gs[j].nodes[w].core.applied
    ensures Agree(gs[i].nodes[v].core.log, gs[j].nodes[w].core.log, n)
  {
    RunLater(gs, acts, i, j);
    RunSound(gs, acts, i);
    RunSound(gs, acts, j);
    var l, m := gs[i].book, gs[j].book;
    var s, c := gs[i].nodes[v].core, gs[j].nodes[w].core;
    assert NodeTie(l, gs[i].nodes[v], v) && NodeTie(m, gs[j].nodes[w], w);
    SettledStays(l, m, s.log, s.applied, s.term, s.term);
    SettledAgree(m, s.log, s.applied, s.term, c.log, c.applied, c.term, n);
  }

  lemma SettledAgree(l: Ledger, a: seq<Entry>, i: nat, s: nat, b: seq<Entry>, j: nat, u: nat, n: nat)
    requires Inv(l) && Settled(l, a, i, s) && Settled(l, b, j, u) && n <= i && n <= j
    ensures Agree(a, b, n)
  {
    if n > 0 {
      var t: nat :| SettledBy(l, a, i, s, t);
      var t': nat :| SettledBy(l, b, j, u, t');
      var x := if t <= t' then t' else t;
      LeaderCompleteness(l, t, x);
      LeaderCompleteness(l, t', x);
      AgreeLess(a, l.reign[t].log, i, n);
      AgreeLess(b, l.reign[t'].log, j, n);
      AgreeLess(l.reign[x].log, l.reign[t].log, l.committed[t], n);
      AgreeLess(l.reign[x].log, l.reign[t'].log, l.committed[t'], n);
    }
  }

  // ---- clients ----

  /** ReadIndex is linearizable: a read that resolves ok is answered from a state at or past every
      entry that any replica had applied, and so could have acknowledged, when the read arrived. */
  lemma ReadsLinearizable(gs: seq<Group>, acts: seq<Action>, i: nat, j: nat, v: nat, id: nat, to: seq<nat>, d: Done)
    requires Run(gs, acts) && i < j < |gs| && acts[i] == Act(v, Read(id, to)) && v < |gs[i].nodes| && d in gs[i].done
    requires Ticket(v, gs[i].nodes[v].life, id) in gs[j].served
    ensures d.index <= gs[j].served[Ticket(v, gs[i].nodes[v].life, id)]
  {
    var k := Ticket(v, gs[i].nodes[v].life, id);
    assert StepAt(gs, acts, i);
    RunSound(gs, acts, i);
    NeverStops(gs, acts, i, v, Read(id, to));
    assert gs[i + 1].tickets[k] == Snapshot(gs[i].book, gs[i].done);
    RunLater(gs, acts, i + 1, j);
    RunSound(gs, acts, j);
    assert ServedPast(gs[j].tickets[k].done, gs[j].served[k]);
  }

  /** A proposal takes effect, if it does, as its own command at its own place, and after everything
      that any replica had applied when it was made. */
  lemma ProposalsOrdered(gs: seq<Group>, acts: seq<Action>, i: nat, j: nat, v: nat, command: string, to: seq<nat>,
                         e: Done)
    requires Run(gs, acts) && i < j < |gs| && acts[i] == Act(v, Propose(command, to)) && v < |gs[i].nodes|
    requires gs[i].nodes[v].Up?
    requires e in gs[j].done && e.index == |gs[i].nodes[v].core.log| + 1 && e.entry.term == gs[i].nodes[v].core.term
    ensures e.entry.command == command
    ensures forall d | d in gs[i].done :: d.index < e.index
  {
    var s := gs[i].nodes[v].core;
    ProposalSlot(gs, acts, i, j, v, command, to);
    RunSound(gs, acts, j);
    SlotTaken(gs[j].book, Slot(s.term, |s.log| + 1), Proposal(command, gs[i].done), e);
  }

  /** The place a proposal was given stays its own. */
  lemma ProposalSlot(gs: seq<Group>, acts: seq<Action>, i: nat, j: nat, v: nat, command: string, to: seq<nat>)
    requires Run(gs, acts) && i < j < |gs| && acts[i] == Act(v, Propose(command, to)) && v < |gs[i].nodes|
    requires gs[i].nodes[v].Up?
    ensures var s := gs[i].nodes[v].core;
            SlotTie(gs[j].book, Slot(s.term, |s.log| + 1), Proposal(command, gs[i].done))
  {
    var s := gs[i].nodes[v].core;
    var slot, p := Slot(s.term, |s.log| + 1), Proposal(command, gs[i].done);
    assert StepAt(gs, acts, i);
    NeverStops(gs, acts, i, v, Propose(command, to));
    assert slot in gs[i + 1].proposed && gs[i + 1].proposed[slot] == p;
    RunSound(gs, acts, i + 1);
    assert SlotTie(gs[i + 1].book, slot, gs[i + 1].proposed[slot]);
    RunLater(gs, acts, i + 1, j);
    SlotStays(gs[i + 1].book, gs[j].book, slot, p);
  }

  lemma SlotTaken(l: Ledger, slot: Slot, p: Proposal, e: Done)
    requires Inv(l) && SlotTie(l, slot, p) && DoneOk(l, {e}) && e.index == slot.index && e.entry.term == slot.term
    ensures e.entry == Entry(slot.term, p.command)
    ensures forall d | d in p.done :: d.index < slot.index
  {
    assert DoneTie(l, e);
    var t: nat :| DoneBy(l, e, t);
    assert ReignHolds(l, t);
    assert l.reign[t].log[..e.index][e.index - 1] == l.reign[slot.term].log[..e.index][e.index - 1];
    forall d | d in p.done
      ensures d.index < slot.index
    {
      assert Before(l, slot, d);
      if d.index >= slot.index {
        var u: nat :| LostTo(l, slot, u);
        DoneSame(l, e, t, Done(slot.index, l.reign[u].log[slot.index - 1]), u);
        assert false;
      }
    }
  }

  // ---- the disk ----

  /** A crash in the middle of any save leaves a batch that replays, and every theorem above holds of
      runs that go on from what it replays to: Tear is one of the steps. */
  lemma TornSavesReplay(gs: seq<Group>, acts: seq<Action>, i: nat, v: nat, input: Input)
    requires Run(gs, acts) && i < |gs| && Enabled(gs[i], Act(v, input))
    ensures var s := gs[i].nodes[v].core;
            var mid := Handle(s, input);
            LogRecords.Follows(Saved(s), Saved(mid), SaveFrom(mid))
  {
    var g := gs[i];
    RunSound(gs, acts, i);
    assert NodeTie(g.book, g.nodes[v], v);
    DeliveredTie(g, v, input);
    TearKeeps(g.book, v, g.nodes[v].core, input, Handle(g.nodes[v].core, input), 0);
  }

  // ---- replication bookkeeping ----

  /** In every reachable leader state: matched < next <= last index + 1; a peer still in the leader's
      term holds the leader's log up to matched; and a peer in a later term does exactly when its
      entry there still has the leader's term for it. */
  lemma Bookkeeping(gs: seq<Group>, acts: seq<Action>, i: nat, v: nat, p: nat)
    requires Run(gs, acts) && i < |gs| && Leads(gs[i], v) && p < |gs[i].nodes|
    ensures var s, d := gs[i].nodes[v].core, DiskOf(gs[i].nodes[p]);
            && Fits(s) && p < s.size && s.matched[p] < s.next[p] <= |s.log| + 1
            && (s.matched[p] > 0 ==> d.term >= s.term)
            && (d.term == s.term ==> Agree(d.log, s.log, s.matched[p]))
            && (Agree(d.log, s.log, s.matched[p]) <==>
                  s.matched[p] <= |d.log| && TermAt(d.log, s.matched[p]) == TermAt(s.log, s.matched[p]))
  {
    var g := gs[i];
    var s, d := g.nodes[v].core, DiskOf(g.nodes[p]);
    RunSound(gs, acts, i);
    DiskTied(g, v);
    DiskTied(g, p);
    assert NodeTie(g.book, g.nodes[v], v);
    assert PeerTie(g.book, s, p);
    var n := s.matched[p];
    assert Ballot(s.term, p) in g.book.acks ==> AckHolds(g.book, Ballot(s.term, p));
    if n > 0 && d.term == s.term {
      AgreeLess(d.log, s.log, g.book.acks[Ballot(s.term, p)], n);
    }
    if n <= |d.log| && TermAt(d.log, n) == TermAt(s.log, n) {
      SameTermAgree(g.book, d.log, s.log, n);
    }
  }

  /** Any leader and any running peer of its term or a lower one are a pair that reconciles. */
  lemma ReachablePairs(gs: seq<Group>, acts: seq<Action>, i: nat, v: nat, p: nat)
    requires Run(gs, acts) && i < |gs| && Leads(gs[i], v) && p < |gs[i].nodes| && gs[i].nodes[p].Up?
    requires gs[i].nodes[p].core.term <= gs[i].nodes[v].core.term
    ensures Reconciliation.Paired(gs[i].nodes[v].core, p, gs[i].nodes[p].core)
    ensures Reconciliation.NeverConflicts(gs[i].nodes[v].core, gs[i].nodes[p].core)
  {
    RunSound(gs, acts, i);
    var s, f := gs[i].nodes[v].core, gs[i].nodes[p].core;
    assert NodeTie(gs[i].book, gs[i].nodes[p], p);
    Bookkeeping(gs, acts, i, v, p);
    LeadersComplete(gs, acts, i, i, p, v);
    assert forall k | 0 <= k < f.commit :: f.log[k] == f.log[..f.commit][k] && s.log[k] == s.log[..f.commit][k];
  }

  /** Reconciliation with any running peer ends, in every reachable leader state: after fewer than next - match failed
      probes the peer takes one, or the first reply shows a newer term and the leader steps down. */
  lemma ReconciliationEnds(gs: seq<Group>, acts: seq<Action>, i: nat, v: nat, p: nat, resend: bool)
      returns (s': Core, f': Core)
    requires Run(gs, acts) && i < |gs| && Leads(gs[i], v) && p < |gs[i].nodes| && gs[i].nodes[p].Up?
    ensures var s, f := gs[i].nodes[v].core, gs[i].nodes[p].core;
            && Fits(s) && Fits(f) && p < s.size
            && (f.term <= s.term ==>
                  && Reconciliation.Paired(s, p, f) && Reconciliation.NeverConflicts(s, f)
                  && Reconciliation.Paired(s', p, f') && Reconciliation.Reply(s', p, f').success
                  && s' == s.(next := s'.next) && s'.next[p] <= s.next[p] - Reconciliation.Failures(s, p, f) &&
                      f'.log == f.log)
            && (f.term > s.term ==> s'.role == Follower && s'.term == f.term)
            && (f.term > s.term ==> s' == OnAppendReply(s, p, NextCall(s, p), OnAppend(f, NextCall(s, p)).1, resend))
  {
    RunSound(gs, acts, i);
    var s, f := gs[i].nodes[v].core, gs[i].nodes[p].core;
    assert NodeTie(gs[i].book, gs[i].nodes[p], p) && NodeTie(gs[i].book, gs[i].nodes[v], v);
    if f.term <= s.term {
      ReachablePairs(gs, acts, i, v, p);
      s', f' := Reconciliation.Reconciles(s, p, f);
    } else {
      Reconciliation.NewerTermDeposes(s, p, f, resend);
      s', f' := OnAppendReply(s, p, NextCall(s, p), OnAppend(f, NextCall(s, p)).1, resend), f;
    }
  }
}
