/** What the group's safety means for a client of the namespace. */
module NameTheorems {
  import opened RaftTypes
  import opened RaftCore
  import opened Ledgers
  import opened ReplicaTie
  import opened RaftGroup
  import opened ReadTies
  import opened GroupSafety
  import opened ActSafety
  import opened RaftTheorems
  import opened Names
  import Text

  function Commands(log: seq<Entry>): (cs: seq<string>)
    ensures |cs| == |log| && forall i | 0 <= i < |log| :: cs[i] == log[i].command
  {
    if log == [] then [] else Commands(log[..|log| - 1]) + [log[|log| - 1].command]
  }

  /** A replica's namespace: the fold of everything it has applied in this life. */
  function NamesOf(s: Core): Namespace
    requires s.applied <= |s.log|
  {
    Fold(Commands(s.log)[..s.applied])
  }

  /** The command at index n, and the answer its client gets. */
  predicate Told(log: seq<Entry>, n: nat, command: string, result: string) {
    1 <= n <= |log| && log[n - 1].command == command && Outcome(Commands(log), n) == result
  }

  ghost predicate Runs(g: Group, v: nat) {
    v < |g.nodes| && g.nodes[v].Up?
  }

  lemma AppliedWithin(gs: seq<Group>, acts: seq<Action>, i: nat, v: nat)
    requires Run(gs, acts) && i < |gs| && Runs(gs[i], v)
    ensures gs[i].nodes[v].core.applied <= |gs[i].nodes[v].core.log|
  {
    RunSound(gs, acts, i);
    var s := gs[i].nodes[v].core;
    assert NodeTie(gs[i].book, gs[i].nodes[v], v);
    SettledWithin(gs[i].book, s.log, s.applied, s.term);
  }

  lemma AgreeCommands(a: seq<Entry>, b: seq<Entry>, n: nat)
    requires Agree(a, b, n)
    ensures Commands(a)[..n] == Commands(b)[..n]
  {
    assert forall i | 0 <= i < n :: a[i] == a[..n][i] && b[i] == b[..n][i];
  }

  /** Every replica that has applied an index gives its client the same answer. */
  lemma OutcomesAgree(gs: seq<Group>, acts: seq<Action>, i: nat, j: nat, v: nat, w: nat, n: nat)
    requires Run(gs, acts) && i <= j < |gs| && Runs(gs[i], v) && Runs(gs[j], w)
    requires 1 <= n <= gs[i].nodes[v].core.applied && n <= gs[j].nodes[w].core.applied
    ensures n <= |gs[i].nodes[v].core.log| && n <= |gs[j].nodes[w].core.log|
    ensures Outcome(Commands(gs[i].nodes[v].core.log), n) == Outcome(Commands(gs[j].nodes[w].core.log), n)
    ensures Fold(Commands(gs[i].nodes[v].core.log)[..n]) == Fold(Commands(gs[j].nodes[w].core.log)[..n])
  {
    AppliedAgree(gs, acts, i, j, v, w, n);
    OutcomeSame(gs[i].nodes[v].core.log, gs[j].nodes[w].core.log, n);
  }

  lemma OutcomeSame(a: seq<Entry>, b: seq<Entry>, n: nat)
    requires Agree(a, b, n) && n >= 1
    ensures Outcome(Commands(a), n) == Outcome(Commands(b), n) && Fold(Commands(a)[..n]) == Fold(Commands(b)[..n])
  {
    AgreeCommands(a, b, n);
    SamePrefix(Commands(a), Commands(b), n);
  }

  lemma SamePrefix(a: seq<string>, b: seq<string>, n: nat)
    requires 1 <= n <= |a| && n <= |b| && a[..n] == b[..n]
    ensures Outcome(a, n) == Outcome(b, n) && Fold(a[..n]) == Fold(b[..n])
  {
    assert a[..n][..n - 1] == a[..n - 1] && b[..n][..n - 1] == b[..n - 1];
    assert a[..n][n - 1] == b[..n][n - 1];
  }

  lemma AppliedIsDone(l: Ledger, log: seq<Entry>, k: nat, bound: nat, n: nat)
    requires Settled(l, log, k, bound) && 1 <= n <= k
    ensures n <= |log| && DoneTie(l, Done(n, log[n - 1]))
  {
    var t :| SettledBy(l, log, k, bound, t);
    assert log[..k][n - 1] == l.reign[t].log[..k][n - 1];
    assert DoneBy(l, Done(n, log[n - 1]), t);
  }

  /** A client is told a write's result only when its own command was applied at its own index: the
      entry there has the proposal's term. The result is then the command's, on the fold of the log
      before it, and everything applied before the proposal lies before it. */
  lemma OwnOutcome(gs: seq<Group>, acts: seq<Action>, i: nat, j: nat, v: nat, command: string, to: seq<nat>, w: nat)
    requires Run(gs, acts) && i < j < |gs| && acts[i] == Act(v, Propose(command, to)) && Runs(gs[i], v)
    requires Runs(gs[j], w)
    requires var n := |gs[i].nodes[v].core.log| + 1;
             && n <= gs[j].nodes[w].core.applied
             && TermAt(gs[j].nodes[w].core.log, n) == gs[i].nodes[v].core.term
    ensures var n, log := |gs[i].nodes[v].core.log| + 1, gs[j].nodes[w].core.log;
            && n <= |log| && log[n - 1].command == command
            && Outcome(Commands(log), n) == ApplyCommand(Fold(Commands(log)[..n - 1]), command).1
            && forall d | d in gs[i].done :: d.index < n
  {
    var s, n, log := gs[i].nodes[v].core, |gs[i].nodes[v].core.log| + 1, gs[j].nodes[w].core.log;
    ProposalSlot(gs, acts, i, j, v, command, to);
    RunSound(gs, acts, j);
    assert NodeTie(gs[j].book, gs[j].nodes[w], w);
    AppliedIsDone(gs[j].book, log, gs[j].nodes[w].core.applied, gs[j].nodes[w].core.term, n);
    SlotTaken(gs[j].book, Slot(s.term, n), Proposal(command, gs[i].done), Done(n, log[n - 1]));
  }

  /** Whatever a running replica has applied is among the things applied. */
  lemma {:induction false} AppliedIn(gs: seq<Group>, acts: seq<Action>, i: nat, v: nat, n: nat)
    requires Run(gs, acts) && i < |gs| && Runs(gs[i], v) && 1 <= n <= gs[i].nodes[v].core.applied
    ensures n <= |gs[i].nodes[v].core.log| && Done(n, gs[i].nodes[v].core.log[n - 1]) in gs[i].done
  {
    AppliedWithin(gs, acts, i, v);
    if i > 0 {
      var kept := AppliedStep(gs, acts, i - 1, v, n);
      if kept {
        AppliedIn(gs, acts, i - 1, v, n);
      }
    }
  }

  lemma NodeCases(gs: seq<Group>, acts: seq<Action>, i: nat, v: nat)
    requires Run(gs, acts) && i < |acts| && v < |gs[i + 1].nodes|
    ensures |gs[i].nodes| == |gs[i + 1].nodes|
    ensures acts[i].v != v ==> gs[i + 1].nodes[v] == gs[i].nodes[v]
    ensures acts[i].v == v && !gs[i].nodes[v].Up? && gs[i + 1].nodes[v].Up? ==> gs[i + 1].nodes[v].core.applied == 0
  {
    assert StepAt(gs, acts, i);
  }

  /** An entry applied by the end of a step was handed over by it, or had been applied before. */
  lemma AppliedStep(gs: seq<Group>, acts: seq<Action>, i: nat, v: nat, n: nat) returns (kept: bool)
    requires Run(gs, acts) && i < |acts| && Runs(gs[i + 1], v) && 1 <= n <= gs[i + 1].nodes[v].core.applied
    requires n <= |gs[i + 1].nodes[v].core.log|
    ensures kept ==> Runs(gs[i], v) && n <= gs[i].nodes[v].core.applied && n <= |gs[i].nodes[v].core.log| &&
                     gs[i].nodes[v].core.log[n - 1] == gs[i + 1].nodes[v].core.log[n - 1] &&
                         gs[i].done <= gs[i + 1].done
    ensures !kept ==> Done(n, gs[i + 1].nodes[v].core.log[n - 1]) in gs[i + 1].done
  {
    NodeCases(gs, acts, i, v);
    RunLater(gs, acts, i, i + 1);
    kept := acts[i].v != v || (gs[i].nodes[v].Up? && n <= gs[i].nodes[v].core.applied);
    if acts[i].v == v && gs[i].nodes[v].Up? {
      ActApplies(gs, acts, i, v);
      if kept {
        AppliedAgree(gs, acts, i, i + 1, v, v, n);
        assert gs[i].nodes[v].core.log[n - 1] == gs[i].nodes[v].core.log[..n][n - 1];
        assert gs[i + 1].nodes[v].core.log[n - 1] == gs[i + 1].nodes[v].core.log[..n][n - 1];
      }
    }
  }

  /** A step of a running replica that leaves it running hands over exactly the entries between its
      old and its new applied index. */
  lemma ActApplies(gs: seq<Group>, acts: seq<Action>, i: nat, v: nat)
    requires Run(gs, acts) && i < |acts| && acts[i].v == v && Runs(gs[i], v) && Runs(gs[i + 1], v)
    ensures var s, fin := gs[i].nodes[v].core, gs[i + 1].nodes[v].core;
            s.applied <= fin.applied && gs[i + 1].done == gs[i].done + Newly(fin.log, s.applied, fin.applied)
  {
    assert StepAt(gs, acts, i);
    RunSound(gs, acts, i);
    assert NodeTie(gs[i].book, gs[i].nodes[v], v);
    match acts[i]
    case Act(_, input) =>
      NeverStops(gs, acts, i, v, input);
      HandleRules(gs[i].nodes[v].core, input);
      AppliedFields(Handle(gs[i].nodes[v].core, input));
    case Tear(_, input, k) =>
    case Crash(_) =>
    case Restart(_) =>
  }

  /** The namespace moves only forward: a step folds the newly applied commands into it. */
  lemma NamesAdvance(gs: seq<Group>, acts: seq<Action>, i: nat, v: nat)
    requires Run(gs, acts) && i < |acts| && acts[i].v == v && Runs(gs[i], v) && Runs(gs[i + 1], v)
    ensures var s, fin := gs[i].nodes[v].core, gs[i + 1].nodes[v].core;
            && s.applied <= fin.applied <= |fin.log| && s.applied <= |s.log|
            && NamesOf(s) == Fold(Commands(fin.log)[..s.applied])
  {
    AppliedWithin(gs, acts, i, v);
    AppliedWithin(gs, acts, i + 1, v);
    ActApplies(gs, acts, i, v);
    AppliedAgree(gs, acts, i, i + 1, v, v, gs[i].nodes[v].core.applied);
    AgreeCommands(gs[i].nodes[v].core.log, gs[i + 1].nodes[v].core.log, gs[i].nodes[v].core.applied);
  }

  lemma ActServes(gs: seq<Group>, acts: seq<Action>, i: nat, v: nat, t: Ticket)
    requires Run(gs, acts) && i < |acts| && acts[i].v == v && t in gs[i + 1].served
    ensures v < |gs[i].nodes| == |gs[i + 1].nodes| && gs[i].nodes[v].life <= gs[i + 1].nodes[v].life
    ensures gs[i + 1].nodes[v].life == gs[i].nodes[v].life && Runs(gs[i + 1], v) ==> Runs(gs[i], v)
    ensures || (t in gs[i].served && gs[i + 1].served[t] == gs[i].served[t])
            || (t.who == v && t.life == gs[i + 1].nodes[v].life && Runs(gs[i + 1], v) &&
                gs[i + 1].served[t] == gs[i + 1].nodes[v].core.applied)
  {
    assert StepAt(gs, acts, i);
  }

  /** A read that the present life of a replica has answered was answered at an index it has applied. */
  lemma {:induction false} ServedWithin(gs: seq<Group>, acts: seq<Action>, k: nat, t: Ticket)
    requires Run(gs, acts) && k < |gs| && t in gs[k].served
    ensures t.who < |gs[k].nodes| && t.life <= gs[k].nodes[t.who].life
    ensures Runs(gs[k], t.who) && t.life == gs[k].nodes[t.who].life ==>
              gs[k].served[t] <= gs[k].nodes[t.who].core.applied
    decreases k
  {
    var i := k - 1;
    var v := acts[i].v;
    ActServes(gs, acts, i, v, t);
    if t in gs[i].served && gs[k].served[t] == gs[i].served[t] {
      ServedWithin(gs, acts, i, t);
      NodeCases(gs, acts, i, t.who);
      if t.who == v && Runs(gs[k], v) && gs[k].nodes[v].life == gs[i].nodes[v].life {
        ActApplies(gs, acts, i, v);
      }
    }
  }

  /** An acknowledged name resolves: once any replica has applied a registration that answered OK, a
      read that arrives afterwards is answered with its key, unless a deletion by its owner has been
      applied in between. */
  lemma AcknowledgedNameResolves(gs: seq<Group>, acts: seq<Action>, i: nat, j: nat, k: nat, w: nat, v: nat, n: nat,
                                 name: string, key: string, owner: string, id: nat, to: seq<nat>)
    requires Run(gs, acts) && i <= j < k < |gs| && Runs(gs[i], w) && 1 <= n <= gs[i].nodes[w].core.applied
    requires ValidName(name) && Text.HexKey(key) && (owner == "" || Text.HexKey(owner))
    requires Told(gs[i].nodes[w].core.log, n, RegisterCommand(name, key, owner), "OK")
    requires acts[j] == Act(v, Read(id, to)) && Runs(gs[j], v)
    requires Runs(gs[k], v) && gs[k].nodes[v].life == gs[j].nodes[v].life
    requires Ticket(v, gs[j].nodes[v].life, id) in gs[k].served
    requires forall x | n <= x < gs[k].nodes[v].core.applied && x < |gs[k].nodes[v].core.log| ::
               !Deletes(gs[k].nodes[v].core.log[x].command, name, owner)
    ensures var s := gs[k].nodes[v].core;
            s.applied <= |s.log| && name in NamesOf(s) && NamesOf(s)[name] == NameEntry(key, owner)
  {
    var a, b := Commands(gs[i].nodes[w].core.log), Commands(gs[k].nodes[v].core.log);
    var d := Done(n, gs[i].nodes[w].core.log[n - 1]);
    AppliedIn(gs, acts, i, w, n);
    AppliedWithin(gs, acts, k, v);
    RunLater(gs, acts, i, j);
    ReadsLinearizable(gs, acts, j, k, v, id, to, d);
    ServedWithin(gs, acts, k, Ticket(v, gs[j].nodes[v].life, id));
    OutcomesAgree(gs, acts, i, k, w, v, n);
    RegisterEffect(Fold(a[..n - 1]), name, key, owner);
    assert a[..n][..n - 1] == a[..n - 1];
    NameKept(b, n, gs[k].nodes[v].core.applied, name);
  }
}
