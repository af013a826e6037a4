/** A replica and the state machine it feeds, over whole runs: the namespace folds what the replica
    has applied, and a client waiting on an index is told about the command that took it. */
module MachineRuns {
  import opened RaftTypes
  import opened RaftCore
  import opened RaftGroup
  import opened RaftTheorems
  import opened Names
  import opened NameTheorems
  import RaftReplica

  /** The state machine as a value: all it has applied, and who waits, by the step of the request. */
  datatype Machine = Machine(applied: seq<string>, waiters: map<nat, Waiter>)

  function Heard(ws: map<nat, Waiter>, d: Done, result: string): map<nat, Waiter> {
    map id | id in ws :: Woken(ws[id], d.index, d.entry.term, result)
  }

  /** The state machine after these entries have been handed to it, in order. */
  function Fed(m: Machine, ds: seq<Done>): Machine {
    if ds == [] then m
    else
      var p, d := Fed(m, ds[..|ds| - 1]), ds[|ds| - 1];
      var cs := p.applied + [d.entry.command];
      Machine(cs, Heard(p.waiters, d, Outcome(cs, |cs|)))
  }

  method Feed(m: StateMachine, ds: seq<Done>)
    requires m.Valid()
    modifies m
    ensures m.Valid() && Machine(m.applied, m.waiters) == Fed(old(Machine(m.applied, m.waiters)), ds)
  {
    ghost var was := Machine(m.applied, m.waiters);
    var k := 0;
    while k < |ds|
      invariant k <= |ds| && m.Valid() && Machine(m.applied, m.waiters) == Fed(was, ds[..k])
    {
      ghost var cs, ws := m.applied, m.waiters;
      m.OnApply(ds[k].index, ds[k].entry.term, ds[k].entry.command);
      assert m.waiters == Heard(ws, ds[k], Outcome(m.applied, |m.applied|));
      assert ds[..k + 1][..k] == ds[..k];
      k := k + 1;
    }
    assert ds[..k] == ds;
  }

  // ---- a stretch of a log ----

  /** What a client waiting on an applied index is told. */
  function Answer(w: Waiter, log: seq<Entry>): string
    requires 1 <= w.index <= |log|
  {
    if log[w.index - 1].term == w.term then Outcome(Commands(log), w.index) else REPLACED
  }

  /** A waiter after the entries of the log past `from`, up to `to`, have been handed over. */
  function Woke(w: Waiter, log: seq<Entry>, from: nat, to: nat): Waiter
    requires to <= |log|
  {
    if w.done || !(from < w.index <= to) then w else w.(done := true, result := Answer(w, log))
  }

  /** r is m after the entries of the log past `from`, up to `end`. */
  ghost predicate Caught(m: Machine, r: Machine, log: seq<Entry>, from: nat, end: nat)
    requires end <= |log|
  {
    && r.applied == Commands(log)[..end] && r.waiters.Keys == m.waiters.Keys
    && forall id | id in m.waiters :: r.waiters[id] == Woke(m.waiters[id], log, from, end)
  }

  lemma CaughtOne(m: Machine, p: Machine, r: Machine, log: seq<Entry>, from: nat, end: nat)
    requires from < end <= |log| && Caught(m, p, log, from, end - 1)
    requires r.applied == p.applied + [log[end - 1].command]
    requires r.waiters == Heard(p.waiters, Done(end, log[end - 1]), Outcome(r.applied, |r.applied|))
    ensures Caught(m, r, log, from, end)
  {
    assert r.applied == Commands(log)[..end];
    assert r.applied[..end - 1] == Commands(log)[..end - 1];
  }

  lemma {:induction false} FedFrom(m: Machine, log: seq<Entry>, from: nat, end: nat)
    requires from <= end <= |log| && m.applied == Commands(log)[..from]
    ensures Caught(m, Fed(m, RaftReplica.Handed(log, from, end)), log, from, end)
    decreases end
  {
    if from < end {
      FedFrom(m, log, from, end - 1);
      var hs := RaftReplica.Handed(log, from, end);
      assert hs[..|hs| - 1] == RaftReplica.Handed(log, from, end - 1);
      CaughtOne(m, Fed(m, hs[..|hs| - 1]), Fed(m, hs), log, from, end);
    }
  }

  // ---- runs ----

  /** A client that proposes leaves a waiter first, at the place its command will get. */
  function Asking(m: Machine, s: Core, i: Input, id: nat): Machine {
    if i.Propose? then m.(waiters := m.waiters[id := Waiter(|s.log| + 1, s.term, false, "")]) else m
  }

  /** Step i of the run, at replica v's state machine: it is gone when the replica is, and new when
      the replica is. */
  ghost predicate Feeds(gs: seq<Group>, acts: seq<Action>, v: nat, i: nat, m: Machine, m': Machine)
    requires i < |acts| && |gs| == |acts| + 1
  {
    if acts[i].v != v then m' == m
    else if !Runs(gs[i + 1], v) then true
    else match acts[i]
      case Act(_, input) =>
        && Runs(gs[i], v)
        && var s, fin := gs[i].nodes[v].core, gs[i + 1].nodes[v].core;
           m' == Fed(Asking(m, s, input, i), RaftReplica.Handed(fin.log, s.applied, fin.applied))
      case _ => m' == Machine([], map[])
  }

  ghost predicate Machines(gs: seq<Group>, acts: seq<Action>, v: nat, ms: seq<Machine>) {
    && |ms| == |gs| == |acts| + 1
    && forall i: nat {:trigger ms[i + 1]} | i < |acts| :: Feeds(gs, acts, v, i, ms[i], ms[i + 1])
  }

  /** This waiter is of the proposal made at step id, and has been told if its index is applied. */
  ghost predicate Waits(gs: seq<Group>, acts: seq<Action>, v: nat, s: Core, i: nat, id: nat, w: Waiter)
    requires |gs| == |acts| + 1 && i < |gs|
  {
    && id < i && acts[id].Act? && acts[id].v == v && acts[id].i.Propose? && Runs(gs[id], v)
    && w.index == |gs[id].nodes[v].core.log| + 1 && w.term == gs[id].nodes[v].core.term
    && (w.done <==> w.index <= s.applied)
    && (w.done ==> w.index <= |s.log| && w.result == Answer(w, s.log))
  }

  ghost predicate Follows(gs: seq<Group>, acts: seq<Action>, v: nat, s: Core, i: nat, m: Machine)
    requires |gs| == |acts| + 1 && i < |gs|
  {
    && s.applied <= |s.log| && m.applied == Commands(s.log)[..s.applied]
    && forall id | id in m.waiters :: Waits(gs, acts, v, s, i, id, m.waiters[id])
  }

  lemma AnswerSame(w: Waiter, a: seq<Entry>, b: seq<Entry>, n: nat)
    requires Agree(a, b, n) && 1 <= w.index <= n
    ensures w.index <= |a| && w.index <= |b| && Answer(w, a) == Answer(w, b)
  {
    assert a[..n][w.index - 1] == b[..n][w.index - 1];
    assert a[..w.index] == a[..n][..w.index] && b[..w.index] == b[..n][..w.index];
    OutcomeSame(a, b, w.index);
  }

  lemma WaitsOn(gs: seq<Group>, acts: seq<Action>, v: nat, s: Core, fin: Core, i: nat, id: nat, w: Waiter)
    requires |gs| == |acts| + 1 && i < |acts| && Waits(gs, acts, v, s, i, id, w)
    requires s.applied <= fin.applied <= |fin.log| && Agree(s.log, fin.log, s.applied)
    ensures Waits(gs, acts, v, fin, i + 1, id, Woke(w, fin.log, s.applied, fin.applied))
  {
    if w.done {
      AnswerSame(w, s.log, fin.log, s.applied);
    }
  }

  lemma CaughtFollows(gs: seq<Group>, acts: seq<Action>, v: nat, i: nat, m: Machine, asked: Machine, m': Machine,
                      s: Core, fin: Core)
    requires |gs| == |acts| + 1 && i < |acts| && Follows(gs, acts, v, s, i, m)
    requires s.applied <= fin.applied <= |fin.log| && Agree(s.log, fin.log, s.applied)
    requires acts[i].Act? && acts[i].v == v && Runs(gs[i], v) && s == gs[i].nodes[v].core
    requires asked == Asking(m, s, acts[i].i, i) && Caught(asked, m', fin.log, s.applied, fin.applied)
    ensures Follows(gs, acts, v, fin, i + 1, m')
  {
    forall id | id in m'.waiters
      ensures Waits(gs, acts, v, fin, i + 1, id, m'.waiters[id])
    {
      assert m'.waiters[id] == Woke(asked.waiters[id], fin.log, s.applied, fin.applied);
      if id != i {
        WaitsOn(gs, acts, v, s, fin, i, id, m.waiters[id]);
      }
    }
  }

  lemma ActFollows(gs: seq<Group>, acts: seq<Action>, v: nat, i: nat, m: Machine, m': Machine, s: Core, fin: Core)
    requires Run(gs, acts) && i < |acts| && acts[i].Act? && acts[i].v == v && Runs(gs[i], v) && Runs(gs[i + 1], v)
    requires s == gs[i].nodes[v].core && fin == gs[i + 1].nodes[v].core
    requires Follows(gs, acts, v, s, i, m)
    requires m' == Fed(Asking(m, s, acts[i].i, i), RaftReplica.Handed(fin.log, s.applied, fin.applied))
    ensures Follows(gs, acts, v, fin, i + 1, m')
  {
    NamesAdvance(gs, acts, i, v);
    AppliedAgree(gs, acts, i, i + 1, v, v, s.applied);
    AgreeCommands(s.log, fin.log, s.applied);
    var asked := Asking(m, s, acts[i].i, i);
    FedFrom(asked, fin.log, s.applied, fin.applied);
    CaughtFollows(gs, acts, v, i, m, asked, m', s, fin);
  }

  /** A replica that runs after a step was running before it, or has just started and applied nothing. */
  lemma RunsSince(gs: seq<Group>, acts: seq<Action>, v: nat, i: nat)
    requires Run(gs, acts) && i < |acts| && acts[i].v == v && Runs(gs[i + 1], v)
    ensures if acts[i].Act? then Runs(gs[i], v) else gs[i + 1].nodes[v].core.applied == 0
  {
    assert StepAt(gs, acts, i);
  }

  /** A running replica's state machine holds the fold of exactly what the replica has applied. */
  lemma {:induction false} MachineFollows(gs: seq<Group>, acts: seq<Action>, v: nat, ms: seq<Machine>, i: nat)
    requires Run(gs, acts) && Machines(gs, acts, v, ms) && i < |gs| && Runs(gs[i], v)
    ensures Follows(gs, acts, v, gs[i].nodes[v].core, i, ms[i])
    ensures gs[i].nodes[v].core.applied <= |gs[i].nodes[v].core.log|
    ensures Fold(ms[i].applied) == NamesOf(gs[i].nodes[v].core)
    decreases i
  {
    var h := i - 1;
    assert Feeds(gs, acts, v, h, ms[h], ms[h + 1]);
    if acts[h].v != v {
      NodeCases(gs, acts, h, v);
      MachineFollows(gs, acts, v, ms, h);
    } else {
      RunsSince(gs, acts, v, h);
      if acts[h].Act? {
        MachineFollows(gs, acts, v, ms, h);
        ActFollows(gs, acts, v, h, ms[h], ms[i], gs[h].nodes[v].core, gs[i].nodes[v].core);
      }
    }
  }

  /** A waiter is woken when its index is applied, and never before. If the entry there has its
      term, it is told what its own command did to the names before it; if not, it is told that it
      was replaced, and its command is at that place in no replica at any time: retrying is safe. */
  lemma WaiterIsTold(gs: seq<Group>, acts: seq<Action>, v: nat, ms: seq<Machine>, j: nat, id: nat,
                     command: string, to: seq<nat>, k: nat)
    requires Run(gs, acts) && Machines(gs, acts, v, ms) && j < |gs| && Runs(gs[j], v) && k < |gs|
    requires id in ms[j].waiters && id < |acts| && acts[id] == Act(v, Propose(command, to))
    ensures id < j && Runs(gs[id], v)
    ensures ms[j].waiters[id].done <==> |gs[id].nodes[v].core.log| < gs[j].nodes[v].core.applied
    ensures var s, was, w := gs[j].nodes[v].core, gs[id].nodes[v].core, ms[j].waiters[id];
            w.done ==>
              && |was.log| < |s.log|
              && if s.log[|was.log|].term == was.term
                 then s.log[|was.log|].command == command &&
                      w.result == ApplyCommand(Fold(Commands(s.log)[..|was.log|]), command).1
                 else w.result == REPLACED &&
                      forall e | e in gs[k].done && e.index == |was.log| + 1 :: e.entry.term != was.term
  {
    MachineFollows(gs, acts, v, ms, j);
    var s, was, w := gs[j].nodes[v].core, gs[id].nodes[v].core, ms[j].waiters[id];
    assert Waits(gs, acts, v, s, j, id, w);
    if w.done {
      if s.log[|was.log|].term == was.term {
        OwnOutcome(gs, acts, id, j, v, command, to, v);
      } else {
        AppliedIn(gs, acts, j, v, |was.log| + 1);
        forall e | e in gs[k].done && e.index == |was.log| + 1
          ensures e.entry.term != was.term
        {
          StateMachineSafety(gs, acts, j, k, Done(|was.log| + 1, s.log[|was.log|]), e);
        }
      }
    }
  }
}
