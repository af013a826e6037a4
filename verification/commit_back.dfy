/** A follower's commit index that moves back: a run of five replicas in which a call of one entry is
    delivered a second time, after the follower has committed two. */
module CommitBack {
  import opened RaftTypes
  import opened RaftCore
  import opened LeaderTies
  import opened RaftGroup
  import opened RaftTheorems
  import opened StaleMatch

  // ---- one replica at a time ----

  /** The leader's no-op, and two proposals. */
  function Log(command: string): (log: seq<Entry>)
    ensures |log| == 3 && forall i | 0 <= i < 3 :: log[i].term == 1
  {
    [Entry(1, "NOOP"), Entry(1, command), Entry(1, command)]
  }

  /** Replica 0 leads term 1. Each peer is believed to hold `m[p]` entries, and is next sent what follows. */
  predicate Leading(s: Core, command: string, n: nat, m: seq<nat>, c: nat) {
    && Fits(s) && s.id == 0 && s.size == 5 && !s.stopped && s.pending == [] && s.results == []
    && s.role == Leader && s.term == 1 && 1 <= n <= 3 && s.log == Log(command)[..n] && s.commit == c
    && |m| == 5 && m[4] == 0 && m[1] <= m[2] && m[1] <= m[3]
    && forall p | 1 <= p < 5 :: m[p] <= n && s.matched[p] == m[p] && s.next[p] == m[p] + 1
  }

  /** At rest it has committed what replicas 2 and 3 both hold. */
  predicate Reigning(s: Core, command: string, n: nat, m: seq<nat>) {
    |m| == 5 && Leading(s, command, n, m, Min(m[2], m[3])) && s.out == []
  }

  /** Replica p follows, holds the first k entries, and has committed and applied c of them. */
  predicate Held(f: Core, p: nat, command: string, k: nat, c: nat) {
    && Fits(f) && f.id == p && f.size == 5 && !f.stopped && f.pending == [] && f.results == [] && f.out == []
    && f.role == Follower && f.term <= 1 && k <= 3 && f.log == Log(command)[..k] && f.commit == f.applied == c <= k
  }

  /** The call that carries entry k + 1 alone, from a leader that has committed c. */
  predicate Carries(push: AppendRequest, command: string, k: nat, c: nat) {
    k < 3 && push == AppendRequest(1, 0, k, if k == 0 then 0 else 1, [Log(command)[k]], c, push.number)
  }

  lemma Few(s: Core, command: string, n: nat, m: seq<nat>, c: nat, j: nat)
    requires Leading(s, command, n, m, c) && j > Min(m[2], m[3])
    ensures !Most(Count(Holders(s, j)), 5)
  {
    var bits := Holders(s, j);
    CountIsSize(bits);
    var two := if m[2] < j then {0, 3} else {0, 2};
    assert Trues(bits) <= two;
    SubsetSize(Trues(bits), two);
  }

  lemma Enough(s: Core, command: string, n: nat, m: seq<nat>, c: nat, j: nat)
    requires Leading(s, command, n, m, c) && j <= Min(m[2], m[3])
    ensures Most(Count(Holders(s, j)), 5)
  {
    var bits := Holders(s, j);
    CountIsSize(bits);
    assert {0, 2, 3} <= Trues(bits);
    SubsetSize({0, 2, 3}, Trues(bits));
  }

  lemma {:induction false} Commits(s: Core, command: string, n: nat, m: seq<nat>, c: nat, j: nat)
    requires Leading(s, command, n, m, c) && c <= Min(m[2], m[3]) <= j <= n
    ensures BestCommit(s, j) == Min(m[2], m[3])
    decreases j
  {
    if j == Min(m[2], m[3]) {
      Enough(s, command, n, m, c, j);
    } else {
      Few(s, command, n, m, c, j);
      Commits(s, command, n, m, c, j - 1);
    }
  }

  lemma ReignSettles(mid: Core, command: string, n: nat, m: seq<nat>, c: nat)
    requires Leading(mid, command, n, m, c) && c <= Min(m[2], m[3])
    ensures Reigning(Calm(Settle(mid)), command, n, m) && Settle(mid).out == mid.out
  {
    Commits(Clean(mid), command, n, m, c, n);
    assert [] + Answered(mid, []) == [];
  }

  lemma Alone(log: seq<Entry>, k: nat, max: nat, command: string)
    requires k < 3 && log == Log(command) && max < |command| + 22
    ensures BatchSize(log, k, 0, max, false) == 1
  {
    assert BatchSize(log, k + 1, Cost(log[k]), max, true) == 0;
  }

  lemma Sends(s: Core, command: string, m: seq<nat>, p: nat) returns (push: AppendRequest)
    requires Reigning(s, command, 3, m) && 1 <= p < 4 && m[p] < 3 && s.maxBytes < |command| + 22
    ensures Carries(push, command, m[p], Min(m[2], m[3])) && Allowed(s, Heartbeat([p]))
    ensures !Handle(s, Heartbeat([p])).stopped
    ensures var fin := Settle(Handle(s, Heartbeat([p]))); Reigning(Calm(fin), command, 3, m) && Push(p, push) in fin.out
  {
    push := NextCall(s, p);
    Alone(s.log, m[p], s.maxBytes, command);
    SendsOne(s, p);
    ReignSettles(SendAppend(s, p), command, 3, m, Min(m[2], m[3]));
  }

  lemma SendsOne(s: Core, p: nat)
    requires Fits(s) && p < s.size && p != s.id && s.out == []
    ensures SendList(s, [p]) == SendAppend(s, p) && SendAppend(s, p).out == [Push(p, NextCall(s, p))]
  {
    assert [p][..0] == [];
    assert SendList(s, []) == s;
  }

  lemma FollowerSettles(mid: Core)
    requires Fits(mid) && mid.role == Follower && mid.pending == [] && mid.results == []
    ensures Settle(mid) == Clean(mid).(applied := Max(mid.applied, mid.commit))
  {
    assert [] + Failures([]) == [];
  }

  lemma Takes(f: Core, p: nat, command: string, k: nat, c: nat, push: AppendRequest, b: nat)
    requires Held(f, p, command, k, c) && Carries(push, command, k, b)
    ensures var i := GetAppend(push);
            && Allowed(f, i) && !Handle(f, i).stopped && OnAppend(f, push).1 == AppendReply(1, true, k + 1)
            && Held(Calm(Settle(Handle(f, i))), p, command, k + 1, if b > c then Min(b, k + 1) else c)
  {
    var f1 := BecomeFollower(f, 1, 0);
    Absorbs(f1, command, k, push.entries);
    Appends(f1, command, k, push, b);
    FollowerSettles(OnAppend(f, push).0);
  }

  lemma Absorbs(f: Core, command: string, k: nat, es: seq<Entry>)
    requires k < 3 && f.log == Log(command)[..k] && es == [Log(command)[k]]
    ensures Absorb(f, k, es) == ChangedFrom(f.(log := Log(command)[..k + 1]), k + 1)
  {
    assert FirstNew(f.log, k, es) == 0;
    assert f.log[..k] + es[0..] == Log(command)[..k + 1];
  }

  lemma Appends(f: Core, command: string, k: nat, push: AppendRequest, b: nat)
    requires Carries(push, command, k, b) && !f.stopped && f.term == 1 && f.log == Log(command)[..k]
    requires Absorb(f, k, push.entries) == ChangedFrom(f.(log := Log(command)[..k + 1]), k + 1)
    ensures TryAppend(f, push) ==
            (ChangedFrom(f.(log := Log(command)[..k + 1],
                            commit := if b > f.commit then Min(b, k + 1) else f.commit), k + 1),
             AppendReply(1, true, k + 1))
  {
  }

  /** The first call once more, at a follower that has committed two. */
  lemma TakesAgain(f: Core, command: string, push: AppendRequest)
    requires Held(f, 1, command, 2, 2) && Carries(push, command, 0, 3)
    ensures var i := GetAppend(push);
            && Allowed(f, i) && !Handle(f, i).stopped && OnAppend(f, push).1.success
            && Settle(Handle(f, i)).commit == 1 && Settle(Handle(f, i)).applied == 2
  {
    var f1 := BecomeFollower(f, 1, 0);
    var es := push.entries;
    assert FirstNew(f1.log, 1, es[1..]) == 0;
    assert FirstNew(f1.log, 0, es) == 1;
    FollowerSettles(OnAppend(f, push).0);
  }

  lemma Hears(s: Core, command: string, m: seq<nat>, p: nat, push: AppendRequest, b: nat)
    requires Reigning(s, command, 3, m) && 1 <= p < 4 && m[p] < 3 && Carries(push, command, m[p], b)
    requires p == 1 ==> m[1] < m[2] && m[1] < m[3]
    ensures var i := GetAppendReply(p, push, AppendReply(1, true, m[p] + 1), false);
            && Allowed(s, i) && !Handle(s, i).stopped
            && Reigning(Calm(Settle(Handle(s, i))), command, 3, m[p := m[p] + 1])
  {
    var i := GetAppendReply(p, push, AppendReply(1, true, m[p] + 1), false);
    assert Confirm([], p, push.number) == [];
    ReignSettles(Handle(s, i), command, 3, m[p := m[p] + 1], Min(m[2], m[3]));
  }

  lemma Proposes(s: Core, command: string, n: nat, m: seq<nat>)
    requires Reigning(s, command, n, m) && n < 3 && m == [0, 0, 0, 0, 0]
    ensures var i := Propose(command, []);
            && Allowed(s, i) && !Handle(s, i).stopped && Reigning(Calm(Settle(Handle(s, i))), command, n + 1, m)
  {
    assert s.log + [Entry(1, command)] == Log(command)[..n + 1];
    ReignSettles(Handle(s, Propose(command, [])), command, n + 1, m, 0);
  }

  // ---- the limit on a call is the group's ----

  lemma StepMax(g: Group, a: Action)
    requires Sized(g) && Enabled(g, a)
    ensures Step(g, a).maxBytes == g.maxBytes && |Step(g, a).nodes| == |g.nodes|
  {
  }

  lemma StepLimit(g: Group, a: Action, v: nat)
    requires Sized(g) && Enabled(g, a) && v < |g.nodes| && Step(g, a).nodes[v].Up?
    ensures g.nodes[v].Up? ==> Step(g, a).nodes[v].core.maxBytes == g.nodes[v].core.maxBytes
    ensures !g.nodes[v].Up? ==> Step(g, a).nodes[v].core.maxBytes == g.maxBytes
  {
    if a.Act? && a.v == v && !Handle(g.nodes[v].core, a.i).stopped {
      SettleMax(Handle(g.nodes[v].core, a.i));
    }
  }

  lemma SettleMax(mid: Core)
    requires Fits(mid)
    ensures Settle(mid).maxBytes == mid.maxBytes
  {
  }

  lemma {:induction false} Limit(gs: seq<Group>, acts: seq<Action>, i: nat, v: nat)
    requires Run(gs, acts) && i < |gs| && v < |gs[i].nodes| && gs[i].nodes[v].Up?
    ensures gs[i].nodes[v].core.maxBytes == gs[i].maxBytes
    decreases i
  {
    if i > 0 {
      assert StepAt(gs, acts, i - 1);
      StepMax(gs[i - 1], acts[i - 1]);
      StepLimit(gs[i - 1], acts[i - 1], v);
      if gs[i - 1].nodes[v].Up? {
        Limit(gs, acts, i - 1, v);
      }
    }
  }

  lemma {:induction false} LimitStays(gs: seq<Group>, acts: seq<Action>, i: nat)
    requires Run(gs, acts) && i < |gs|
    ensures gs[i].maxBytes == gs[0].maxBytes
    decreases i
  {
    if i > 0 {
      LimitStays(gs, acts, i - 1);
      assert StepAt(gs, acts, i - 1);
      StepMax(gs[i - 1], acts[i - 1]);
    }
  }

  // ---- the run ----

  /** Nothing sent is forgotten, and of the peers only p has changed. */
  predicate Since(g: Group, h: Group, p: nat) {
    && |h.nodes| == |g.nodes| == 5 && g.calls <= h.calls
    && forall w | 1 <= w < 5 && w != p :: h.nodes[w] == g.nodes[w]
  }

  /** The leader sends peer p its next entry, p takes it, and the leader hears so. */
  lemma Shipped(gs: seq<Group>, acts: seq<Action>, g: Group, s: Core, f: Core, p: nat, command: string, m: seq<nat>,
                c: nat)
      returns (gs': seq<Group>, acts': seq<Action>, h: Group, s': Core, f': Core, push: AppendRequest)
    requires At(gs, acts, g) && 1 <= p < 4 && Is(g, 0, s) && Is(g, p, f) && gs[0].maxBytes < |command| + 22
    requires Reigning(s, command, 3, m) && Held(f, p, command, m[p], c) && m[p] < 3
    requires p == 1 ==> m[1] < m[2] && m[1] < m[3]
    ensures At(gs', acts', h) && Since(g, h, p) && Is(h, 0, s') && Is(h, p, f') && gs'[0] == gs[0]
    ensures Reigning(s', command, 3, m[p := m[p] + 1])
    ensures var b := Min(m[2], m[3]);
            && Held(f', p, command, m[p] + 1, if b > c then Min(b, m[p] + 1) else c)
            && Carries(push, command, m[p], b) && Push(p, push) in h.calls
  {
    var gs1, acts1, g1, s1;
    gs1, acts1, g1, s1, push := Sent(gs, acts, g, s, p, command, m);
    var gs2, acts2, g2;
    gs2, acts2, g2, f' := Delivered(gs1, acts1, g1, f, p, command, m[p], c, push, Min(m[2], m[3]));
    gs', acts', h, s' := Heard(gs2, acts2, g2, s1, p, command, m, push, Min(m[2], m[3]));
  }

  lemma Sent(gs: seq<Group>, acts: seq<Action>, g: Group, s: Core, p: nat, command: string, m: seq<nat>)
      returns (gs': seq<Group>, acts': seq<Action>, h: Group, s': Core, push: AppendRequest)
    requires At(gs, acts, g) && 1 <= p < 4 && Is(g, 0, s) && gs[0].maxBytes < |command| + 22
    requires Reigning(s, command, 3, m) && m[p] < 3
    ensures At(gs', acts', h) && After(g, h, 0) && Is(h, 0, s') && gs'[0] == gs[0] && Reigning(s', command, 3, m)
    ensures Carries(push, command, m[p], Min(m[2], m[3])) && Push(p, push) in h.calls
  {
    Limit(gs, acts, |acts|, 0);
    LimitStays(gs, acts, |acts|);
    push := Sends(s, command, m, p);
    gs', acts', h := Acts(gs, acts, g, 0, Heartbeat([p]));
    s' := h.nodes[0].core;
  }

  lemma Delivered(gs: seq<Group>, acts: seq<Action>, g: Group, f: Core, p: nat, command: string, k: nat, c: nat,
                  push: AppendRequest, b: nat)
      returns (gs': seq<Group>, acts': seq<Action>, h: Group, f': Core)
    requires At(gs, acts, g) && 1 <= p < 4 && Is(g, p, f) && Held(f, p, command, k, c) && Carries(push, command, k, b)
    requires Push(p, push) in g.calls
    ensures At(gs', acts', h) && After(g, h, p) && Is(h, p, f') && gs'[0] == gs[0]
    ensures Held(f', p, command, k + 1, if b > c then Min(b, k + 1) else c)
    ensures Appended(p, push, AppendReply(1, true, k + 1)) in h.answers
  {
    Takes(f, p, command, k, c, push, b);
    gs', acts', h := Acts(gs, acts, g, p, GetAppend(push));
    f' := h.nodes[p].core;
    assert Appended(p, push, AppendReply(1, true, k + 1)) in Replies(p, f, GetAppend(push));
  }

  lemma Heard(gs: seq<Group>, acts: seq<Action>, g: Group, s: Core, p: nat, command: string, m: seq<nat>,
              push: AppendRequest, b: nat)
      returns (gs': seq<Group>, acts': seq<Action>, h: Group, s': Core)
    requires At(gs, acts, g) && 1 <= p < 4 && Is(g, 0, s) && Reigning(s, command, 3, m) && m[p] < 3
    requires p == 1 ==> m[1] < m[2] && m[1] < m[3]
    requires Carries(push, command, m[p], b) && Appended(p, push, AppendReply(1, true, m[p] + 1)) in g.answers
    ensures At(gs', acts', h) && After(g, h, 0) && Is(h, 0, s') && gs'[0] == gs[0]
    ensures Reigning(s', command, 3, m[p := m[p] + 1])
  {
    Hears(s, command, m, p, push, b);
    gs', acts', h := Acts(gs, acts, g, 0, GetAppendReply(p, push, AppendReply(1, true, m[p] + 1), false));
    s' := h.nodes[0].core;
  }

  /** All three entries, one call each, to replica 2 or 3. */
  lemma {:induction false} ShippedAll(gs: seq<Group>, acts: seq<Action>, g: Group, s: Core, f: Core, p: nat,
                                      command: string, m: seq<nat>, c: nat)
      returns (gs': seq<Group>, acts': seq<Action>, h: Group, s': Core)
    requires At(gs, acts, g) && 2 <= p < 4 && Is(g, 0, s) && Is(g, p, f) && gs[0].maxBytes < |command| + 22
    requires Reigning(s, command, 3, m) && Held(f, p, command, m[p], c)
    ensures At(gs', acts', h) && Since(g, h, p) && Is(h, 0, s') && gs'[0] == gs[0]
    ensures Reigning(s', command, 3, m[p := 3])
    decreases 3 - m[p]
  {
    if m[p] == 3 {
      gs', acts', h, s' := gs, acts, g, s;
      assert m[p := 3] == m;
    } else {
      var gs1, acts1, g1, s1, f1, push := Shipped(gs, acts, g, s, f, p, command, m, c);
      var b := Min(m[2], m[3]);
      gs', acts', h, s' :=
        ShippedAll(gs1, acts1, g1, s1, f1, p, command, m[p := m[p] + 1], if b > c then Min(b, m[p] + 1) else c);
      assert m[p := m[p] + 1][p := 3] == m[p := 3];
    }
  }

  /** Replica 0 is elected by 1 and 2, and two commands are proposed to it. */
  lemma BothProposed(max: nat, command: string)
      returns (gs: seq<Group>, acts: seq<Action>, g: Group, s: Core, f1: Core, f2: Core, f3: Core)
    ensures At(gs, acts, g) && gs[0].maxBytes == max && Is(g, 0, s) && Reigning(s, command, 3, [0, 0, 0, 0, 0])
    ensures Is(g, 1, f1) && Held(f1, 1, command, 0, 0) && Is(g, 2, f2) && Held(f2, 2, command, 0, 0)
    ensures Is(g, 3, f3) && Held(f3, 3, command, 0, 0)
  {
    var gs1, acts1, g1, s1;
    gs1, acts1, g1, s1, f1, f2 := FirstElected(max);
    f3 := Blank(max, 3);
    Reigns(s1, command);
    Waits(f1, 1, 1, 0, command);
    Waits(f2, 2, 1, 0, command);
    Waits(f3, 3, 0, NOBODY, command);
    gs, acts, g, s := ProposedTwice(gs1, acts1, g1, s1, command);
  }

  lemma FirstElected(max: nat) returns (gs: seq<Group>, acts: seq<Action>, g: Group, s: Core, f1: Core, f2: Core)
    ensures At(gs, acts, g) && gs[0].maxBytes == max && Is(g, 0, s) && Rules(s, 0, 1, 0)
    ensures Is(g, 1, f1) && Rests(f1, 1, 1, 0, []) && Is(g, 2, f2) && Rests(f2, 2, 1, 0, []) && Is(g, 3, Blank(max, 3))
  {
    var gs0, acts0, g0 := Booted(max, 5);
    gs, acts, g, s, f1, f2 := Elected(gs0, acts0, g0, 0, 1, 2, Blank(max, 0), Blank(max, 1), Blank(max, 2), 0, 0);
    LimitStays(gs, acts, |acts|);
  }

  lemma ProposedTwice(gs: seq<Group>, acts: seq<Action>, g: Group, s: Core, command: string)
      returns (gs': seq<Group>, acts': seq<Action>, h: Group, s': Core)
    requires At(gs, acts, g) && Is(g, 0, s) && Reigning(s, command, 1, [0, 0, 0, 0, 0])
    ensures At(gs', acts', h) && gs'[0] == gs[0] && Is(h, 0, s') && Reigning(s', command, 3, [0, 0, 0, 0, 0])
    ensures Since(g, h, 0)
  {
    var gs1, acts1, g1, s1 := ProposedOnce(gs, acts, g, s, command, 1);
    gs', acts', h, s' := ProposedOnce(gs1, acts1, g1, s1, command, 2);
  }

  lemma ProposedOnce(gs: seq<Group>, acts: seq<Action>, g: Group, s: Core, command: string, n: nat)
      returns (gs': seq<Group>, acts': seq<Action>, h: Group, s': Core)
    requires At(gs, acts, g) && Is(g, 0, s) && n < 3 && Reigning(s, command, n, [0, 0, 0, 0, 0])
    ensures At(gs', acts', h) && gs'[0] == gs[0] && Is(h, 0, s') && Reigning(s', command, n + 1, [0, 0, 0, 0, 0])
    ensures Since(g, h, 0)
  {
    Proposes(s, command, n, [0, 0, 0, 0, 0]);
    gs', acts', h := Acts(gs, acts, g, 0, Propose(command, []));
    s' := h.nodes[0].core;
  }

  lemma Reigns(s: Core, command: string)
    requires Rules(s, 0, 1, 0)
    ensures Reigning(s, command, 1, [0, 0, 0, 0, 0])
  {
    assert Log(command)[..1] == [Entry(1, "NOOP")];
  }

  lemma Waits(f: Core, p: nat, term: nat, voted: int, command: string)
    requires Rests(f, p, term, voted, []) && term <= 1
    ensures Held(f, p, command, 0, 0)
  {
  }

  /** Replicas 2 and 3 hold all three entries, so the leader has committed them. Call `a` took replica 1 to one
      committed entry, and the call after it to two. */
  lemma TwoCommitted(max: nat, command: string)
      returns (gs: seq<Group>, acts: seq<Action>, g: Group, f: Core, a: AppendRequest)
    requires max < |command| + 22
    ensures At(gs, acts, g) && gs[0].maxBytes == max && Is(g, 1, f) && Held(f, 1, command, 2, 2)
    ensures Carries(a, command, 0, 3) && Push(1, a) in g.calls
  {
    var gs0, acts0, g0, s0, f1, f2, f3 := BothProposed(max, command);
    var m := [0, 0, 0, 0, 0];
    var gs1, acts1, g1, s1 := ShippedAll(gs0, acts0, g0, s0, f2, 2, command, m, 0);
    var gs2, acts2, g2, s2 := ShippedAll(gs1, acts1, g1, s1, f3, 3, command, m[2 := 3], 0);
    var n := [0, 0, 3, 3, 0];
    assert m[2 := 3][3 := 3] == n;
    var gs3, acts3, g3, s3;
    gs3, acts3, g3, s3, f, a := Shipped(gs2, acts2, g2, s2, f1, 1, command, n, 0);
    var s4, b;
    gs, acts, g, s4, f, b := Shipped(gs3, acts3, g3, s3, f, 1, command, n[1 := 1], 1);
  }

  /** For any limit on a call's bytes, and any command too long to share a call with another: a run that ends
      with a call delivered to replica 1 a second time, which takes its commit index from two back to one. What
      it has applied stays applied. */
  lemma CommitMovesBackInRun(max: nat, command: string) returns (gs: seq<Group>, acts: seq<Action>, a: AppendRequest)
    requires max < |command| + 22
    ensures Run(gs, acts) && gs[0].maxBytes == max && |acts| >= 1 && acts[|acts| - 1] == Act(1, GetAppend(a))
    ensures var g, h := gs[|acts| - 1], gs[|acts|];
            && |g.nodes| == |h.nodes| == 5 && g.nodes[1].Up? && h.nodes[1].Up?
            && g.nodes[1].core.commit == 2 && h.nodes[1].core.commit == 1
            && g.nodes[1].core.applied == h.nodes[1].core.applied == 2
  {
    var gs0, acts0, g, f;
    gs0, acts0, g, f, a := TwoCommitted(max, command);
    TakesAgain(f, command, a);
    var h;
    gs, acts, h := Acts(gs0, acts0, g, 1, GetAppend(a));
    assert gs[|acts| - 1] == gs0[|acts0|];
  }
}
