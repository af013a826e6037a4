/** A leader that has been deposed without knowing it: a run of five replicas after which what it believes a peer
    holds is no longer on that peer's disk. */
module StaleMatch {
  import opened RaftTypes
  import opened RaftCore
  import opened Ledgers
  import opened LeaderTies
  import opened InputTies
  import opened RaftGroup
  import opened RaftTheorems

  // ---- one replica at a time ----

  predicate Base(s: Core, v: nat) {
    && Fits(s) && s.id == v && s.size == 5 && !s.stopped && s.pending == [] && s.out == [] && s.results == []
    && s.commit == 0 && s.applied == 0
  }

  predicate Rests(s: Core, v: nat, term: nat, voted: int, log: seq<Entry>) {
    Base(s, v) && s.role == Follower && s.term == term && s.votedFor == voted && s.log == log
  }

  predicate Stands(s: Core, v: nat, term: nat, votes: seq<bool>) {
    Base(s, v) && s.role == Candidate && s.term == term && s.log == [] && s.votes == votes
  }

  /** A leader that has only its no-op, and believes replica 1 holds `m` entries and nobody else any. */
  predicate Rules(s: Core, v: nat, term: nat, m: nat) {
    && Base(s, v) && s.role == Leader && s.term == term && s.log == [Entry(term, "NOOP")]
    && Known(s.next, s.matched, m)
  }

  predicate Known(next: seq<nat>, matched: seq<nat>, m: nat) {
    && |next| == |matched| == 5 && next[1] == m + 1 && matched[1] == m
    && forall p | 0 <= p < 5 && p != 1 :: next[p] == 1 && matched[p] == 0
  }

  function Calm(s: Core): Core {
    s.(out := [], results := [])
  }

  lemma Settles(mid: Core)
    requires Fits(mid) && mid.role != Leader && mid.pending == [] && mid.results == [] && mid.commit == 0
    requires mid.applied == 0
    ensures Settle(mid) == Clean(mid)
  {
    assert [] + Failures([]) == [];
  }

  /** Two holders of five are no majority, so nothing is committed. */
  lemma LeaderSettles(mid: Core, v: nat, term: nat, m: nat)
    requires Fits(mid) && m <= 1 && Rules(Calm(mid), v, term, m) && mid.results == []
    ensures Settle(mid) == Clean(mid) && Rules(Calm(Settle(mid)), v, term, m)
  {
    var s := Clean(mid);
    var bits := Holders(s, 1);
    CountIsSize(bits);
    assert Trues(bits) <= {v, 1};
    SubsetSize(Trues(bits), {v, 1});
    assert BestCommit(s, 1) == 0;
    assert [] + Answered(s, []) == [];
  }

  lemma Standing(s: Core, v: nat, term: nat, voted: int, to: nat)
    requires Rests(s, v, term, voted, []) && to < 5 && to != v
    ensures Allowed(s, Timeout)
    ensures var fin := Settle(Handle(s, Timeout));
            && Stands(Calm(fin), v, term + 1, Only(v, 5)) && !Handle(s, Timeout).stopped
            && Ask(to, VoteRequest(term + 1, v, 0, 0)) in fin.out
  {
    Starting(s, v, term, voted, s.size, to);
    Settles(StartElection(s));
  }

  lemma Starting(s: Core, v: nat, term: nat, voted: int, n: nat, to: nat)
    requires Rests(s, v, term, voted, []) && n == s.size && to < n && to != v
    ensures var mid := StartElection(s);
            && Stands(Calm(mid), v, term + 1, Only(v, 5)) && !mid.stopped && mid.results == []
            && Ask(to, VoteRequest(term + 1, v, 0, 0)) in mid.out
  {
    assert [] + Failures([]) == [];
    OtherIn(v, n, to);
    AskedIn(VoteRequest(term + 1, v, 0, 0), Others(v, n), to);
  }

  lemma AskedIn(vote: VoteRequest, ps: seq<nat>, to: nat)
    requires to in ps
    ensures Ask(to, vote) in Asks(vote, ps) && [] + Asks(vote, ps) == Asks(vote, ps)
  {
    var i :| 0 <= i < |ps| && ps[i] == to;
    assert Asks(vote, ps)[i] == Ask(to, vote);
  }

  lemma {:induction false} OtherIn(id: nat, n: nat, p: nat)
    requires p < n && p != id
    ensures p in Others(id, n)
  {
    if p < n - 1 {
      OtherIn(id, n - 1, p);
    }
  }

  lemma Voting(s: Core, v: nat, term: nat, voted: int, c: nat, t: nat)
    requires Rests(s, v, term, voted, []) && t > term
    ensures var q := VoteRequest(t, c, 0, 0);
            && Allowed(s, GetVote(q)) && !Handle(s, GetVote(q)).stopped
            && Rests(Calm(Settle(Handle(s, GetVote(q)))), v, t, c, []) && OnVote(s, q).1 == VoteReply(t, true)
  {
    Settles(OnVote(s, VoteRequest(t, c, 0, 0)).0);
  }

  lemma FirstVote(s: Core, v: nat, term: nat, a: nat)
    requires Stands(s, v, term, Only(v, 5)) && a < 5 && a != v
    ensures var i := GetVoteReply(a, VoteRequest(term, v, 0, 0), VoteReply(term, true));
            && Allowed(s, i) && !Handle(s, i).stopped &&
                Stands(Calm(Settle(Handle(s, i))), v, term, Only(v, 5)[a := true])
  {
    var bits := Only(v, 5)[a := true];
    CountIsSize(bits);
    assert Trues(bits) == {v, a};
    Settles(s.(votes := bits));
  }

  lemma ThreeVotes(v: nat, a: nat, b: nat)
    requires v < 5 && a < 5 && b < 5 && v != a && v != b && a != b
    ensures |Only(v, 5)| == 5 && Count(Only(v, 5)[a := true][b := true]) == 3
  {
    var bits := Only(v, 5)[a := true][b := true];
    CountIsSize(bits);
    assert Trues(bits) == {v, a, b};
  }

  lemma Crowned(s: Core, v: nat, term: nat)
    requires Base(s, v) && s.term == term && s.log == []
    ensures Rules(Calm(Settle(BecomeLeader(s))), v, term, 0) && !BecomeLeader(s).stopped
  {
    var mid := BecomeLeader(s);
    CrownRules(s, mid, v, term, Others(v, 5));
    LeaderSettles(mid, v, term, 0);
  }

  lemma CrownRules(s: Core, mid: Core, v: nat, term: nat, to: seq<nat>)
    requires Base(s, v) && s.term == term && s.log == [] && Peers(v, 5, to) && mid == SendList(Crown(s), to)
    ensures Rules(Calm(mid), v, term, 0) && mid.results == [] && !mid.stopped
  {
    NewReign(s, Crown(s), v, term);
    SendFields(Crown(s), to);
    SendingRules(Crown(s), mid, v, term);
  }

  lemma SendingRules(c: Core, mid: Core, v: nat, term: nat)
    requires c.results == [] && Rules(Calm(c), v, term, 0) && mid == c.(number := mid.number, out := mid.out)
    ensures Rules(Calm(mid), v, term, 0) && mid.results == [] && !mid.stopped
  {
  }

  lemma NewReign(s: Core, c: Core, v: nat, term: nat)
    requires Base(s, v) && s.term == term && s.log == [] && c == Crown(s)
    ensures Rules(Calm(c), v, term, 0) && c.results == [] && Fits(c) && c.id == v && c.size == 5
  {
    assert [] + [Entry(term, "NOOP")] == [Entry(term, "NOOP")];
  }

  lemma SecondVote(s: Core, v: nat, term: nat, a: nat, b: nat)
    requires a < 5 && a != v && b < 5 && b != v && b != a && Stands(s, v, term, Only(v, 5)[a := true])
    ensures var i := GetVoteReply(b, VoteRequest(term, v, 0, 0), VoteReply(term, true));
            && Allowed(s, i) && !Handle(s, i).stopped && Rules(Calm(Settle(Handle(s, i))), v, term, 0)
  {
    ThreeVotes(v, a, b);
    Crowned(s.(votes := s.votes[b := true]), v, term);
  }

  /** The call a leader makes to replica 1. */
  predicate Probe(push: AppendRequest, v: nat, term: nat) {
    push == AppendRequest(term, v, 0, 0, [Entry(term, "NOOP")], 0, push.number)
  }

  lemma Beating(s: Core, v: nat, term: nat) returns (push: AppendRequest)
    requires Rules(s, v, term, 0) && v < 5 && v != 1
    ensures Probe(push, v, term) && Allowed(s, Heartbeat([1])) && !Handle(s, Heartbeat([1])).stopped
    ensures var fin := Settle(Handle(s, Heartbeat([1]))); Rules(Calm(fin), v, term, 0) && Push(1, push) in fin.out
  {
    push := NextCall(s, 1);
    var mid := SendList(s, [1]);
    assert [1][..0] == [];
    assert SendList(s, []) == s;
    assert mid == SendAppend(s, 1);
    assert BatchSize(s.log, 1, Cost(s.log[0]), s.maxBytes, true) == 0;
    assert BatchSize(s.log, 0, 0, s.maxBytes, false) == 1;
    assert s.log[0..1] == s.log;
    assert [] + [Push(1, push)] == [Push(1, push)];
    LeaderSettles(mid, v, term, 0);
  }

  lemma Taking(s: Core, term: nat, voted: int, log: seq<Entry>, push: AppendRequest, v: nat, t: nat)
      returns (voted': int)
    requires Rests(s, 1, term, voted, log) && Probe(push, v, t) && t >= term
    requires (log == [] || (|log| == 1 && log[0].term != t))
    ensures var i := GetAppend(push);
            && Allowed(s, i) && !Handle(s, i).stopped && Rests(Calm(Settle(Handle(s, i))), 1, t, voted', push.entries)
            && OnAppend(s, push).1 == AppendReply(t, true, 1)
  {
    var s1 := BecomeFollower(s, t, v);
    voted' := s1.votedFor;
    assert FirstNew(s1.log, 0, push.entries) == 0;
    assert s1.log[..0] + push.entries[0..] == push.entries;
    Settles(OnAppend(s, push).0);
  }

  lemma Hearing(s: Core, term: nat, push: AppendRequest)
    requires Rules(s, 0, term, 0) && Probe(push, 0, term)
    ensures var i := GetAppendReply(1, push, AppendReply(term, true, 1), false);
            && Allowed(s, i) && !Handle(s, i).stopped && Rules(Calm(Settle(Handle(s, i))), 0, term, 1)
  {
    var i := GetAppendReply(1, push, AppendReply(term, true, 1), false);
    var mid := Handle(s, i);
    assert Confirm([], 1, push.number) == [];
    LeaderSettles(mid, 0, term, 1);
  }

  // ---- the run ----

  /** A run so far, and where it has got to. */
  ghost predicate At(gs: seq<Group>, acts: seq<Action>, g: Group) {
    Run(gs, acts) && g == gs[|acts|] && |g.nodes| == 5
  }

  /** `h` follows `g` by a step of replica v: the others stay as they are, and nothing sent is forgotten. */
  predicate After(g: Group, h: Group, v: nat) {
    && |h.nodes| == |g.nodes| == 5 && v < 5 && h.maxBytes == g.maxBytes && g.calls <= h.calls && g.answers <= h.answers
    && forall w | 0 <= w < 5 && w != v :: h.nodes[w] == g.nodes[w]
  }

  lemma More(gs: seq<Group>, acts: seq<Action>, g: Group, a: Action)
      returns (gs': seq<Group>, acts': seq<Action>, h: Group)
    requires At(gs, acts, g) && Enabled(g, a)
    ensures At(gs', acts', h) && Sized(g) && h == Step(g, a) && gs' == gs + [h] && acts' == acts + [a]
  {
    RunSound(gs, acts, |acts|);
    h := Step(g, a);
    gs', acts' := gs + [h], acts + [a];
    RunMore(gs, acts, g, a, h, gs', acts');
    RunSound(gs', acts', |acts'|);
  }

  lemma RunMore(gs: seq<Group>, acts: seq<Action>, g: Group, a: Action, h: Group, gs': seq<Group>, acts': seq<Action>)
    requires Run(gs, acts) && g == gs[|acts|] && Next(g, a, h) && gs' == gs + [h] && acts' == acts + [a]
    ensures Run(gs', acts')
  {
    forall i: nat | i < |acts'|
      ensures StepAt(gs', acts', i)
    {
      if i < |acts| {
        assert StepAt(gs, acts, i);
      }
    }
  }

  /** Replica v handles an input. */
  lemma Acts(gs: seq<Group>, acts: seq<Action>, g: Group, v: nat, i: Input)
      returns (gs': seq<Group>, acts': seq<Action>, h: Group)
    requires At(gs, acts, g) && Enabled(g, Act(v, i)) && !Handle(g.nodes[v].core, i).stopped
    ensures At(gs', acts', h) && After(g, h, v) && h.nodes[v].Up? && gs' == gs + [h] && acts' == acts + [Act(v, i)]
    ensures h.nodes[v].core == Calm(Settle(Handle(g.nodes[v].core, i)))
    ensures forall c | c in Settle(Handle(g.nodes[v].core, i)).out :: c in h.calls
    ensures Replies(v, g.nodes[v].core, i) <= h.answers
  {
    gs', acts', h := More(gs, acts, g, Act(v, i));
  }

  ghost predicate Is(g: Group, v: nat, s: Core) {
    v < |g.nodes| && g.nodes[v].Up? && g.nodes[v].core == s
  }

  /** Replica v stands and asks a, which votes for it. */
  lemma Asked(gs: seq<Group>, acts: seq<Action>, g: Group, v: nat, a: nat, term: nat, q: VoteRequest, s: Core,
              low: nat, voted: int)
    returns (gs': seq<Group>, acts': seq<Action>, h: Group, t: Core)
    requires At(gs, acts, g) && a < 5 && Is(g, a, s) && Rests(s, a, low, voted, []) && low < term
    requires q == VoteRequest(term, v, 0, 0) && Ask(a, q) in g.calls
    ensures At(gs', acts', h) && After(g, h, a) && Is(h, a, t) && Rests(t, a, term, v, [])
    ensures Voted(a, q, VoteReply(term, true)) in h.answers
  {
    Voting(s, a, low, voted, v, term);
    gs', acts', h := Acts(gs, acts, g, a, GetVote(q));
    t := h.nodes[a].core;
    assert Voted(a, q, VoteReply(term, true)) in Replies(a, s, GetVote(q));
  }

  lemma Started(gs: seq<Group>, acts: seq<Action>, g: Group, v: nat, a: nat, b: nat, s: Core, term: nat, q: VoteRequest)
    returns (gs': seq<Group>, acts': seq<Action>, h: Group)
    requires At(gs, acts, g) && v < 5 && a < 5 && b < 5 && v != a && v != b && Is(g, v, s)
    requires Rests(s, v, term, s.votedFor, [])
    requires q == VoteRequest(term + 1, v, 0, 0)
    ensures At(gs', acts', h) && After(g, h, v) && h.nodes[v].Up? && Stands(h.nodes[v].core, v, term + 1, Only(v, 5))
    ensures Ask(a, q) in h.calls && Ask(b, q) in h.calls
  {
    Standing(s, v, term, s.votedFor, a);
    Standing(s, v, term, s.votedFor, b);
    gs', acts', h := Acts(gs, acts, g, v, Timeout);
  }

  /** Replica v is elected by a and b. */
  lemma Elected(gs: seq<Group>, acts: seq<Action>, g: Group, v: nat, a: nat, b: nat, s: Core, sa: Core, sb: Core,
                term: nat, low: nat)
    returns (gs': seq<Group>, acts': seq<Action>, h: Group, t: Core, ta: Core, tb: Core)
    requires At(gs, acts, g) && v < 5 && a < 5 && b < 5 && v != a && v != b && a != b && low <= term
    requires Is(g, v, s) && Is(g, a, sa) && Is(g, b, sb)
    requires Rests(s, v, term, s.votedFor, []) && Rests(sa, a, low, sa.votedFor, [])
    requires Rests(sb, b, low, sb.votedFor, [])
    ensures At(gs', acts', h) && Is(h, v, t) && Is(h, a, ta) && Is(h, b, tb) && h.maxBytes == g.maxBytes
    ensures Rules(t, v, term + 1, 0) && Rests(ta, a, term + 1, v, []) && Rests(tb, b, term + 1, v, [])
    ensures forall w | 0 <= w < 5 && w != v && w != a && w != b :: h.nodes[w] == g.nodes[w]
  {
    var q := VoteRequest(term + 1, v, 0, 0);
    var gs1, acts1, g1 := Started(gs, acts, g, v, a, b, s, term, q);
    var gs2, acts2, g2;
    gs2, acts2, g2, ta := Asked(gs1, acts1, g1, v, a, term + 1, q, sa, low, sa.votedFor);
    var gs3, acts3, g3;
    gs3, acts3, g3, tb := Asked(gs2, acts2, g2, v, b, term + 1, q, sb, low, sb.votedFor);
    gs', acts', h, t := Wins(gs3, acts3, g3, v, a, b, term + 1, q, g3.nodes[v].core);
  }

  lemma Wins(gs: seq<Group>, acts: seq<Action>, g: Group, v: nat, a: nat, b: nat, term: nat, q: VoteRequest, s: Core)
    returns (gs': seq<Group>, acts': seq<Action>, h: Group, t: Core)
    requires At(gs, acts, g) && v < 5 && a < 5 && b < 5 && v != a && v != b && a != b && q == VoteRequest(term, v, 0, 0)
    requires Is(g, v, s) && Stands(s, v, term, Only(v, 5))
    requires Voted(a, q, VoteReply(term, true)) in g.answers && Voted(b, q, VoteReply(term, true)) in g.answers
    ensures At(gs', acts', h) && After(g, h, v) && Is(h, v, t) && Rules(t, v, term, 0)
  {
    FirstVote(s, v, term, a);
    var gs1, acts1, g1 := Acts(gs, acts, g, v, GetVoteReply(a, q, VoteReply(term, true)));
    SecondVote(g1.nodes[v].core, v, term, a, b);
    gs', acts', h := Acts(gs1, acts1, g1, v, GetVoteReply(b, q, VoteReply(term, true)));
    t := h.nodes[v].core;
  }

  /** Leader v writes to replica 1, which takes the entry. */
  lemma Written(gs: seq<Group>, acts: seq<Action>, g: Group, v: nat, s: Core, term: nat, f: Core, low: nat,
                log: seq<Entry>)
    returns (gs': seq<Group>, acts': seq<Action>, h: Group, t: Core, f': Core, push: AppendRequest)
    requires At(gs, acts, g) && v < 5 && v != 1 && Is(g, v, s) && Rules(s, v, term, 0) && Is(g, 1, f)
    requires Rests(f, 1, low, f.votedFor, log) && low <= term && (log == [] || (|log| == 1 && log[0].term != term))
    ensures At(gs', acts', h) && Is(h, v, t) && Rules(t, v, term, 0) && Is(h, 1, f')
    ensures Rests(f', 1, term, f'.votedFor, [Entry(term, "NOOP")])
    ensures Probe(push, v, term) && Appended(1, push, AppendReply(term, true, 1)) in h.answers
    ensures forall w | 0 <= w < 5 && w != v && w != 1 :: h.nodes[w] == g.nodes[w]
  {
    push := Beating(s, v, term);
    var gs1, acts1, g1 := Acts(gs, acts, g, v, Heartbeat([1]));
    t := g1.nodes[v].core;
    var voted := Taking(f, low, f.votedFor, log, push, v, term);
    gs', acts', h := Acts(gs1, acts1, g1, 1, GetAppend(push));
    f' := h.nodes[1].core;
    assert Appended(1, push, AppendReply(term, true, 1)) in Replies(1, f, GetAppend(push));
  }

  function Blank(max: nat, v: nat): Core
    requires v < 5
  {
    Boot(v, 5, max, Durable(0, NOBODY, []))
  }

  /** All five start from empty disks. */
  lemma {:induction false} Booted(max: nat, n: nat) returns (gs: seq<Group>, acts: seq<Action>, g: Group)
    requires n <= 5
    ensures At(gs, acts, g) && g.maxBytes == max && forall v: nat | v < 5 :: g.nodes[v] == if v < n
            then Up(Blank(max, v), 1) else Down(Durable(0, NOBODY, []), 0)
    decreases n
  {
    if n == 0 {
      var nodes := seq(5, _ => Down(Durable(0, NOBODY, []), 0));
      g := Group(max, nodes, {}, {}, Ledger(seq(5, _ => 0), seq(5, _ => []), map[], map[], map[], map[], map[]), {},
                 map[], map[], map[]);
      assert New(g);
      gs, acts := [g], [];
    } else {
      var gs0, acts0, g0 := Booted(max, n - 1);
      gs, acts, g := More(gs0, acts0, g0, Restart(n - 1));
    }
  }

  /** A leader deposed without knowing it: it believes replica 1 holds its first entry, and replica 1's disk holds
      another. */
  lemma MatchOutdated(max: nat) returns (gs: seq<Group>, acts: seq<Action>)
    ensures Run(gs, acts)
    ensures var g := gs[|acts|];
            && |g.nodes| == 5 && Leads(g, 0) && Fits(g.nodes[0].core) && g.nodes[0].core.size == 5
            && g.nodes[0].core.matched[1] == 1 && !Agree(DiskOf(g.nodes[1]).log, g.nodes[0].core.log, 1)
  {
    var gs0, acts0, g, s, f, c := FirstReign(max);
    gs, acts := Deposed(max, gs0, acts0, g, s, f, c);
  }

  /** Replica 0 is elected by 1 and 2, and hears that 1 holds its entry. */
  lemma FirstReign(max: nat) returns (gs: seq<Group>, acts: seq<Action>, g: Group, s: Core, f: Core, c: Core)
    ensures At(gs, acts, g) && Is(g, 0, s) && Rules(s, 0, 1, 1) && Is(g, 1, f)
    ensures Rests(f, 1, 1, f.votedFor, [Entry(1, "NOOP")])
    ensures Is(g, 2, c) && Rests(c, 2, 1, 0, []) && Is(g, 3, Blank(max, 3)) && Is(g, 4, Blank(max, 4))
  {
    var gs0, acts0, g0 := Booted(max, 5);
    var gs1, acts1, g1, s0, s1;
    gs1, acts1, g1, s0, s1, c := Elected(gs0, acts0, g0, 0, 1, 2, Blank(max, 0), Blank(max, 1), Blank(max, 2), 0, 0);
    gs, acts, g, s, f := Acknowledged(gs1, acts1, g1, s0, s1);
  }

  lemma Acknowledged(gs: seq<Group>, acts: seq<Action>, g: Group, s0: Core, s1: Core)
    returns (gs': seq<Group>, acts': seq<Action>, h: Group, s: Core, f: Core)
    requires At(gs, acts, g) && Is(g, 0, s0) && Rules(s0, 0, 1, 0) && Is(g, 1, s1) && Rests(s1, 1, 1, 0, [])
    ensures At(gs', acts', h) && Is(h, 0, s) && Rules(s, 0, 1, 1) && Is(h, 1, f)
    ensures Rests(f, 1, 1, f.votedFor, [Entry(1, "NOOP")])
    ensures forall w | 2 <= w < 5 :: h.nodes[w] == g.nodes[w]
  {
    var gs2, acts2, g2, t0, t1, push := Written(gs, acts, g, 0, s0, 1, s1, 1, []);
    Hearing(t0, 1, push);
    gs', acts', h := Acts(gs2, acts2, g2, 0, GetAppendReply(1, push, AppendReply(1, true, 1), false));
    s, f := h.nodes[0].core, t1;
  }

  /** Replica 2 is elected by 3 and 4, and overwrites what replica 1 had. */
  lemma Deposed(max: nat, gs: seq<Group>, acts: seq<Action>, g: Group, s: Core, f: Core, c: Core)
      returns (gs': seq<Group>, acts': seq<Action>)
    requires At(gs, acts, g) && Is(g, 0, s) && Rules(s, 0, 1, 1) && Is(g, 1, f)
    requires Rests(f, 1, 1, f.votedFor, [Entry(1, "NOOP")])
    requires Is(g, 2, c) && Rests(c, 2, 1, 0, []) && Is(g, 3, Blank(max, 3)) && Is(g, 4, Blank(max, 4))
    ensures Run(gs', acts')
    ensures var g := gs'[|acts'|];
            && |g.nodes| == 5 && Leads(g, 0) && Fits(g.nodes[0].core) && g.nodes[0].core.size == 5
            && g.nodes[0].core.matched[1] == 1 && !Agree(DiskOf(g.nodes[1]).log, g.nodes[0].core.log, 1)
  {
    var gs1, acts1, g1, c1, x, y := Elected(gs, acts, g, 2, 3, 4, c, Blank(max, 3), Blank(max, 4), 1, 0);
    var gs2, acts2, g2, c2, f2, push := Written(gs1, acts1, g1, 2, c1, 2, f, 1, [Entry(1, "NOOP")]);
    gs', acts' := gs2, acts2;
    assert DiskOf(g2.nodes[1]).log == [Entry(2, "NOOP")];
    assert [Entry(2, "NOOP")][..1] != [Entry(1, "NOOP")][..1] by {
      assert [Entry(2, "NOOP")][..1][0] != [Entry(1, "NOOP")][..1][0];
    }
  }
}
