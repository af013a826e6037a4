/** Crash recovery, from the bytes of the file up to the runs of the group: whatever byte prefix of
    whatever save a crash leaves, opening the file recovers a state that the group model's torn save
    steps to. Every command proposed is valid, and calls carry at most 64 KiB. */
module DiskTheorems {
  import opened RaftTypes
  import opened RaftCore
  import opened Ledgers
  import opened ReplicaTie
  import opened HandlerTies
  import opened RaftGroup
  import opened InputTies
  import opened ReplyTies
  import opened TornTies
  import opened GroupSafety
  import opened ActSafety
  import opened RaftTheorems
  import opened FileStorages
  import LeaderTies
  import LogRecords
  import LogFile
  import Journal
  import Names
  import Text

  // ---- commands ----

  predicate Proper(es: seq<Entry>) {
    forall i | 0 <= i < |es| :: Names.ValidCommand(es[i].command)
  }

  lemma CommandFits(c: string)
    requires Names.ValidCommand(c)
    ensures LogFile.LogLine(c) && 4 <= |c| <= MAX_COMMAND
  {
    Names.CommandIsLine(c);
    if c != "NOOP" {
      CommandLength(Text.Split(c));
      Text.JoinSplit(c);
    }
  }

  lemma CommandLength(w: seq<string>)
    requires 3 <= |w| <= 4 && |w[0]| <= 10 && |w[1]| <= 200 && |w[2]| == 40 && (|w| == 4 ==> |w[3]| == 40)
    ensures |Text.Join(w)| <= MAX_COMMAND
  {
    var rest := w[2..];
    assert w[1..][1..] == rest;
    assert |w| == 4 ==> rest[1..] == [w[3]];
    assert |Text.Join(rest)| <= 81;
    assert |Text.Join(w[1..])| <= 282;
  }

  lemma ProperFits(es: seq<Entry>)
    requires Proper(es)
    ensures FileStorages.Sized(es) && forall i | 0 <= i < |es| :: LogFile.LogLine(es[i].command)
  {
    forall i | 0 <= i < |es|
      ensures 4 <= |es[i].command| <= MAX_COMMAND && LogFile.LogLine(es[i].command)
    {
      CommandFits(es[i].command);
    }
  }

  // ---- what an input does to them ----

  predicate LightCall(c: Outgoing, max: nat) {
    c.Push? ==> Proper(c.append.entries) && Light(c.append.entries, max)
  }

  /** Proper logs and light calls come out, and what a save writes is light. */
  predicate Carries(s: Core, mid: Core) {
    && Proper(mid.log) && mid.maxBytes == s.maxBytes
    && (forall c | c in mid.out :: LightCall(c, s.maxBytes))
  }

  predicate ProperInput(i: Input) {
    match i
    case Propose(command, _) => Names.ValidCommand(command)
    case GetAppend(push) => Proper(push.entries)
    case _ => true
  }

  lemma {:induction false} SendCarries(s: Core, s1: Core, ps: seq<nat>)
    requires Fits(s1) && Peers(s1.id, s1.size, ps) && Carries(s, s1)
    ensures Carries(s, SendList(s1, ps))
  {
    if ps != [] {
      var k := |ps| - 1;
      SendCarries(s, s1, ps[..k]);
      SendFields(s1, ps[..k]);
      OneCarries(s, SendList(s1, ps[..k]), ps[k]);
    }
  }

  lemma OneCarries(s: Core, s1: Core, p: nat)
    requires Fits(s1) && p < s1.size && Carries(s, s1)
    ensures Carries(s, SendAppend(s1, p))
  {
    CallIsLight(s1, p);
  }

  lemma TimeoutCarries(s: Core)
    requires Fits(s) && s.out == [] && Proper(s.log)
    ensures Carries(s, StartElection(s))
  {
    if Most(1, s.size) {
      SendCarries(s, Crown(Candidacy(s)), Others(s.id, s.size));
    }
  }

  lemma VoteReplyCarries(s: Core, from: nat, asked: VoteRequest, voted: VoteReply)
    requires Fits(s) && s.out == [] && Proper(s.log) && from < s.size
    ensures Carries(s, OnVoteReply(s, from, asked, voted))
  {
    SendCarries(s, Crown(s.(votes := s.votes[from := true])), Others(s.id, s.size));
  }

  lemma AppendCarries(s: Core, push: AppendRequest)
    requires Fits(s) && s.out == [] && Proper(s.log) && Proper(push.entries)
    ensures Carries(s, OnAppend(s, push).0)
  {
    var s1 := BecomeFollower(s, push.term, push.leader);
    TryFields(s1, push);
    TryProper(s1, push);
  }

  lemma TryProper(s: Core, push: AppendRequest)
    requires Proper(s.log) && Proper(push.entries)
    ensures Proper(TryAppend(s, push).0.log)
  {
    if push.prevIndex <= |s.log| {
      AbsorbProper(s, push.prevIndex, push.entries, FirstNew(s.log, push.prevIndex, push.entries));
    }
  }

  lemma AbsorbProper(s: Core, prev: nat, es: seq<Entry>, k: nat)
    requires prev <= |s.log| && IsFirstNew(s.log, prev, es, k) && Proper(s.log) && Proper(es)
    ensures Proper(AbsorbAt(s, prev, es, k).log)
  {
  }

  lemma AppendReplyCarries(s: Core, from: nat, pushed: AppendRequest, appended: AppendReply, resend: bool)
    requires Fits(s) && s.out == [] && Proper(s.log) && from < s.size
    ensures Carries(s, OnAppendReply(s, from, pushed, appended, resend))
  {
    HeardCarries(s, from, pushed, appended);
    OneCarries(s, Heard(s, from, pushed, appended), from);
  }

  lemma HeardCarries(s: Core, from: nat, pushed: AppendRequest, appended: AppendReply)
    requires Fits(s) && s.out == [] && Proper(s.log) && from < s.size
    ensures Carries(s, Heard(s, from, pushed, appended))
  {
  }

  lemma ClientCarries(s: Core, i: Input)
    requires Allowed(s, i) && s.out == [] && Proper(s.log) && ProperInput(i) && (i.Propose? || i.Read? || i.Heartbeat?)
    ensures Carries(s, Handle(s, i))
  {
    match i
    case Heartbeat(to) => SendCarries(s, s, to);
    case Propose(command, to) => SendCarries(s, LeaderTies.Lengthened(s, command), to);
    case Read(id, to) => SendCarries(s, s.(pending := s.pending + [NewRead(s, id)]), to);
  }

  lemma HandleCarries(s: Core, i: Input)
    requires Allowed(s, i) && s.out == [] && Proper(s.log) && ProperInput(i)
    ensures Carries(s, Handle(s, i))
  {
    match i
    case Timeout => TimeoutCarries(s);
    case StepDown =>
    case GetVote(ask) =>
    case GetAppend(push) => AppendCarries(s, push);
    case GetVoteReply(from, asked, voted) => VoteReplyCarries(s, from, asked, voted);
    case GetAppendReply(from, pushed, appended, resend) => AppendReplyCarries(s, from, pushed, appended, resend);
    case _ => ClientCarries(s, i);
  }

  /** What a save writes of the log is light: entries of one call, or one entry. */
  lemma SaveIsLight(s: Core, i: Input)
    requires Allowed(s, i) && Quiet(s) && !Handle(s, i).stopped && s.maxBytes == 65536
    requires i.GetAppend? ==> Light(i.push.entries, s.maxBytes)
    ensures Reported(s, Handle(s, i)) && Light(Handle(s, i).log[SaveFrom(Handle(s, i)) - 1..], 65536)
  {
    HandleReports(s, i);
    if i.GetAppend? {
      AppendIsLight(s, i.push);
    } else {
      HandleGrows(s, i);
    }
  }

  lemma AppendIsLight(s: Core, push: AppendRequest)
    requires Fits(s) && Quiet(s) && !OnAppend(s, push).0.stopped && Light(push.entries, 65536)
    requires Reported(s, OnAppend(s, push).0)
    ensures var mid := OnAppend(s, push).0; Light(mid.log[SaveFrom(mid) - 1..], 65536)
  {
    var mid := OnAppend(s, push).0;
    var s1 := BecomeFollower(s, push.term, push.leader);
    MetGrows(s, push.term, push.leader);
    if push.term >= s.term && push.prevIndex <= |s1.log| && TermAt(s1.log, push.prevIndex) == push.prevTerm {
      var k := FirstNew(s1.log, push.prevIndex, push.entries);
      if k < |push.entries| {
        assert mid.log[SaveFrom(mid) - 1..] == push.entries[k..];
        LightSuffix(push.entries, k);
      }
    }
  }

  // ---- over runs ----

  ghost predicate ProperNode(g: Group, v: nat)
    requires v < |g.nodes|
  {
    Proper(DiskOf(g.nodes[v]).log) && (g.nodes[v].Up? ==> g.nodes[v].core.maxBytes == g.maxBytes)
  }

  ghost predicate ProperGroup(g: Group) {
    && (forall v: nat {:trigger ProperNode(g, v)} | v < |g.nodes| :: ProperNode(g, v))
    && (forall c | c in g.calls :: LightCall(c, g.maxBytes))
  }

  predicate ProperAction(a: Action) {
    (a.Act? || a.Tear?) && a.i.Propose? ==> Names.ValidCommand(a.i.command)
  }

  ghost predicate ProperRun(acts: seq<Action>) {
    forall i | 0 <= i < |acts| :: ProperAction(acts[i])
  }

  lemma Delivered(g: Group, v: nat, i: Input)
    requires ProperGroup(g) && v < |g.nodes| && Available(g, v, i) && (i.Propose? ==> Names.ValidCommand(i.command))
    ensures ProperInput(i) && (i.GetAppend? ==> Light(i.push.entries, g.maxBytes))
  {
    if i.GetAppend? {
      assert LightCall(Push(v, i.push), g.maxBytes);
    }
  }

  lemma NodeReplaced(g: Group, h: Group, v: nat)
    requires ProperGroup(g) && v < |g.nodes| && |h.nodes| == |g.nodes| && h.maxBytes == g.maxBytes
    requires forall w: nat | w < |g.nodes| && w != v :: h.nodes[w] == g.nodes[w]
    requires ProperNode(h, v) && forall c | c in h.calls :: LightCall(c, g.maxBytes)
    ensures ProperGroup(h)
  {
    forall w: nat | w < |h.nodes|
      ensures ProperNode(h, w)
    {
      assert ProperNode(g, w);
    }
  }

  lemma TornProper(s: Core, mid: Core, k: nat)
    requires Proper(s.log) && Proper(mid.log) && LogRecords.Follows(Saved(s), Saved(mid), SaveFrom(mid))
    ensures Proper(TornDisk(s, mid, k).log)
  {
    TornShapes(s, mid, k);
  }

  lemma StepProper(g: Group, a: Action)
    requires Sound(g) && Enabled(g, a) && ProperGroup(g) && ProperAction(a)
    ensures ProperGroup(Step(g, a))
  {
    assert ProperNode(g, a.v);
    match a
    case Act(v, i) => ActProper(g, v, i);
    case Tear(v, i, k) => TearProper(g, v, i, k);
    case Crash(v) => NodeReplaced(g, Step(g, a), v);
    case Restart(v) => NodeReplaced(g, Step(g, a), v);
  }

  lemma ActProper(g: Group, v: nat, i: Input)
    requires Sound(g) && Enabled(g, Act(v, i)) && ProperGroup(g) && ProperAction(Act(v, i))
    ensures ProperGroup(Step(g, Act(v, i)))
  {
    var s := g.nodes[v].core;
    InputCarries(g, v, i, s);
    ActReplaces(g, v, i, s, Handle(s, i));
  }

  /** What handling a delivered input leaves. */
  lemma InputCarries(g: Group, v: nat, i: Input, s: Core)
    requires Sound(g) && v < |g.nodes| && g.nodes[v].Up? && s == g.nodes[v].core && Allowed(s, i) && Available(g, v, i)
    requires ProperGroup(g) && (i.Propose? ==> Names.ValidCommand(i.command))
    ensures Proper(s.log) && s.maxBytes == g.maxBytes && Carries(s, Handle(s, i))
  {
    assert ProperNode(g, v) && NodeTie(g.book, g.nodes[v], v);
    Delivered(g, v, i);
    HandleCarries(s, i);
  }

  lemma ActReplaces(g: Group, v: nat, i: Input, s: Core, mid: Core)
    requires RaftGroup.Sized(g) && v < |g.nodes| && g.nodes[v].Up? && s == g.nodes[v].core && Fits(s) && Fits(mid)
    requires ProperGroup(g) && Proper(s.log) && s.maxBytes == g.maxBytes && Carries(s, mid)
    ensures ProperGroup(ActStep(g, v, i, mid))
  {
    AppliedFields(mid);
    NodeReplaced(g, ActStep(g, v, i, mid), v);
  }

  lemma TearProper(g: Group, v: nat, i: Input, k: nat)
    requires Sound(g) && Enabled(g, Tear(v, i, k)) && ProperGroup(g) && ProperAction(Tear(v, i, k))
    ensures ProperGroup(Step(g, Tear(v, i, k)))
  {
    var s := g.nodes[v].core;
    InputCarries(g, v, i, s);
    TearFollows(g, v, i, k, s);
    TearReplaces(g, v, i, s, Handle(s, i), k);
  }

  lemma TearFollows(g: Group, v: nat, i: Input, k: nat, s: Core)
    requires Sound(g) && Enabled(g, Tear(v, i, k)) && s == g.nodes[v].core
    ensures LogRecords.Follows(Saved(s), Saved(Handle(s, i)), SaveFrom(Handle(s, i)))
  {
    assert NodeTie(g.book, g.nodes[v], v);
    DeliveredTie(g, v, i);
    TearKeeps(g.book, v, s, i, Handle(s, i), k);
  }

  lemma TearReplaces(g: Group, v: nat, i: Input, s: Core, mid: Core, k: nat)
    requires RaftGroup.Sized(g) && v < |g.nodes| && g.nodes[v].Up? && s == g.nodes[v].core && Fits(s)
    requires ProperGroup(g) && Proper(s.log) && Proper(mid.log)
    requires LogRecords.Follows(Saved(s), Saved(mid), SaveFrom(mid))
    ensures ProperGroup(TearStep(g, v, i, mid, k))
  {
    TornProper(s, mid, k);
    NodeReplaced(g, TearStep(g, v, i, mid, k), v);
  }

  lemma {:induction false} RunProper(gs: seq<Group>, acts: seq<Action>, i: nat)
    requires Run(gs, acts) && ProperRun(acts) && i < |gs|
    ensures ProperGroup(gs[i]) && gs[i].maxBytes == gs[0].maxBytes
  {
    if i > 0 {
      RunProper(gs, acts, i - 1);
      RunSound(gs, acts, i - 1);
      assert StepAt(gs, acts, i - 1);
      assert ProperAction(acts[i - 1]);
      NextProper(gs[i - 1], acts[i - 1], gs[i]);
    }
  }

  lemma NextProper(g: Group, a: Action, h: Group)
    requires Sound(g) && Next(g, a, h) && ProperGroup(g) && ProperAction(a)
    ensures ProperGroup(h) && h.maxBytes == g.maxBytes
  {
    StepProper(g, a);
  }

  // ---- the theorem ----

  lemma VoteInRange(l: Ledger, v: nat, d: Durable)
    requires Inv(l) && DiskTie(l, v, d)
    ensures NOBODY <= d.votedFor < l.Size() && Rising(d.log) && Bounded(d.log, d.term)
  {
    assert Ballot(d.term, v) in l.votes ==> VoteHolds(l, Ballot(d.term, v));
    assert LogHolds(l, v);
  }

  lemma DiskInRange(l: Ledger, v: nat, d: Durable)
    requires Inv(l) && DiskTie(l, v, d) && Proper(d.log) && l.Size() <= 1001 && d.term < Text.LIMIT
    requires |d.log| + 1 < Text.LIMIT
    ensures LogFile.InRange(d)
  {
    VoteInRange(l, v, d);
    ProperFits(d.log);
  }

  /** The step's save is a batch that a correct replica writes, within the parser's range and the tail limit. */
  predicate Writes(s: Core, mid: Core) {
    var d, n := Saved(s), Saved(mid);
    && !mid.stopped && LogRecords.Follows(d, n, SaveFrom(mid)) && LogFile.InRange(d) && LogFile.InRange(n)
    && FileStorages.Sized(n.log) && Light(n.log[SaveFrom(mid) - 1..], 65536)
  }

  /** The numbers of a state are below the parser's limit. */
  predicate Small(d: Durable) {
    d.term < Text.LIMIT && |d.log| + 1 < Text.LIMIT
  }

  /** What is true of any input in any reachable state of a proper run. */
  lemma SaveInRange(gs: seq<Group>, acts: seq<Action>, i: nat, v: nat, input: Input, mid: Core)
    requires Run(gs, acts) && ProperRun(acts) && i < |gs| && Enabled(gs[i], Act(v, input))
    requires ProperAction(Act(v, input))
    requires gs[0].maxBytes == 65536 && |gs[i].nodes| <= 1001 && mid == Handle(gs[i].nodes[v].core, input)
    requires Small(Saved(mid)) && Small(Saved(gs[i].nodes[v].core))
    ensures Writes(gs[i].nodes[v].core, mid)
  {
    RunSound(gs, acts, i);
    RunProper(gs, acts, i);
    SaveWrites(gs[i], v, input, mid);
  }

  lemma SaveWrites(g: Group, v: nat, input: Input, mid: Core)
    requires Sound(g) && ProperGroup(g) && Enabled(g, Act(v, input)) && ProperAction(Act(v, input))
    requires g.maxBytes == 65536 && |g.nodes| <= 1001 && mid == Handle(g.nodes[v].core, input)
    requires Small(Saved(mid)) && Small(Saved(g.nodes[v].core))
    ensures Writes(g.nodes[v].core, mid)
  {
    assert NodeTie(g.book, g.nodes[v], v) && ProperNode(g, v);
    DeliveredTie(g, v, input);
    Delivered(g, v, input);
    SaveRanges(g.book, v, g.nodes[v].core, input, mid);
  }

  lemma SaveRanges(l: Ledger, v: nat, s: Core, i: Input, mid: Core)
    requires Inv(l) && CoreTie(l, v, s) && Quiet(s) && Allowed(s, i) && InputTie(l, v, i) && mid == Handle(s, i)
    requires Proper(s.log) && ProperInput(i) && s.maxBytes == 65536
    requires (i.GetAppend? ==> Light(i.push.entries, s.maxBytes))
    requires l.Size() <= 1001 && Small(Saved(mid)) && Small(Saved(s))
    ensures Writes(s, mid)
  {
    TearKeeps(l, v, s, i, mid, 0);
    HandleCarries(s, i);
    SaveIsLight(s, i);
    ProperFits(mid.log);
    DiskInRange(l, v, Saved(s));
    SavedInRange(l, v, s, i, mid);
  }

  lemma SavedInRange(l: Ledger, v: nat, s: Core, i: Input, mid: Core)
    requires Inv(l) && CoreTie(l, v, s) && Quiet(s) && Allowed(s, i) && InputTie(l, v, i) && mid == Handle(s, i)
    requires Proper(mid.log) && l.Size() <= 1001 && mid.term < Text.LIMIT && |mid.log| + 1 < Text.LIMIT
    ensures LogFile.InRange(Saved(mid))
  {
    HandleKeeps(l, v, s, i);
    var m := MetaRecord(l, v, s, i);
    DiskInRange(LogRecord(m, v, s, i, mid), v, Saved(mid));
  }

  /** The lines that the step's save appends. */
  function SaveLines(sha: Text.Digest, s: Core, mid: Core): seq<string> {
    if mid.stopped || !(1 <= SaveFrom(mid) <= |mid.log| + 1) then []
    else LogFile.BatchLines(sha, LogRecords.Batch(Saved(s), Saved(mid), SaveFrom(mid)))
  }

  function OpenedLog(sha: Text.Digest, text: string): Text.Option<(Durable, string)> {
    Journal.Opened(LogFile.Reader(sha), LogFile.Fresh(), text, LogFile.LOG_TAIL_LIMIT)
  }

  ghost predicate HoldsLog(sha: Text.Digest, text: string, d: Durable) {
    Journal.Holds(LogFile.Reader(sha), LogFile.Fresh(), text, d)
  }

  /** Any byte prefix of a save that a correct replica writes: the file opens to what a Tear of the step leaves. */
  lemma TornSave(sha: Text.Digest, s: Core, mid: Core, text: string, ls: seq<string>, p: nat)
    requires Writes(s, mid) && HoldsLog(sha, text, Saved(s)) && ls == SaveLines(sha, s, mid) && p <= |Text.Concat(ls)|
    ensures var r := OpenedLog(sha, text + Text.Concat(ls)[..p]);
            r.Some? && r.value.0 == TornDisk(s, mid, Text.Pieces(ls, p))
    ensures p == |Text.Concat(ls)| ==> TornDisk(s, mid, Text.Pieces(ls, p)) == Saved(mid)
  {
    var d, n, from := Saved(s), Saved(mid), SaveFrom(mid);
    BatchFits(sha, d, n, from);
    var k := LogFile.SaveRecovers(sha, text, d, n, from, ls, p);
    LogRecords.ReplayTorn(d, n, from, k);
  }
}
