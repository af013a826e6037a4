/** What each input does to one replica, as functions of its state. The class in raft_replica.dfy
    is the imperative form and is proved to compute these; the group model steps through them.
    The clock is left open: which peers a leader writes to, and when a replica stands or steps
    down, are arguments. */
module RaftCore {
  import opened RaftTypes

  datatype Role = Follower | Candidate | Leader

  /** A read waiting to be confirmed: replies to calls numbered from `number` on count; `index` is
      0 until the leader has a commit of its own term. */
  datatype PendingRead = PendingRead(id: nat, number: nat, index: nat, acks: seq<bool>)
  datatype ReadResult = ReadResult(id: nat, ok: bool)

  datatype Core = Core(
    id: nat, size: nat, maxBytes: nat,
    term: nat, votedFor: int, log: seq<Entry>, dirty: bool, dirtyFrom: nat,
    role: Role, leader: int, commit: nat, applied: nat, stopped: bool,
    votes: seq<bool>, next: seq<nat>, matched: seq<nat>, number: nat,
    pending: seq<PendingRead>, results: seq<ReadResult>, out: seq<Outgoing>)

  predicate Fits(s: Core) {
    && s.id < s.size
    && |s.votes| == |s.next| == |s.matched| == s.size
    && (forall p | 0 <= p < s.size :: s.next[p] >= 1)
    && (forall i | 0 <= i < |s.pending| :: |s.pending[i].acks| == s.size)
  }

  /** The same replica, still well formed. */
  predicate Kin(s: Core, r: Core) {
    Fits(r) && r.id == s.id && r.size == s.size && r.maxBytes == s.maxBytes
  }

  /** One vector slot per replica, all the same; and one set, for replica `id`. */
  function Filled<T>(size: nat, x: T): (r: seq<T>) {
    seq(size, _ => x)
  }

  function Only(id: nat, size: nat): (r: seq<bool>) {
    seq(size, p => p == id)
  }

  function Boot(id: nat, size: nat, maxBytes: nat, d: Durable): (s: Core)
    requires id < size
    ensures Fits(s)
  {
    Core(id, size, maxBytes, d.term, d.votedFor, d.log, false, 0,
         Follower, NOBODY, 0, 0, false,
         Filled(size, false), Filled(size, 1), Filled(size, 0), 0, [], [], [])
  }

  function Saved(s: Core): Durable {
    Durable(s.term, s.votedFor, s.log)
  }

  function ChangedMeta(s: Core): Core {
    s.(dirty := true)
  }

  function ChangedFrom(s: Core, i: nat): Core {
    s.(dirty := true, dirtyFrom := if s.dirtyFrom == 0 || i < s.dirtyFrom then i else s.dirtyFrom)
  }

  // ---- counting ----

  function Count(bits: seq<bool>): nat {
    if bits == [] then 0 else Count(bits[..|bits| - 1]) + (if bits[|bits| - 1] then 1 else 0)
  }

  predicate Most(count: nat, size: nat) {
    2 * count > size
  }

  function Trues(bits: seq<bool>): (q: set<nat>) {
    set p: nat | p < |bits| && bits[p]
  }

  lemma CountIsSize(bits: seq<bool>)
    ensures Count(bits) == |Trues(bits)|
  {
    if bits == [] {
      assert Trues(bits) == {};
    } else {
      var k := |bits| - 1;
      CountIsSize(bits[..k]);
      assert Trues(bits) == Trues(bits[..k]) + (if bits[k] then {k} else {});
    }
  }

  /** A count over a replica's vector reaches a majority exactly when the set it marks is one. */
  lemma MostIsMajority(bits: seq<bool>, size: nat)
    requires |bits| == size
    ensures Most(Count(bits), size) <==> Majority(Trues(bits), size)
  {
    CountIsSize(bits);
  }

  // ---- roles ----

  function Failures(pending: seq<PendingRead>): seq<ReadResult> {
    seq(|pending|, i requires 0 <= i < |pending| => ReadResult(pending[i].id, false))
  }

  function FailReads(s: Core): Core {
    s.(results := s.results + Failures(s.pending), pending := [])
  }

  function BecomeFollower(s: Core, term: nat, leader: int): (r: Core)
    requires Fits(s)
    ensures Kin(s, r)
  {
    var s1 := if term > s.term then ChangedMeta(s.(term := term, votedFor := NOBODY)) else s;
    var s2 := if s1.role != Follower then FailReads(s1.(role := Follower)) else s1;
    s2.(leader := leader)
  }

  /** Replicas of a group of n other than `id`. */
  predicate Peers(id: nat, n: nat, ps: seq<nat>) {
    forall i | 0 <= i < |ps| :: ps[i] < n && ps[i] != id
  }

  /** Every replica but `id`, below `n`, in order. */
  function Others(id: nat, n: nat): (ps: seq<nat>)
    ensures Peers(id, n, ps)
  {
    if n == 0 then [] else Others(id, n - 1) + (if n - 1 == id then [] else [n - 1])
  }

  function Asks(vote: VoteRequest, to: seq<nat>): seq<Outgoing> {
    seq(|to|, i requires 0 <= i < |to| => Ask(to[i], vote))
  }

  function StartElection(s: Core): (r: Core)
    requires Fits(s)
    ensures Kin(s, r)
  {
    var s1 := FailReads(ChangedMeta(s.(term := s.term + 1, votedFor := s.id, role := Candidate, leader := NOBODY)));
    var s2 := s1.(votes := Only(s.id, s.size));
    if Most(1, s.size) then
      BecomeLeader(s2)
    else
      var vote := VoteRequest(s2.term, s.id, |s.log|, TermAt(s.log, |s.log|));
      s2.(out := s2.out + Asks(vote, Others(s.id, s.size)))
  }

  /** A new leader: its peers' logs are presumed equal to its own, and its first entry is a no-op. */
  function Crown(s: Core): (r: Core)
    requires Fits(s)
    ensures Kin(s, r)
  {
    var s1 := s.(role := Leader, leader := s.id,
                 next := Filled(s.size, |s.log| + 1), matched := Filled(s.size, 0),
                 log := s.log + [Entry(s.term, "NOOP")]);
    ChangedFrom(s1, |s.log| + 1)
  }

  function BecomeLeader(s: Core): (r: Core)
    requires Fits(s)
    ensures Kin(s, r)
  {
    SendList(Crown(s), Others(s.id, s.size))
  }

  // ---- a leader's calls ----

  function Cost(e: Entry): nat {
    |e.command| + 22
  }

  /** How many entries of `log` after the first `from` go into one call: at least one if there is
      one, then as many as fit in `max` bytes. */
  function BatchSize(log: seq<Entry>, from: nat, bytes: nat, max: nat, any: bool): (k: nat)
    ensures from <= |log| ==> from + k <= |log|
    ensures from < |log| && !any ==> k > 0
    decreases |log| - from
  {
    if from >= |log| || (any && bytes + Cost(log[from]) > max) then 0
    else 1 + BatchSize(log, from + 1, bytes + Cost(log[from]), max, true)
  }

  function NextCall(s: Core, p: nat): AppendRequest
    requires Fits(s) && p < s.size
  {
    var prev := s.next[p] - 1;
    var k := BatchSize(s.log, prev, 0, s.maxBytes, false);
    AppendRequest(s.term, s.id, prev, TermAt(s.log, prev),
                  if prev <= |s.log| then s.log[prev..prev + k] else [], s.commit, s.number + 1)
  }

  lemma NextCallIs(s: Core, p: nat, prev: nat, k: nat, entries: seq<Entry>)
    requires Fits(s) && p < s.size && prev == s.next[p] - 1 && k == BatchSize(s.log, prev, 0, s.maxBytes, false)
    requires entries == if prev <= |s.log| then s.log[prev..prev + k] else []
    ensures NextCall(s, p) == AppendRequest(s.term, s.id, prev, TermAt(s.log, prev), entries, s.commit, s.number + 1)
  {
  }

  function SendAppend(s: Core, p: nat): (r: Core)
    requires Fits(s) && p < s.size
    ensures Kin(s, r)
  {
    s.(number := s.number + 1, out := s.out + [Push(p, NextCall(s, p))])
  }

  function SendList(s: Core, ps: seq<nat>): (r: Core)
    requires Fits(s) && Peers(s.id, s.size, ps)
    ensures Kin(s, r)
    decreases |ps|
  {
    if ps == [] then s else SendAppend(SendList(s, ps[..|ps| - 1]), ps[|ps| - 1])
  }

  // ---- calls received ----

  /** The replica once it has adopted `term`, if that is newer. */
  function Met(s: Core, term: nat): (r: Core)
    requires Fits(s)
    ensures Kin(s, r)
  {
    if term > s.term then BecomeFollower(s, term, NOBODY) else s
  }

  function CastVote(s: Core, req: VoteRequest): (r: (Core, VoteReply))
    requires Fits(s)
    ensures Kin(s, r.0)
  {
    if req.term == s.term && (s.votedFor == NOBODY || s.votedFor == req.candidate) &&
       AtLeastAsUpToDate(s.log, req.lastTerm, req.lastIndex)
    then (ChangedMeta(s.(votedFor := req.candidate)), VoteReply(s.term, true))
    else (s, VoteReply(s.term, false))
  }

  function OnVote(s: Core, req: VoteRequest): (r: (Core, VoteReply))
    requires Fits(s)
    ensures Kin(s, r.0)
  {
    CastVote(Met(s, req.term), req)
  }

  /** The start of the run of entries of one term that ends at index i. */
  function TermStart(log: seq<Entry>, i: nat): (r: nat)
    requires i <= |log|
    ensures r <= i
    ensures i >= 1 ==> r >= 1 && forall j | r <= j <= i :: TermAt(log, j) == TermAt(log, i)
    ensures r > 1 ==> TermAt(log, r - 1) != TermAt(log, i)
  {
    if i > 1 && TermAt(log, i - 1) == TermAt(log, i) then TermStart(log, i - 1) else i
  }

  /** How many of the entries, placed after index `prev`, the log already holds. */
  function FirstNew(log: seq<Entry>, prev: nat, es: seq<Entry>): (k: nat)
    ensures IsFirstNew(log, prev, es, k)
    decreases |es|
  {
    if es == [] then 0
    else if prev < |log| && log[prev].term == es[0].term then 1 + FirstNew(log, prev + 1, es[1..])
    else 0
  }

  /** Entry k, if there is one, is past the end of the log or conflicts; entry k - 1 is held. */
  predicate IsFirstNew(log: seq<Entry>, prev: nat, es: seq<Entry>, k: nat) {
    && k <= |es|
    && (prev <= |log| ==> prev + k <= |log|)
    && (k > 0 ==> prev + k <= |log| && log[prev + k - 1].term == es[k - 1].term)
    && (k < |es| ==> prev + k >= |log| || log[prev + k].term != es[k].term)
  }

  /** Keep what is already held; cut at the first conflict; add the rest. A conflict at or below
      the commit index stops the replica instead. */
  function Absorb(s: Core, prev: nat, es: seq<Entry>): (r: Core)
    requires prev <= |s.log|
    ensures Fits(s) ==> Kin(s, r)
  {
    AbsorbAt(s, prev, es, FirstNew(s.log, prev, es))
  }

  function AbsorbAt(s: Core, prev: nat, es: seq<Entry>, k: nat): (r: Core)
    requires prev <= |s.log| && IsFirstNew(s.log, prev, es, k)
    ensures Fits(s) ==> Kin(s, r)
  {
    if k == |es| then s
    else if prev + k < |s.log| && prev + k + 1 <= s.commit then s.(stopped := true)
    else ChangedFrom(s.(log := s.log[..prev + k] + es[k..]), prev + k + 1)
  }

  function Min(a: nat, b: nat): nat {
    if a <= b then a else b
  }

  function Max(a: nat, b: nat): nat {
    if a >= b then a else b
  }

  /** A current leader's call, its term adopted. */
  function TryAppend(s: Core, req: AppendRequest): (r: (Core, AppendReply))
    ensures Fits(s) ==> Kin(s, r.0)
  {
    if req.prevIndex > |s.log| then
      (s, AppendReply(s.term, false, |s.log| + 1))
    else if TermAt(s.log, req.prevIndex) != req.prevTerm then
      (s, AppendReply(s.term, false, TermStart(s.log, req.prevIndex)))
    else
      var s2 := Absorb(s, req.prevIndex, req.entries);
      if s2.stopped then (s2, AppendReply(s2.term, false, 0))
      else
        var lastNew := req.prevIndex + |req.entries|;
        (s2.(commit := if req.commit > s2.commit then Min(req.commit, lastNew) else s2.commit),
         AppendReply(s2.term, true, lastNew))
  }

  function OnAppend(s: Core, req: AppendRequest): (r: (Core, AppendReply))
    requires Fits(s)
    ensures Kin(s, r.0)
  {
    if req.term < s.term then (s, AppendReply(s.term, false, 0))
    else TryAppend(BecomeFollower(s, req.term, req.leader), req)
  }

  // ---- replies, each with the call it answers ----

  function OnVoteReply(s: Core, from: nat, sent: VoteRequest, reply: VoteReply): (r: Core)
    requires Fits(s) && from < s.size
    ensures Kin(s, r)
  {
    if reply.term > s.term then Met(s, reply.term)
    else if s.role == Candidate && sent.term == s.term && reply.term == s.term && reply.granted then
      var s1 := s.(votes := s.votes[from := true]);
      if Most(Count(s1.votes), s.size) then BecomeLeader(s1) else s1
    else s
  }

  function Confirm(pending: seq<PendingRead>, from: nat, number: nat): seq<PendingRead> {
    seq(|pending|, i requires 0 <= i < |pending| =>
      if number >= pending[i].number && from < |pending[i].acks|
      then pending[i].(acks := pending[i].acks[from := true]) else pending[i])
  }

  /** The peer's slots after its reply: forward to what it matched, or back to where it may match. */
  function Bookkeep(s: Core, from: nat, sent: AppendRequest, reply: AppendReply): (r: Core)
    requires Fits(s) && from < s.size
    ensures Kin(s, r)
  {
    if reply.success then
      var m := sent.prevIndex + |sent.entries|;
      s.(matched := s.matched[from := Max(s.matched[from], m)], next := s.next[from := Max(s.next[from], m + 1)])
    else
      var hint := Min(Max(reply.index, 1), sent.prevIndex);
      var back := Max(s.matched[from] + 1, hint);
      s.(next := s.next[from := Min(s.next[from], back)])
  }

  function OnAppendReply(s: Core, from: nat, sent: AppendRequest, reply: AppendReply, resend: bool): (r: Core)
    requires Fits(s) && from < s.size
    ensures Kin(s, r)
  {
    if reply.term > s.term then Met(s, reply.term)
    else if s.role != Leader || sent.term != s.term || reply.term != s.term then s
    else
      var s1 := Bookkeep(s, from, sent, reply);
      var s2 := s1.(pending := Confirm(s1.pending, from, sent.number));
      if resend then SendAppend(s2, from) else s2
  }

  // ---- clients ----

  function OnPropose(s: Core, command: string, ps: seq<nat>): (r: Core)
    requires Fits(s) && Peers(s.id, s.size, ps)
    ensures Kin(s, r)
  {
    SendList(ChangedFrom(s.(log := s.log + [Entry(s.term, command)]), |s.log| + 1), ps)
  }

  function NewRead(s: Core, id: nat): PendingRead
    requires Fits(s)
  {
    PendingRead(id, s.number + 1, if TermAt(s.log, s.commit) == s.term then s.commit else 0,
                Only(s.id, s.size))
  }

  function OnRead(s: Core, id: nat, ps: seq<nat>): (r: Core)
    requires Fits(s) && Peers(s.id, s.size, ps)
    ensures Kin(s, r)
  {
    SendList(s.(pending := s.pending + [NewRead(s, id)]), ps)
  }

  // ---- the end of every step ----

  /** Who holds entry n of the leader's log: the leader, and every peer matched that far. */
  function Holders(s: Core, n: nat): (bits: seq<bool>)
    requires Fits(s)
    ensures |bits| == s.size
  {
    seq(s.size, p requires 0 <= p < s.size => p == s.id || s.matched[p] >= n)
  }

  /** The highest index from n down, above the commit index and of the leader's own term, that a
      majority holds. */
  function BestCommit(s: Core, n: nat): (r: nat)
    requires Fits(s)
    ensures r >= s.commit
    ensures r > s.commit ==>
              r <= n && TermAt(s.log, r) == s.term && Most(Count(Holders(s, r)), s.size)
  {
    if n <= s.commit || TermAt(s.log, n) != s.term then s.commit
    else if Most(Count(Holders(s, n)), s.size) then n
    else BestCommit(s, n - 1)
  }

  function AdvanceCommit(s: Core): Core
    requires Fits(s)
  {
    if s.role == Leader then s.(commit := BestCommit(s, |s.log|)) else s
  }

  function ApplyCommitted(s: Core): Core {
    s.(applied := Max(s.applied, s.commit))
  }

  function Indexed(s: Core, r: PendingRead): PendingRead {
    if r.index == 0 && TermAt(s.log, s.commit) == s.term then r.(index := s.commit) else r
  }

  predicate Answerable(s: Core, r: PendingRead) {
    r.index != 0 && Most(Count(r.acks), s.size) && s.applied >= r.index
  }

  function Waiting(s: Core, pending: seq<PendingRead>): (ws: seq<PendingRead>) {
    if pending == [] then []
    else
      var r := Indexed(s, pending[|pending| - 1]);
      Waiting(s, pending[..|pending| - 1]) + (if Answerable(s, r) then [] else [r])
  }

  function Answered(s: Core, pending: seq<PendingRead>): (rs: seq<ReadResult>) {
    if pending == [] then []
    else
      var r := Indexed(s, pending[|pending| - 1]);
      Answered(s, pending[..|pending| - 1]) + (if Answerable(s, r) then [ReadResult(r.id, true)] else [])
  }

  function ResolveReads(s: Core): Core {
    if s.role != Leader then FailReads(s)
    else s.(results := s.results + Answered(s, s.pending), pending := Waiting(s, s.pending))
  }

  /** Saved: nothing is waiting to be written. */
  function Clean(s: Core): (r: Core)
    ensures Fits(s) ==> Kin(s, r)
  {
    s.(dirty := false, dirtyFrom := 0)
  }

  /** Commit, apply and resolve: what follows once the step is durable. */
  function Settle(s: Core): Core
    requires Fits(s)
  {
    ResolveReads(ApplyCommitted(AdvanceCommit(Clean(s))))
  }

  // ---- one input ----

  datatype Input =
    | Timeout                                    // the election timeout passed
    | StepDown                                   // a leader lost touch with a majority
    | Heartbeat(to: seq<nat>)                    // a leader's timers: calls to these peers
    | GetVote(ask: VoteRequest)
    | GetAppend(push: AppendRequest)
    | GetVoteReply(from: nat, asked: VoteRequest, voted: VoteReply)
    | GetAppendReply(from: nat, pushed: AppendRequest, appended: AppendReply, resend: bool)
    | Propose(command: string, to: seq<nat>)
    | Read(readId: nat, to: seq<nat>)

  predicate Allowed(s: Core, i: Input) {
    && Fits(s) && !s.stopped
    && match i
       case Timeout => s.role != Leader
       case StepDown => s.role == Leader
       case Heartbeat(to) => (to != [] ==> s.role == Leader) && Peers(s.id, s.size, to)
       case GetVote(_) => true
       case GetAppend(_) => true
       case GetVoteReply(from, _, _) => from < s.size
       case GetAppendReply(from, _, _, _) => from < s.size && from != s.id
       case Propose(_, to) => s.role == Leader && Peers(s.id, s.size, to)
       case Read(_, to) => s.role == Leader && Peers(s.id, s.size, to)
  }

  /** The input's effect before the step is saved. */
  function Handle(s: Core, i: Input): (r: Core)
    requires Allowed(s, i)
    ensures Kin(s, r)
  {
    match i
    case Timeout => StartElection(s)
    case StepDown => BecomeFollower(s, s.term, NOBODY)
    case Heartbeat(to) => SendList(s, to)
    case GetVote(ask) => OnVote(s, ask).0
    case GetAppend(push) => OnAppend(s, push).0
    case GetVoteReply(from, asked, voted) => OnVoteReply(s, from, asked, voted)
    case GetAppendReply(from, pushed, appended, resend) => OnAppendReply(s, from, pushed, appended, resend)
    case Propose(command, to) => OnPropose(s, command, to)
    case Read(id, to) => OnRead(s, id, to)
  }
}
