/** The whole group: replicas that may crash at any moment and restart from disk, and a network
    that keeps every call and every answer for ever, so that each may be lost, delayed, repeated or
    delivered out of order. Timers are open: any replica that does not lead may stand, any leader
    may send or step down. An answer reaches the caller paired with the call it answers. */
module RaftGroup {
  import opened RaftTypes
  import opened RaftCore
  import opened Ledgers
  import opened HandlerTies
  import opened AppendTie
  import opened LeaderTies
  import LogRecords

  /** A replica, running or not. `life` counts its restarts. */
  datatype Node =
    | Up(core: Core, life: nat)
    | Down(disk: Durable, life: nat)

  /** An entry handed to the state machine, at its index. */
  datatype Done = Done(index: nat, entry: Entry)

  /** One read at one replica, in one life of it; one proposal's place. */
  datatype Ticket = Ticket(who: nat, life: nat, id: nat)
  datatype Slot = Slot(term: nat, index: nat)

  datatype Snapshot = Snapshot(book: Ledger, done: set<Done>)

  /** A client's command, and what had been applied anywhere when it was proposed. */
  datatype Proposal = Proposal(command: string, done: set<Done>)

  /** The fields after `answers` are history: they record the run and never steer it. */
  datatype Group = Group(
    maxBytes: nat,
    nodes: seq<Node>,
    calls: set<Outgoing>,
    answers: set<Answer>,
    book: Ledger,                         // the durable record
    done: set<Done>,                      // everything any replica ever applied, in any life
    tickets: map<Ticket, Snapshot>,       // the history when each read arrived
    served: map<Ticket, nat>,             // the applied index each answered read was answered at
    proposed: map<Slot, Proposal>)        // each proposal, by its place

  datatype Action =
    | Act(v: nat, i: Input)               // an input, handled and saved
    | Tear(v: nat, i: Input, k: nat)      // an input whose save stops after k records; the replica is down
    | Crash(v: nat)
    | Restart(v: nat)

  // ---- what an input adds to the record ----

  ghost function CastRecord(l: Ledger, v: nat, s: Core, ask: VoteRequest): (m: Ledger)
    requires v < l.Size() && Fits(s)
    ensures m.Size() == l.Size() && m.log == l.log
  {
    if CastVote(s, ask).1.granted then VoteRecord(l, v, s, ask.candidate) else l
  }

  ghost function MetaRecord(l: Ledger, v: nat, s: Core, i: Input): (m: Ledger)
    requires v < l.Size() && |l.log| == l.Size() && Fits(s)
    ensures m.Size() == l.Size() && |m.log| == |l.log|
  {
    match i
    case Timeout => Stand(l, v)
    case GetVote(ask) =>
      CastRecord(FollowRecord(l, v, s, ask.term), v, Met(s, ask.term), ask)
    case GetAppend(push) => FollowRecord(l, v, s, push.term)
    case GetVoteReply(_, _, voted) => FollowRecord(l, v, s, voted.term)
    case GetAppendReply(_, _, appended, _) => FollowRecord(l, v, s, appended.term)
    case _ => l
  }

  ghost function LogRecord(l: Ledger, v: nat, s: Core, i: Input, mid: Core): (m: Ledger)
    requires v < l.Size() && |l.log| == l.Size() && Fits(s)
    ensures m.Size() == l.Size() && |m.log| == |l.log|
  {
    if mid.role == Leader && s.role != Leader then CrownRecord(l, v, mid)
    else
      match i
      case Propose(command, _) => if l.term[v] in l.reign then Lengthen(l, v, command) else l
      case GetAppend(_) => AcceptRecord(l, v, mid.log)
      case _ => l
  }

  ghost function AckRecord(l: Ledger, v: nat, s: Core, i: Input): (m: Ledger)
    requires v < l.Size() && Fits(s)
    ensures m.Size() == l.Size() && |m.log| == |l.log|
  {
    match i
    case GetAppend(push) => if OnAppend(s, push).1.success then Match(l, v, push.prevIndex + |push.entries|) else l
    case _ => l
  }

  ghost function InputRecord(l: Ledger, v: nat, s: Core, i: Input, mid: Core): (m: Ledger)
    requires v < l.Size() && |l.log| == l.Size() && Fits(s)
    ensures m.Size() == l.Size() && |m.log| == |l.log|
  {
    AckRecord(LogRecord(MetaRecord(l, v, s, i), v, s, i, mid), v, s, i)
  }

  ghost function TearRecord(l: Ledger, v: nat, s: Core, i: Input, mid: Core, disk: Durable): Ledger
    requires v < l.Size() && |l.log| == l.Size() && Fits(s)
  {
    if disk == Saved(mid) then LogRecord(MetaRecord(l, v, s, i), v, s, i, mid)
    else if disk.term == mid.term && disk.votedFor == mid.votedFor
        then AcceptRecord(MetaRecord(l, v, s, i), v, disk.log)
    else l
  }

  // ---- steps ----

  predicate Enabled(g: Group, a: Action) {
    && a.v < |g.nodes|
    && match a
       case Act(v, i) => g.nodes[v].Up? && Allowed(g.nodes[v].core, i) && Available(g, v, i)
       case Tear(v, i, _) => g.nodes[v].Up? && Allowed(g.nodes[v].core, i) && Available(g, v, i)
       case Crash(v) => g.nodes[v].Up?
       case Restart(v) => g.nodes[v].Down?
  }

  /** The network can deliver this input to replica v; a new read carries a new number. */
  predicate Available(g: Group, v: nat, i: Input)
    requires v < |g.nodes|
  {
    match i
    case GetVote(ask) => Ask(v, ask) in g.calls
    case GetAppend(push) => Push(v, push) in g.calls
    case GetVoteReply(from, asked, voted) => asked.candidate == v && Voted(from, asked, voted) in g.answers
    case GetAppendReply(from, pushed, appended, _) =>
        pushed.leader == v && Appended(from, pushed, appended) in g.answers
    case Read(id, _) => Ticket(v, g.nodes[v].life, id) !in g.tickets
    case _ => true
  }

  function Replies(v: nat, s: Core, i: Input): set<Answer>
    requires Fits(s)
  {
    match i
    case GetVote(ask) => {Voted(v, ask, OnVote(s, ask).1)}
    case GetAppend(push) => {Appended(v, push, OnAppend(s, push).1)}
    case _ => {}
  }

  /** The entries at indexes after `from`, up to `to`. */
  function Newly(log: seq<Entry>, from: nat, to: nat): (r: set<Done>)
    ensures forall d :: d in r <==> from < d.index <= to && d.index <= |log| && d.entry == log[d.index - 1]
  {
    if to <= from then {}
    else Newly(log, from, to - 1) + if to <= |log| then {Done(to, log[to - 1])} else {}
  }

  /** The first index a save is told has changed. */
  function SaveFrom(mid: Core): nat {
    if mid.dirtyFrom == 0 then |mid.log| + 1 else mid.dirtyFrom
  }

  /** The disk after a save that stops k records in. */
  function TornDisk(s: Core, mid: Core, k: nat): Durable {
    var from := SaveFrom(mid);
    if !(1 <= from <= |mid.log| + 1) then Saved(s)
    else
      var batch := LogRecords.Batch(Saved(s), Saved(mid), from);
      match LogRecords.ReplayAll(Saved(s), if k <= |batch| then batch[..k] else batch)
      case Some(d) => d
      case None => Saved(s)
  }

  ghost function Tickets(g: Group, v: nat, i: Input): map<Ticket, Snapshot>
    requires v < |g.nodes|
  {
    match i
    case Read(id, _) => g.tickets[Ticket(v, g.nodes[v].life, id) := Snapshot(g.book, g.done)]
    case _ => g.tickets
  }

  ghost function Proposed(g: Group, s: Core, i: Input): map<Slot, Proposal> {
    match i
    case Propose(command, _) => g.proposed[Slot(s.term, |s.log| + 1) := Proposal(command, g.done)]
    case _ => g.proposed
  }

  /** Reads answered from the applied state by this step. */
  ghost function Served(g: Group, v: nat, fin: Core): map<Ticket, nat>
    requires v < |g.nodes|
  {
    g.served + map r | r in fin.results && r.ok :: Ticket(v, g.nodes[v].life, r.id) := fin.applied
  }

  ghost predicate Sized(g: Group) {
    |g.nodes| == g.book.Size() == |g.book.log|
  }

  /** A handled input: saved, then committed, applied and resolved, and only then its outputs. */
  ghost function ActStep(g: Group, v: nat, i: Input, mid: Core): Group
    requires Sized(g) && v < |g.nodes| && g.nodes[v].Up? && Fits(g.nodes[v].core) && Fits(mid)
  {
    var s, life := g.nodes[v].core, g.nodes[v].life;
    if mid.stopped then
      g.(nodes := g.nodes[v := Down(Saved(s), life)])
    else
      var fin := Settle(mid);
      g.(nodes := g.nodes[v := Up(fin.(out := [], results := []), life)],
         calls := g.calls + (set c | c in fin.out),
         answers := g.answers + Replies(v, s, i),
         book := CommitRecord(InputRecord(g.book, v, s, i, mid), v, Clean(mid)),
         done := g.done + Newly(fin.log, s.applied, fin.applied),
         tickets := Tickets(g, v, i),
         served := Served(g, v, fin),
         proposed := Proposed(g, s, i))
  }

  /** An input whose save tears: the replica is down, and nothing of the step leaves it. */
  ghost function TearStep(g: Group, v: nat, i: Input, mid: Core, k: nat): Group
    requires Sized(g) && v < |g.nodes| && g.nodes[v].Up? && Fits(g.nodes[v].core)
  {
    var s, life := g.nodes[v].core, g.nodes[v].life;
    if mid.stopped then
      g.(nodes := g.nodes[v := Down(Saved(s), life)])
    else
      var disk := TornDisk(s, mid, k);
      g.(nodes := g.nodes[v := Down(disk, life)],
         book := TearRecord(g.book, v, s, i, mid, disk))
  }

  ghost function Step(g: Group, a: Action): Group
    requires Sized(g) && Enabled(g, a)
  {
    var node := g.nodes[a.v];
    match a
    case Act(v, i) => ActStep(g, v, i, Handle(node.core, i))
    case Tear(v, i, k) => TearStep(g, v, i, Handle(node.core, i), k)
    case Crash(v) =>
      g.(nodes := g.nodes[v := Down(Saved(node.core), node.life)])
    case Restart(v) =>
      g.(nodes := g.nodes[v := Up(Boot(v, |g.nodes|, g.maxBytes, node.disk), node.life + 1)])
  }
}
