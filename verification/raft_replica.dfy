/** One replica as the program has it: an object whose handlers update its fields step by step and
    end by saving, committing, applying and resolving. Each method computes what RaftCore says, and
    no handler ends without the replica's state on disk. */
module RaftReplica {
  import opened RaftTypes
  import opened RaftCore
  import opened RaftGroup
  import opened HandlerTies
  import InputTies
  import ReplyTies

  /** Storage in memory. `durable` is what a crash leaves behind; `failing` is a disk that is full. */
  class Storage {
    var durable: Durable
    var failing: bool

    constructor (d: Durable)
      ensures durable == d && !failing
    {
      durable := d;
      failing := false;
    }

    /** The stored log is cut before index `from`, and continued with the given one from there. */
    method Save(term: nat, votedFor: int, from: nat, log: seq<Entry>) returns (ok: bool)
      requires 1 <= from <= |log| + 1
      modifies this`durable
      ensures ok == !failing
      ensures !ok ==> durable == old(durable)
      ensures ok ==> durable == Durable(term, votedFor, Spliced(old(durable).log, from - 1, log))
      ensures ok && from <= |old(durable).log| + 1 && old(durable).log[..from - 1] == log[..from - 1] ==>
              durable.log == log
    {
      if failing {
        return false;
      }
      var keep := if from - 1 < |durable.log| then from - 1 else |durable.log|;
      durable := Durable(term, votedFor, durable.log[..keep]);
      for i := from to |log| + 1
        invariant durable == Durable(term, votedFor, old(durable).log[..keep] + log[from - 1..i - 1])
      {
        durable := durable.(log := durable.log + [log[i - 1]]);
        assert log[from - 1..i - 1] + [log[i - 1]] == log[from - 1..i];
      }
      assert log[from - 1..|log|] == log[from - 1..];
      assert log[..from - 1] + log[from - 1..|log|] == log;
      return true;
    }
  }

  /** Five heartbeats to an election timeout, and never none. */
  function Beat(election: nat): nat {
    if election / 5 > 1 then election / 5 else 1
  }

  /** The first `keep` entries of one log, as far as it has them, and then another's from there on. */
  function Spliced(was: seq<Entry>, keep: nat, log: seq<Entry>): seq<Entry>
    requires keep <= |log|
  {
    (if keep < |was| then was[..keep] else was) + log[keep..]
  }

  /** A leader's clocks for one peer: the call in flight, if any, and when it is presumed lost; when a
      heartbeat is due; when a failed call may be repeated; when the peer was last heard. */
  datatype Timer = Timer(inflight: bool, number: nat, until: int, heartbeat: int, retry: int, heard: int)

  function Restarted(timers: seq<Timer>, now: int): (r: seq<Timer>)
    ensures |r| == |timers|
  {
    seq(|timers|, p requires 0 <= p < |timers| =>
        timers[p].(inflight := false, heartbeat := now, retry := now, heard := now))
  }

  class Raft {
    const id: nat
    const size: nat
    const election: nat
    const maxBytes: nat
    const storage: Storage

    // durable, once saved
    var term: nat
    var votedFor: int
    var log: seq<Entry>
    var dirty: bool
    var dirtyFrom: nat

    // volatile
    var role: Role
    var leader: int
    var commit: nat
    var applied: nat
    var stopped: bool
    var votes: seq<bool>
    var next: seq<nat>
    var matched: seq<nat>
    var number: nat
    var pending: seq<PendingRead>
    var results: seq<ReadResult>
    var out: seq<Outgoing>
    var handed: seq<Done>             // what the state machine has been given, in order

    // timers, for elections and for each peer
    var electionDeadline: int
    var timers: seq<Timer>

    /** The replica without its timers. */
    function Abs(): Core
      reads this
    {
      Core(id, size, maxBytes, term, votedFor, log, dirty, dirtyFrom, role, leader, commit, applied, stopped,
           votes, next, matched, number, pending, results, out)
    }

    ghost predicate Shaped()
      reads this
    {
      Fits(Abs()) && election >= 1 && commit <= |log| && |timers| == size
    }

    /** What the disk holds is the replica's state but for the changes it has noted. */
    ghost predicate Tracked()
      reads this, storage
    {
      var from := SaveFrom(Abs());
      && 1 <= from <= |log| + 1 && from <= |storage.durable.log| + 1
      && storage.durable.log[..from - 1] == log[..from - 1]
      && (dirtyFrom == 0 ==> storage.durable.log == log)
      && (!dirty ==> storage.durable == Saved(Abs()) && dirtyFrom == 0)
    }

    /** Between handlers: a running replica's state is on disk. */
    ghost predicate Valid()
      reads this, storage
    {
      Shaped() && (!stopped ==> !dirty && dirtyFrom == 0 && storage.durable == Saved(Abs()))
    }

    /** From what storage held at start-up. A group of one leads at once. */
    constructor (id: nat, size: nat, election: nat, maxBytes: nat, storage: Storage, now: int)
      requires id < size && election >= 1
      modifies storage`durable
      ensures Valid() && fresh(this) && this.storage == storage && this.id == id && this.size == size
      ensures size > 1 ==>
              Abs() == Boot(id, size, maxBytes, old(storage.durable)) && storage.durable == old(storage.durable)
      ensures size == 1 && !stopped ==> Abs() == Settle(StartElection(Boot(id, size, maxBytes, old(storage.durable))))
      ensures size == 1 && stopped ==> storage.failing
      ensures Redrawn(now)
    {
      this.id, this.size, this.election, this.maxBytes, this.storage := id, size, election, maxBytes, storage;
      term, votedFor, log := storage.durable.term, storage.durable.votedFor, storage.durable.log;
      dirty, dirtyFrom, role, leader, commit, applied, stopped := false, 0, Follower, NOBODY, 0, 0, false;
      votes, next, matched := Filled(size, false), Filled(size, 1), Filled(size, 0);
      number, pending, results, out, handed := 0, [], [], [], [];
      timers := Filled(size, Timer(false, 0, 0, 0, 0, 0));
      new;
      ResetElectionTimer(now);
      if size == 1 {
        StandKept(now);
        Finish();
      }
    }

    // ---- small steps ----

    /** A timeout drawn now: one to two election times away. */
    ghost predicate Redrawn(now: int)
      reads this`electionDeadline
    {
      now + election <= electionDeadline < now + 2 * election
    }

    method ResetElectionTimer(now: int)
      requires election >= 1
      modifies this`electionDeadline
      ensures Redrawn(now)
    {
      var spread :| 0 <= spread < election;
      electionDeadline := now + election + spread;
    }

    method NoteFrom(i: nat)
      modifies this`dirty, this`dirtyFrom
      ensures dirty && dirtyFrom == if old(dirtyFrom) == 0 || i < old(dirtyFrom) then i else old(dirtyFrom)
    {
      dirty := true;
      if dirtyFrom == 0 || i < dirtyFrom {
        dirtyFrom := i;
      }
    }

    method FailWaiting()
      modifies this`pending, this`results
      ensures pending == [] && results == old(results) + Failures(old(pending))
    {
      ghost var was := results;
      for k := 0 to |pending|
        invariant pending == old(pending) && results == was + Failures(pending[..k])
      {
        results := results + [ReadResult(pending[k].id, false)];
        assert Failures(pending[..k + 1]) == Failures(pending[..k]) + [ReadResult(pending[k].id, false)];
      }
      assert pending[..|pending|] == pending;
      pending := [];
    }

    method Follow(newTerm: nat, newLeader: int, now: int)
      requires election >= 1
      modifies this`term, this`votedFor, this`dirty, this`role, this`leader, this`pending, this`results,
          this`electionDeadline
      ensures term == Max(old(term), newTerm) && votedFor == (if newTerm > old(term) then NOBODY else old(votedFor))
      ensures dirty == (old(dirty) || newTerm > old(term)) && role == Follower && leader == newLeader
      ensures old(role) == Follower ==> pending == old(pending) && results == old(results)
      ensures old(role) != Follower ==> pending == [] && results == old(results) + Failures(old(pending))
      ensures if old(role) != Follower then Redrawn(now) else electionDeadline == old(electionDeadline)
    {
      if newTerm > term {
        term := newTerm;
        votedFor := NOBODY;
        dirty := true;
      }
      if role != Follower {
        role := Follower;
        FailWaiting();
        ResetElectionTimer(now);
      }
      leader := newLeader;
    }

    /** The caller's term is newer, or it leads this one: follow it. */
    method Adopt(newTerm: nat, newLeader: int, now: int)
      requires Shaped() && Tracked()
      modifies this`term, this`votedFor, this`dirty, this`role, this`leader, this`pending, this`results,
          this`electionDeadline
      ensures Abs() == BecomeFollower(old(Abs()), newTerm, newLeader) && Shaped() && Tracked()
      ensures if old(role) != Follower then Redrawn(now) else electionDeadline == old(electionDeadline)
    {
      Follow(newTerm, newLeader, now);
    }

    // ---- a leader's calls ----

    /** How many entries after the first `prev` one call takes. */
    method Batch(prev: nat) returns (k: nat)
      ensures k == BatchSize(log, prev, 0, maxBytes, false)
    {
      k := 0;
      var bytes: nat := 0;
      ghost var all := BatchSize(log, prev, 0, maxBytes, false);
      while prev + k < |log| && !(k > 0 && bytes + Cost(log[prev + k]) > maxBytes)
        invariant prev <= |log| ==> prev + k <= |log|
        invariant all == k + BatchSize(log, prev + k, bytes, maxBytes, k > 0)
      {
        bytes := bytes + Cost(log[prev + k]);
        k := k + 1;
      }
    }

    method SendTo(p: nat, now: int)
      requires Fits(Abs()) && |timers| == size && p < size
      modifies this`number, this`out, this`timers
      ensures number == old(number) + 1 && out == old(out) + [Push(p, NextCall(old(Abs()), p))] && |timers| == size
      ensures forall q | 0 <= q < size && q != p :: timers[q] == old(timers)[q]
      ensures timers[p] == old(timers)[p].(inflight := true, number := number, until := now + election,
                                           heartbeat := now + Beat(election))
    {
      var prev := next[p] - 1;
      var k := Batch(prev);
      var entries := if prev <= |log| then log[prev..prev + k] else [];
      NextCallIs(Abs(), p, prev, k, entries);
      number := number + 1;
      var call := AppendRequest(term, id, prev, TermAt(log, prev), entries, commit, number);
      out := out + [Push(p, call)];
      timers := timers[p := timers[p].(inflight := true, number := number, until := now + election,
                                       heartbeat := now + Beat(election))];
    }

    /** Send if nothing is in flight and there is a reason to. */
    method SendIfDue(p: nat, now: int, force: bool) returns (sent: bool)
      requires Fits(Abs()) && |timers| == size && p < size
      modifies this`number, this`out, this`timers
      ensures |timers| == size && Abs() == (if sent then SendAppend(old(Abs()), p) else old(Abs()))
      ensures sent <==> role == Leader && Due(old(timers)[p], now, force || next[p] <= |log|)
      ensures forall q | 0 <= q < size && q != p :: timers[q] == old(timers)[q]
    {
      if role != Leader || timers[p].inflight || now < timers[p].retry {
        if force {
          timers := timers[p := timers[p].(heartbeat := now)];
        }
        return false;
      }
      if force || now >= timers[p].heartbeat || next[p] <= |log| {
        SendTo(p, now);
        return true;
      }
      return false;
    }

    /** Every peer in turn, each if it is due; `to` are the ones written to. */
    method SendAllDue(now: int, force: bool, expire: bool) returns (ghost to: seq<nat>)
      requires Fits(Abs()) && |timers| == size
      modifies this`number, this`out, this`timers
      ensures |timers| == size && Peers(id, size, to) && Abs() == SendList(old(Abs()), to)
      ensures to != [] ==> role == Leader
      ensures role == Leader ==> ToAllDue(to, old(timers), next, |log|, id, now, force, expire)
    {
      to := [];
      ghost var was, start := Abs(), timers;
      for p := 0 to size
        invariant UpTo(was, start, to, p, now, force, expire) && role == old(role)
      {
        to := Turn(p, now, force, expire, was, start, to);
      }
      assert start[..size] == start && next[..size] == next;
    }

    /** The first p peers have had their turn. */
    ghost predicate UpTo(was: Core, start: seq<Timer>, to: seq<nat>, p: nat, now: int, force: bool, expire: bool)
      reads this
    {
      && Wrote(was, to) && p <= size == |start| && (to != [] ==> role == Leader)
      && (forall q | p <= q < size :: timers[q] == start[q])
      && (role == Leader ==> ToAllDue(to, start[..p], next[..p], |log|, id, now, force, expire))
      && forall q | q in to :: q < p
    }

    method Turn(p: nat, now: int, force: bool, expire: bool, ghost was: Core, ghost start: seq<Timer>,
                ghost to: seq<nat>)
        returns (ghost to': seq<nat>)
      requires UpTo(was, start, to, p, now, force, expire) && p < size
      modifies this`number, this`out, this`timers
      ensures UpTo(was, start, to', p + 1, now, force, expire)
    {
      var sent := false;
      to' := to;
      if p != id {
        sent, to' := SendNext(p, now, force, expire, was, to);
      }
      if role == Leader {
        DueMore(to, to', start, next, |log|, id, now, force, expire, p, sent);
      }
    }

    /** The calls made since `was` are those to `to`. */
    ghost predicate Wrote(was: Core, to: seq<nat>)
      reads this
    {
      Fits(was) && was.id == id && was.size == size && Fits(Abs()) && |timers| == size && Peers(id, size, to) &&
      Abs() == SendList(was, to)
    }

    method SendNext(p: nat, now: int, force: bool, expire: bool, ghost was: Core, ghost to: seq<nat>)
        returns (sent: bool, ghost to': seq<nat>)
      requires Wrote(was, to) && p < size && p != id
      modifies this`number, this`out, this`timers
      ensures Wrote(was, to') && to' == if sent then to + [p] else to
      ensures var t := if expire then Lapsed(old(timers)[p], now) else old(timers)[p];
              sent <==> role == Leader && Due(t, now, force || next[p] <= |log|)
      ensures forall q | 0 <= q < size && q != p :: timers[q] == old(timers)[q]
    {
      sent := SendInTurn(p, now, force, expire);
      to' := if sent then to + [p] else to;
      assert (to + [p])[..|to|] == to;
    }

    /** A peer's turn: its call is presumed lost if its time has passed, and the next goes if it is due. */
    method SendInTurn(p: nat, now: int, force: bool, expire: bool) returns (sent: bool)
      requires Fits(Abs()) && |timers| == size && p < size
      modifies this`number, this`out, this`timers
      ensures |timers| == size && Abs() == (if sent then SendAppend(old(Abs()), p) else old(Abs()))
      ensures var t := if expire then Lapsed(old(timers)[p], now) else old(timers)[p];
              sent <==> role == Leader && Due(t, now, force || next[p] <= |log|)
      ensures forall q | 0 <= q < size && q != p :: timers[q] == old(timers)[q]
    {
      if expire && timers[p].inflight && now >= timers[p].until {
        timers := timers[p := timers[p].(inflight := false)];
      }
      sent := SendIfDue(p, now, force);
    }

    // ---- elections ----

    method TakeOffice(now: int)
      requires Fits(Abs()) && |timers| == size
      modifies this`role, this`leader, this`next, this`matched, this`log, this`dirty, this`dirtyFrom
      modifies this`timers
      ensures role == Leader && leader == id && |timers| == size
      ensures next == Filled(size, |old(log)| + 1) && matched == Filled(size, 0)
      ensures log == old(log) + [Entry(term, "NOOP")] && timers == Restarted(old(timers), now)
      ensures dirty && dirtyFrom == (if old(dirtyFrom) == 0 || |log| < old(dirtyFrom) then |log| else old(dirtyFrom))
    {
      role := Leader;
      leader := id;
      var last := |log|;
      next := Filled(size, last + 1);
      matched := Filled(size, 0);
      timers := Restarted(timers, now);
      log := log + [Entry(term, "NOOP")];
      NoteFrom(|log|);
    }

    method SendAll(to: seq<nat>, now: int)
      requires Fits(Abs()) && |timers| == size && Peers(id, size, to)
      modifies this`number, this`out, this`timers
      ensures Abs() == SendList(old(Abs()), to) && |timers| == size
    {
      for k := 0 to |to|
        invariant Fits(Abs()) && |timers| == size && Abs() == SendList(old(Abs()), to[..k])
      {
        assert to[..k + 1][..k] == to[..k];
        SendOne(to[k], now);
      }
      assert to[..|to|] == to;
    }

    method SendOne(p: nat, now: int)
      requires Fits(Abs()) && |timers| == size && p < size
      modifies this`number, this`out, this`timers
      ensures |timers| == size && Abs() == SendAppend(old(Abs()), p)
    {
      SendTo(p, now);
    }

    method Lead(now: int)
      requires Fits(Abs()) && |timers| == size
      modifies this`role, this`leader, this`next, this`matched, this`log, this`dirty, this`dirtyFrom
      modifies this`number, this`out, this`timers
      ensures Abs() == BecomeLeader(old(Abs())) && |timers| == size
    {
      TakeOffice(now);
      assert Abs() == Crown(old(Abs()));
      SendAll(Others(id, size), now);
    }

    method Campaign(now: int)
      requires election >= 1
      modifies this`term, this`votedFor, this`dirty, this`role, this`leader, this`pending, this`results
      modifies this`electionDeadline, this`votes
      ensures term == old(term) + 1 && votedFor == id && dirty && role == Candidate && leader == NOBODY
      ensures votes == Only(id, size) && pending == [] && results == old(results) + Failures(old(pending))
      ensures Redrawn(now)
    {
      term := term + 1;
      votedFor := id;
      dirty := true;
      role := Candidate;
      leader := NOBODY;
      FailWaiting();
      ResetElectionTimer(now);
      votes := Only(id, size);
    }

    method AskAll(vote: VoteRequest, to: seq<nat>)
      modifies this`out
      ensures out == old(out) + Asks(vote, to)
    {
      for k := 0 to |to|
        invariant out == old(out) + Asks(vote, to)[..k]
      {
        out := out + [Ask(to[k], vote)];
      }
    }

    method Stand(now: int)
      requires Fits(Abs()) && |timers| == size && election >= 1
      modifies this`term, this`votedFor, this`dirty, this`role, this`leader, this`pending, this`results
      modifies this`electionDeadline, this`votes, this`next, this`matched, this`log, this`dirtyFrom
      modifies this`number, this`out, this`timers
      ensures Abs() == StartElection(old(Abs())) && |timers| == size && Redrawn(now)
    {
      Campaign(now);
      assert Abs() == Candidacy(old(Abs()));
      if Most(1, size) {
        Lead(now);
        return;
      }
      AskAll(VoteRequest(term, id, |log|, TermAt(log, |log|)), Others(id, size));
    }

    // ---- the end of every step ----

    method CountCopies(n: nat) returns (copies: nat)
      requires Fits(Abs())
      ensures copies == Count(Holders(Abs(), n))
    {
      copies := 1;
      ghost var bits := Holders(Abs(), n);
      for p := 0 to size
        invariant copies == Count(bits[..p]) + if p <= id then 1 else 0
      {
        if p != id && matched[p] >= n {
          copies := copies + 1;
        }
        assert bits[..p + 1][..p] == bits[..p];
      }
      assert bits[..size] == bits;
    }

    method Advance()
      requires Fits(Abs()) && role == Leader && commit <= |log|
      modifies this`commit
      ensures Abs() == AdvanceCommit(old(Abs())) && commit <= |log|
    {
      var n := |log|;
      while n > commit
        invariant Abs() == old(Abs()) && commit <= n <= |log|
        invariant BestCommit(Abs(), |log|) == BestCommit(Abs(), n)
      {
        if TermAt(log, n) != term {
          break;
        }
        var copies := CountCopies(n);
        if Most(copies, size) {
          commit := n;
          return;
        }
        n := n - 1;
      }
    }

    method Apply()
      requires commit <= |log|
      modifies this`applied, this`handed
      ensures Abs() == ApplyCommitted(old(Abs()))
      ensures handed == old(handed) + Handed(log, old(applied), applied)
    {
      while applied < commit
        invariant old(applied) <= applied <= Max(old(applied), commit)
        invariant handed == old(handed) + Handed(log, old(applied), applied)
      {
        applied := applied + 1;
        handed := handed + [Done(applied, log[applied - 1])];
      }
    }

    method Resolve()
      modifies this`pending, this`results
      ensures Abs() == ResolveReads(old(Abs()))
    {
      if pending == [] {
        return;
      }
      if role != Leader {
        FailWaiting();
        return;
      }
      var waiting := [];
      ghost var s, was := Abs(), results;
      for k := 0 to |pending|
        invariant pending == old(pending) && waiting == Waiting(s, pending[..k])
        invariant results == was + Answered(s, pending[..k])
        modifies this`results
      {
        var r := pending[k];
        if r.index == 0 && TermAt(log, commit) == term {
          r := r.(index := commit);
        }
        ghost var upto := pending[..k + 1];
        assert upto[..k] == pending[..k] && upto[k] == pending[k] && r == Indexed(s, pending[k]);
        if r.index != 0 && Most(Count(r.acks), size) && applied >= r.index {
          results := results + [ReadResult(r.id, true)];
        } else {
          waiting := waiting + [r];
        }
      }
      assert pending[..|pending|] == pending;
      pending := waiting;
    }

    method Stop()
      modifies this`stopped, this`out, this`results
      ensures Abs() == old(Abs()).(stopped := true, out := [], results := [])
    {
      stopped := true;
      out := [];
      results := [];
    }

    method SaveChanges() returns (ok: bool)
      requires Tracked()
      modifies this`dirty, this`dirtyFrom, storage`durable
      ensures ok == (old(dirty) ==> !storage.failing)
      ensures Abs() == Clean(old(Abs()))
      ensures ok ==> storage.durable == Saved(Abs())
      ensures !ok ==> storage.durable == old(storage.durable)
    {
      ok := true;
      if dirty {
        var from := if dirtyFrom == 0 then |log| + 1 else dirtyFrom;
        ok := storage.Save(term, votedFor, from, log);
        dirty := false;
        dirtyFrom := 0;
      }
    }

    method SettleNow()
      requires Fits(Abs()) && commit <= |log| && Abs() == Clean(Abs())
      modifies this`commit, this`applied, this`handed, this`pending, this`results
      ensures Abs() == Settle(old(Abs())) && Fits(Abs()) && commit <= |log|
      ensures handed == old(handed) + Handed(log, old(applied), applied)
    {
      if role == Leader {
        Advance();
      }
      Apply();
      ghost var p := Abs();
      Resolve();
      WaitingShapes(p, p.pending);
    }

    /** Durable first; then commit and apply; then the reads this made answerable. */
    method Finish()
      requires Shaped() && Tracked() && !stopped
      modifies this`dirty, this`dirtyFrom, this`commit, this`applied, this`handed, this`pending, this`results
      modifies this`stopped, this`out, storage`durable
      ensures Valid() && stopped == (old(dirty) && storage.failing)
      ensures !stopped ==> Abs() == Settle(old(Abs()))
      ensures !stopped ==> handed == old(handed) + Handed(log, old(applied), applied)
      ensures stopped ==> out == [] && results == [] && handed == old(handed) && storage.durable == old(storage.durable)
    {
      var ok := SaveChanges();
      if ok {
        SettleNow();
      } else {
        Stop();
      }
    }

    // ---- votes ----

    method Cast(req: VoteRequest, now: int) returns (granted: bool)
      requires Shaped() && Tracked()
      modifies this`votedFor, this`dirty, this`electionDeadline
      ensures Shaped() && Tracked()
      ensures Abs() == CastVote(old(Abs()), req).0 && granted == CastVote(old(Abs()), req).1.granted
      ensures if granted then Redrawn(now) else electionDeadline == old(electionDeadline)
    {
      granted := false;
      if req.term == term && (votedFor == NOBODY || votedFor == req.candidate) &&
         AtLeastAsUpToDate(log, req.lastTerm, req.lastIndex)
      {
        votedFor := req.candidate;
        dirty := true;
        granted := true;
        ResetElectionTimer(now);
      }
    }

    method Meet(newTerm: nat, now: int)
      requires Shaped() && Tracked()
      modifies this`term, this`votedFor, this`dirty, this`role, this`leader, this`pending, this`results,
          this`electionDeadline
      ensures Abs() == Met(old(Abs()), newTerm) && Shaped() && Tracked()
      ensures if newTerm > old(term) && old(role) != Follower then Redrawn(now)
              else electionDeadline == old(electionDeadline)
    {
      if newTerm > term {
        Adopt(newTerm, NOBODY, now);
      }
    }

    method Consider(req: VoteRequest, now: int) returns (granted: bool)
      requires Shaped() && Tracked()
      modifies this`term, this`votedFor, this`dirty, this`role, this`leader, this`pending, this`results,
          this`electionDeadline
      ensures Shaped() && Tracked()
      ensures Abs() == OnVote(old(Abs()), req).0 && VoteReply(term, granted) == OnVote(old(Abs()), req).1
      ensures if granted || (req.term > old(term) && old(role) != Follower) then Redrawn(now)
              else electionDeadline == old(electionDeadline)
    {
      Meet(req.term, now);
      granted := Cast(req, now);
    }

    /** A candidate's call. The vote is on disk before the reply says so. */
    method HandleVote(req: VoteRequest, now: int) returns (reply: VoteReply)
      requires Valid()
      modifies this, storage`durable
      ensures Valid()
      ensures old(stopped) ==> Abs() == old(Abs()) && !reply.granted
      ensures !stopped ==> Abs() == Settle(OnVote(old(Abs()), req).0) && reply == OnVote(old(Abs()), req).1
      ensures !stopped ==> handed == old(handed) + Handed(log, old(applied), applied)
      ensures stopped && !old(stopped) ==> storage.failing && !reply.granted && out == [] && results == []
      ensures !stopped ==> if reply.granted || (req.term > old(term) && old(role) != Follower) then Redrawn(now)
                           else electionDeadline == old(electionDeadline)
    {
      if stopped {
        return VoteReply(term, false);
      }
      reply := VoteRunning(req, now);
    }

    method VoteRunning(req: VoteRequest, now: int) returns (reply: VoteReply)
      requires Valid() && !stopped
      modifies this, storage`durable
      ensures Valid() && (stopped ==> storage.failing && !reply.granted && out == [] && results == [])
      ensures !stopped ==> Abs() == Settle(OnVote(old(Abs()), req).0) && reply == OnVote(old(Abs()), req).1
      ensures !stopped ==> handed == old(handed) + Handed(log, old(applied), applied)
      ensures !stopped ==> if reply.granted || (req.term > old(term) && old(role) != Follower) then Redrawn(now)
                           else electionDeadline == old(electionDeadline)
    {
      var granted := ConsiderSaved(req, now);
      return VoteReply(term, granted && !stopped);
    }

    method ConsiderSaved(req: VoteRequest, now: int) returns (granted: bool)
      requires Valid() && !stopped
      modifies this, storage`durable
      ensures Valid() && (stopped ==> storage.failing && out == [] && results == [])
      ensures !stopped ==> Abs() == Settle(OnVote(old(Abs()), req).0)
      ensures VoteReply(term, granted) == OnVote(old(Abs()), req).1
      ensures !stopped ==> handed == old(handed) + Handed(log, old(applied), applied)
      ensures if granted || (req.term > old(term) && old(role) != Follower) then Redrawn(now)
              else electionDeadline == old(electionDeadline)
    {
      granted := Consider(req, now);
      Finish();
    }

    method CountOne(from: nat)
      requires from < |votes|
      modifies this`votes
      ensures votes == old(votes)[from := true]
    {
      votes := votes[from := true];
    }

    method Elect(now: int)
      requires Shaped() && Tracked()
      modifies this`role, this`leader, this`next, this`matched, this`log, this`dirty, this`dirtyFrom
      modifies this`number, this`out, this`timers
      ensures Abs() == BecomeLeader(old(Abs())) && Shaped() && Tracked()
    {
      ghost var was := Abs();
      Lead(now);
      CrownFields(was, Abs());
    }

    method Tally(from: nat, now: int)
      requires Shaped() && Tracked() && from < size
      modifies this`role, this`leader, this`next, this`matched, this`log, this`dirty, this`dirtyFrom
      modifies this`number, this`out, this`timers, this`votes
      ensures var s1 := old(Abs()).(votes := old(votes)[from := true]);
              Abs() == if Most(Count(s1.votes), size) then BecomeLeader(s1) else s1
      ensures Shaped() && Tracked()
    {
      CountOne(from);
      if Most(Count(votes), size) {
        Elect(now);
      }
    }

    method Receive(from: nat, sent: VoteRequest, reply: VoteReply, now: int)
      requires Shaped() && Tracked() && from < size
      modifies this`term, this`votedFor, this`dirty, this`role, this`leader, this`pending, this`results,
          this`electionDeadline
      modifies this`next, this`matched, this`log, this`dirtyFrom, this`number, this`out, this`timers, this`votes
      ensures Shaped() && Tracked() && Abs() == OnVoteReply(old(Abs()), from, sent, reply)
      ensures if reply.term > old(term) && old(role) != Follower then Redrawn(now)
              else electionDeadline == old(electionDeadline)
    {
      if reply.term > term {
        Adopt(reply.term, NOBODY, now);
      } else if role == Candidate && sent.term == term && reply.term == term && reply.granted {
        Tally(from, now);
      }
    }

    /** A vote, with the call it answers. */
    method HandleVoteReply(from: nat, sent: VoteRequest, reply: VoteReply, now: int)
      requires Valid() && from < size
      modifies this, storage`durable
      ensures Valid()
      ensures old(stopped) ==> Abs() == old(Abs())
      ensures !stopped ==> Abs() == Settle(OnVoteReply(old(Abs()), from, sent, reply))
      ensures !old(stopped) ==> if reply.term > old(term) && old(role) != Follower then Redrawn(now)
                                else electionDeadline == old(electionDeadline)
      ensures !stopped ==> handed == old(handed) + Handed(log, old(applied), applied)
      ensures stopped && !old(stopped) ==> storage.failing && out == [] && results == []
    {
      if stopped {
        return;
      }
      VoteReplyRunning(from, sent, reply, now);
    }

    method VoteReplyRunning(from: nat, sent: VoteRequest, reply: VoteReply, now: int)
      requires Valid() && !stopped && from < size
      modifies this, storage`durable
      ensures Valid() && (stopped ==> storage.failing && out == [] && results == [])
      ensures !stopped ==> Abs() == Settle(OnVoteReply(old(Abs()), from, sent, reply))
      ensures !stopped ==> handed == old(handed) + Handed(log, old(applied), applied)
      ensures if reply.term > old(term) && old(role) != Follower then Redrawn(now)
              else electionDeadline == old(electionDeadline)
    {
      Receive(from, sent, reply, now);
      Finish();
    }

    // ---- entries ----

    method FindTermStart(at: nat) returns (i: nat)
      requires at <= |log|
      ensures i == TermStart(log, at)
    {
      i := at;
      while i > 1 && TermAt(log, i - 1) == TermAt(log, at)
        invariant i <= at && TermAt(log, i) == TermAt(log, at) && TermStart(log, i) == TermStart(log, at)
      {
        i := i - 1;
      }
    }

    /** Keep what is held, cut at the first conflict, add the rest. */
    method AddNew(prev: nat, es: seq<Entry>)
      requires prev <= |log| && !stopped
      modifies this`log, this`dirty, this`dirtyFrom, this`stopped
      ensures var k := FirstNew(old(log), prev, es);
              if k == |es| then
                log == old(log) && dirty == old(dirty) && dirtyFrom == old(dirtyFrom) && !stopped
              else if prev + k < |old(log)| && prev + k + 1 <= commit then
                log == old(log) && dirty == old(dirty) && dirtyFrom == old(dirtyFrom) && stopped
              else
                && log == old(log)[..prev + k] + es[k..] && dirty && !stopped
                && dirtyFrom == if old(dirtyFrom) == 0 || prev + k + 1 < old(dirtyFrom) then prev + k + 1
                    else old(dirtyFrom)
    {
      ghost var was, first := log, FirstNew(log, prev, es);
      for k := 0 to |es|
        invariant !stopped && first <= |es| && prev + first <= |was|
        invariant k <= first ==> log == was && dirty == old(dirty) && dirtyFrom == old(dirtyFrom)
        invariant k > first ==> log == was[..prev + first] + es[first..k] && dirty
        invariant k > first ==>
                    dirtyFrom == if old(dirtyFrom) == 0 || prev + first + 1 < old(dirtyFrom) then prev + first + 1
                        else old(dirtyFrom)
        invariant k > first ==> !(prev + first < |was| && prev + first + 1 <= commit)
      {
        var i := prev + k + 1;
        FirstNewHeld(was, prev, es, k);
        AddedOne(was, prev, es, first, k);
        if i <= |log| && log[i - 1].term == es[k].term {
          continue;
        }
        if i <= |log| {
          if i <= commit {
            stopped := true;
            return;
          }
          log := log[..i - 1];
          NoteFrom(i);
        }
        log := log + [es[k]];
        NoteFrom(i);
      }
      AddedAll(es, first);
    }

    method TakeEntries(prev: nat, es: seq<Entry>)
      requires Shaped() && Tracked() && prev <= |log| && !stopped && dirtyFrom == 0
      modifies this`log, this`dirty, this`dirtyFrom, this`stopped
      ensures Abs() == Absorb(old(Abs()), prev, es)
      ensures Shaped() && Tracked() && (!stopped ==> prev + |es| <= |log|)
    {
      AddNew(prev, es);
    }

    method CommitUpTo(theirs: nat, lastNew: nat)
      requires Shaped() && Tracked() && lastNew <= |log|
      modifies this`commit
      ensures Shaped() && Tracked()
      ensures Abs() == old(Abs()).(commit := if theirs > old(commit) then Min(theirs, lastNew) else old(commit))
    {
      if theirs > commit {
        commit := Min(theirs, lastNew);
      }
    }

    method TakeCall(req: AppendRequest) returns (reply: AppendReply)
      requires Shaped() && Tracked() && !stopped && dirtyFrom == 0 && req.prevIndex <= |log|
      requires TermAt(log, req.prevIndex) == req.prevTerm
      modifies this`log, this`dirty, this`dirtyFrom, this`stopped, this`commit
      ensures Shaped() && Tracked() && (Abs(), reply) == TryAppend(old(Abs()), req)
    {
      TakeEntries(req.prevIndex, req.entries);
      if stopped {
        return AppendReply(term, false, 0);
      }
      var lastNew := req.prevIndex + |req.entries|;
      CommitUpTo(req.commit, lastNew);
      return AppendReply(term, true, lastNew);
    }

    /** The branches of a leader's call, once its term is adopted. */
    method Answer(req: AppendRequest) returns (reply: AppendReply)
      requires Shaped() && Tracked() && !stopped && dirtyFrom == 0
      modifies this`log, this`dirty, this`dirtyFrom, this`stopped, this`commit
      ensures Shaped() && Tracked() && (Abs(), reply) == TryAppend(old(Abs()), req)
    {
      if req.prevIndex > |log| {
        return AppendReply(term, false, |log| + 1);
      }
      if TermAt(log, req.prevIndex) != req.prevTerm {
        var i := FindTermStart(req.prevIndex);
        return AppendReply(term, false, i);
      }
      reply := TakeCall(req);
    }

    method Obey(req: AppendRequest, now: int) returns (reply: AppendReply)
      requires Shaped() && Tracked() && !stopped && dirtyFrom == 0
      modifies this`term, this`votedFor, this`dirty, this`role, this`leader, this`pending, this`results,
          this`electionDeadline
      modifies this`log, this`dirtyFrom, this`stopped, this`commit
      ensures Shaped() && Tracked() && (Abs(), reply) == OnAppend(old(Abs()), req)
      ensures if req.term >= old(term) then Redrawn(now) else electionDeadline == old(electionDeadline)
    {
      if req.term < term {
        return AppendReply(term, false, 0);
      }
      Adopt(req.term, req.leader, now);
      ResetElectionTimer(now);
      reply := Answer(req);
    }

    /** A leader's call. Entries are on disk before the reply says so. */
    method HandleAppend(req: AppendRequest, now: int) returns (reply: AppendReply)
      requires Valid()
      modifies this, storage`durable
      ensures Valid()
      ensures old(stopped) ==> Abs() == old(Abs()) && !reply.success
      ensures !stopped ==> Abs() == Settle(OnAppend(old(Abs()), req).0) && reply == OnAppend(old(Abs()), req).1
      ensures !stopped ==> handed == old(handed) + Handed(log, old(applied), applied)
      ensures stopped && !old(stopped) ==> !reply.success && (storage.failing || OnAppend(old(Abs()), req).0.stopped)
      ensures !old(stopped) ==>
                if req.term >= old(term) then Redrawn(now) else electionDeadline == old(electionDeadline)
    {
      if stopped {
        return AppendReply(term, false, 0);
      }
      reply := AppendRunning(req, now);
    }

    method AppendRunning(req: AppendRequest, now: int) returns (reply: AppendReply)
      requires Valid() && !stopped
      modifies this, storage`durable
      ensures Valid()
      ensures !stopped ==> Abs() == Settle(OnAppend(old(Abs()), req).0) && reply == OnAppend(old(Abs()), req).1
      ensures !stopped ==> handed == old(handed) + Handed(log, old(applied), applied)
      ensures stopped ==> !reply.success && (storage.failing || OnAppend(old(Abs()), req).0.stopped)
      ensures if req.term >= old(term) then Redrawn(now) else electionDeadline == old(electionDeadline)
    {
      reply := Obey(req, now);
      if !stopped {
        Finish();
      }
      if stopped {
        reply := AppendReply(term, false, 0);
      }
    }

    // ---- replication replies ----

    method Note(from: nat, sent: AppendRequest, reply: AppendReply, now: int)
      requires Fits(Abs()) && |timers| == size && from < size
      modifies this`matched, this`next, this`timers
      ensures |timers| == size
      ensures matched == Bookkeep(old(Abs()), from, sent, reply).matched
      ensures next == Bookkeep(old(Abs()), from, sent, reply).next
      ensures timers == old(timers)[from := Noted(old(timers)[from], sent.number, reply.success, now)]
    {
      timers := timers[from := timers[from].(heard := now)];
      if timers[from].inflight && sent.number == timers[from].number {
        timers := timers[from := timers[from].(inflight := false)];
      }
      if reply.success {
        var m := sent.prevIndex + |sent.entries|;
        if m > matched[from] {
          matched := matched[from := m];
        }
        if next[from] < m + 1 {
          next := next[from := m + 1];
        }
      } else {
        var hint := Min(Max(reply.index, 1), sent.prevIndex);
        var back := Max(matched[from] + 1, hint);
        if back < next[from] {
          next := next[from := back];
        }
        timers := timers[from := timers[from].(retry := now)];
      }
    }

    method ConfirmReads(from: nat, n: nat)
      modifies this`pending
      ensures pending == Confirm(old(pending), from, n)
    {
      for k := 0 to |pending|
        invariant |pending| == |old(pending)|
        invariant forall i | 0 <= i < |pending| :: pending[i] == if i < k then Confirm(old(pending), from, n)[i]
                  else old(pending)[i]
      {
        var r := pending[k];
        if n >= r.number && from < |r.acks| {
          pending := pending[k := r.(acks := r.acks[from := true])];
        }
      }
    }

    method Hear(from: nat, sent: AppendRequest, reply: AppendReply, now: int)
      requires Shaped() && from < size && Tracked()
      modifies this`matched, this`next, this`timers, this`pending
      ensures Shaped() && Tracked() && Abs() == ReplyTies.Heard(old(Abs()), from, sent, reply)
      ensures timers == old(timers)[from := Noted(old(timers)[from], sent.number, reply.success, now)]
    {
      Note(from, sent, reply, now);
      ConfirmReads(from, sent.number);
    }

    method Weigh(from: nat, sent: AppendRequest, reply: AppendReply, now: int) returns (ghost resend: bool)
      requires Shaped() && Tracked() && from < size && role == Leader && sent.term == term && reply.term == term
      modifies this`matched, this`next, this`timers, this`pending, this`number, this`out
      ensures Shaped() && Tracked() && Abs() == OnAppendReply(old(Abs()), from, sent, reply, resend)
      ensures resend <==>
                Due(Noted(old(timers)[from], sent.number, reply.success, now), now, next[from] <= |log|)
    {
      Hear(from, sent, reply, now);
      resend := SendIfDue(from, now, false);
    }

    method Track(from: nat, sent: AppendRequest, reply: AppendReply, now: int) returns (ghost resend: bool)
      requires Shaped() && Tracked() && from < size
      modifies this`term, this`votedFor, this`dirty, this`role, this`leader, this`pending, this`results,
          this`electionDeadline
      modifies this`matched, this`next, this`timers, this`number, this`out
      ensures Shaped() && Tracked() && Abs() == OnAppendReply(old(Abs()), from, sent, reply, resend)
      ensures resend <==> old(role) == Leader && sent.term == reply.term == old(term) &&
                          Due(Noted(old(timers)[from], sent.number, reply.success, now), now, next[from] <= |log|)
      ensures if reply.term > old(term) && old(role) != Follower then Redrawn(now)
              else electionDeadline == old(electionDeadline)
    {
      resend := false;
      if reply.term > term {
        Adopt(reply.term, NOBODY, now);
      } else if role == Leader && sent.term == term && reply.term == term {
        resend := Weigh(from, sent, reply, now);
      }
    }

    /** A follower's reply, with the call it answers; `resend` is whether the next call went out at once. */
    method HandleAppendReply(from: nat, sent: AppendRequest, reply: AppendReply, now: int) returns (ghost resend: bool)
      requires Valid() && from < size
      modifies this, storage`durable
      ensures Valid()
      ensures old(stopped) ==> Abs() == old(Abs())
      ensures !stopped ==> Abs() == Settle(OnAppendReply(old(Abs()), from, sent, reply, resend))
      ensures !stopped ==> handed == old(handed) + Handed(log, old(applied), applied)
      ensures stopped && !old(stopped) ==> storage.failing && out == [] && results == []
      ensures resend <==> !old(stopped) && old(role) == Leader && sent.term == reply.term == old(term) &&
                          Due(Noted(old(timers)[from], sent.number, reply.success, now), now, next[from] <= |log|)
      ensures !old(stopped) ==> if reply.term > old(term) && old(role) != Follower then Redrawn(now)
                                else electionDeadline == old(electionDeadline)
    {
      resend := false;
      if stopped {
        return;
      }
      resend := ReplyRunning(from, sent, reply, now);
    }

    method ReplyRunning(from: nat, sent: AppendRequest, reply: AppendReply, now: int) returns (ghost resend: bool)
      requires Valid() && !stopped && from < size
      modifies this, storage`durable
      ensures Valid() && (stopped ==> storage.failing && out == [] && results == [])
      ensures !stopped ==> Abs() == Settle(OnAppendReply(old(Abs()), from, sent, reply, resend))
      ensures !stopped ==> handed == old(handed) + Handed(log, old(applied), applied)
      ensures resend <==> old(role) == Leader && sent.term == reply.term == old(term) &&
                          Due(Noted(old(timers)[from], sent.number, reply.success, now), now, next[from] <= |log|)
      ensures if reply.term > old(term) && old(role) != Follower then Redrawn(now)
              else electionDeadline == old(electionDeadline)
    {
      resend := Track(from, sent, reply, now);
      Finish();
    }

    /** No reply: refused, timed out or closed. Only the timers change. */
    method CallFailed(to: nat, sent: Outgoing, now: int)
      requires Valid() && to < size
      modifies this`timers
      ensures Valid() && Abs() == old(Abs())
      ensures stopped || sent.Ask? || role != Leader ==> timers == old(timers)
      ensures !(stopped || sent.Ask? || role != Leader) ==>
                forall p | 0 <= p < size && p != to :: timers[p] == old(timers)[p]
      ensures !(stopped || sent.Ask? || role != Leader) ==>
                var t := old(timers)[to];
                && timers[to] == t.(inflight := timers[to].inflight, retry := now + Beat(election))
                && (timers[to].inflight <==> t.inflight && sent.append.number != t.number)
    {
      if stopped || sent.Ask? || role != Leader {
        return;
      }
      if timers[to].inflight && sent.append.number == timers[to].number {
        timers := timers[to := timers[to].(inflight := false)];
      }
      timers := timers[to := timers[to].(retry := now + Beat(election))];
    }

    // ---- clients ----

    method Extend(command: string)
      modifies this`log, this`dirty, this`dirtyFrom
      ensures log == old(log) + [Entry(term, command)]
      ensures dirty && dirtyFrom == if old(dirtyFrom) == 0 || |log| < old(dirtyFrom) then |log| else old(dirtyFrom)
    {
      log := log + [Entry(term, command)];
      NoteFrom(|log|);
    }

    method Add(command: string, now: int) returns (ghost to: seq<nat>)
      requires Shaped() && Tracked() && dirtyFrom == 0
      modifies this`log, this`dirty, this`dirtyFrom, this`number, this`out, this`timers
      ensures Shaped() && Tracked() && Peers(id, size, to) && Abs() == OnPropose(old(Abs()), command, to)
      ensures log == old(log) + [Entry(term, command)] && next == old(next)
      ensures role == Leader ==> ToAllDue(to, old(timers), next, |log|, id, now, false, false)
    {
      ExtendKept(command);
      to := SendAllKept(now, false, false);
    }

    method ExtendKept(command: string)
      requires Shaped() && Tracked() && dirtyFrom == 0
      modifies this`log, this`dirty, this`dirtyFrom
      ensures Shaped() && Tracked() && log == old(log) + [Entry(term, command)]
      ensures Abs() == ChangedFrom(old(Abs()).(log := log), |log|)
    {
      Extend(command);
    }

    /** A client's command: where it stands, if this replica leads. */
    method Propose(command: string, now: int) returns (ok: bool, index: nat, at: nat, ghost to: seq<nat>)
      requires Valid()
      modifies this, storage`durable
      ensures Valid() && ok == (!stopped && old(role) == Leader) && Peers(id, size, to)
      ensures old(stopped) || old(role) != Leader ==> Abs() == old(Abs())
      ensures ok ==> Abs() == Settle(OnPropose(old(Abs()), command, to)) && index == |old(log)| + 1 && at == old(term)
      ensures ok ==> handed == old(handed) + Handed(log, old(applied), applied)
      ensures stopped && !old(stopped) ==> storage.failing && out == [] && results == []
      ensures ok ==> ToAllDue(to, old(timers), old(next), |old(log)| + 1, id, now, false, false)
    {
      ok, index, at, to := false, 0, 0, [];
      if stopped || role != Leader {
        return;
      }
      to := Add(command, now);
      index, at := |log|, term;
      Finish();
      ok := !stopped;
    }

    /** As SendAllDue; what is durable stays so. */
    method SendAllKept(now: int, force: bool, expire: bool) returns (ghost to: seq<nat>)
      requires Shaped() && Tracked()
      modifies this`number, this`out, this`timers
      ensures Shaped() && Tracked() && Peers(id, size, to) && Abs() == SendList(old(Abs()), to)
      ensures to != [] ==> role == Leader
      ensures role == Leader ==> ToAllDue(to, old(timers), next, |log|, id, now, force, expire)
    {
      to := SendAllDue(now, force, expire);
    }

    method Queue(readId: nat)
      requires Fits(Abs())
      modifies this`pending
      ensures pending == old(pending) + [NewRead(old(Abs()), readId)]
    {
      pending := pending
          + [PendingRead(readId, number + 1, if TermAt(log, commit) == term then commit else 0, Only(id, size))];
    }

    method Enter(readId: nat, now: int) returns (ghost to: seq<nat>)
      requires Shaped() && Tracked()
      modifies this`pending, this`number, this`out, this`timers
      ensures Shaped() && Tracked() && Peers(id, size, to) && Abs() == OnRead(old(Abs()), readId, to)
      ensures role == Leader ==> ToAllDue(to, old(timers), next, |log|, id, now, true, false)
    {
      Queue(readId);
      to := SendAllKept(now, true, false);
    }

    /** A linearizable read: refused at once unless this replica leads. */
    method Read(readId: nat, now: int) returns (ok: bool, ghost to: seq<nat>)
      requires Valid()
      modifies this, storage`durable
      ensures Valid() && ok == (!old(stopped) && old(role) == Leader) && Peers(id, size, to)
      ensures !ok ==> Abs() == old(Abs())
      ensures ok && !stopped ==> Abs() == Settle(OnRead(old(Abs()), readId, to))
      ensures ok && !stopped ==> handed == old(handed) + Handed(log, old(applied), applied)
      ensures ok ==> ToAllDue(to, old(timers), old(next), |old(log)|, id, now, true, false)
    {
      to := [];
      if stopped || role != Leader {
        return false, to;
      }
      to := Enter(readId, now);
      Finish();
      ok := true;
    }

    // ---- timers ----

    /** How many replicas, itself among them, the leader has heard within two election timeouts. */
    method CountRecent(now: int) returns (recent: nat)
      requires |timers| == size && id < size
      ensures recent == Count(Recent(timers, id, now, election))
    {
      recent := 1;
      ghost var bits := Recent(timers, id, now, election);
      for p := 0 to size
        invariant recent == Count(bits[..p]) + if p <= id then 1 else 0
      {
        if p != id && now - timers[p].heard < 2 * election {
          recent := recent + 1;
        }
        assert bits[..p + 1][..p] == bits[..p];
      }
      assert bits[..size] == bits;
    }

    method StandKept(now: int)
      requires Shaped() && Tracked()
      modifies this`term, this`votedFor, this`dirty, this`role, this`leader, this`pending, this`results
      modifies this`electionDeadline, this`votes, this`next, this`matched, this`log, this`dirtyFrom
      modifies this`number, this`out, this`timers
      ensures Shaped() && Tracked() && Abs() == StartElection(old(Abs())) && Redrawn(now)
    {
      ghost var was := Abs();
      Stand(now);
      if Most(1, size) {
        InputTies.SendFields(Crown(Candidacy(was)), Others(was.id, was.size));
      }
    }

    method LeaderTick(now: int) returns (ghost i: Input)
      requires Shaped() && Tracked() && role == Leader && !stopped
      modifies this`term, this`votedFor, this`dirty, this`role, this`leader, this`pending, this`results,
          this`electionDeadline
      modifies this`number, this`out, this`timers
      ensures Shaped() && Tracked() && (i.StepDown? || i.Heartbeat?)
      ensures i.StepDown? <==> !Most(Count(Recent(old(timers), id, now, election)), size)
      ensures Allowed(old(Abs()), i) && Abs() == Handle(old(Abs()), i)
      ensures if i.StepDown? then Redrawn(now) else electionDeadline == old(electionDeadline)
      ensures i.Heartbeat? ==> ToAllDue(i.to, old(timers), old(next), |old(log)|, id, now, false, true)
    {
      var recent := CountRecent(now);
      if !Most(recent, size) {
        i := StepDown;
        Adopt(term, NOBODY, now);
      } else {
        ghost var to := SendAllKept(now, false, true);
        i := Heartbeat(to);
      }
    }

    method Expire(now: int) returns (ghost i: Input)
      requires Shaped() && Tracked() && !stopped
      modifies this`term, this`votedFor, this`dirty, this`role, this`leader, this`pending, this`results
      modifies this`electionDeadline, this`votes, this`next, this`matched, this`log, this`dirtyFrom
      modifies this`number, this`out, this`timers
      ensures Shaped() && Tracked() && Expired(i, old(Abs()), old(electionDeadline), old(timers), now, election)
      ensures Allowed(old(Abs()), i) && Abs() == Handle(old(Abs()), i)
      ensures if i.Heartbeat? then electionDeadline == old(electionDeadline) else Redrawn(now)
    {
      i := Heartbeat([]);
      if role == Leader {
        i := LeaderTick(now);
      } else if now >= electionDeadline {
        i := Timeout;
        StandKept(now);
      }
    }

    /** Timers: a replica that does not lead stands when its timeout has passed; a leader out of touch
        with a majority steps down, and any other sends what is due. `i` says which. */
    method Tick(now: int) returns (ghost i: Input)
      requires Valid()
      modifies this, storage`durable
      ensures Valid() && (old(stopped) ==> Abs() == old(Abs()))
      ensures !old(stopped) ==> Allowed(old(Abs()), i)
      ensures !old(stopped) ==> Expired(i, old(Abs()), old(electionDeadline), old(timers), now, election)
      ensures !stopped ==> Abs() == Settle(Handle(old(Abs()), i))
      ensures !stopped ==> handed == old(handed) + Handed(log, old(applied), applied)
      ensures !old(stopped) ==> if i.Heartbeat? then electionDeadline == old(electionDeadline) else Redrawn(now)
    {
      i := Heartbeat([]);
      if stopped {
        return;
      }
      i := TickRunning(now);
    }

    method TickRunning(now: int) returns (ghost i: Input)
      requires Valid() && !stopped
      modifies this, storage`durable
      ensures Valid() && Allowed(old(Abs()), i)
      ensures Expired(i, old(Abs()), old(electionDeadline), old(timers), now, election)
      ensures !stopped ==> Abs() == Settle(Handle(old(Abs()), i))
      ensures !stopped ==> handed == old(handed) + Handed(log, old(applied), applied)
      ensures if i.Heartbeat? then electionDeadline == old(electionDeadline) else Redrawn(now)
    {
      i := Expire(now);
      Finish();
    }

    // ---- outputs ----

    method TakeOutgoing() returns (taken: seq<Outgoing>)
      requires Valid()
      modifies this`out
      ensures Valid() && taken == old(out) && Abs() == old(Abs()).(out := [])
    {
      taken := out;
      out := [];
    }

    method TakeReads() returns (taken: seq<ReadResult>)
      requires Valid()
      modifies this`results
      ensures Valid() && taken == old(results) && Abs() == old(Abs()).(results := [])
    {
      taken := results;
      results := [];
    }
  }

  /** What the timers make a replica do: one that does not lead stands exactly if its timeout has passed, a leader steps
      down exactly if it has not heard from a majority of late, and otherwise sends exactly what is due. */
  ghost predicate Expired(i: Input, s: Core, deadline: int, timers: seq<Timer>, now: int, election: nat) {
    && (i.Timeout? || i.StepDown? || i.Heartbeat?)
    && (i.Timeout? <==> s.role != Leader && now >= deadline)
    && (i.StepDown? <==> s.role == Leader && !Most(Count(Recent(timers, s.id, now, election)), s.size))
    && (i.Heartbeat? && s.role == Leader ==> ToAllDue(i.to, timers, s.next, |s.log|, s.id, now, false, true))
  }

  /** A call that has gone unanswered for its whole time is presumed lost. */
  function Lapsed(t: Timer, now: int): Timer {
    if t.inflight && now >= t.until then t.(inflight := false) else t
  }

  /** A reply that counts: the peer has been heard, and its call is no longer in flight; after a failure the next may
      go at once. */
  function Noted(t: Timer, number: nat, success: bool, now: int): Timer {
    t.(heard := now, inflight := t.inflight && number != t.number, retry := if success then t.retry else now)
  }

  lemma DueMore(before: seq<nat>, to: seq<nat>, timers: seq<Timer>, next: seq<nat>, last: nat, id: nat, now: int,
                force: bool, expire: bool, p: nat, sent: bool)
    requires p < |timers| == |next| && ToAllDue(before, timers[..p], next[..p], last, id, now, force, expire)
    requires (forall q | q in before :: q < p) && to == if sent then before + [p] else before
    requires sent <==>
               p != id && Due(if expire then Lapsed(timers[p], now) else timers[p], now, force || next[p] <= last)
    ensures ToAllDue(to, timers[..p + 1], next[..p + 1], last, id, now, force, expire)
  {
    forall q | 0 <= q < p + 1
      ensures q in to <==>
                q != id && Due(if expire then Lapsed(timers[q], now) else timers[q], now, force || next[q] <= last)
    {
      assert q < p ==> timers[..p][q] == timers[q] && next[..p][q] == next[q];
    }
  }

  /** `to` are exactly the peers to which a call is due. */
  ghost predicate ToAllDue(to: seq<nat>, timers: seq<Timer>, next: seq<nat>, last: nat, id: nat, now: int, force: bool,
                           expire: bool) {
    |timers| == |next| &&
    forall p | 0 <= p < |timers| ::
      p in to <==> p != id && Due(if expire then Lapsed(timers[p], now) else timers[p], now, force || next[p] <= last)
  }

  /** Nothing is in flight to the peer, no failed call is being waited out, and there is a reason to send. */
  predicate Due(t: Timer, now: int, reason: bool) {
    !t.inflight && now >= t.retry && (reason || now >= t.heartbeat)
  }

  /** Whom a leader has heard within two election timeouts, itself among them. */
  function Recent(timers: seq<Timer>, id: nat, now: int, election: nat): (bits: seq<bool>) {
    seq(|timers|, p requires 0 <= p < |timers| => p == id || now - timers[p].heard < 2 * election)
  }

  /** One turn of adding: what the log holds after entry k. */
  lemma AddedOne(was: seq<Entry>, prev: nat, es: seq<Entry>, first: nat, k: nat)
    requires k < |es| && first <= |es| && prev + first <= |was|
    ensures k >= first ==> |was[..prev + first] + es[first..k]| == prev + k
    ensures k >= first ==> was[..prev + first] + es[first..k] + [es[k]] == was[..prev + first] + es[first..k + 1]
    ensures k == first ==> was[..prev + k] + [es[k]] == was[..prev + first] + es[first..k + 1]
    ensures k == first && prev + k == |was| ==> was + [es[k]] == was[..prev + first] + es[first..k + 1]
  {
    if k >= first {
      assert es[first..k] + [es[k]] == es[first..k + 1];
    }
  }

  lemma AddedAll(es: seq<Entry>, first: nat)
    requires first <= |es|
    ensures es[first..|es|] == es[first..]
  {
  }

  /** FirstNew counts a run: every entry before it is held, and the entry at it is not. */
  lemma {:induction false} FirstNewHeld(log: seq<Entry>, prev: nat, es: seq<Entry>, j: nat)
    requires j < |es|
    ensures j < FirstNew(log, prev, es) ==> prev + j < |log| && log[prev + j].term == es[j].term
    ensures j == FirstNew(log, prev, es) ==> !(prev + j < |log| && log[prev + j].term == es[j].term)
    decreases |es|
  {
    if es != [] && prev < |log| && log[prev].term == es[0].term && j > 0 {
      FirstNewHeld(log, prev + 1, es[1..], j - 1);
    }
  }

  lemma CrownFields(s: Core, r: Core)
    requires Fits(s) && r == BecomeLeader(s)
    ensures r.log == s.log + [Entry(s.term, "NOOP")] && r.commit == s.commit && r.dirty
    ensures r.dirtyFrom == if s.dirtyFrom == 0 || |s.log| + 1 < s.dirtyFrom then |s.log| + 1 else s.dirtyFrom
  {
    InputTies.SendFields(Crown(s), Others(s.id, s.size));
  }

  /** Entries handed over, in order, from after index `from` to `to`. */
  function Handed(log: seq<Entry>, from: nat, to: nat): (r: seq<Done>)
    ensures from <= to <= |log| ==> |r| == to - from
  {
    if from >= to || to > |log| then [] else Handed(log, from, to - 1) + [Done(to, log[to - 1])]
  }

  lemma {:induction false} HandedAt(log: seq<Entry>, from: nat, to: nat, k: nat)
    requires from <= to <= |log| && k < to - from
    ensures Handed(log, from, to)[k] == Done(from + 1 + k, log[from + k])
  {
    if k < to - from - 1 {
      HandedAt(log, from, to - 1, k);
    }
  }

  /** The state machine is handed exactly the entries the group model counts as applied, each in its turn. */
  lemma HandedIsNewly(log: seq<Entry>, from: nat, to: nat)
    requires to <= |log|
    ensures forall d :: d in Handed(log, from, to) <==> d in Newly(log, from, to)
    ensures forall k | 0 <= k < |Handed(log, from, to)| :: Handed(log, from, to)[k].index == from + 1 + k
  {
    if from < to {
      var hs := Handed(log, from, to);
      forall k | 0 <= k < |hs|
        ensures hs[k] == Done(from + 1 + k, log[from + k])
      {
        HandedAt(log, from, to, k);
      }
      HandedMeans(log, from, to, hs);
    }
  }

  lemma HandedMeans(log: seq<Entry>, from: nat, to: nat, hs: seq<Done>)
    requires from < to <= |log| && |hs| == to - from && forall k | 0 <= k < |hs| ::
             hs[k] == Done(from + 1 + k, log[from + k])
    ensures forall d :: d in hs <==> d in Newly(log, from, to)
  {
    forall d | d in Newly(log, from, to)
      ensures d in hs
    {
      assert hs[d.index - from - 1] == d;
    }
  }

  lemma {:induction false} WaitingShapes(s: Core, pending: seq<PendingRead>)
    requires forall i | 0 <= i < |pending| :: |pending[i].acks| == s.size
    ensures forall i | 0 <= i < |Waiting(s, pending)| :: |Waiting(s, pending)[i].acks| == s.size
  {
    if pending != [] {
      WaitingShapes(s, pending[..|pending| - 1]);
    }
  }
}
