/** Saves that tear: the records a crash leaves of the batch being written are a state the record of
    the group can account for, so every invariant holds for whatever the replica restarts from. */
module TornTies {
  import opened RaftTypes
  import opened RaftCore
  import opened Ledgers
  import opened LogRecords
  import opened ReplicaTie
  import opened HandlerTies
  import opened AppendTie
  import LeaderTies
  import opened RaftGroup
  import opened InputTies
  import opened ReplyTies

  /** What a step tells its storage about the log: nothing before `from` changed, and at `from` the
      old log ended or held something else. A step that reports no change made none. */
  predicate Reported(s: Core, mid: Core) {
    var from := SaveFrom(mid);
    && 1 <= from <= |s.log| + 1 && from <= |mid.log| + 1
    && mid.log[..from - 1] == s.log[..from - 1]
    && (mid.dirtyFrom == 0 ==> mid.log == s.log)
    && (mid.dirtyFrom != 0 ==> from - 1 == |s.log| || (from <= |mid.log| && s.log[from - 1] != mid.log[from - 1]))
    && (!mid.dirty ==> Saved(mid) == Saved(s) && mid.dirtyFrom == 0)
  }

  /** Every input but a leader's entries leaves the log alone, or adds one entry. */
  predicate Grown(s: Core, mid: Core) {
    Reported(s, mid) && (mid.log == s.log || |mid.log| == |s.log| + 1 == SaveFrom(mid))
  }

  lemma MetGrows(s: Core, term: nat, leader: int)
    requires Fits(s) && Quiet(s)
    ensures Grown(s, BecomeFollower(s, term, leader)) && Grown(s, Met(s, term))
    ensures var r := BecomeFollower(s, term, leader); r.log == s.log && r.dirtyFrom == 0
  {
  }

  lemma SendGrows(s: Core, s1: Core, ps: seq<nat>)
    requires Fits(s1) && Peers(s1.id, s1.size, ps) && Grown(s, s1)
    ensures Grown(s, SendList(s1, ps))
  {
    SendFields(s1, ps);
  }

  lemma TimeoutGrows(s: Core)
    requires Fits(s) && Quiet(s)
    ensures Grown(s, StartElection(s))
  {
    if Most(1, s.size) {
      SendGrows(s, Crown(Candidacy(s)), Others(s.id, s.size));
    }
  }

  lemma VoteGrows(s: Core, ask: VoteRequest)
    requires Fits(s) && Quiet(s)
    ensures Grown(s, OnVote(s, ask).0)
  {
    MetGrows(s, ask.term, NOBODY);
  }

  lemma VoteReplyGrows(s: Core, from: nat, asked: VoteRequest, voted: VoteReply)
    requires Fits(s) && Quiet(s) && from < s.size
    ensures Grown(s, OnVoteReply(s, from, asked, voted))
  {
    SendGrows(s, Crown(s.(votes := s.votes[from := true])), Others(s.id, s.size));
    MetGrows(s, voted.term, NOBODY);
  }

  lemma AppendReplyGrows(s: Core, from: nat, pushed: AppendRequest, appended: AppendReply, resend: bool)
    requires Fits(s) && Quiet(s) && from < s.size
    ensures Grown(s, OnAppendReply(s, from, pushed, appended, resend))
  {
    MetGrows(s, appended.term, NOBODY);
  }

  lemma ClientGrows(s: Core, i: Input)
    requires Allowed(s, i) && Quiet(s) && (i.Propose? || i.Read? || i.Heartbeat?)
    ensures Grown(s, Handle(s, i))
  {
    match i
    case Heartbeat(to) => SendGrows(s, s, to);
    case Propose(command, to) => SendGrows(s, LeaderTies.Lengthened(s, command), to);
    case Read(id, to) => SendGrows(s, s.(pending := s.pending + [NewRead(s, id)]), to);
  }

  lemma HandleGrows(s: Core, i: Input)
    requires Allowed(s, i) && Quiet(s) && !i.GetAppend?
    ensures Grown(s, Handle(s, i))
  {
    match i
    case Timeout => TimeoutGrows(s);
    case StepDown => MetGrows(s, s.term, NOBODY);
    case GetVote(ask) => VoteGrows(s, ask);
    case GetVoteReply(from, asked, voted) => VoteReplyGrows(s, from, asked, voted);
    case GetAppendReply(from, pushed, appended, resend) => AppendReplyGrows(s, from, pushed, appended, resend);
    case _ => ClientGrows(s, i);
  }

  lemma AbsorbReports(s: Core, s1: Core, prev: nat, es: seq<Entry>, k: nat)
    requires Reported(s, s1) && s1.log == s.log && s1.dirtyFrom == 0 && prev <= |s.log|
    requires IsFirstNew(s1.log, prev, es, k)
    requires !AbsorbAt(s1, prev, es, k).stopped
    ensures Reported(s, AbsorbAt(s1, prev, es, k))
  {
  }

  lemma AppendReports(s: Core, push: AppendRequest)
    requires Fits(s) && Quiet(s) && !OnAppend(s, push).0.stopped
    ensures Reported(s, OnAppend(s, push).0)
  {
    var s1 := BecomeFollower(s, push.term, push.leader);
    MetGrows(s, push.term, push.leader);
    if push.term >= s.term {
      TryReports(s, s1, push);
    }
  }

  lemma TryReports(s: Core, s1: Core, push: AppendRequest)
    requires Reported(s, s1) && s1.log == s.log && s1.dirtyFrom == 0 && !TryAppend(s1, push).0.stopped
    ensures Reported(s, TryAppend(s1, push).0)
  {
    if push.prevIndex <= |s1.log| && TermAt(s1.log, push.prevIndex) == push.prevTerm {
      AbsorbReports(s, s1, push.prevIndex, push.entries, FirstNew(s1.log, push.prevIndex, push.entries));
    }
  }

  /** Every step reports its changes truly. */
  lemma HandleReports(s: Core, i: Input)
    requires Allowed(s, i) && Quiet(s) && !Handle(s, i).stopped
    ensures Reported(s, Handle(s, i))
  {
    if i.GetAppend? {
      AppendReports(s, i.push);
    } else {
      HandleGrows(s, i);
    }
  }

  // ---- the batch is one a correct replica writes ----

  lemma MetaFollows(l: Ledger, m: Ledger, v: nat, d: Durable, n: Durable)
    requires Extends(l, m) && DiskTie(l, v, d) && DiskTie(m, v, n)
    ensures d.term <= n.term && (d.term == n.term && d.votedFor != NOBODY ==> n.votedFor == d.votedFor)
  {
  }

  lemma StepFollows(l: Ledger, m: Ledger, v: nat, s: Core, mid: Core)
    requires Extends(l, m) && DiskTie(l, v, Saved(s)) && DiskTie(m, v, Saved(mid)) && LogsOk(m) && Reported(s, mid)
    ensures Follows(Saved(s), Saved(mid), SaveFrom(mid))
  {
    MetaFollows(l, m, v, Saved(s), Saved(mid));
    assert LogHolds(m, v);
  }

  /** A torn save leaves the old state, the old log under the new term and vote, or the new log cut
      somewhere past its first change. */
  ghost predicate TornShape(d: Durable, n: Durable, from: nat, disk: Durable) {
    || disk == d
    || disk == n.(log := d.log)
    || exists j: nat :: CutShape(n, from, disk, j)
  }

  predicate CutShape(n: Durable, from: nat, disk: Durable, j: nat) {
    from <= j + 1 && j <= |n.log| && disk == n.(log := n.log[..j])
  }

  lemma TornShapes(s: Core, mid: Core, k: nat)
    requires Follows(Saved(s), Saved(mid), SaveFrom(mid))
    ensures TornShape(Saved(s), Saved(mid), SaveFrom(mid), TornDisk(s, mid, k))
  {
    var d, n, from := Saved(s), Saved(mid), SaveFrom(mid);
    var batch := Batch(d, n, from);
    var k' := if k <= |batch| then k else |batch|;
    ReplayTorn(d, n, from, k');
    assert batch[..|batch|] == batch;
    var meta, cut := |MetaRecords(d, n)|, |CutRecords(d, from)|;
    if k' >= meta + cut {
      assert CutShape(n, from, Torn(d, n, from, k'), from - 1 + (k' - meta - cut));
    }
  }

  // ---- the record accounts for it ----

  /** The log a step leaves is the old one, one entry longer, or part of the current leader's. */
  ghost predicate LogSource(m: Ledger, v: nat, s: Core, mid: Core) {
    || mid.log == s.log
    || |mid.log| == |s.log| + 1 == SaveFrom(mid)
    || CanAccept(m, v, mid.log)
  }

  lemma HandleSource(l: Ledger, v: nat, s: Core, i: Input)
    requires Inv(l) && CoreTie(l, v, s) && Quiet(s) && Allowed(s, i) && InputTie(l, v, i)
    ensures LogSource(MetaRecord(l, v, s, i), v, s, Handle(s, i))
  {
    if i.GetAppend? {
      AppendSource(l, v, s, i.push);
    } else {
      HandleGrows(s, i);
    }
  }

  lemma AppendSource(l: Ledger, v: nat, s: Core, push: AppendRequest)
    requires Inv(l) && CoreTie(l, v, s) && Quiet(s) && CallTie(l, Push(v, push))
    ensures LogSource(FollowRecord(l, v, s, push.term), v, s, OnAppend(s, push).0)
  {
    if Refused(s, push) {
      RefusedRecord(l, v, s, push);
    } else {
      TakenLog(l, FollowRecord(l, v, s, push.term), v, s, push, push.prevIndex + |push.entries|, OnAppend(s, push).0);
    }
  }

  /** Any cut past the first change is itself a log the leader's word allows. */
  lemma CutAllowed(m: Ledger, v: nat, s: Core, mid: Core, j: nat)
    requires LogSource(m, v, s, mid) && Reported(s, mid) && SaveFrom(mid) <= j + 1 && j < |mid.log|
    requires v < m.Size() && |m.log| == m.Size() && m.log[v] == s.log
    ensures mid.log[..j] == s.log || CanAccept(m, v, mid.log[..j])
  {
    var from := SaveFrom(mid);
    assert s.log[..|s.log|] == s.log;
    if CanAccept(m, v, mid.log) && mid.log != s.log {
      if from - 1 == |s.log| {
        assert s.log <= mid.log[..j];
      } else {
        assert ConflictAt(m, v, from - 1);
      }
    }
  }

  lemma TornGrew(l: Ledger, m: Ledger, k: Ledger, v: nat, s: Core, mid: Core, disk: Durable)
    requires Inv(l) && Grew(l, m, v) && Grew(m, k, v)
    requires DiskTie(l, v, Saved(s)) && DiskTie(m, v, Saved(mid).(log := s.log)) && DiskTie(k, v, Saved(mid))
    requires LogSource(m, v, s, mid) && Reported(s, mid) && TornShape(Saved(s), Saved(mid), SaveFrom(mid), disk)
    ensures var r := if disk == Saved(mid) then k
                     else if disk.term == mid.term && disk.votedFor == mid.votedFor then AcceptRecord(m, v, disk.log)
                     else l;
            Grew(l, r, v) && DiskTie(r, v, disk)
  {
    if disk == Saved(mid) {
      GrewTransitive(l, m, k, v);
    } else if disk.term == mid.term && disk.votedFor == mid.votedFor {
      TornLog(m, v, s, mid, disk);
      AcceptGrew(m, v, disk.log, Saved(mid).(log := s.log));
      GrewTransitive(l, m, AcceptRecord(m, v, disk.log), v);
    } else {
      GrewSelf(l, v);
    }
  }

  lemma TornLog(m: Ledger, v: nat, s: Core, mid: Core, disk: Durable)
    requires LogSource(m, v, s, mid) && Reported(s, mid) && TornShape(Saved(s), Saved(mid), SaveFrom(mid), disk)
    requires v < m.Size() && |m.log| == m.Size() && m.log[v] == s.log && disk != Saved(mid)
    ensures disk.log == s.log || CanAccept(m, v, disk.log)
  {
    if disk.log != s.log {
      var j: nat :| CutShape(Saved(mid), SaveFrom(mid), disk, j);
      assert mid.log[..|mid.log|] == mid.log;
      CutAllowed(m, v, s, mid, j);
    }
  }

  /** A crash in the middle of a save, after any number of its records. */
  lemma TearKeeps(l: Ledger, v: nat, s: Core, i: Input, mid: Core, k: nat)
    requires Inv(l) && CoreTie(l, v, s) && Quiet(s) && Allowed(s, i) && InputTie(l, v, i) && mid == Handle(s, i)
    ensures !mid.stopped && Follows(Saved(s), Saved(mid), SaveFrom(mid))
    ensures var disk := TornDisk(s, mid, k);
            var m := TearRecord(l, v, s, i, mid, disk);
            Grew(l, m, v) && DiskTie(m, v, disk)
  {
    HandleKeeps(l, v, s, i);
    HandleReports(s, i);
    HandleSource(l, v, s, i);
    TearAll(l, v, s, i, mid, k);
  }

  lemma TearAll(l: Ledger, v: nat, s: Core, i: Input, mid: Core, k: nat)
    requires Inv(l) && DiskTie(l, v, Saved(s)) && Fits(s) && Staged(l, v, s, i, mid)
    requires LogSource(MetaRecord(l, v, s, i), v, s, mid) && Reported(s, mid)
    ensures Follows(Saved(s), Saved(mid), SaveFrom(mid))
    ensures var disk := TornDisk(s, mid, k);
            var m := TearRecord(l, v, s, i, mid, disk);
            Grew(l, m, v) && DiskTie(m, v, disk)
  {
    var m := MetaRecord(l, v, s, i);
    var r := LogRecord(m, v, s, i, mid);
    GrewTransitive(l, m, r, v);
    StepFollows(l, r, v, s, mid);
    TornShapes(s, mid, k);
    TornGrew(l, m, r, v, s, mid, TornDisk(s, mid, k));
  }
}
