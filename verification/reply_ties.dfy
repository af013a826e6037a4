/** Replies, clients' commands and reads, and a leader's timers: the inputs that input_ties.dfy
    leaves, and every input together. */
module ReplyTies {
  import opened RaftTypes
  import opened RaftCore
  import opened Ledgers
  import opened ReplicaTie
  import opened HandlerTies
  import opened LeaderTies
  import opened RaftGroup
  import opened InputTies

  ghost predicate Kept(l: Ledger, v: nat, s: Core, i: Input, mid: Core) {
    v < l.Size() && |l.log| == l.Size() && Fits(s) && Staged(l, v, s, i, mid) && InputKept(l, v, s, i, mid)
  }

  /** A step that changes nothing durable. */
  lemma QuietStep(l: Ledger, v: nat, s: Core, i: Input, mid: Core)
    requires Inv(l) && v < l.Size() && Fits(s) && mid.log == s.log && CoreTie(l, v, mid)
    requires MetaRecord(l, v, s, i) == l && LogRecord(l, v, s, i, mid) == l && InputRecord(l, v, s, i, mid) == l
    requires CallsTie(l, v, s, mid) && Replies(v, s, i) == {}
    ensures Kept(l, v, s, i, mid)
  {
    GrewSelf(l, v);
    OneStage(l, v, s, i, mid, l);
  }

  /** A step that ends in calls to some peers. */
  lemma SendsCalls(l: Ledger, v: nat, s: Core, s1: Core, ps: seq<nat>)
    requires CoreTie(l, v, s1) && s1.role == Leader && s1.out == [] && s1.number == s.number && Peers(v, s1.size, ps)
    ensures var mid := SendList(s1, ps);
            && CoreTie(l, v, mid) && CallsTie(l, v, s, mid)
            && mid == s1.(number := mid.number, out := mid.out)
  {
    SendListTie(l, v, s1, ps);
  }

  // ---- a newer term in a reply ----

  lemma MetStep(l: Ledger, v: nat, s: Core, i: Input, term: nat)
    requires Inv(l) && CoreTie(l, v, s) && s.out == [] && term > s.term
    requires MetaRecord(l, v, s, i) == FollowRecord(l, v, s, term) && Replies(v, s, i) == {}
    requires i.GetVoteReply? || i.GetAppendReply?
    ensures Kept(l, v, s, i, Met(s, term))
  {
    MetKeeps(l, v, s, term);
    FollowFields(s, term, NOBODY);
    OneStage(l, v, s, i, Met(s, term), FollowRecord(l, v, s, term));
  }

  // ---- votes counted ----

  /** The vote counts: the candidate asked for it in the term it is still in. */
  predicate Counts(s: Core, asked: VoteRequest, voted: VoteReply) {
    s.role == Candidate && asked.term == s.term && voted.term == s.term && voted.granted
  }

  lemma WinFields(s: Core)
    requires Fits(s)
    ensures var r := BecomeLeader(s);
            && r.role == Leader && r.votes == s.votes && r.term == s.term && r.votedFor == s.votedFor
  {
    SendFields(Crown(s), Others(s.id, s.size));
  }

  lemma WinStep(l: Ledger, v: nat, s: Core, s1: Core, i: Input, mid: Core, f: Ledger)
    requires Inv(l) && CoreTie(l, v, s) && s.role == Candidate && s1 == s.(votes := s1.votes) && Fits(s1)
    requires mid == BecomeLeader(s1) && f == CrownRecord(l, v, s1) && MetaRecord(l, v, s, i) == l && i.GetVoteReply?
    requires Grew(l, f, v) && CoreTie(f, v, mid) && CallsTie(f, v, s1, mid)
    ensures Kept(l, v, s, i, mid)
  {
    WinFields(s1);
    GrewSelf(l, v);
    CoreDisk(f, v, mid);
    TwoStage(l, v, s, i, mid, l, f, f);
  }

  lemma CountStep(l: Ledger, v: nat, s: Core, s1: Core, from: nat, asked: VoteRequest, voted: VoteReply)
    requires Inv(l) && CoreTie(l, v, s) && s.out == [] && from < s.size
    requires InputTie(l, v, GetVoteReply(from, asked, voted)) && Counts(s, asked, voted)
    requires s1 == s.(votes := s.votes[from := true])
    ensures Kept(l, v, s, GetVoteReply(from, asked, voted), if Most(Count(s1.votes), s.size) then BecomeLeader(s1)
                 else s1)
  {
    CountVote(l, v, s, from);
    if Most(Count(s1.votes), s.size) {
      Victory(l, v, s1);
      WinStep(l, v, s, s1, GetVoteReply(from, asked, voted), BecomeLeader(s1), CrownRecord(l, v, s1));
    } else {
      QuietStep(l, v, s, GetVoteReply(from, asked, voted), s1);
    }
  }

  lemma VoteReplyKeeps(l: Ledger, v: nat, s: Core, from: nat, asked: VoteRequest, voted: VoteReply)
    requires Inv(l) && CoreTie(l, v, s) && s.out == [] && from < s.size
    requires InputTie(l, v, GetVoteReply(from, asked, voted))
    ensures Kept(l, v, s, GetVoteReply(from, asked, voted), OnVoteReply(s, from, asked, voted))
  {
    var i := GetVoteReply(from, asked, voted);
    if voted.term > s.term {
      MetStep(l, v, s, i, voted.term);
    } else if Counts(s, asked, voted) {
      CountStep(l, v, s, s.(votes := s.votes[from := true]), from, asked, voted);
    } else {
      QuietStep(l, v, s, i, s);
    }
  }

  // ---- replication replies ----

  /** A leader's slots and reads after a reply in its own term. */
  function Heard(s: Core, from: nat, pushed: AppendRequest, appended: AppendReply): (r: Core)
    requires Fits(s) && from < s.size
    ensures Kin(s, r)
  {
    var s1 := Bookkeep(s, from, pushed, appended);
    s1.(pending := Confirm(s1.pending, from, pushed.number))
  }

  lemma HeardTie(l: Ledger, v: nat, s: Core, from: nat, pushed: AppendRequest, appended: AppendReply)
    requires CoreTie(l, v, s) && s.role == Leader && from < s.size && pushed.term == s.term
    requires AnswerTie(l, Appended(from, pushed, appended))
    ensures var r := Heard(s, from, pushed, appended);
            && CoreTie(l, v, r)
            && r == s.(next := r.next, matched := r.matched, pending := r.pending)
  {
    BookkeepTie(l, v, s, from, pushed, appended);
    QuietTie(l, v, Bookkeep(s, from, pushed, appended), Heard(s, from, pushed, appended));
  }

  lemma ResendCalls(l: Ledger, v: nat, s: Core, s1: Core, p: nat)
    requires CoreTie(l, v, s1) && s1.role == Leader && s1.out == [] && s1.number == s.number && p < s1.size && p != v
    ensures CoreTie(l, v, SendAppend(s1, p)) && CallsTie(l, v, s, SendAppend(s1, p))
  {
    SendTie(l, v, s1, p);
    NextCallTie(l, v, s1, p);
  }

  lemma AppendReplyKeeps(l: Ledger, v: nat, s: Core, from: nat, pushed: AppendRequest, appended: AppendReply,
                         resend: bool)
    requires Inv(l) && CoreTie(l, v, s) && s.out == [] && from < s.size && from != s.id
    requires InputTie(l, v, GetAppendReply(from, pushed, appended, resend))
    ensures Kept(l, v, s, GetAppendReply(from, pushed, appended, resend),
                 OnAppendReply(s, from, pushed, appended, resend))
  {
    var i := GetAppendReply(from, pushed, appended, resend);
    if appended.term > s.term {
      MetStep(l, v, s, i, appended.term);
    } else if s.role != Leader || pushed.term != s.term || appended.term != s.term {
      QuietStep(l, v, s, i, s);
    } else {
      HeardTie(l, v, s, from, pushed, appended);
      var r := Heard(s, from, pushed, appended);
      if resend {
        ResendCalls(l, v, s, r, from);
        QuietStep(l, v, s, i, SendAppend(r, from));
      } else {
        QuietStep(l, v, s, i, r);
      }
    }
  }

  // ---- clients and timers ----

  lemma ProposeStep(l: Ledger, f: Ledger, v: nat, s: Core, command: string, to: seq<nat>, mid: Core)
    requires Inv(l) && CoreTie(l, v, s) && s.role == Leader && CanLengthen(l, v) && f == Lengthen(l, v, command)
    requires mid.role == Leader && mid.term == s.term && mid.votedFor == s.votedFor
    requires Grew(l, f, v) && CoreTie(f, v, mid) && CallsTie(f, v, s, mid)
    ensures Kept(l, v, s, Propose(command, to), mid)
  {
    GrewSelf(l, v);
    CoreDisk(f, v, mid);
    TwoStage(l, v, s, Propose(command, to), mid, l, f, f);
  }

  lemma ProposeKeeps(l: Ledger, v: nat, s: Core, command: string, to: seq<nat>)
    requires Inv(l) && CoreTie(l, v, s) && s.out == [] && s.role == Leader && Peers(v, s.size, to)
    ensures Kept(l, v, s, Propose(command, to), OnPropose(s, command, to))
  {
    var f := Lengthen(l, v, command);
    ProposeGrew(l, v, s, command);
    ProposeTie(l, v, s, command);
    SendsCalls(f, v, s, Lengthened(s, command), to);
    ProposeStep(l, f, v, s, command, to, OnPropose(s, command, to));
  }

  lemma ReadKeeps(l: Ledger, v: nat, s: Core, id: nat, to: seq<nat>)
    requires Inv(l) && CoreTie(l, v, s) && s.out == [] && s.role == Leader && Peers(v, s.size, to)
    ensures Kept(l, v, s, Read(id, to), OnRead(s, id, to))
  {
    var s1 := s.(pending := s.pending + [NewRead(s, id)]);
    QuietTie(l, v, s, s1);
    SendsCalls(l, v, s, s1, to);
    QuietStep(l, v, s, Read(id, to), OnRead(s, id, to));
  }

  lemma HeartbeatKeeps(l: Ledger, v: nat, s: Core, to: seq<nat>)
    requires Inv(l) && CoreTie(l, v, s) && s.out == [] && Peers(v, s.size, to) && (to != [] ==> s.role == Leader)
    ensures Kept(l, v, s, Heartbeat(to), SendList(s, to))
  {
    if to != [] {
      SendsCalls(l, v, s, s, to);
    }
    QuietStep(l, v, s, Heartbeat(to), SendList(s, to));
  }

  lemma StepDownKeeps(l: Ledger, v: nat, s: Core)
    requires Inv(l) && CoreTie(l, v, s) && s.out == [] && s.role == Leader
    ensures Kept(l, v, s, StepDown, BecomeFollower(s, s.term, NOBODY))
  {
    FollowKeeps(l, v, s, s.term, NOBODY);
    FollowFields(s, s.term, NOBODY);
    QuietStep(l, v, s, StepDown, BecomeFollower(s, s.term, NOBODY));
  }

  /** Whatever a replica is given in a reachable state, it handles without stopping, and the record,
      its state, its calls and its reply stay true to each other. */
  lemma HandleKeeps(l: Ledger, v: nat, s: Core, i: Input)
    requires Inv(l) && CoreTie(l, v, s) && s.out == [] && Allowed(s, i) && InputTie(l, v, i)
    ensures Kept(l, v, s, i, Handle(s, i)) && !Handle(s, i).stopped
  {
    match i
    case Timeout => TimeoutKeeps(l, v, s);
    case StepDown => StepDownKeeps(l, v, s);
    case Heartbeat(to) => HeartbeatKeeps(l, v, s, to);
    case GetVote(ask) => GetVoteKeeps(l, v, s, ask);
    case GetAppend(push) =>
      if Refused(s, push) {
        RefusedKeeps(l, v, s, push);
      } else {
        TakenKeeps(l, v, s, push);
      }
    case GetVoteReply(from, asked, voted) => VoteReplyKeeps(l, v, s, from, asked, voted);
    case GetAppendReply(from, pushed, appended, resend) => AppendReplyKeeps(l, v, s, from, pushed, appended, resend);
    case Propose(command, to) => ProposeKeeps(l, v, s, command, to);
    case Read(id, to) => ReadKeeps(l, v, s, id, to);
  }
}
