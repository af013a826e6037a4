/** Every input, in any state the group can reach: the record grows soundly, in the order the save
    writes it, and the replica, its calls and its reply are true of the record. */
module InputTies {
  import opened RaftTypes
  import opened RaftCore
  import opened Ledgers
  import opened ReplicaTie
  import opened HandlerTies
  import opened AppendTie
  import opened LeaderTies
  import opened RaftGroup

  /** Between steps a replica has nothing unsaved and nothing unsent. */
  predicate Quiet(s: Core) {
    !s.dirty && s.dirtyFrom == 0 && s.out == [] && s.results == []
  }

  /** Term and vote first, then the log: what the disk holds at each stage matches the record. */
  ghost predicate Staged(l: Ledger, v: nat, s: Core, i: Input, mid: Core)
    requires v < l.Size() && |l.log| == l.Size() && Fits(s)
  {
    var m := MetaRecord(l, v, s, i);
    var k := LogRecord(m, v, s, i, mid);
    && Grew(l, m, v) && DiskTie(m, v, Durable(mid.term, mid.votedFor, s.log))
    && Grew(m, k, v) && DiskTie(k, v, Saved(mid))
  }

  ghost predicate CallsTie(l: Ledger, v: nat, s: Core, mid: Core) {
    forall c | c in mid.out :: CallTie(l, c) && CallOf(c, v, s, mid)
  }

  /** A new APPEND is this leader's, in this term, with a number not used before. */
  predicate CallOf(c: Outgoing, v: nat, s: Core, mid: Core) {
    c.Push? ==> c.append.leader == v && c.append.term == mid.term && s.number < c.append.number <= mid.number
  }

  ghost predicate RepliesTie(l: Ledger, v: nat, s: Core, i: Input)
    requires Fits(s)
  {
    forall a | a in Replies(v, s, i) :: AnswerTie(l, a) && (a.Appended? ==> a.append.term == l.term[v])
  }

  ghost predicate InputKept(l: Ledger, v: nat, s: Core, i: Input, mid: Core)
    requires v < l.Size() && |l.log| == l.Size() && Fits(s)
  {
    var m := InputRecord(l, v, s, i, mid);
    Grew(l, m, v) && CoreTie(m, v, mid) && CallsTie(m, v, s, mid) && RepliesTie(m, v, s, i)
  }

  ghost predicate InputTie(l: Ledger, v: nat, i: Input) {
    match i
    case GetVote(ask) => CallTie(l, Ask(v, ask))
    case GetAppend(push) => CallTie(l, Push(v, push))
    case GetVoteReply(from, asked, voted) => asked.candidate == v && AnswerTie(l, Voted(from, asked, voted))
    case GetAppendReply(from, pushed, appended, _) =>
        pushed.leader == v && AnswerTie(l, Appended(from, pushed, appended))
    case _ => true
  }

  // ---- standing ----

  lemma OneVote(id: nat, size: nat)
    requires id < size
    ensures Count(Only(id, size)) == 1
  {
    var bits := Only(id, size);
    CountIsSize(bits);
    assert Trues(bits) == {id};
  }

  lemma CrownCalls(l: Ledger, v: nat, s: Core)
    requires Fits(s) && s.id == v && s.out == [] && CoreTie(l, v, Crown(s))
    ensures CoreTie(l, v, BecomeLeader(s)) && CallsTie(l, v, s, BecomeLeader(s))
  {
    SendListTie(l, v, Crown(s), Others(s.id, s.size));
  }

  /** A candidate with a majority: the record of its victory, and the calls it makes. */
  lemma Victory(l: Ledger, v: nat, s: Core)
    requires Inv(l) && CoreTie(l, v, s) && s.role == Candidate && s.out == [] && Most(Count(s.votes), s.size)
    ensures var m := CrownRecord(l, v, s);
            Grew(l, m, v) && CoreTie(m, v, BecomeLeader(s)) && CallsTie(m, v, s, BecomeLeader(s))
  {
    CrownGrew(l, v, s);
    CrownTie(l, v, s);
    CrownCalls(CrownRecord(l, v, s), v, s);
  }

  lemma CandidacyAsks(l: Ledger, v: nat, s: Core)
    requires Fits(s) && s.id == v && s.out == [] && !Most(1, s.size) && CoreTie(l, v, Candidacy(s))
    ensures CoreTie(l, v, StartElection(s)) && CallsTie(l, v, s, StartElection(s))
  {
    var c := Candidacy(s);
    AskTies(l, v, c, Others(s.id, s.size));
    QuietTie(l, v, c, StartElection(s));
  }

  lemma CandidacyWins(l: Ledger, v: nat, s: Core)
    requires Inv(l) && Fits(s) && s.id == v && s.out == [] && Most(1, s.size) && CoreTie(l, v, Candidacy(s))
    ensures var m := CrownRecord(l, v, Candidacy(s));
            Grew(l, m, v) && CoreTie(m, v, StartElection(s)) && CallsTie(m, v, s, StartElection(s))
  {
    OneVote(s.id, s.size);
    Victory(l, v, Candidacy(s));
  }

  lemma CoreDisk(l: Ledger, v: nat, s: Core)
    requires CoreTie(l, v, s)
    ensures DiskTie(l, v, Saved(s))
  {
  }

  lemma StandStages(l: Ledger, v: nat, s: Core)
    requires Inv(l) && CoreTie(l, v, s)
    ensures Grew(l, Stand(l, v), v) && CoreTie(Stand(l, v), v, Candidacy(s))
  {
    StandGrew(l, v);
    StandTie(l, v, s);
  }

  lemma TimeoutFields(s: Core)
    requires Fits(s)
    ensures var r := StartElection(s);
            && r.term == s.term + 1 && r.votedFor == s.id
            && (Most(1, s.size) ==> r.role == Leader && r.votes == Candidacy(s).votes)
            && (!Most(1, s.size) ==> r.role == Candidate && r.log == s.log)
  {
    if Most(1, s.size) {
      SendFields(Crown(Candidacy(s)), Others(s.id, s.size));
    }
  }

  lemma {:induction false} SendFields(s: Core, ps: seq<nat>)
    requires Fits(s) && Peers(s.id, s.size, ps)
    ensures var r := SendList(s, ps); r == s.(number := r.number, out := r.out)
  {
    if ps != [] {
      SendFields(s, ps[..|ps| - 1]);
    }
  }

  lemma TimeoutKeeps(l: Ledger, v: nat, s: Core)
    requires Inv(l) && CoreTie(l, v, s) && s.role != Leader && s.out == []
    ensures Staged(l, v, s, Timeout, StartElection(s)) && InputKept(l, v, s, Timeout, StartElection(s))
  {
    var m := Stand(l, v);
    var mid := StartElection(s);
    StandStages(l, v, s);
    TimeoutFields(s);
    if Most(1, s.size) {
      CandidacyWins(m, v, s);
      GrewTransitive(l, m, CrownRecord(m, v, Candidacy(s)), v);
    } else {
      CandidacyAsks(m, v, s);
      GrewSelf(m, v);
    }
  }

  // ---- votes asked for ----

  lemma MetKeeps(l: Ledger, v: nat, s: Core, term: nat)
    requires Inv(l) && CoreTie(l, v, s)
    ensures Grew(l, FollowRecord(l, v, s, term), v) && CoreTie(FollowRecord(l, v, s, term), v, Met(s, term))
  {
    if term > s.term {
      FollowKeeps(l, v, s, term, NOBODY);
    } else {
      GrewSelf(l, v);
    }
  }

  lemma MetFields(s: Core, term: nat)
    requires Fits(s) && (s.role != Leader ==> s.pending == [])
    ensures var r := Met(s, term);
            && r.log == s.log && r.out == s.out && r.number == s.number
            && (r.role == s.role || r.role == Follower)
            && r.term == Max(s.term, term)
  {
  }

  lemma CastKeeps(l: Ledger, v: nat, s: Core, ask: VoteRequest)
    requires Inv(l) && CoreTie(l, v, s) && CallTie(l, Ask(v, ask))
    ensures var m := CastRecord(l, v, s, ask);
            && Grew(l, m, v) && CoreTie(m, v, CastVote(s, ask).0)
            && AnswerTie(m, Voted(v, ask, CastVote(s, ask).1))
  {
    if CastVote(s, ask).1.granted {
      VoteGrew(l, v, s, ask);
      VoteCast(l, v, s, ask.candidate);
    } else {
      GrewSelf(l, v);
    }
  }

  lemma VoteMeets(l: Ledger, v: nat, s: Core, ask: VoteRequest)
    requires Inv(l) && CoreTie(l, v, s) && CallTie(l, Ask(v, ask))
    ensures var m := CastRecord(FollowRecord(l, v, s, ask.term), v, Met(s, ask.term), ask);
            && Grew(l, m, v) && CoreTie(m, v, OnVote(s, ask).0)
            && AnswerTie(m, Voted(v, ask, OnVote(s, ask).1))
  {
    var m, s1 := FollowRecord(l, v, s, ask.term), Met(s, ask.term);
    MetKeeps(l, v, s, ask.term);
    CallStays(l, m, Ask(v, ask));
    CastKeeps(m, v, s1, ask);
    GrewTransitive(l, m, CastRecord(m, v, s1, ask), v);
  }

  lemma VoteFields(s: Core, ask: VoteRequest)
    requires Fits(s) && (s.role != Leader ==> s.pending == [])
    ensures var r := OnVote(s, ask).0;
            r.log == s.log && r.out == s.out && (r.role == s.role || r.role == Follower)
  {
    MetFields(s, ask.term);
  }

  lemma GetVoteRecord(l: Ledger, v: nat, s: Core, ask: VoteRequest)
    requires v < l.Size() && |l.log| == l.Size() && Fits(s) && (s.role != Leader ==> s.pending == [])
    ensures var i := GetVote(ask);
            var m := CastRecord(FollowRecord(l, v, s, ask.term), v, Met(s, ask.term), ask);
            && MetaRecord(l, v, s, i) == m && LogRecord(m, v, s, i, OnVote(s, ask).0) == m
            && InputRecord(l, v, s, i, OnVote(s, ask).0) == m
  {
    VoteFields(s, ask);
  }

  /** A step that writes no log entry: its record is made in one stage. */
  lemma OneStage(l: Ledger, v: nat, s: Core, i: Input, mid: Core, m: Ledger)
    requires v < l.Size() && |l.log| == l.Size() && Fits(s)
    requires MetaRecord(l, v, s, i) == m && LogRecord(m, v, s, i, mid) == m && InputRecord(l, v, s, i, mid) == m
    requires mid.log == s.log && Grew(l, m, v) && CoreTie(m, v, mid)
    requires CallsTie(m, v, s, mid) && RepliesTie(m, v, s, i)
    ensures Staged(l, v, s, i, mid) && InputKept(l, v, s, i, mid)
  {
    GrewSelf(m, v);
  }

  lemma GetVoteKeeps(l: Ledger, v: nat, s: Core, ask: VoteRequest)
    requires Inv(l) && CoreTie(l, v, s) && s.out == [] && CallTie(l, Ask(v, ask))
    ensures Staged(l, v, s, GetVote(ask), OnVote(s, ask).0)
    ensures InputKept(l, v, s, GetVote(ask), OnVote(s, ask).0)
  {
    VoteMeets(l, v, s, ask);
    VoteFields(s, ask);
    GetVoteRecord(l, v, s, ask);
    OneStage(l, v, s, GetVote(ask), OnVote(s, ask).0,
             CastRecord(FollowRecord(l, v, s, ask.term), v, Met(s, ask.term), ask));
  }

  // ---- entries ----

  /** The leader's term adopted. */
  function Led(s: Core, push: AppendRequest): (r: Core)
    requires Fits(s)
    ensures Kin(s, r)
  {
    BecomeFollower(s, push.term, push.leader)
  }

  /** A call refused: the caller is deposed, or the logs do not meet at the entry it names. */
  predicate Refused(s: Core, push: AppendRequest) {
    push.term < s.term || push.prevIndex > |s.log| || TermAt(s.log, push.prevIndex) != push.prevTerm
  }

  lemma RefusedBranch(s: Core, push: AppendRequest)
    requires Fits(s) && Refused(s, push) && (s.role != Leader ==> s.pending == [])
    ensures OnAppend(s, push).0 == (if push.term < s.term then s else Led(s, push))
    ensures OnAppend(s, push).1.term == OnAppend(s, push).0.term && !OnAppend(s, push).1.success
  {
    if push.term >= s.term {
      FollowFields(s, push.term, push.leader);
    }
  }

  lemma TakenBranch(s: Core, push: AppendRequest, s1: Core, s2: Core, n: nat)
    requires Fits(s) && !Refused(s, push) && (s.role != Leader ==> s.pending == [])
    requires s1 == Led(s, push) && push.prevIndex <= |s1.log| && s2 == Absorb(s1, push.prevIndex, push.entries)
    requires n == push.prevIndex + |push.entries| && !s2.stopped
    ensures OnAppend(s, push) == (Committing(s2, push.commit, n), AppendReply(s2.term, true, n))
  {
    FollowFields(s, push.term, push.leader);
  }

  lemma RefusedRecord(l: Ledger, v: nat, s: Core, push: AppendRequest)
    requires DiskTie(l, v, Saved(s)) && Fits(s) && Refused(s, push) && (s.role != Leader ==> s.pending == [])
    ensures var i, mid := GetAppend(push), OnAppend(s, push).0;
            var m := FollowRecord(l, v, s, push.term);
            && MetaRecord(l, v, s, i) == m && LogRecord(m, v, s, i, mid) == m && InputRecord(l, v, s, i, mid) == m
            && mid.log == s.log && mid.out == s.out
  {
    RefusedBranch(s, push);
    if push.term >= s.term {
      FollowFields(s, push.term, push.leader);
    }
  }

  lemma RefusedKeeps(l: Ledger, v: nat, s: Core, push: AppendRequest)
    requires Inv(l) && CoreTie(l, v, s) && s.out == [] && CallTie(l, Push(v, push)) && Refused(s, push)
    ensures Staged(l, v, s, GetAppend(push), OnAppend(s, push).0)
    ensures InputKept(l, v, s, GetAppend(push), OnAppend(s, push).0)
  {
    var m := FollowRecord(l, v, s, push.term);
    if push.term >= s.term {
      FollowKeeps(l, v, s, push.term, push.leader);
    } else {
      GrewSelf(l, v);
    }
    RefusedBranch(s, push);
    RefusedRecord(l, v, s, push);
    CallStays(l, m, Push(v, push));
    OneStage(l, v, s, GetAppend(push), OnAppend(s, push).0, m);
  }

  lemma TakenRecord(l: Ledger, m: Ledger, f: Ledger, v: nat, s: Core, push: AppendRequest, log: seq<Entry>, n: nat,
                    mid: Core)
    requires DiskTie(l, v, Saved(s)) && Fits(s)
    requires m == FollowRecord(l, v, s, push.term) && f == AppendRecord(m, v, log, n)
    requires n == push.prevIndex + |push.entries|
    requires (s.role != Leader ==> s.pending == [])
    requires push.term >= s.term && mid.log == log && mid.role == Follower && OnAppend(s, push).1.success
    ensures var i := GetAppend(push);
            && MetaRecord(l, v, s, i) == m && LogRecord(m, v, s, i, mid) == AcceptRecord(m, v, log)
            && InputRecord(l, v, s, i, mid) == f
  {
    TakenStages(l, m, v, s, push, log, mid);
    TakenAck(AcceptRecord(m, v, log), v, s, push, n);
  }

  lemma TakenStages(l: Ledger, m: Ledger, v: nat, s: Core, push: AppendRequest, log: seq<Entry>, mid: Core)
    requires DiskTie(l, v, Saved(s)) && Fits(s) && m == FollowRecord(l, v, s, push.term) && mid.log == log
    requires mid.role == Follower
    ensures var i := GetAppend(push);
            MetaRecord(l, v, s, i) == m && LogRecord(m, v, s, i, mid) == AcceptRecord(m, v, log)
  {
  }

  lemma TakenAck(k: Ledger, v: nat, s: Core, push: AppendRequest, n: nat)
    requires v < k.Size() && Fits(s) && OnAppend(s, push).1.success && n == push.prevIndex + |push.entries|
    ensures AckRecord(k, v, s, GetAppend(push)) == Match(k, v, n)
  {
  }

  /** The follower after a call's entries and commit index, against the record after them. */
  ghost predicate TakenTie(l: Ledger, f: Ledger, v: nat, s: Core, s2: Core, push: AppendRequest, n: nat) {
    && s2 == s.(log := s2.log, dirty := s2.dirty, dirtyFrom := s2.dirtyFrom)
    && Joined(l, v, s2.log, n) && f == AppendRecord(l, v, s2.log, n)
    && Grew(l, f, v) && Acked(f, v, s.term, n) && CoreTie(f, v, Committing(s2, push.commit, n))
  }

  lemma TakenGrew(l: Ledger, f: Ledger, v: nat, s: Core, s2: Core, push: AppendRequest, n: nat)
    requires Inv(l) && CoreTie(l, v, s) && s.role == Follower && s.term == push.term && push.term in l.reign
    requires Settled(l, l.reign[push.term].log, push.commit, push.term)
    requires s2 == s.(log := s2.log, dirty := s2.dirty, dirtyFrom := s2.dirtyFrom)
    requires Joined(l, v, s2.log, n) && f == AppendRecord(l, v, s2.log, n)
    ensures TakenTie(l, f, v, s, s2, push, n)
  {
    JoinKeeps(l, v, s, s2, push, n);
  }

  /** A call taken: the follower's log after it joins its leader's. */
  lemma TakenJoins(l: Ledger, v: nat, s: Core, push: AppendRequest, k: nat)
    requires Inv(l) && CoreTie(l, v, s) && s.term == push.term && CallTie(l, Push(v, push))
    requires push.prevIndex <= |s.log| && TermAt(s.log, push.prevIndex) == push.prevTerm
    requires IsFirstNew(s.log, push.prevIndex, push.entries, k)
    ensures var s2 := AbsorbAt(s, push.prevIndex, push.entries, k);
            && s2 == s.(log := s2.log, dirty := s2.dirty, dirtyFrom := s2.dirtyFrom)
            && Joined(l, v, s2.log, push.prevIndex + |push.entries|)
  {
    AppendJoins(l, v, s, push, k);
    AbsorbFields(s, push.prevIndex, push.entries, k);
  }

  lemma AcceptGrew(l: Ledger, v: nat, log: seq<Entry>, d: Durable)
    requires Inv(l) && DiskTie(l, v, d) && (log == l.log[v] || CanAccept(l, v, log))
    ensures Grew(l, AcceptRecord(l, v, log), v) && DiskTie(AcceptRecord(l, v, log), v, d.(log := log))
  {
    if log == l.log[v] {
      GrewSelf(l, v);
    } else {
      AcceptKeeps(l, v, log);
      AcceptOnlyBy(l, v, log);
    }
  }

  /** A step that writes log entries: its record is made in two stages. */
  lemma TwoStage(l: Ledger, v: nat, s: Core, i: Input, mid: Core, m: Ledger, k: Ledger, f: Ledger)
    requires v < l.Size() && |l.log| == l.Size() && Fits(s)
    requires MetaRecord(l, v, s, i) == m && LogRecord(m, v, s, i, mid) == k && InputRecord(l, v, s, i, mid) == f
    requires Grew(l, m, v) && DiskTie(m, v, Durable(mid.term, mid.votedFor, s.log))
    requires Grew(m, k, v) && DiskTie(k, v, Saved(mid))
    requires Grew(l, f, v) && CoreTie(f, v, mid) && CallsTie(f, v, s, mid) && RepliesTie(f, v, s, i)
    ensures Staged(l, v, s, i, mid) && InputKept(l, v, s, i, mid)
  {
  }

  lemma TakenReply(l: Ledger, v: nat, s: Core, push: AppendRequest, n: nat)
    requires Fits(s) && CallTie(l, Push(v, push)) && Acked(l, v, push.term, n) && n == push.prevIndex + |push.entries|
    requires OnAppend(s, push).1 == AppendReply(push.term, true, n) && l.term[v] == push.term
    ensures RepliesTie(l, v, s, GetAppend(push))
  {
  }

  /** The follower in its leader's term, and what the call makes of it. */
  lemma TakenLed(l: Ledger, m: Ledger, v: nat, s: Core, s1: Core, push: AppendRequest)
    requires Inv(l) && CoreTie(l, v, s) && CallTie(l, Push(v, push)) && push.term >= s.term
    requires m == FollowRecord(l, v, s, push.term) && s1 == Led(s, push)
    ensures Grew(l, m, v) && CoreTie(m, v, s1) && CallTie(m, Push(v, push))
    ensures s1.log == s.log && s1.term == push.term && s1.role == Follower && s1.out == s.out
  {
    FollowKeeps(l, v, s, push.term, push.leader);
    CallStays(l, m, Push(v, push));
    FollowFields(s, push.term, push.leader);
  }

  lemma TakenAll(m: Ledger, v: nat, s1: Core, push: AppendRequest, k: nat, n: nat)
    requires Inv(m) && CoreTie(m, v, s1) && s1.role == Follower && s1.term == push.term && CallTie(m, Push(v, push))
    requires push.prevIndex <= |s1.log| && TermAt(s1.log, push.prevIndex) == push.prevTerm
    requires IsFirstNew(s1.log, push.prevIndex, push.entries, k) && n == push.prevIndex + |push.entries|
    ensures var s2 := AbsorbAt(s1, push.prevIndex, push.entries, k);
            TakenTie(m, AppendRecord(m, v, s2.log, n), v, s1, s2, push, n)
  {
    TakenJoins(m, v, s1, push, k);
    var s2 := AbsorbAt(s1, push.prevIndex, push.entries, k);
    TakenGrew(m, AppendRecord(m, v, s2.log, n), v, s1, s2, push, n);
  }

  lemma TakenKeeps(l: Ledger, v: nat, s: Core, push: AppendRequest)
    requires Inv(l) && CoreTie(l, v, s) && s.out == [] && CallTie(l, Push(v, push)) && !Refused(s, push)
    ensures Staged(l, v, s, GetAppend(push), OnAppend(s, push).0) && !OnAppend(s, push).0.stopped
    ensures InputKept(l, v, s, GetAppend(push), OnAppend(s, push).0)
  {
    var m, s1, n := FollowRecord(l, v, s, push.term), Led(s, push), push.prevIndex + |push.entries|;
    TakenLed(l, m, v, s, s1, push);
    var k := FirstNew(s1.log, push.prevIndex, push.entries);
    TakenAll(m, v, s1, push, k, n);
    var s2 := AbsorbAt(s1, push.prevIndex, push.entries, k);
    TakenBranch(s, push, s1, s2, n);
    TakenStep(l, m, AppendRecord(m, v, s2.log, n), v, s, s1, s2, push, n, OnAppend(s, push).0);
  }

  /** The log a taken call leaves is one the follower may hold next. */
  lemma TakenLog(l: Ledger, m: Ledger, v: nat, s: Core, push: AppendRequest, n: nat, mid: Core)
    requires Inv(l) && CoreTie(l, v, s) && CallTie(l, Push(v, push)) && !Refused(s, push)
    requires m == FollowRecord(l, v, s, push.term) && n == push.prevIndex + |push.entries| && mid == OnAppend(s, push).0
    ensures Joined(m, v, mid.log, n)
  {
    var s1 := Led(s, push);
    TakenLed(l, m, v, s, s1, push);
    LedJoins(m, v, s, s1, push, n, mid);
  }

  lemma LedJoins(m: Ledger, v: nat, s: Core, s1: Core, push: AppendRequest, n: nat, mid: Core)
    requires Inv(m) && Fits(s) && CoreTie(m, v, s1) && s1.term == push.term && CallTie(m, Push(v, push))
    requires !Refused(s, push)
    requires (s.role != Leader ==> s.pending == []) && s1 == Led(s, push) && s1.log == s.log
    requires n == push.prevIndex + |push.entries| && mid == OnAppend(s, push).0
    ensures Joined(m, v, mid.log, n)
  {
    var k := FirstNew(s1.log, push.prevIndex, push.entries);
    TakenJoins(m, v, s1, push, k);
    BranchLog(s, push, s1, AbsorbAt(s1, push.prevIndex, push.entries, k), n);
  }

  lemma BranchLog(s: Core, push: AppendRequest, s1: Core, s2: Core, n: nat)
    requires Fits(s) && !Refused(s, push) && (s.role != Leader ==> s.pending == [])
    requires s1 == Led(s, push) && push.prevIndex <= |s1.log| && s2 == Absorb(s1, push.prevIndex, push.entries)
    requires n == push.prevIndex + |push.entries| && !s2.stopped
    ensures OnAppend(s, push).0.log == s2.log
  {
    TakenBranch(s, push, s1, s2, n);
  }

  lemma TakenStep(l: Ledger, m: Ledger, f: Ledger, v: nat, s: Core, s1: Core, s2: Core, push: AppendRequest, n: nat,
                  mid: Core)
    requires DiskTie(l, v, Saved(s)) && Fits(s) && s.out == [] && push.term >= s.term
    requires m == FollowRecord(l, v, s, push.term)
    requires s.role != Leader ==> s.pending == []
    requires Grew(l, m, v) && CallTie(m, Push(v, push)) && DiskTie(m, v, Saved(s1)) && s1.log == s.log
    requires s1.term == push.term && s1.out == [] && s1.role == Follower
    requires n == push.prevIndex + |push.entries| && TakenTie(m, f, v, s1, s2, push, n)
    requires OnAppend(s, push) == (Committing(s2, push.commit, n), AppendReply(s2.term, true, n))
    requires mid == Committing(s2, push.commit, n)
    ensures Staged(l, v, s, GetAppend(push), mid) && InputKept(l, v, s, GetAppend(push), mid)
  {
    TakenRecord(l, m, f, v, s, push, s2.log, n, mid);
    TakenReplies(m, f, v, s, s2.log, push, n);
    TakenEnds(l, m, f, v, s, s1, s2, push, n, GetAppend(push), mid);
  }

  lemma TakenEnds(l: Ledger, m: Ledger, f: Ledger, v: nat, s: Core, s1: Core, s2: Core, push: AppendRequest, n: nat,
                  i: Input, mid: Core)
    requires v < l.Size() && |l.log| == l.Size() && Fits(s)
    requires Grew(l, m, v) && DiskTie(m, v, Saved(s1)) && s1.log == s.log && s1.out == []
    requires TakenTie(m, f, v, s1, s2, push, n) && mid == Committing(s2, push.commit, n)
    requires MetaRecord(l, v, s, i) == m && LogRecord(m, v, s, i, mid) == AcceptRecord(m, v, s2.log)
    requires InputRecord(l, v, s, i, mid) == f && RepliesTie(f, v, s, i)
    ensures Staged(l, v, s, i, mid) && InputKept(l, v, s, i, mid)
  {
    AcceptGrew(m, v, s2.log, Saved(s1));
    GrewTransitive(l, m, f, v);
    TwoStage(l, v, s, i, mid, m, AcceptRecord(m, v, s2.log), f);
  }

  lemma TakenReplies(m: Ledger, f: Ledger, v: nat, s: Core, log: seq<Entry>, push: AppendRequest, n: nat)
    requires v < m.Size() && |m.log| == m.Size() && f == AppendRecord(m, v, log, n) && Extends(m, f)
    requires Fits(s) && CallTie(m, Push(v, push)) && Acked(f, v, push.term, n) && n == push.prevIndex + |push.entries|
    requires OnAppend(s, push).1 == AppendReply(push.term, true, n) && m.term[v] == push.term
    ensures RepliesTie(f, v, s, GetAppend(push))
  {
    CallStays(m, f, Push(v, push));
    AppendRecordFields(m, v, log, n);
    TakenReply(f, v, s, push, n);
  }
}
