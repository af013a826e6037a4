# chord-dht-filesystem, modelled and proved in Dafny

This project models the parts of the file system whose promises are about every run, every interleaving or every input,
and proves them with Dafny 4.11. `dafny verify --verification-time-limit 0 dfyconfig.toml` checks the whole of it.

What is modelled, by component:

- **The Raft group** (`src/raft.cpp`, `src/raft.h`, `src/replica.cpp`, `src/names.cpp`). `raft_core.dfy` says what each
  input does to one replica; `raft_replica.dfy` is the replica as an object whose handlers update its fields, save, and
  only then commit, apply, answer and send, and every handler is proved to compute the functions of `raft_core.dfy`.
  `raft_group.dfy` is the whole group: a network that may lose, repeat, delay and reorder every call and every answer
  (an answer always paired with its call), saves that tear after any record, crashes and restarts at any moment. Timers
  are open: any replica that does not lead may stand, any leader may send or step down. `ledger.dfy` is a ghost record of
  all that was ever made durable, and its invariant is the heart of the proof; the files named `..._tie(s).dfy` tie the
  replicas, calls and answers to it; `raft_theorems.dfy`, `name_theorems.dfy` and `machine_runs.dfy` (the state machine
  and the clients that wait on it) state what holds over every run; `raft_progress.dfy` states what the replies a leader
  gets make it do; `stale_match.dfy` and `commit_back.dfy` are runs that show what does not hold.
- **Its disk and its wire** (`src/raft_log.cpp`, `src/raft_wire.cpp`). `journal.dfy`, `log_records.dfy`, `log_file.dfy`
  and `file_storage.dfy` go from records to bytes; `disk_theorems.dfy` and `file_runs.dfy` carry each replica's file along
  with the group's run, and show that a crash at any byte of any save is a torn step of the group model. `wire.dfy`,
  `append_wire.dfy` and `wire_theorems.dfy` do the same for calls.
- **Chord routing and lookup** (`src/chord.cpp`, `src/lookup.cpp`): `chord.dfy`, `lookup.dfy`. Identifiers are numbers
  below 2^64 with modular distances.
- **Ring maintenance** (`src/stabilize.cpp`): `stabilize.dfy` (the steps and the invariant), `stabilize_runs.dfy` (every
  run of one member), `ring_repair.dfy` (finger repair and the fixed point), `ring_changes.dfy` (joins, failures and
  orphans), `member.dfy` (the member as an object).
- **Manifests and transfer** (`src/transfer.cpp`): `manifests.dfy`, `manifest_trees.dfy`, `tree_building.dfy`,
  `tree_round_trip.dfy`, `tree_order.dfy`, `worker_pool.dfy`, `transfer.dfy`.
- **The store and the collector** (`src/store.cpp`, `src/collect.cpp`): `store_runs.dfy`, `chunk_store.dfy`,
  `listing.dfy`, `paging.dfy`, `reachability.dfy`, `collector.dfy`, `collect_theorems.dfy`.

Conventions. Bytes and text are `string`. SHA-1 is any function from bytes to 40 hexadecimal characters (`Text.Digest`);
where content addressing needs it, a premise says that what was fetched is not other bytes with the same key. The
network, the clock, random timeouts and the outcomes of system calls are parameters or open choices. Numbers are unbounded unless a
parser or a width bounds them: the wire's and the log's numbers are below 10^18, a manifest's below 2^64.

Results worth knowing before reading further:

- The claim that a peer's durable log always agrees with the leader's up to its match index is false of a leader that has
  been deposed without knowing it. `StaleMatch.MatchOutdated` gives the run, and `RaftTheorems.Bookkeeping` the exact
  condition: the peer still has the leader's term at that index. It always holds of a peer in the leader's own term.
- A follower's commit index may move back (`src/raft.cpp:240`): `Reconciliation.CommitMovesBack` says exactly when, and
  `CommitBack.CommitMovesBackInRun` gives a run, which ends with a byte-limited call delivered twice. The proofs use the
  applied index and the record of commits instead.
- The store's promise that every indexed key has its file needs its premise: `StoreRuns.SlowPutLosesFile` shows a put
  lasting exactly as long as the grace that breaks it, and `StoreRuns.SlowPutForgotten` how a restart then forgets a chunk
  that was acknowledged; `StoreRuns.LostAtRestart` is the exact condition. The collector's inequality is tight to one tick
  (`CollectTheorems.GraceIsTight`), and the lookup's bound of 65 is reached (`Lookup.BoundIsTight`).
- For an arbitrary accepted tree the chunks are the exact pieces of the cut, each once. They are in file order exactly
  when no chunk's manifest lies deeper than that of a later part of the file (`TreeOrder.InFileOrder`), because manifests
  are read level by level; `TreeOrder.ChunksOutOfOrder` gives a tree that is not. One that `build_manifests` made is.
- The collector's theorem states the two timing premises that the code does not enforce: a DROP takes effect within the
  deadline of the listing's start (the code bounds when it is sent), and a registration takes effect within the upload
  limit and the tracker wait of the upload's start. All times are of one clock and one unit.

## Model

| member | source | states |
|---|---|---|
| RaftTheorems.RunSound | src/raft.cpp:51-459 | The group invariant (Sound) holds in every state of every run: any number of replicas, calls and answers lost, repeated, late or reordered, saves torn, crashes and restarts at any moment |
| RaftTheorems.RunLater | src/raft.cpp:390-416 | Along a run nothing durable, applied or asked is ever undone: the durable record only grows |
| RaftTheorems.StateMachineSafety | src/raft.cpp:418-423 | No two replicas, in any life, at any two moments of a run, hand different entries to the state machine at one index |
| RaftTheorems.NeverStops | src/raft.cpp:215-236 | The fail-stop on a conflicting committed entry is unreachable: no enabled input ever leaves a replica stopped |
| RaftTheorems.OneLeaderPerTerm | src/raft.cpp:103-186 | Two leaders of one term, at any two moments of a run, are the same replica, and its log has only grown in between |
| RaftTheorems.LogsMatch | src/raft.cpp:215-236 | Any two disks of a run that agree on the term at an index agree on everything up to it; terms along a disk's log never fall and never pass its current term |
| RaftTheorems.LeadersComplete | src/raft.cpp:127-174 | Whatever any replica has committed or applied is in the log of every leader of the same or a later term, at any later moment |
| RaftTheorems.AppliedAgree | src/raft.cpp:418-423 | What two replicas have applied agrees on the common prefix, at any two moments of a run |
| RaftTheorems.ReadsLinearizable | src/raft.cpp:366-379 | When a read is answered, it is answered at an index no lower than every entry that any replica had applied when the read arrived |
| RaftTheorems.ProposalsOrdered | src/raft.cpp:354-364 | If the entry applied at a proposal's index has its term, it is that proposal's command, and everything applied anywhere when it was proposed has a lower index |
| RaftTheorems.ProposalSlot | src/raft.cpp:354-364 | A proposal's place in the log is never given to another command of the same term |
| RaftTheorems.TornSavesReplay | src/raft.cpp:385-409 | Every save of every reachable step tells storage the right first changed index, so that replaying its batch on the old disk gives the new state |
| RaftTheorems.Bookkeeping | src/raft.cpp:249-276 | In every reachable leader state match < next <= last index + 1; a peer still in the leader's term agrees with it up to match; and a peer in any term does exactly when it still has the leader's term at match |
| StaleMatch.MatchOutdated | src/raft.cpp:249-276 | A run of five replicas after which a deposed leader's match for a peer is no longer true of that peer's disk: agreement up to match does not hold of every reachable leader |
| RaftTheorems.ReachablePairs | src/raft.cpp:204-213 | Every reachable leader and every running peer of its term or a lower one, whatever the peer's role, are a pair to which the reconciliation lemmas apply, and no probe can stop the peer |
| Reconciliation.MatchedProbeTaken | src/raft.cpp:204-236 | A probe at match + 1 is always taken |
| Reconciliation.FailureLowers | src/raft.cpp:249-276 | Each failure reply to the current probe strictly lowers next, never to match or below, and changes nothing else |
| Reconciliation.Failures | src/raft.cpp:249-276 | The number of failed probes before one is taken is less than next - match |
| Reconciliation.Reconciles | src/raft.cpp:297-320 | From any such pair, after that many failed probes the peer takes one, its log and the rest of the leader unchanged |
| RaftTheorems.ReconciliationEnds | src/raft.cpp:192-320 | In every reachable leader state and for any running peer: a peer of the leader's term or a lower one takes a probe after fewer than next - match failures; the reply of a peer in a newer term makes the leader step down |
| Reconciliation.CommitMovesBack | src/raft.cpp:239-240 | A call that is taken moves the follower's commit index back exactly when the leader's commit index is above it and the call's entries end below it |
| CommitBack.CommitMovesBackInRun | src/raft.cpp:239-240 | It does, in a run: for any byte limit and any command too long to share a call with another, five replicas reach a state in which a call of one entry, delivered to a follower a second time, takes its commit index from two to one; what it has applied stays applied |
| RaftProgress.CommitExact | src/raft.cpp:332-348 | A leader's commit index moves to the last index past it that is of the leader's own term and that a majority is known to hold, and stays if there is none |
| RaftProgress.ReadsSettled | src/raft.cpp:425-442 | At the end of a leader's step a waiting read is answered yes exactly if its index is known and applied and a majority has confirmed it; any other waits on with its confirmations as they were, its index set once the leader has committed in its own term; none is lost or answered twice |
| RaftProgress.ReadsRefused | src/raft.cpp:428-447 | At a replica that does not lead, every waiting read is answered no, in order |
| RaftProgress.VoteExact | src/raft.cpp:150-174 | A vote is given exactly if the candidate's term is not behind, no other candidate has it in that term, and the candidate's log is at least as far on: by its last term, then by its length |
| RaftProgress.ElectionExact | src/raft.cpp:176-186 | A candidate takes office exactly when the vote that arrives makes its votes a majority |
| RaftProgress.NothingLeft | src/raft.cpp:390-442 | In every state of every run a leader has committed and applied all that it may commit, and answered every read that may be answered |
| RaftProgress.HoldsThrough | src/raft.cpp:89-186 | A replica that leads in the same term and life as before has led all along in between |
| RaftProgress.ProposalIsCommitted | src/raft.cpp:249-364 | In every run, a proposal whose entry a majority has taken, by the replies its leader has had while it leads, is committed and applied there as its own command |
| RaftProgress.ReadIsAnswered | src/raft.cpp:249-442 | In every run, a read is answered once a majority has replied to calls made since it arrived, if its leader leads on and has committed in its own term by then |
| ActSafety.StepKeeps | src/raft.cpp:390-416 | Every step of the group keeps the invariant |
| ActSafety.ActKeeps | src/raft.cpp:51-459 | A handled input keeps the invariant: handled, saved, committed, applied, resolved, and only then its outputs released |
| TornTies.TearKeeps | src/raft_log.cpp:195-215 | A save that stops after any number of records leaves a disk that the durable record allows |
| GroupSafety.CrashKeeps | src/raft.cpp:390-416 | A crash between steps keeps the invariant |
| GroupSafety.RestartKeeps | src/raft.cpp:14-37 | A restart from whatever is on disk keeps the invariant |
| Ledgers.ElectionSafety | src/raft.cpp:103-186 | In the durable record a term has at most one leader |
| Ledgers.LogMatching | src/raft.cpp:215-236 | In the durable record two logs with the same term at an index agree up to it |
| Ledgers.LeaderCompleteness | src/raft.cpp:337-348 | In the durable record every later leader's log covers what an earlier leader committed |
| ReadTies.ReadSafe | src/raft.cpp:428-442 | A confirmed read's index covers every commit that any term could have made before the read arrived |
| RaftCore.MostIsMajority | src/raft.cpp:176-186 | Counting votes reaches a majority exactly when the voters are one |
| RaftCore.TermStart | src/raft.cpp:204-213 | The hint for a conflict is the first index of that term's run |
| RaftCore.FirstNew | src/raft.cpp:215-236 | The first entry of a call that is past the log or conflicts with it, all before it being held |
| RaftCore.BestCommit | src/raft.cpp:337-348 | The commit index moves only to an index of the leader's own term that a majority holds, and never back; CommitExact says that it is the last such |
| RaftReplica.Storage.Save | src/raft.h:106-114 | The stored log is cut before the given index and continued with the given one from there; a failing disk changes nothing |
| RaftReplica.Raft.constructor | src/raft.cpp:14-37 | A replica starts from what storage held; a group of one leads at once |
| RaftReplica.Raft.Tick | src/raft.cpp:51-79 | The timers' step is the group model's Timeout, StepDown or Heartbeat, and says which and exactly when; a heartbeat goes to exactly the peers to which a call is due, and a new timeout is drawn exactly when the replica stands or steps down; the state after it is on disk |
| RaftReplica.Raft.Adopt | src/raft.cpp:89-101 | Becoming a follower is BecomeFollower, and a new election timeout is drawn exactly if the role changes |
| RaftReplica.Raft.Stand | src/raft.cpp:103-125 | Starting an election is StartElection, with a new timeout of one to two election times |
| RaftReplica.Raft.Lead | src/raft.cpp:127-145 | Taking office is BecomeLeader |
| RaftReplica.Raft.HandleVote | src/raft.cpp:158-174 | The handler's state is Settle(Handle(...)) and its reply OnVote's; a new election timeout is drawn exactly if the vote is given or the role changes; a failed save stops the replica with nothing sent |
| RaftReplica.Raft.HandleVoteReply | src/raft.cpp:176-186 | The handler's state is Settle(Handle(...)) for that reply |
| RaftReplica.Raft.FindTermStart | src/raft.cpp:204-213 | The loop back over a term's run finds TermStart |
| RaftReplica.Raft.TakeEntries | src/raft.cpp:215-236 | The loop over a call's entries is Absorb: keeps what is held, cuts at the first conflict, adds the rest |
| RaftReplica.Raft.HandleAppend | src/raft.cpp:192-247 | The handler's state is Settle(Handle(...)) and its reply OnAppend's; a new election timeout is drawn exactly if the caller's term is not behind |
| RaftReplica.Raft.HandleAppendReply | src/raft.cpp:249-285 | The handler's state is Settle(Handle(...)) for that reply; a further call goes to the peer exactly if the reply counts and one is due, the peer noted as heard and its call as answered |
| RaftReplica.Raft.CallFailed | src/raft.cpp:287-293 | A call that failed changes only that peer's timers: it is no longer in flight if it is the one that was, and none is made for a heartbeat's time; a vote call, or one made by a leader no more, changes nothing |
| RaftReplica.Raft.Batch | src/raft.cpp:297-311 | The loop that fills a call takes BatchSize entries: at least one, then while they fit |
| RaftReplica.Raft.SendTo | src/raft.cpp:297-320 | The call made is NextCall; it is noted as in flight until the election timeout, the next heartbeat is due a heartbeat later, and no other peer's timers change |
| RaftReplica.Raft.SendIfDue | src/raft.cpp:324-335 | A call is made exactly when this replica leads and one is due: none in flight, the time to retry come, and either forced, entries waiting, or the heartbeat's time come; the call made is NextCall |
| RaftReplica.Raft.CountCopies | src/raft.cpp:337-348 | The inner loop counts the holders of an index |
| RaftReplica.Raft.Advance | src/raft.cpp:337-348 | The loop down the log is AdvanceCommit |
| RaftReplica.Raft.Propose | src/raft.cpp:354-364 | A leader's proposal takes the next index in its term and goes to exactly the peers to which a call is due; others refuse |
| RaftReplica.Raft.Read | src/raft.cpp:366-379 | A read at a leader is queued with the number of the next call, which goes to every peer that has none in flight; others refuse |
| RaftReplica.Raft.Finish | src/raft.cpp:390-416 | Save, then Settle; a failed save stops the replica with its outputs dropped and the disk unchanged |
| RaftReplica.Raft.Apply | src/raft.cpp:418-423 | The loop hands over the entries between applied and commit, in order |
| RaftReplica.Raft.Resolve | src/raft.cpp:428-442 | The loop over waiting reads is ResolveReads |
| RaftReplica.Raft.FailWaiting | src/raft.cpp:444-447 | Every waiting read is answered no |
| RaftReplica.HandedIsNewly | src/raft.cpp:418-423 | What the class hands to the state machine is exactly what the group model counts as applied, index by index |
| Names.RegisterEffect | src/names.cpp:136-157 | A registration is answered OK exactly when the name afterwards has this key and owner; otherwise nothing changed; no other name is touched |
| Names.UnregisterEffect | src/names.cpp:141-147 | A name is removed, OK, exactly when its owner's hash is given; MISSING exactly when there is no such name; DENIED exactly when it has another owner or none; nothing else changes |
| Names.CommandIsPrinted | src/names.cpp:116-131 | A valid command is one that the two command builders print |
| Names.CommandIsLine | src/names.cpp:124-131 | A valid command is one line of non-empty words |
| Names.NameKeptOnce | src/names.cpp:136-157 | One command changes a name's entry exactly when it is an UNREGISTER with its owner's hash |
| Names.NameKept | src/names.cpp:136-157 | Over any sequence of commands a name keeps its entry until an UNREGISTER with its owner's hash |
| Names.OwnerlessKept | src/names.cpp:143-144 | A name without an owner is kept for ever |
| Names.StateMachine.OnApply | src/replica.cpp:77-91 | An applied entry changes the names by ApplyCommand and wakes exactly the waiters at its index, with its result only if their term is the entry's |
| NameTheorems.OutcomesAgree | src/replica.cpp:77-91 | Every replica, in every life, computes the same answer and the same names at one index |
| NameTheorems.OwnOutcome | src/replica.cpp:222-248 | A client whose term stands at its index is answered by ApplyCommand of its own command on the fold of the log before it, after everything applied anywhere when it asked |
| NameTheorems.NamesAdvance | src/replica.cpp:77-91 | A step never rewrites what a replica has applied: applied does not fall, and the fold of the log up to the old applied index is the same after the step as before |
| MachineRuns.MachineFollows | src/replica.cpp:77-91 | In every run, the state machine that a replica feeds holds the fold of exactly what the replica has applied, and everyone waiting on it waits at the place their proposal was given |
| MachineRuns.WaiterIsTold | src/replica.cpp:222-248 | A waiter is woken exactly when its index has been applied. If the entry there has its term, its own command stands there and it is told what that command did to the names before it; if not, it is told to retry, and at no time does any replica apply a command of its term at that place |
| MachineRuns.Feed | src/raft.cpp:418-423 | Handing entries over one by one computes Fed |
| NameTheorems.ServedWithin | src/raft.cpp:428-442 | A read that the present life of a replica has answered was answered at an index it has applied |
| NameTheorems.AppliedIn | src/raft.cpp:418-423 | Every index a replica has applied was handed over with the entry its log has there |
| NameTheorems.AcknowledgedNameResolves | src/replica.cpp:251-268 | Once any replica has applied a registration that answered OK, a read that arrives afterwards anywhere, and is answered in the life it arrived in, finds the name with its key and owner, unless an UNREGISTER with its owner's hash has been applied |
| Text.ReadNumber | src/raft_wire.cpp:15-25 | The loop that reads a number accepts exactly the canonical numbers below 10^18 |
| Text.NumberRoundTrip | src/raft_wire.cpp:15-25 | A number is read back from its digits exactly when it is below 10^18 |
| Text.NumberIsPrinted | src/raft_wire.cpp:15-25 | Whatever is read as a number is that number's digits |
| Text.SplitWords | src/lookup.cpp:86-98 | The loop that splits on single spaces computes Split |
| Text.SplitJoin | src/lookup.cpp:86-98 | Splitting undoes joining, for words without spaces |
| Text.JoinSplit | src/lookup.cpp:86-98 | Joining undoes splitting, for any text |
| LogRecords.ReplayBatch | src/raft_log.cpp:76-112 | Replaying a save's whole batch on the old state gives the new state |
| LogRecords.ReplayTorn | src/raft_log.cpp:76-112 | Replaying any number of its records gives the old state, or the new term and vote with the log cut and grown so far |
| LogFile.BodyParses | src/raft_log.cpp:71-112 | Every record written is read back as itself |
| LogFile.RecordParses | src/raft_log.cpp:116-123 | A body is recovered from its line and check |
| LogFile.SaveRecovers | src/raft_log.cpp:129-215 | From a file holding a state, after a crash that leaves any byte prefix of the next batch, opening succeeds and recovers the old state plus a whole-record prefix of the batch, and the file again holds it |
| Journal.ReadAll | src/raft_log.cpp:133-148 | The loop over the file's lines computes Scan, stopping at the first bad or unfinished line |
| Journal.CrashRecovers | src/raft_log.cpp:129-192 | For any line format whose lines carry their own check: a torn tail of a bounded batch is always recovered from |
| Journal.OpenedHolds | src/raft_log.cpp:129-192 | Whatever the file, what opening leaves is whole and holds exactly the state recovered |
| Journal.OpenRefuses | src/raft_log.cpp:133-168 | Opening is refused on exactly the files that are whole up to some place and broken there, with more than the limit from there to the end: nothing acknowledged further back than a crash can reach is ever cut off |
| FileStorages.FileStorage.Open | src/raft_log.cpp:129-192 | Opening is refused exactly on such damage. Otherwise it gives the state of the file's good prefix and cuts the file to it, which then is whole and holds exactly that state |
| FileStorages.FileStorage.Save | src/raft_log.cpp:195-215 | A save appends the batch that takes the saved state to the new one, or the bytes of it that reach the disk, and fails if the file is not open, the write falls short or the flush fails; a whole file then holds the new state, if that can follow the old one with numbers below 10^18 |
| FileStorages.BatchHolds | src/raft_log.cpp:195-215 | A file that holds a state holds the next one after the whole batch |
| FileStorages.CallIsLight | src/raft.cpp:297-311 | A call carries at most the byte limit, or a single entry |
| FileStorages.CallIsFull | src/raft.cpp:297-311 | And it carries all it may: it ends where the log does, or one more entry would pass the limit |
| FileStorages.BatchFits | src/raft_log.cpp:195-215 | With calls of at most 64 KiB no batch is longer than the tail that opening accepts as torn |
| DiskTheorems.RunProper | src/names.cpp:124-131 | In a run where only valid commands are proposed, every log and every call holds only valid commands, and every call is within the byte limit |
| FileRuns.FilesHold | src/raft_log.cpp:129-215 | Along every run of the group, with each save appending its batch to the replica's file and each restart opening it, every file holds exactly what the group model says is durable there |
| FileRuns.CrashIsTear | src/raft_log.cpp:129-215 | In any such run, for any input at any replica and any byte at which its save stops, opening the file recovers exactly the disk that the group model's torn step leaves, or the whole new state if every byte was written; so every theorem above still holds after the crash |
| FileRuns.RestartReadsFile | src/raft_log.cpp:129-192 | A restart recovers from the bytes of the file exactly the state the group model restarts from |
| Wire.VoteRoundTrip | src/raft_wire.cpp:47-73 | A vote request within range is read back unchanged |
| Wire.VoteIsPrinted | src/raft_wire.cpp:68-73 | Whatever line is read as a vote request is the one printed for it |
| Wire.VoteReplyRoundTrip | src/raft_wire.cpp:52-54 | A vote reply is read back unchanged |
| Wire.VoteReplyIsPrinted | src/raft_wire.cpp:109-112 | Whatever line is read as a vote reply is the one printed for it |
| Wire.AppendReplyRoundTrip | src/raft_wire.cpp:64-66 | An append reply is read back unchanged |
| Wire.AppendReplyIsPrinted | src/raft_wire.cpp:114-118 | Whatever line is read as an append reply is the one printed for it |
| AppendWire.AppendRoundTrip | src/raft_wire.cpp:56-107 | A call fit to send is read back unchanged from its line and body |
| AppendWire.AppendIsPrinted | src/raft_wire.cpp:75-107 | Whatever line and body are accepted are the ones printed for the call read, which is fit to send: terms in order, commands valid |
| AppendWire.ReadBody | src/raft_wire.cpp:86-106 | The loop over the body's lines computes ParseBody, refusing early |
| WireTheorems.AppendsSurvive | src/raft.cpp:297-311 | In any run where only valid commands are proposed, every APPEND any leader makes with numbers below 10^18 is read back unchanged and its body fits one message |
| WireTheorems.VotesSurvive | src/raft.cpp:103-125 | In any run every vote request with numbers below 10^18 is read back unchanged |
| Chord.ArcTests | src/chord.cpp:134-142 | The two arc tests are comparisons of clockwise distances modulo 2^64 |
| Chord.LowerBound | src/chord.cpp:198-211 | Binary search finds how many identifiers are below one |
| Chord.OwnerIsNearest | src/chord.cpp:198-204 | successor_of is the unique member nearest clockwise from the key |
| Chord.PredecessorIsNearest | src/chord.cpp:206-211 | predecessor_of is the unique member nearest counter-clockwise |
| Chord.OwnedByPredecessor | src/chord.cpp:228-238 | A key lies between a member and its successor exactly when that member is the key's predecessor, and then the successor owns it |
| Chord.FillFingers | src/chord.cpp:213-219 | The loop builds BuildFingers |
| Chord.ClosestIsLast | src/chord.cpp:221-226 | The finger chosen lies strictly between self and the key, if any does |
| Chord.ScanFingers | src/chord.cpp:221-226 | The loop down the table computes ClosestPreceding |
| Lookup.RunLookup | src/lookup.cpp:169-222 | The originator's loop computes Walk |
| Lookup.AlwaysCloser | src/lookup.cpp:198-216 | Whatever answers, every node asked is strictly closer to the key than the one before, at most 65 are asked, and an owner is believed only if the key lies between it and the node that named it |
| Lookup.NoCycles | src/lookup.cpp:198-216 | Whatever answers, no node is asked twice |
| Lookup.WalkIsAsked | src/lookup.cpp:169-222 | Whatever answers: each node asked was named by the one before, the last reply alone decides the outcome and says which, the node at fault is the last on the path, and requests run out only after the last one allowed |
| Lookup.AnswersPass | src/chord.cpp:228-238 | With a right successor and any fingers, every answer passes the originator's check, and an owner named is the true one |
| Lookup.StaleLookup | src/lookup.cpp:169-222 | With right successors and arbitrary, changing fingers everywhere, a lookup that succeeds names the true owner and none fails for lack of progress |
| Lookup.NextCutsABit | src/lookup.h:54-67 | With right fingers each NEXT shortens the bit length of the distance to the key's predecessor |
| Lookup.LookupFinds | src/lookup.h:54-67 | On every ring of distinct identifiers, a lookup of any key from any member returns the member nearest clockwise from the key, in at most 65 requests |
| Lookup.BoundIsTight | src/lookup.h:54-67 | On one ring of 65 members a lookup takes exactly 65 requests |
| Stabilization.EvictOk | src/stabilize.cpp:68-137 | An eviction keeps the member's invariant |
| Stabilization.EvictedIsGone | src/stabilize.cpp:68-137 | An evicted peer, or process, is in no routing structure and has no strikes |
| Stabilization.OthersStay | src/stabilize.cpp:68-137 | Exactly the evicted are lost: every other peer held is still held, and none is added |
| Stabilization.FallsBack | src/stabilize.cpp:68-137 | A member that falls back to itself is orphaned, and one is orphaned only when it knows nobody else |
| Stabilization.ReportOk | src/stabilize.cpp:173-204 | Whatever a call comes to, reporting it keeps the invariant |
| Stabilization.RememberOk | src/stabilize.cpp:52-59 | Contacts stay other processes, none twice, boundedly many |
| Stabilization.MergeOk | src/stabilize.cpp:341-353 | A merged successor list has 1 to r members, the successor first, and stops before this member |
| Stabilization.ApplyOk | src/stabilize.cpp:529-547 | Applying a successor's answer keeps the invariant |
| Stabilization.AdoptOk | src/stabilize.cpp:550-576 | Adopting a closer successor keeps the invariant |
| Stabilization.NotifyOk | src/stabilize.cpp:399-427 | A NOTIFY keeps the invariant |
| Stabilization.FixKept | src/stabilize.cpp:604-657 | A finger repair, successful or not, keeps the invariant and orphans only as evictions do |
| Stabilization.JoinOk | src/stabilize.cpp:260-297 | Joining gives a state with the invariant |
| StabilizationRuns.DoKeeps | src/stabilize.cpp:359-499 | Every critical section keeps the invariant, and orphans a member that loses its last successor |
| StabilizationRuns.RunKeeps | src/stabilize.cpp:38-204 | Over every sequence of requests, outcomes and rounds: 1 to r successors, 64 fingers, fingers[0] equal to succs[0], no other peer with this identifier; and a member that had another successor and falls back to itself is orphaned |
| StabilizationRuns.EvictionsJustified | src/stabilize.cpp:147-204 | A peer lost in one section was refused, said it was orphaned, or had failed twice since its last good reply |
| StabilizationRuns.RunJustifies | src/stabilize.cpp:147-204 | Over every run from no strikes, every eviction has such a justification in the history up to it |
| RingRepair.CoversLater | src/stabilize.cpp:638-644 | Every later finger start between self and the owner found has that owner too |
| RingRepair.RepairFills | src/stabilize.cpp:637-654 | One repair makes a run of fingers right, moves past it, and spoils none that was right |
| RingRepair.FingersConverge | src/stabilize.cpp:604-657 | From any fingers whatever, 63 successful repairs make the table BuildFingers |
| RingRepair.LookupRepairs | src/stabilize.cpp:604-657 | With right successors and any fingers anywhere, a repair whose lookup succeeds is such a repair |
| RingRepair.WiredIsFixed | src/stabilize.cpp:240-258 | For every membership and every r: on the wired ring, with every call answered, a maintenance round leaves predecessor, successor list and fingers as they were, and the member wired |
| RingRepair.RingAnswers | src/stabilize.cpp:359-447 | A ring of wired members answers every call of every member as that needs |
| RingRepair.RingIsFixed | src/stabilize.cpp:659-687 | For every membership and every r: any number of maintenance rounds at any members in any order, each answered by the members as they then are, change no predecessor, successor list or finger table |
| RingRepair.StartsWired | src/stabilize.cpp:240-258 | For every membership, every place in it and every r from 1 to 16, the state a member of a fixed ring starts with is wired |
| RingRepair.RingStarts | src/stabilize.cpp:240-258 | So every membership has a ring that these fixed points are about |
| RingRepair.CheckedPredecessor | src/stabilize.cpp:593-602 | A predecessor that answers stays and nothing changes; one that refuses or says it is orphaned is forgotten; it is never replaced; no peer of another process is lost or gained |
| RingRepair.NotifiedIsFixed | src/stabilize.cpp:399-427 | And the NOTIFY it sends changes nothing at its successor |
| RingChanges.PassExact | src/stabilize.cpp:505-591 | A pass whose calls succeed takes the successor's predecessor for its successor exactly if that is closer clockwise, and then asks again; otherwise it keeps its successor and ends |
| RingChanges.StabilizeInward | src/stabilize.cpp:505-591 | If no call fails, stabilizing never moves the successor further away, and ends where the successor names nobody closer, or with the last pass allowed |
| RingChanges.PassTells | src/stabilize.cpp:577-590 | A pass that ends tells the successor, and a successor that refuses that call is gone |
| RingChanges.AdoptedKeeps | src/stabilize.cpp:550-565 | A closer successor goes first, and none of the others is lost unless there is no room |
| RingChanges.MergeComplete | src/stabilize.cpp:341-353 | Of the successor's list everyone before this member is taken over, unless it carries this member's identifier or there is no room |
| RingChanges.NotifyExact | src/stabilize.cpp:399-427 | A notifier becomes the predecessor exactly if there is none or it lies between that one and this member; otherwise the predecessor is probed |
| RingChanges.ProbeDecides | src/stabilize.cpp:429-447 | A predecessor that refuses the probe, or says it is orphaned, makes room for the notifier; one that answers stays |
| RingChanges.JoinLands | src/stabilize.cpp:260-297 | On a ring that routes, joining through any member gives the owner of the joiner's own identifier for its successor |
| RingChanges.JoinCompletes | src/stabilize.cpp:399-591 | On a wired ring, once the joiner has told its successor, and the member before it has stabilized and told the joiner, all four links between the three are right |
| RingChanges.RoundFinds | src/stabilize.cpp:659-687 | One maintenance round makes the joiner the successor of the member before it |
| RingChanges.OrphanReturns | src/stabilize.cpp:659-681 | An orphan one of whose contacts is a member of a ring that routes is back in it within as many rounds as it has contacts |
| RingChanges.Evidence | src/stabilize.cpp:147-204 | A refusal takes out the peer's whole process, its word that it is orphaned takes it out, and so does its second failure in a row; an answer forgives the first |
| RingChanges.LookupIsEvidence | src/stabilize.cpp:619-636 | A finger's lookup that fails counts against the node it failed at as a call to it would, unless no node is to blame, and the next finger's turn comes |
| RingChanges.Remembered | src/stabilize.cpp:52-59 | A peer remembered is the newest contact, and none is forgotten for it unless there is no room |
| RingChanges.FallbackIsNearest | src/stabilize.cpp:38-50 | When no successor is left the nearest peer still known takes over |
| RingChanges.EvictionRewires | src/stabilize.cpp:68-137 | On a wired ring, a member that evicts a dead successor has exactly the fingers of the ring without it, and its other successors in order, if the list goes on past the dead one |
| Members.Member.constructor | src/stabilize.cpp:232-238 | A ring of one |
| Members.Member.StartWired | src/stabilize.cpp:240-258 | From the list of members, the loops fill the tables with InitWired, which is wired |
| Members.Member.EvictPeer | src/stabilize.cpp:68-137 | The in-place eviction computes Evict |
| Members.Member.StrikePeer | src/stabilize.cpp:147-159 | A strike computes Strike, evicting at the second |
| Members.Member.ReportCall | src/stabilize.cpp:173-204 | The end of every call computes Report |
| Members.Member.HandleNotify | src/stabilize.cpp:399-427 | The NOTIFY handler computes Notify |
| Members.MergeList | src/stabilize.cpp:341-353 | The loop computes Merge |
| Members.Member.Stabilize | src/stabilize.cpp:505-591 | The loop of passes computes StabilizeFrom |
| Members.Member.FixNextFinger | src/stabilize.cpp:604-657 | Computes Fix of the lookup's outcome |
| Members.Member.JoinVia | src/stabilize.cpp:260-297 | Computes JoinThrough |
| Members.Member.MaintenanceRound | src/stabilize.cpp:659-687 | Computes Round |
| Manifests.ReadWide | src/transfer.cpp:29-41 | The loop reads exactly the canonical numbers below 2^64, without wrapping |
| Manifests.ParseFormat | src/transfer.cpp:152-235 | Every shape-valid manifest of at most 8192 entries is read back from its text |
| Manifests.FormatParse | src/transfer.cpp:162-235 | Every text accepted is the text printed for the manifest read, which is shape-valid |
| Manifests.FormatFits | src/transfer.cpp:152-160 | Every such text fits one 512 KiB chunk |
| ManifestTrees.CutPlaces | src/transfer.cpp:198-228 | The i-th piece of a cut is (i * chunk, min(chunk, size - i * chunk)) |
| ManifestTrees.CutTiles | src/transfer.cpp:198-228 | The pieces are just enough for the whole |
| ManifestTrees.DataIsCut | src/transfer.cpp:215-228 | A data manifest's chunks are the cut of the bytes it covers |
| ManifestTrees.IndexIsCut | src/transfer.cpp:215-228 | An index manifest's children stand for the cut of the bytes it covers, piece for piece |
| ManifestTrees.ResolvedIsCut | src/transfer.cpp:269-318 | For any get whatsoever, if a tree resolves then its chunks are exactly the pieces of the cut of its size, each once, from 1 to 4 levels of manifests |
| TreeOrder.InFileOrder | src/transfer.cpp:269-318 | For any get whatsoever, a resolved tree gives its chunks in file order, as the cut itself, exactly when no chunk's manifest lies deeper than that of a later part of the file |
| TreeOrder.ChunksOutOfOrder | src/transfer.cpp:280-314 | The order can fail: for any digest that gives three manifests different keys, a store with every text under its own digest holds a tree whose second byte is met before its first |
| TreeBuilding.NextIsLevel | src/transfer.cpp:256-266 | The level made of a level's manifests is shape-valid again, over the same bytes |
| TreeRoundTrip.PlannedValid | src/transfer.cpp:237-267 | Every manifest built is shape-valid |
| TreeRoundTrip.TotalBytes | src/transfer.cpp:260 | The loop adds up the entries' bytes modulo 2^64 |
| TreeRoundTrip.CutLevel | src/transfer.cpp:256-266 | The loop over a level writes its manifests and lists them for the next |
| TreeRoundTrip.BuildManifests | src/transfer.cpp:237-267 | The loop over levels computes Build |
| TreeRoundTrip.TakeManifest | src/transfer.cpp:291-313 | One manifest is checked against its parent and the root, and its entries placed one after another |
| TreeRoundTrip.ResolveManifest | src/transfer.cpp:269-318 | The loops over levels and manifests compute Resolve |
| TreeRoundTrip.TreeReadsBack | src/transfer.cpp:237-318 | In any store that never gives another text for the key of one of the tree's, resolving a built tree gives its chunk list back, in order, with its sizes and depth, or fails; a store that holds the tree gives it back exactly when it has at most 4 levels |
| TreeRoundTrip.TreeDepth | src/transfer.cpp:427-434 | A built tree has at most d levels exactly when there are at most fanout^d chunks |
| WorkerPool.RunKeeps | src/transfer.cpp:324-354 | What every interleaving of the workers keeps: indices taken are run, failed or in hand, each by one worker |
| WorkerPool.PoolRunsEach | src/transfer.cpp:324-354 | No interleaving runs an index twice, and a pool that reports success has run every index exactly once, none failing |
| WorkerPool.PoolReports | src/transfer.cpp:324-354 | A pool whose workers have all exited reports success exactly if no job has failed |
| WorkerPool.StopIsHeeded | src/transfer.cpp:327-340 | Once a job's failure is flagged no worker goes on to take another job |
| WorkerPool.PoolEnds | src/transfer.cpp:324-354 | No schedule moves k running workers over n jobs more than 4n + 2k times |
| WorkerPool.SlotFilled | src/transfer.cpp:389-410 | What the jobs leave in their slots does not depend on their order |
| WorkerPool.WritesAgree | src/transfer.cpp:502-529 | Jobs that write pieces of one content leave that content wherever they wrote, in any order |
| Transfer.PieceAt | src/transfer.cpp:391-393 | Chunk i of a file is the i-th piece of the cut |
| Transfer.ListChunks | src/transfer.cpp:423-426 | The loop lists each chunk's key with its length |
| Transfer.UploadResolves | src/transfer.cpp:360-444 | Resolving an uploaded tree gives the file's chunks, each under its key and in its place |
| Transfer.UploadDownload | src/transfer.cpp:360-529 | Upload then download is the identity on file contents, for every file, chunk size and fan-out and every interleaving of both pools, if no chunk fetched is other bytes with the key of the one stored |
| StoreRuns.IndexedIsOnDisk | src/store.cpp:146-189 | If no put lasts as long as the grace then, under every interleaving of puts, drops, forgets and crashes, every indexed key has its file and the byte count is the sizes of the indexed chunks |
| StoreRuns.SlowPutLosesFile | src/store.cpp:146-189 | A put that lasts exactly as long as the grace can index a key whose file a drop has taken |
| StoreRuns.KeyIsOnDisk | src/store.cpp:146-189 | If no put of one key lasts as long as the grace then, however slow the puts of other keys, the key has its file whenever it is indexed |
| StoreRuns.BriskStays | src/store.cpp:146-189 | If no put of a key lasts as long as the grace, its file is there at every restart |
| StoreRuns.LostAtRestart | src/store.cpp:103-144 | A restart keeps an indexed key exactly when its file is found |
| StoreRuns.SlowPutForgotten | src/store.cpp:146-189 | A put that lasts exactly as long as the grace can be answered, and its key forgotten by a restart in the same instant |
| StoreRuns.StaysForGrace | src/store.cpp:257-282 | From the moment a put is answered its key stays in the index until the grace has passed, whatever else happens, if its file is there at every restart |
| StoreRuns.ForgettingIsSafe | src/store.cpp:284-289 | A store that forgets old write times and one that keeps them all hold the same and decide alike, for ever |
| StoreRuns.ForgetsTheOld | src/store.cpp:284-289 | Exactly the write times as old as the grace are forgotten, and nothing else changes |
| ChunkStores.ChunkStore.HeldCheck | src/store.cpp:151-160 | The first critical section of a put |
| ChunkStores.ChunkStore.RenameFile | src/store.cpp:177-184 | The commit point of a put |
| ChunkStores.ChunkStore.IndexKey | src/store.cpp:185-189 | The last critical section of a put |
| ChunkStores.ChunkStore.StorePut | src/store.cpp:146-189 | The whole put: which answer, and what changed, for every outcome; and in a store whose every file holds the bytes its key stands for, it still does |
| ChunkStores.ChunkStore.StoreDrop | src/store.cpp:257-282 | A drop takes index, write time and file together, if held and old enough, and says how many bytes it freed |
| ChunkStores.ChunkStore.StoreForgetOld | src/store.cpp:284-289 | The loop forgets exactly the write times as old as the grace |
| ChunkStores.ChunkStore.StoreKeysAfter | src/store.cpp:291-297 | The next keys past a cursor, in order, none passed over, and fewer than the limit only if none is left |
| Listing.FirstPast | src/names.cpp:23 | The first name past a cursor |
| Listing.PresentIsListed | src/collect.cpp:107-114 | A name present throughout a listing is on one of its pages, whatever is added or removed meanwhile |
| Paging.KeysAfter | src/store.cpp:291-297 | The loop gives a page: the next keys in order, fewer than the limit only if none is left |
| Paging.PageOfNames | src/names.cpp:21-33 | The loop gives a page of names that fits one line, and ends before the last name only if the next would not fit |
| Paging.FoldIsGood | src/names.cpp:136-157 | Every name ever held is valid and has a valid key |
| Reachability.ResolvedIsClosed | src/transfer.cpp:269-318 | A resolved tree is closed: its root was read, and all that any manifest read lists was read or found |
| Reachability.ReachableIsLive | src/collect.cpp:119-133 | Every key reachable from a root whose tree resolves is marked |
| Collector.ListNames | src/collect.cpp:107-114 | The loop over pages: it succeeds exactly if an empty page comes before any failure, each cursor is the last name of the page before, and what is gathered is what the pages held |
| Collector.MarkTrees | src/collect.cpp:117-134 | The loop marks exactly what the trees hold, or stops if one cannot be read |
| Collector.ListNode | src/collect.cpp:146-162 | The loop gathers exactly the keys a node listed that are not live, and knows whether the list ended and with what grace: at the first empty reply |
| Collector.SweepNode | src/collect.cpp:169-185 | Batches of 20 and a last one of at most that, none after the deadline, all of the garbage if nothing stops it; it stops exactly at a batch refused, or where the deadline is found passed |
| Collector.Collect | src/collect.cpp:102-196 | The collection goes through exactly if the names come to their end and every listed tree resolves; otherwise nothing is dropped. Then every DROP sent is in time, to a node whose list ended with a grace of at least U + W + D, and, unless it is a dry run, each such node that refuses no batch is sent exactly the keys it listed that no listed name's tree holds, node after node up to where the deadline is found passed |
| CollectTheorems.NamedIsLive | src/collect.cpp:102-134 | Everything reachable from a name present throughout a collection's listing is live |
| CollectTheorems.CollectConducts | src/collect.cpp:102-134 | What Collect leaves, on pages served from the group's names as they stood, is a collection that these theorems speak of |
| CollectTheorems.SentByCollection | src/collect.cpp:137-190 | Every key of every DROP it sends is one that such a collection did not find live, sent within the deadline, to a node whose grace is at least U + W + D |
| CollectTheorems.UploadIsKept | src/collect.cpp:102-190 | No acknowledged upload is collected: in any run of a node's store, with any number of collections and restarts, a chunk whose put was answered for an upload registered in time stays in the index, if its file is there at every restart |
| CollectTheorems.UploadIsOnDisk | src/store.cpp:257-282 | If no put of its key lasts as long as the grace, it stays indexed and its file stays on disk, whatever restarts and however slow the puts of other keys |
| CollectTheorems.GraceIsTight | src/collect.cpp:142 | With a grace one shorter than U + W + D every other premise of UploadIsKept can hold, and the chunk is dropped |

## Left out

- Sockets, threads, command lines, HTTP, the tracker's and node's main loops, metrics and logging: no property of the kind proved here.
- Liveness under real time: that elections succeed and that calls are answered. What is proved is what follows from the replies that do come, and that reconciliation, finger repair, an orphan's search and the worker pool come to an end.
- `src/group.cpp` redirects and retries; only its time bound appears, as a premise of the collector's theorem.
- The commit wait of a client (2000 ms, then UNKNOWN): a waiter that gives up is one that is never answered.
- Request parsing of the replica and of clients (`parse_names_request`), secrets, and the texts of errors and messages.
- `store_remove`, `store_get`, the scrub, and `store_open`'s directory walk: opening is a step that indexes whatever files are found, at least those of the indexed keys that have one.
- `src/repair.cpp`, the write coordinator and replica selection in `src/chunk.cpp`.
- `walk_ring` and the collector's reply parsers: the nodes and their parsed answers are given. A node missed keeps its garbage.
- Peer parsing and rendering (`parse_reply`, `render_neighbours`, `parse_neighbours`), member lists and `validate_ring`: rings are given sorted, with distinct identifiers.
- `lookup_with_recovery`: a bounded retry of the lookup proved here.
- Convergence of successor lists from arbitrary broken rings under churn, which the code does not claim.
- System calls: reads and writes that move fewer bytes than asked, flushes and renames are single steps that succeed or fail; the part file's name and its removal on a signal are not modelled.
- Transfer.UploadDownload: does not model a file that changes while it is read, which the program detects by its size and times.
- RingRepair.WiredIsFixed: one list length for all members, as the program configures it.
- Chunk digests and 8-character record checks are not assumed collision-free anywhere but where a premise says so; torn tails need no such premise.
