/** The group's runs with every replica's file beside it, byte by byte: a save appends its batch, a crash may leave any
    bytes of it, and a restart opens what is there. */
module FileRuns {
  import opened RaftTypes
  import opened RaftCore
  import opened RaftGroup
  import opened RaftTheorems
  import opened ActSafety
  import opened DiskTheorems
  import FileStorages
  import LogRecords
  import LogFile
  import Journal
  import Text

  // ---- one step ----

  /** A save that stops after some bytes, k whole lines among them. */
  ghost predicate TornAt(ls: seq<string>, k: nat, file: string, file': string) {
    exists p :: PrefixLeft(ls, k, file, file', p)
  }

  predicate PrefixLeft(ls: seq<string>, k: nat, file: string, file': string, p: nat) {
    p <= |Text.Concat(ls)| && Text.Pieces(ls, p) == k && file' == file + Text.Concat(ls)[..p]
  }

  /** What a step does to the file of the replica that takes it. */
  ghost predicate FileStep(sha: Text.Digest, g: Group, a: Action, file: string, file': string)
    requires Enabled(g, a)
  {
    match a
    case Act(v, i) => file' == file + Text.Concat(SaveLines(sha, g.nodes[v].core, Handle(g.nodes[v].core, i)))
    case Tear(v, i, k) => TornAt(SaveLines(sha, g.nodes[v].core, Handle(g.nodes[v].core, i)), k, file, file')
    case Crash(_) => file' == file
    case Restart(_) => OpenedLog(sha, file).Some? ==> file' == OpenedLog(sha, file).value.1
  }

  ghost predicate FilesAt(sha: Text.Digest, gs: seq<Group>, acts: seq<Action>, fs: seq<seq<string>>, i: nat)
    requires |fs| == |gs| == |acts| + 1 && i < |acts|
  {
    && |fs[i]| == |fs[i + 1]| == |gs[i].nodes| && Enabled(gs[i], acts[i])
    && FileStep(sha, gs[i], acts[i], fs[i][acts[i].v], fs[i + 1][acts[i].v])
    && forall w | 0 <= w < |fs[i]| && w != acts[i].v :: fs[i + 1][w] == fs[i][w]
  }

  /** A run, and the files along it; a new replica's file is empty. */
  ghost predicate FileRun(sha: Text.Digest, gs: seq<Group>, acts: seq<Action>, fs: seq<seq<string>>) {
    && Run(gs, acts) && |fs| == |gs| && |fs[0]| == |gs[0].nodes| && (forall v | 0 <= v < |fs[0]| :: fs[0][v] == "")
    && forall i: nat {:trigger FilesAt(sha, gs, acts, fs, i)} | i < |acts| :: FilesAt(sha, gs, acts, fs, i)
  }

  /** What the program's own limits say: 64 KiB calls, ids up to 1000, valid commands, and numbers below 10^18 in
      whatever a step would save. */
  ghost predicate Within(gs: seq<Group>, acts: seq<Action>) {
    && |gs| == |acts| + 1 && ProperRun(acts) && gs[0].maxBytes == 65536 && |gs[0].nodes| <= 1001
    && forall i: nat {:trigger SmallAt(gs, acts, i)} | i < |acts| :: SmallAt(gs, acts, i)
  }

  ghost predicate SmallAt(gs: seq<Group>, acts: seq<Action>, i: nat)
    requires |gs| == |acts| + 1 && i < |acts|
  {
    Enabled(gs[i], acts[i]) ==> SmallStep(gs[i], acts[i])
  }

  predicate SmallStep(g: Group, a: Action)
    requires Enabled(g, a)
  {
    match a
    case Act(v, i) => Small(Saved(Handle(g.nodes[v].core, i)))
    case Tear(v, i, _) => Small(Saved(Handle(g.nodes[v].core, i)))
    case _ => true
  }

  // ---- what every file holds ----

  /** A running replica's file holds its state; a stopped one's opens to its disk. */
  ghost predicate FileTie(sha: Text.Digest, node: Node, file: string) {
    match node
    case Up(core, _) => HoldsLog(sha, file, Saved(core)) && Small(Saved(core))
    case Down(disk, _) => OpenedLog(sha, file).Some? && OpenedLog(sha, file).value.0 == disk && Small(disk)
  }

  lemma SavedWhole(sha: Text.Digest, s: Core, mid: Core, file: string, file': string)
    requires Writes(s, mid) && HoldsLog(sha, file, Saved(s)) && file' == file + Text.Concat(SaveLines(sha, s, mid))
    ensures HoldsLog(sha, file', Saved(mid))
  {
    FileStorages.BatchHolds(sha, file, Saved(s), Saved(mid), SaveFrom(mid), Text.Concat(SaveLines(sha, s, mid)));
  }

  lemma SettledSame(mid: Core)
    requires Fits(mid)
    ensures Saved(Settle(mid)) == Saved(mid)
  {
    AppliedFields(mid);
  }

  lemma TornSmall(s: Core, mid: Core, k: nat)
    requires Writes(s, mid) && Small(Saved(s)) && Small(Saved(mid))
    requires k <= |LogRecords.Batch(Saved(s), Saved(mid), SaveFrom(mid))|
    ensures Small(TornDisk(s, mid, k))
  {
    LogRecords.ReplayTorn(Saved(s), Saved(mid), SaveFrom(mid), k);
  }

  lemma FileTorn(sha: Text.Digest, s: Core, mid: Core, file: string, file': string, ls: seq<string>, k: nat, life: nat)
    requires Writes(s, mid) && HoldsLog(sha, file, Saved(s)) && Small(Saved(s)) && Small(Saved(mid))
    requires ls == SaveLines(sha, s, mid) && TornAt(ls, k, file, file')
    ensures FileTie(sha, Down(TornDisk(s, mid, k), life), file')
  {
    var p :| PrefixLeft(ls, k, file, file', p);
    TornSave(sha, s, mid, file, ls, p);
    TornSmall(s, mid, k);
  }

  lemma FileCrashed(sha: Text.Digest, s: Core, file: string, life: nat)
    requires HoldsLog(sha, file, Saved(s)) && Small(Saved(s))
    ensures FileTie(sha, Down(Saved(s), life), file)
  {
    Journal.OpenWhole(LogFile.Reader(sha), LogFile.Fresh(), file, Saved(s), LogFile.LOG_TAIL_LIMIT);
  }

  lemma FileBooted(sha: Text.Digest, v: nat, n: nat, max: nat, disk: Durable, file: string, file': string, life: nat)
    requires v < n && FileTie(sha, Down(disk, life), file) && file' == OpenedLog(sha, file).value.1
    ensures FileTie(sha, Up(Boot(v, n, max, disk), life + 1), file')
  {
    Journal.OpenedHolds(LogFile.Reader(sha), LogFile.Fresh(), file, LogFile.LOG_TAIL_LIMIT);
  }

  /** One step keeps the file of the replica that takes it. */
  lemma StepTies(sha: Text.Digest, g: Group, a: Action, file: string, file': string)
    requires Sized(g) && Enabled(g, a) && FileTie(sha, g.nodes[a.v], file) && FileStep(sha, g, a, file, file')
    requires SmallStep(g, a)
    requires (a.Act? || a.Tear?) ==> Writes(g.nodes[a.v].core, Handle(g.nodes[a.v].core, a.i))
    ensures |Step(g, a).nodes| == |g.nodes| && FileTie(sha, Step(g, a).nodes[a.v], file')
  {
    match a
    case Act(v, i) =>
      var s, mid := g.nodes[v].core, Handle(g.nodes[v].core, i);
      SavedWhole(sha, s, mid, file, file');
      SettledSame(mid);
    case Tear(v, i, k) =>
      var s, mid := g.nodes[v].core, Handle(g.nodes[v].core, i);
      FileTorn(sha, s, mid, file, file', SaveLines(sha, s, mid), k, g.nodes[v].life);
    case Crash(v) => FileCrashed(sha, g.nodes[v].core, file, g.nodes[v].life);
    case Restart(v) => FileBooted(sha, v, |g.nodes|, g.maxBytes, g.nodes[v].disk, file, file', g.nodes[v].life);
  }

  lemma StepOthers(g: Group, a: Action, w: nat)
    requires Sized(g) && Enabled(g, a) && w < |g.nodes| && w != a.v
    ensures |Step(g, a).nodes| == |g.nodes| && Step(g, a).nodes[w] == g.nodes[w]
  {
  }

  /** The step at i writes a batch as a correct replica does. */
  lemma WritesAt(gs: seq<Group>, acts: seq<Action>, i: nat)
    requires Run(gs, acts) && Within(gs, acts) && i < |acts| && Enabled(gs[i], acts[i]) && |gs[i].nodes| <= 1001
    requires (acts[i].Act? || acts[i].Tear?) ==> Small(Saved(gs[i].nodes[acts[i].v].core))
    ensures (acts[i].Act? || acts[i].Tear?) ==>
              Writes(gs[i].nodes[acts[i].v].core, Handle(gs[i].nodes[acts[i].v].core, acts[i].i))
  {
    var a := acts[i];
    assert SmallAt(gs, acts, i) && ProperAction(a);
    if a.Act? || a.Tear? {
      SaveInRange(gs, acts, i, a.v, a.i, Handle(gs[i].nodes[a.v].core, a.i));
    }
  }

  lemma EmptyFile(sha: Text.Digest)
    ensures FileTie(sha, Down(Durable(0, NOBODY, []), 0), "")
  {
    Journal.HoldsNothing(LogFile.Reader(sha), LogFile.Fresh());
    Journal.OpenWhole(LogFile.Reader(sha), LogFile.Fresh(), "", LogFile.Fresh(), LogFile.LOG_TAIL_LIMIT);
  }

  ghost predicate Tied(sha: Text.Digest, n: nat, nodes: seq<Node>, files: seq<string>) {
    |nodes| == |files| == n && forall v {:trigger FileTie(sha, nodes[v], files[v])} | 0 <= v < n ::
        FileTie(sha, nodes[v], files[v])
  }

  lemma TiedFirst(sha: Text.Digest, gs: seq<Group>, acts: seq<Action>, fs: seq<seq<string>>, n: nat,
                  nodes: seq<Node>, files: seq<string>)
    requires FileRun(sha, gs, acts, fs) && n == |gs[0].nodes| && nodes == gs[0].nodes && files == fs[0]
    ensures Tied(sha, n, nodes, files)
  {
    EmptyFile(sha);
  }

  lemma TiedNext(sha: Text.Digest, gs: seq<Group>, acts: seq<Action>, fs: seq<seq<string>>, i: nat, n: nat,
                 nodes: seq<Node>, files: seq<string>)
    requires FileRun(sha, gs, acts, fs) && Within(gs, acts) && i < |acts| && n == |gs[0].nodes|
    requires Tied(sha, n, gs[i].nodes, fs[i]) && nodes == gs[i + 1].nodes && files == fs[i + 1]
    ensures Tied(sha, n, nodes, files)
  {
    assert FilesAt(sha, gs, acts, fs, i) && StepAt(gs, acts, i) && SmallAt(gs, acts, i);
    assert FileTie(sha, gs[i].nodes[acts[i].v], fs[i][acts[i].v]);
    WritesAt(gs, acts, i);
    StepTied(sha, gs[i], acts[i], fs[i], fs[i + 1], n);
  }

  lemma StepTied(sha: Text.Digest, g: Group, a: Action, files: seq<string>, files': seq<string>, n: nat)
    requires Sized(g) && Enabled(g, a) && Tied(sha, n, g.nodes, files) && |files'| == n && SmallStep(g, a)
    requires FileStep(sha, g, a, files[a.v], files'[a.v]) && forall w | 0 <= w < n && w != a.v :: files'[w] == files[w]
    requires (a.Act? || a.Tear?) ==> Writes(g.nodes[a.v].core, Handle(g.nodes[a.v].core, a.i))
    ensures Tied(sha, n, Step(g, a).nodes, files')
  {
    assert FileTie(sha, g.nodes[a.v], files[a.v]);
    StepTies(sha, g, a, files[a.v], files'[a.v]);
    forall w | 0 <= w < n
      ensures FileTie(sha, Step(g, a).nodes[w], files'[w])
    {
      if w != a.v {
        StepOthers(g, a, w);
        assert FileTie(sha, g.nodes[w], files[w]);
      }
    }
  }

  /** Along every run, every replica's file holds exactly what the group model says is durable there: the state of a
      running replica, and what a restart will recover of one that is down. */
  lemma {:induction false} FilesHold(sha: Text.Digest, gs: seq<Group>, acts: seq<Action>, fs: seq<seq<string>>,
                                     i: nat, n: nat, nodes: seq<Node>, files: seq<string>)
    requires FileRun(sha, gs, acts, fs) && Within(gs, acts) && i < |gs| && n == |gs[0].nodes|
    requires nodes == gs[i].nodes && files == fs[i]
    ensures Tied(sha, n, nodes, files)
    decreases i
  {
    if i == 0 {
      TiedFirst(sha, gs, acts, fs, n, nodes, files);
    } else {
      FilesHold(sha, gs, acts, fs, i - 1, n, gs[i - 1].nodes, fs[i - 1]);
      TiedNext(sha, gs, acts, fs, i - 1, n, nodes, files);
    }
  }

  // ---- the theorem ----

  /** A crash at any byte of any save of any reachable step of any run: the file opens, and what is recovered is exactly
      the disk that some Tear of that step leaves, or the whole saved state if all its bytes were written. */
  lemma CrashIsTear(sha: Text.Digest, gs: seq<Group>, acts: seq<Action>, fs: seq<seq<string>>, i: nat, v: nat,
                    input: Input, ls: seq<string>, p: nat)
    requires FileRun(sha, gs, acts, fs) && Within(gs, acts) && i < |gs| && v < |gs[0].nodes| && |fs[i]| == |gs[0].nodes|
    requires Enabled(gs[i], Act(v, input)) && ProperAction(Act(v, input)) && SmallStep(gs[i], Act(v, input))
    requires ls == SaveLines(sha, gs[i].nodes[v].core, Handle(gs[i].nodes[v].core, input)) && p <= |Text.Concat(ls)|
    ensures var s, k := gs[i].nodes[v].core, Text.Pieces(ls, p);
            var r := OpenedLog(sha, fs[i][v] + Text.Concat(ls)[..p]);
            && r.Some? && r.value.0 == TornDisk(s, Handle(s, input), k) && HoldsLog(sha, r.value.1, r.value.0)
            && (p == |Text.Concat(ls)| ==> r.value.0 == Saved(Handle(s, input)))
  {
    FilesHold(sha, gs, acts, fs, i, |gs[0].nodes|, gs[i].nodes, fs[i]);
    assert FileTie(sha, gs[i].nodes[v], fs[i][v]);
    var s := gs[i].nodes[v].core;
    var mid := Handle(s, input);
    SaveInRange(gs, acts, i, v, input, mid);
    TornSave(sha, s, mid, fs[i][v], ls, p);
    Journal.OpenedHolds(LogFile.Reader(sha), LogFile.Fresh(), fs[i][v] + Text.Concat(ls)[..p], LogFile.LOG_TAIL_LIMIT);
  }

  /** A restart boots from the file: what opening it gives is what the group model restarts from. */
  lemma RestartReadsFile(sha: Text.Digest, gs: seq<Group>, acts: seq<Action>, fs: seq<seq<string>>, i: nat, v: nat)
    requires FileRun(sha, gs, acts, fs) && Within(gs, acts) && i < |acts| && acts[i] == Restart(v)
    ensures |fs[i]| == |fs[i + 1]| == |gs[i].nodes| == |gs[i + 1].nodes| && v < |fs[i]|
    ensures gs[i + 1].nodes[v].Up?
    ensures OpenedLog(sha, fs[i][v]) == Text.Some((Saved(gs[i + 1].nodes[v].core), fs[i + 1][v]))
  {
    assert FilesAt(sha, gs, acts, fs, i) && StepAt(gs, acts, i);
    FilesHold(sha, gs, acts, fs, i, |gs[0].nodes|, gs[i].nodes, fs[i]);
    assert FileTie(sha, gs[i].nodes[v], fs[i][v]);
  }
}
