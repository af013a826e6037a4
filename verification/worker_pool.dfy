/** The pool of workers that take their jobs from one shared counter, under every interleaving. */
module WorkerPool {

  /** A worker looks at the stop flag, takes the next index, runs its job, and sets the flag if the job failed. */
  datatype Phase = Checking | Taking | Running(i: nat) | Failing | Exited

  /** `ran` and `failed` are what the jobs have come to so far, `ran` in the order they ended. */
  datatype Pool = Pool(next: nat, stop: bool, workers: seq<Phase>, ran: seq<nat>, failed: set<nat>)

  function Start(k: nat): Pool {
    Pool(0, false, seq(k, _ => Checking), [], {})
  }

  /** One indivisible step of worker `w`; `ok` is how its job ends, if that is the step. */
  function Step(n: nat, p: Pool, w: nat, ok: bool): Pool {
    if w >= |p.workers| then p
    else
      match p.workers[w]
      case Checking => p.(workers := p.workers[w := if p.stop then Exited else Taking])
      case Taking => p.(next := p.next + 1, workers := p.workers[w := if p.next >= n then Exited else Running(p.next)])
      case Running(i) =>
        if ok then p.(ran := p.ran + [i], workers := p.workers[w := Checking])
        else p.(failed := p.failed + {i}, workers := p.workers[w := Failing])
      case Failing => p.(stop := true, workers := p.workers[w := Checking])
      case Exited => p
  }

  /** Any interleaving: which worker moves, and how the job it ends turns out. */
  function Run(n: nat, k: nat, trace: seq<(nat, bool)>): Pool {
    if trace == [] then Start(k)
    else
      var last := trace[|trace| - 1];
      Step(n, Run(n, k, trace[..|trace| - 1]), last.0, last.1)
  }

  /** All joined, and the flag never set: the pool reports success. */
  predicate Succeeded(p: Pool) {
    !p.stop && forall w | 0 <= w < |p.workers| :: p.workers[w] == Exited
  }

  /** Each index below n once, in some order. */
  predicate EachOnce(n: nat, ran: seq<nat>) {
    && (forall i | 0 <= i < n :: i in ran) && (forall a | 0 <= a < |ran| :: ran[a] < n)
    && forall a, b | 0 <= a < b < |ran| :: ran[a] != ran[b]
  }

  // ---- what every interleaving keeps ----

  predicate Holds(p: Pool, i: nat) {
    exists w :: 0 <= w < |p.workers| && p.workers[w] == Running(i)
  }

  predicate Distinct(p: Pool) {
    && (forall a, b | 0 <= a < b < |p.ran| :: p.ran[a] != p.ran[b])
    && (forall a, b | 0 <= a < b < |p.workers| :: p.workers[a].Running? && p.workers[b].Running? ==>
        p.workers[a].i != p.workers[b].i)
  }

  predicate Owned(n: nat, p: Pool) {
    && (forall w | 0 <= w < |p.workers| && p.workers[w].Running? ::
          p.workers[w].i < n && p.workers[w].i < p.next && p.workers[w].i !in p.ran && p.workers[w].i !in p.failed)
    && (forall i | i in p.ran :: i < n && i < p.next) && (forall i | i in p.failed :: i < p.next)
  }

  predicate Covered(n: nat, p: Pool) {
    forall i | 0 <= i < p.next && i < n :: i in p.ran || i in p.failed || Holds(p, i)
  }

  predicate Flagged(n: nat, p: Pool) {
    && (p.failed != {} ==> p.stop || exists w :: 0 <= w < |p.workers| && p.workers[w] == Failing)
    && (forall w | 0 <= w < |p.workers| && p.workers[w] == Exited :: p.stop || p.next >= n)
  }

  lemma StepDistinct(n: nat, p: Pool, w: nat, ok: bool)
    requires Distinct(p) && Owned(n, p)
    ensures Distinct(Step(n, p, w, ok)) && Owned(n, Step(n, p, w, ok))
  {
  }

  lemma StepCovered(n: nat, p: Pool, w: nat, ok: bool)
    requires Covered(n, p)
    ensures Covered(n, Step(n, p, w, ok))
  {
    var q := Step(n, p, w, ok);
    forall i: nat | i < q.next && i < n
      ensures i in q.ran || i in q.failed || Holds(q, i)
    {
      if w < |p.workers| {
        if i < p.next {
          if i !in p.ran && i !in p.failed {
            var v :| 0 <= v < |p.workers| && p.workers[v] == Running(i);
            assert v != w ==> q.workers[v] == Running(i);
            assert v == w && ok ==> q.ran[|p.ran|] == i;
          }
        } else {
          assert q.workers[w] == Running(i);
        }
      }
    }
  }

  lemma StepFlagged(n: nat, p: Pool, w: nat, ok: bool)
    requires Flagged(n, p)
    ensures Flagged(n, Step(n, p, w, ok))
  {
    var q := Step(n, p, w, ok);
    if w < |p.workers| && q.failed != {} && !q.stop {
      if p.workers[w].Running? && !ok {
        assert q.workers[w] == Failing;
      } else {
        var v :| 0 <= v < |p.workers| && p.workers[v] == Failing;
        assert q.workers[v] == Failing;
      }
    }
  }

  lemma {:induction false} RunKeeps(n: nat, k: nat, trace: seq<(nat, bool)>)
    ensures var p := Run(n, k, trace);
            |p.workers| == k && Distinct(p) && Owned(n, p) && Covered(n, p) && Flagged(n, p)
  {
    if trace != [] {
      var last, before := trace[|trace| - 1], trace[..|trace| - 1];
      RunKeeps(n, k, before);
      var p := Run(n, k, before);
      StepDistinct(n, p, last.0, last.1);
      StepCovered(n, p, last.0, last.1);
      StepFlagged(n, p, last.0, last.1);
    }
  }

  /** However the workers interleave, no job is run twice; and a pool of at least one worker that reports
      success has run every job exactly once, none of them failing. */
  lemma PoolRunsEach(n: nat, k: nat, trace: seq<(nat, bool)>)
    requires k >= 1
    ensures var p := Run(n, k, trace);
            && (forall a, b | 0 <= a < b < |p.ran| :: p.ran[a] != p.ran[b])
            && (Succeeded(p) ==> EachOnce(n, p.ran) && p.failed == {})
  {
    RunKeeps(n, k, trace);
    var p := Run(n, k, trace);
    if Succeeded(p) {
      assert p.workers[0] == Exited;
      assert forall a | 0 <= a < |p.ran| :: p.ran[a] in p.ran;
    }
  }

  /** The flag is set only for a job that failed. */
  lemma {:induction false} FlagMeansFailure(n: nat, k: nat, trace: seq<(nat, bool)>)
    ensures var p := Run(n, k, trace);
            (p.stop || exists w :: 0 <= w < |p.workers| && p.workers[w] == Failing) ==> p.failed != {}
  {
    if trace != [] {
      var last, before := trace[|trace| - 1], trace[..|trace| - 1];
      FlagMeansFailure(n, k, before);
      var p, q := Run(n, k, before), Run(n, k, trace);
      if w :| 0 <= w < |q.workers| && q.workers[w] == Failing {
        assert w != last.0 ==> p.workers[w] == Failing;
      }
    }
  }

  /** A pool whose workers have all exited reports success exactly if no job has failed. */
  lemma PoolReports(n: nat, k: nat, trace: seq<(nat, bool)>)
    requires forall w | 0 <= w < k :: w < |Run(n, k, trace).workers| && Run(n, k, trace).workers[w] == Exited
    ensures Succeeded(Run(n, k, trace)) <==> Run(n, k, trace).failed == {}
  {
    RunKeeps(n, k, trace);
    FlagMeansFailure(n, k, trace);
  }

  /** Once the flag is set no worker goes on to take another job: what is still taken, some worker had looked before. */
  lemma StopIsHeeded(n: nat, p: Pool, w: nat, ok: bool, v: nat)
    requires p.stop && v < |p.workers|
    ensures var q := Step(n, p, w, ok);
            q.stop && |q.workers| == |p.workers| && (q.workers[v] == Taking ==> p.workers[v] == Taking) &&
            (q.workers[v].Running? ==> p.workers[v] == Taking || q.workers[v] == p.workers[v])
  {
  }

  function Weight(w: Phase): nat {
    match w
    case Exited => 0
    case Taking => 1
    case Checking => 2
    case Failing => 3
    case Running(_) => 4
  }

  function Weights(ws: seq<Phase>): nat {
    if ws == [] then 0 else Weights(ws[..|ws| - 1]) + Weight(ws[|ws| - 1])
  }

  lemma {:induction false} WeightsAt(ws: seq<Phase>, w: nat, x: Phase)
    requires w < |ws|
    ensures Weights(ws[w := x]) == Weights(ws) - Weight(ws[w]) + Weight(x)
  {
    var k := |ws| - 1;
    if w == k {
      assert ws[w := x][..k] == ws[..k];
    } else {
      WeightsAt(ws[..k], w, x);
      assert ws[w := x][..k] == ws[..k][w := x];
    }
  }

  /** How much is left to do. */
  function ToDo(n: nat, p: Pool): nat {
    (if p.next < n then 4 * (n - p.next) else 0) + Weights(p.workers)
  }

  /** Every step of a worker that has not exited leaves less to do. */
  lemma StepLess(n: nat, p: Pool, w: nat, ok: bool)
    requires w < |p.workers| && p.workers[w] != Exited
    ensures ToDo(n, Step(n, p, w, ok)) < ToDo(n, p)
  {
    var q := Step(n, p, w, ok);
    WeightsAt(p.workers, w, q.workers[w]);
  }

  lemma {:induction false} StartWeighs(k: nat)
    ensures Weights(seq(k, _ => Checking)) == 2 * k
  {
    if k > 0 {
      StartWeighs(k - 1);
      var ws := seq(k, _ => Checking);
      assert ws[..k - 1] == seq(k - 1, _ => Checking);
    }
  }

  /** The pool ends: no schedule moves running workers more than 4n + 2k times. */
  lemma {:induction false} PoolEnds(n: nat, k: nat, trace: seq<(nat, bool)>)
    requires forall i | 0 <= i < |trace| :: Moves(Run(n, k, trace[..i]), trace[i].0)
    ensures |trace| + ToDo(n, Run(n, k, trace)) <= 4 * n + 2 * k
  {
    if trace == [] {
      StartWeighs(k);
    } else {
      var h := |trace| - 1;
      forall i | 0 <= i < h
        ensures Moves(Run(n, k, trace[..h][..i]), trace[..h][i].0)
      {
        assert trace[..h][..i] == trace[..i];
      }
      PoolEnds(n, k, trace[..h]);
      assert Moves(Run(n, k, trace[..h]), trace[h].0);
      StepLess(n, Run(n, k, trace[..h]), trace[h].0, trace[h].1);
    }
  }

  predicate Moves(p: Pool, w: nat) {
    w < |p.workers| && p.workers[w] != Exited
  }

  // ---- what the jobs leave behind does not depend on their order ----

  /** Job i fills slot i. */
  function Slots<T>(blank: seq<T>, ran: seq<nat>, job: nat -> T): (s: seq<T>)
    ensures |s| == |blank|
  {
    if ran == [] then blank
    else
      var k := |ran| - 1;
      var s := Slots(blank, ran[..k], job);
      if ran[k] < |s| then s[ran[k] := job(ran[k])] else s
  }

  lemma {:induction false} SlotFilled<T>(blank: seq<T>, ran: seq<nat>, job: nat -> T, i: nat)
    requires i < |blank| && i in ran
    ensures Slots(blank, ran, job)[i] == job(i)
  {
    var k := |ran| - 1;
    if ran[k] != i {
      assert i in ran[..k];
      SlotFilled(blank, ran[..k], job, i);
    }
  }

  /** `body` written over part of a file, which grows if it is too short. */
  function WriteAt(file: string, o: nat, body: string): (f: string)
    ensures o + |body| <= |file| ==> f == file[..o] + body + file[o + |body|..]
  {
    var end := o + |body|;
    var f := if end <= |file| then file else file + seq(end - |file|, _ => '\0');
    f[..o] + body + f[end..]
  }

  /** Job i writes body(i) at at(i). */
  function Writes(file: string, ran: seq<nat>, at: nat -> nat, body: nat -> string): string {
    if ran == [] then file
    else
      var k := |ran| - 1;
      WriteAt(Writes(file, ran[..k], at, body), at(ran[k]), body(ran[k]))
  }

  /** Job i writes a piece of `whole`. */
  predicate Piece(whole: string, at: nat -> nat, body: nat -> string, i: nat) {
    at(i) + |body(i)| <= |whole| && body(i) == whole[at(i)..at(i) + |body(i)|]
  }

  /** If every job writes a piece of one and the same content, every byte written is that content's. */
  lemma {:induction false} WritesAgree(file: string, ran: seq<nat>, at: nat -> nat, body: nat -> string, whole: string)
    requires |whole| == |file| && forall a | 0 <= a < |ran| :: Piece(whole, at, body, ran[a])
    ensures var f := Writes(file, ran, at, body);
            && |f| == |file|
            && forall a, x | 0 <= a < |ran| && at(ran[a]) <= x < at(ran[a]) + |body(ran[a])| &&
                x < |f| :: f[x] == whole[x]
  {
    if ran != [] {
      var k := |ran| - 1;
      WritesAgree(file, ran[..k], at, body, whole);
      var before := Writes(file, ran[..k], at, body);
      assert Piece(whole, at, body, ran[k]);
      assert forall a | 0 <= a < k :: ran[a] == ran[..k][a];
      var o, b := at(ran[k]), body(ran[k]);
      var f := WriteAt(before, o, b);
      assert forall x | 0 <= x < |f| :: f[x] == if o <= x < o + |b| then whole[x] else before[x];
    }
  }
}
