/** The file a replica's state lives in, as an object: opened once, then appended to, one batch a save. */
module FileStorages {
  import opened RaftTypes
  import opened RaftCore
  import opened Text
  import opened LogRecords
  import opened Journal
  import opened LogFile

  /** The bytes of a write that reach the disk. */
  function Reached(batch: string, written: nat): string {
    if written < |batch| then batch[..written] else batch
  }

  class FileStorage {
    const sha: Digest
    var text: string             // the bytes of the file
    var ready: bool              // open for appending
    var term: nat                // what the file holds now
    var votedFor: int
    var last: nat
    ghost var held: Durable

    /** Once open, it knows the term, the vote and the length of what it last wrote. */
    ghost predicate Valid()
      reads this
    {
      ready ==> term == held.term && votedFor == held.votedFor && last == |held.log|
    }

    /** The file is whole and holds `held`. */
    ghost predicate Whole()
      reads this
    {
      Holds(Reader(sha), Fresh(), text, held)
    }

    /** A file as a crash left it. */
    constructor (sha: Digest, text: string)
      ensures Valid() && !ready && this.sha == sha && this.text == text
    {
      this.sha, this.text, ready, term, votedFor, last, held := sha, text, false, 0, NOBODY, 0, Fresh();
    }

    /** Replay the file and cut a crash's tail off; refuse damage that no crash can have made. */
    method Open() returns (r: Option<Durable>)
      requires !ready
      modifies this
      ensures r.None? <==> exists cut: nat, s :: Ruined(Reader(sha), Fresh(), old(text), LOG_TAIL_LIMIT, cut, s)
      ensures r.Some? ==> Some((r.value, text)) == Opened(Reader(sha), Fresh(), old(text), LOG_TAIL_LIMIT)
      ensures r.Some? ==>
              ready && held == r.value && term == held.term && votedFor == held.votedFor && last == |held.log|
      ensures Valid() && (r.Some? ==> Whole())
      ensures r.None? ==> !ready && text == old(text)
    {
      OpenRefuses(Reader(sha), Fresh(), text, LOG_TAIL_LIMIT);
      r := Replay();
    }

    method Replay() returns (r: Option<Durable>)
      requires !ready
      modifies this
      ensures r.None? <==> Opened(Reader(sha), Fresh(), old(text), LOG_TAIL_LIMIT).None?
      ensures r.Some? ==> Some((r.value, text)) == Opened(Reader(sha), Fresh(), old(text), LOG_TAIL_LIMIT)
      ensures r.Some? ==>
              ready && held == r.value && term == held.term && votedFor == held.votedFor && last == |held.log|
      ensures Valid() && (r.Some? ==> Whole())
      ensures r.None? ==> !ready && text == old(text)
    {
      var d, good, damaged := ReadAll(Reader(sha), Fresh(), text);
      if damaged && |text| - good > LOG_TAIL_LIMIT {
        return None;
      }
      OpenedHolds(Reader(sha), Fresh(), text, LOG_TAIL_LIMIT);
      text := text[..good];
      term, votedFor, last := d.term, d.votedFor, |d.log|;
      held, ready := d, true;
      return Some(d);
    }

    /** The batch's lines: the term and vote if they changed, a cut if stored entries go, and every
        entry from the first changed index on. */
    method Compose(n: Durable, from: nat) returns (batch: string)
      requires Valid() && ready && 1 <= from <= |n.log| + 1
      ensures batch == BatchText(sha, Batch(held, n, from))
    {
      ghost var f := Printer(sha);
      ghost var meta, cut := MetaRecords(held, n), CutRecords(held, from);
      batch := "";
      if n.term != term || n.votedFor != votedFor {
        batch := Line(sha, TermRecord(n.term, n.votedFor));
        PrintOne(f, TermRecord(n.term, n.votedFor));
      }
      assert batch == Print(f, meta);
      if from <= last {
        batch := batch + Line(sha, CutRecord(from));
        PrintOne(f, CutRecord(from));
      }
      PrintJoin(f, meta, cut);
      assert batch == Print(f, meta + cut);
      var entries := PrintAll(Printer(sha), EntryRecords(n.log, from));
      batch := batch + entries;
      PrintJoin(f, meta + cut, EntryRecords(n.log, from));
    }

    /** The write itself, of which `written` bytes reach the disk, and the flush. */
    method Write(batch: string, written: nat, flushed: bool) returns (ok: bool)
      modifies this`text
      ensures text == old(text) + Reached(batch, written)
      ensures ok == (batch == "" || (written >= |batch| && flushed))
      ensures ok ==> text == old(text) + batch
    {
      if batch == "" {
        assert text + batch == text;
        return true;
      }
      ok := written >= |batch| && flushed;
      text := text + Reached(batch, written);
    }

    /** One save. It succeeds only if the file is open and the whole batch is written and flushed; otherwise the
        replica stops, and what is left of the batch is for the next Open to cut off. A whole file stays whole,
        holding the new state, if that can follow the old one and its numbers can be read back. */
    method Save(n: Durable, from: nat, written: nat, flushed: bool) returns (ok: bool, ghost batch: string)
      requires Valid() && 1 <= from <= |n.log| + 1
      modifies this
      ensures Valid() && ready == old(ready)
      ensures batch == if ready then BatchText(sha, Batch(old(held), n, from)) else ""
      ensures ok == (ready && (batch == "" || (written >= |batch| && flushed)))
      ensures text == old(text) + Reached(batch, written)
      ensures held == if ok then n else old(held)
      ensures ok && old(Whole()) && Follows(old(held), n, from) && InRange(old(held)) && InRange(n) ==> Whole()
    {
      if !ready {
        assert text + "" == text;
        return false, "";
      }
      var b := Compose(n, from);
      WholeAfter(sha, text, held, n, from, b);
      ok := Append(n, b, written, flushed);
      return ok, b;
    }

    method Append(n: Durable, batch: string, written: nat, flushed: bool) returns (ok: bool)
      requires Valid() && ready
      modifies this`text, this`term, this`votedFor, this`last, this`held
      ensures Valid() && ok == (batch == "" || (written >= |batch| && flushed))
      ensures text == old(text) + Reached(batch, written) && (ok ==> text == old(text) + batch)
      ensures held == if ok then n else old(held)
    {
      ok := Write(batch, written, flushed);
      if ok {
        Note(n);
      }
    }

    method Note(n: Durable)
      modifies this`term, this`votedFor, this`last, this`held
      ensures term == n.term && votedFor == n.votedFor && last == |n.log| && held == n
    {
      term, votedFor, last, held := n.term, n.votedFor, |n.log|, n;
    }
  }

  lemma WholeAfter(sha: Digest, text: string, d: Durable, n: Durable, from: nat, batch: string)
    requires 1 <= from <= |n.log| + 1 && batch == BatchText(sha, Batch(d, n, from))
    ensures Holds(Reader(sha), Fresh(), text, d) && Follows(d, n, from) && InRange(d) && InRange(n) ==>
              Holds(Reader(sha), Fresh(), text + batch, n)
  {
    if Holds(Reader(sha), Fresh(), text, d) && Follows(d, n, from) && InRange(d) && InRange(n) {
      BatchHolds(sha, text, d, n, from, batch);
    }
  }

  /** A batch written whole leaves a file that holds exactly the saved state. */
  lemma BatchHolds(sha: Digest, text: string, d: Durable, n: Durable, from: nat, batch: string)
    requires Holds(Reader(sha), Fresh(), text, d) && Follows(d, n, from) && InRange(d) && InRange(n)
    requires batch == BatchText(sha, Batch(d, n, from))
    ensures Holds(Reader(sha), Fresh(), text + batch, n)
  {
    BatchSteps(sha, d, n, from);
    TornStart(d, n, from);
    TornEnd(d, n, from);
    HoldsMore(Reader(sha), Fresh(), text, TornStates(d, n, from), BatchLines(sha, Batch(d, n, from)));
  }

  // ---- no batch is longer than the tail a crash can leave ----

  function CostSum(es: seq<Entry>): nat {
    if es == [] then 0 else Cost(es[0]) + CostSum(es[1..])
  }

  /** What one call carries: entries within the byte limit, or a single entry. */
  predicate Light(es: seq<Entry>, max: nat) {
    CostSum(es) <= max || |es| <= 1
  }

  lemma {:induction false} BatchCost(log: seq<Entry>, from: nat, bytes: nat, max: nat, any: bool)
    requires from <= |log| && (any ==> bytes <= max)
    ensures var k := BatchSize(log, from, bytes, max, any);
            from + k <= |log| && (bytes + CostSum(log[from..from + k]) <= max || (!any && k <= 1))
    decreases |log| - from
  {
    var k := BatchSize(log, from, bytes, max, any);
    if k > 0 {
      var cost := Cost(log[from]);
      assert log[from..from + k][1..] == log[from + 1..from + k];
      if any || bytes + cost <= max {
        BatchCost(log, from + 1, bytes + cost, max, true);
      } else if from + 1 < |log| {
        assert BatchSize(log, from + 1, bytes + cost, max, true) == 0;
      }
    }
  }

  /** Every call a leader builds is light. */
  lemma CallIsLight(s: Core, p: nat)
    requires Fits(s) && p < s.size
    ensures Light(NextCall(s, p).entries, s.maxBytes)
  {
    var prev := s.next[p] - 1;
    if prev <= |s.log| {
      BatchCost(s.log, prev, 0, s.maxBytes, false);
    }
  }

  lemma {:induction false} BatchFills(log: seq<Entry>, from: nat, bytes: nat, max: nat, any: bool)
    requires from <= |log|
    ensures var k := BatchSize(log, from, bytes, max, any);
            from + k <= |log| && (from + k < |log| ==> bytes + CostSum(log[from..from + k + 1]) > max)
    decreases |log| - from
  {
    var k := BatchSize(log, from, bytes, max, any);
    if from + k < |log| {
      var es, cost := log[from..from + k + 1], Cost(log[from]);
      assert es[0] == log[from] && es[1..] == log[from + 1..from + k + 1];
      if k > 0 {
        BatchFills(log, from + 1, bytes + cost, max, true);
      }
    }
  }

  /** And it carries as much as it may: it ends where the log does, or one more entry would be too many. */
  lemma CallIsFull(s: Core, p: nat)
    requires Fits(s) && p < s.size && s.next[p] <= |s.log| + 1
    ensures var prev, es := s.next[p] - 1, NextCall(s, p).entries;
            && es <= s.log[prev..] && (prev < |s.log| ==> es != [])
            && (prev + |es| < |s.log| ==> CostSum(es + [s.log[prev + |es|]]) > s.maxBytes)
  {
    var prev := s.next[p] - 1;
    BatchFills(s.log, prev, 0, s.maxBytes, false);
    var k := BatchSize(s.log, prev, 0, s.maxBytes, false);
    assert prev + k < |s.log| ==> s.log[prev..prev + k + 1] == s.log[prev..prev + k] + [s.log[prev + k]];
  }

  lemma {:induction false} LightSuffix(es: seq<Entry>, k: nat)
    requires k <= |es|
    ensures CostSum(es[k..]) <= CostSum(es)
    decreases k
  {
    if k > 0 {
      LightSuffix(es[1..], k - 1);
      assert es[1..][k - 1..] == es[k..];
    } else {
      assert es[0..] == es;
    }
  }

  /** Commands as the namespace prints them: never shorter than NOOP, never longer than this. */
  const MAX_COMMAND: nat := 300

  lemma EntryLine(sha: Digest, i: nat, e: Entry)
    requires i < LIMIT && e.term < LIMIT
    ensures |Line(sha, EntryRecord(i, e))| <= |e.command| + 54
  {
    var a, b := Digits(i), Digits(e.term);
    JoinRest(["ENTRY", a, b, e.command]);
    assert ["ENTRY", a, b, e.command][..3] == ["ENTRY", a, b];
    HeadLength("ENTRY", a, b);
    LimitIsPow();
    DigitsLength(i, 18);
    DigitsLength(e.term, 18);
  }

  lemma TermLine(sha: Digest, t: nat, vote: int)
    requires t < LIMIT && NOBODY <= vote <= 1000
    ensures |Line(sha, TermRecord(t, vote))| <= 100
  {
    LimitIsPow();
    DigitsLength(t, 18);
    if vote >= 0 {
      assert Pow10(4) == 10000;
      DigitsLength(vote, 4);
    }
    var ws := ["TERM", Digits(t), VoteWord(vote)];
    assert ws[1..] == [Digits(t), VoteWord(vote)] && ws[1..][1..] == [VoteWord(vote)];
    assert |Join(ws[1..])| == |Digits(t)| + 1 + |VoteWord(vote)|;
  }

  lemma CutLine(sha: Digest, i: nat)
    requires i < LIMIT
    ensures |Line(sha, CutRecord(i))| <= 100
  {
    LimitIsPow();
    DigitsLength(i, 18);
    JoinPair("CUT", Digits(i));
  }

  predicate Sized(es: seq<Entry>) {
    forall i | 0 <= i < |es| :: 4 <= |es[i].command| <= MAX_COMMAND
  }

  /** If each line takes at most nine quarters of its entry's cost on the wire, so do they all. */
  /** A printed entry is at most 9/4 of its cost. */
  predicate Short(f: Record -> string, log: seq<Entry>, i: nat)
    requires i < |log|
  {
    4 * |f(EntryRecord(i + 1, log[i]))| <= 9 * Cost(log[i])
  }

  lemma {:induction false} LinesLength(f: Record -> string, log: seq<Entry>, from: nat)
    requires 1 <= from <= |log| + 1 && forall i: nat {:trigger Short(f, log, i)} | i < |log| :: Short(f, log, i)
    ensures 4 * |Print(f, EntryRecords(log, from))| <= 9 * CostSum(log[from - 1..])
    decreases |log| - from
  {
    if from <= |log| {
      LinesLength(f, log, from + 1);
      assert Short(f, log, from - 1);
      FirstRecord(f, log, from);
      assert log[from - 1..][1..] == log[from..];
    }
  }

  lemma FirstRecord(f: Record -> string, log: seq<Entry>, from: nat)
    requires 1 <= from <= |log|
    ensures |Print(f, EntryRecords(log, from))| ==
            |f(EntryRecord(from, log[from - 1]))| + |Print(f, EntryRecords(log, from + 1))|
  {
    var r, rest := EntryRecord(from, log[from - 1]), EntryRecords(log, from + 1);
    assert EntryRecords(log, from) == [r] + rest;
    PrintJoin(f, [r], rest);
    PrintOne(f, r);
  }

  lemma EntriesLength(sha: Digest, log: seq<Entry>, from: nat)
    requires 1 <= from <= |log| + 1 && |log| + 1 < LIMIT && Sized(log) &&
             forall i | 0 <= i < |log| :: log[i].term < LIMIT
    ensures 4 * |Print(Printer(sha), EntryRecords(log, from))| <= 9 * CostSum(log[from - 1..])
  {
    forall i: nat | i < |log|
      ensures Short(Printer(sha), log, i)
    {
      EntryIsShort(sha, log, i);
    }
    LinesLength(Printer(sha), log, from);
  }

  lemma EntryIsShort(sha: Digest, log: seq<Entry>, i: nat)
    requires i < |log| && |log| + 1 < LIMIT && Sized(log) && log[i].term < LIMIT
    ensures Short(Printer(sha), log, i)
  {
    EntryLine(sha, i + 1, log[i]);
  }

  lemma OneCost(es: seq<Entry>)
    requires Sized(es) && |es| <= 1
    ensures CostSum(es) <= MAX_COMMAND + 22
  {
    if es != [] {
      assert es[1..] == [];
    }
  }

  /** With calls of at most 64 KiB, no save writes more than the tail limit. */
  lemma BatchFits(sha: Digest, d: Durable, n: Durable, from: nat)
    requires Follows(d, n, from) && InRange(d) && InRange(n) && Sized(n.log) && Light(n.log[from - 1..], 65536)
    ensures |BatchText(sha, Batch(d, n, from))| <= LOG_TAIL_LIMIT
  {
    EntriesFit(sha, n.log, from);
    MetaLength(sha, d, n);
    CutLength(sha, d, from);
    PrintThree(Printer(sha), MetaRecords(d, n), CutRecords(d, from), EntryRecords(n.log, from));
  }

  lemma PrintThree(f: Record -> string, a: seq<Record>, b: seq<Record>, c: seq<Record>)
    ensures |Print(f, a + b + c)| == |Print(f, a)| + |Print(f, b)| + |Print(f, c)|
  {
    PrintJoin(f, a, b);
    PrintJoin(f, a + b, c);
  }

  lemma EntriesFit(sha: Digest, log: seq<Entry>, from: nat)
    requires 1 <= from <= |log| + 1 && |log| + 1 < LIMIT && Sized(log) && Light(log[from - 1..], 65536)
    requires forall i | 0 <= i < |log| :: log[i].term < LIMIT
    ensures |Print(Printer(sha), EntryRecords(log, from))| + 200 <= LOG_TAIL_LIMIT
  {
    EntriesLength(sha, log, from);
    var es := log[from - 1..];
    assert Sized(es);
    if |es| <= 1 {
      OneCost(es);
    }
  }

  lemma MetaLength(sha: Digest, d: Durable, n: Durable)
    requires n.term < LIMIT && NOBODY <= n.votedFor <= 1000
    ensures |Print(Printer(sha), MetaRecords(d, n))| <= 100
  {
    TermLine(sha, n.term, n.votedFor);
    PrintOne(Printer(sha), TermRecord(n.term, n.votedFor));
  }

  lemma CutLength(sha: Digest, d: Durable, from: nat)
    requires from < LIMIT
    ensures |Print(Printer(sha), CutRecords(d, from))| <= 100
  {
    CutLine(sha, from);
    PrintOne(Printer(sha), CutRecord(from));
  }
}
