/** A replica's durable state as a sequence of records, each replayed in turn. One save appends one
    batch; a crash during the save leaves some first records of the batch. The text form of the
    records is in log_file.dfy. */
module LogRecords {
  import opened RaftTypes
  import opened Text

  datatype Record =
    | TermRecord(term: nat, votedFor: int)
    | CutRecord(index: nat)
    | EntryRecord(index: nat, entry: Entry)

  /** One record applied to what came before it; refused if no correct writer wrote it there. */
  function Replay(d: Durable, r: Record): Option<Durable> {
    match r
    case TermRecord(t, vote) =>
      if t < d.term || (t == d.term && d.votedFor != NOBODY && d.votedFor != vote) then None
      else Some(d.(term := t, votedFor := vote))
    case EntryRecord(i, e) =>
      if i != |d.log| + 1 || e.term > d.term || (d.log != [] && e.term < d.log[|d.log| - 1].term) then None
      else Some(d.(log := d.log + [e]))
    case CutRecord(i) =>
      if i == 0 || i > |d.log| then None else Some(d.(log := d.log[..i - 1]))
  }

  function ReplayAll(d: Durable, rs: seq<Record>): Option<Durable> {
    if rs == [] then Some(d)
    else
      match ReplayAll(d, rs[..|rs| - 1])
      case None => None
      case Some(d') => Replay(d', rs[|rs| - 1])
  }

  function EntryRecords(log: seq<Entry>, from: nat): seq<Record>
    requires 1 <= from <= |log| + 1
  {
    seq(|log| + 1 - from, i requires 0 <= i < |log| + 1 - from => EntryRecord(from + i, log[from - 1 + i]))
  }

  function MetaRecords(d: Durable, n: Durable): seq<Record> {
    if n.term != d.term || n.votedFor != d.votedFor then [TermRecord(n.term, n.votedFor)] else []
  }

  function CutRecords(d: Durable, from: nat): seq<Record> {
    if from <= |d.log| then [CutRecord(from)] else []
  }

  /** What one save appends: the term and vote if they changed, a cut if stored entries go, and
      every entry from the first changed index on. */
  function Batch(d: Durable, n: Durable, from: nat): seq<Record>
    requires 1 <= from <= |n.log| + 1
  {
    MetaRecords(d, n) + CutRecords(d, from) + EntryRecords(n.log, from)
  }

  /** A change of durable state that a Raft step may make, with its first changed index. */
  predicate Follows(d: Durable, n: Durable, from: nat) {
    && d.term <= n.term
    && (d.term == n.term && d.votedFor != NOBODY ==> n.votedFor == d.votedFor)
    && 1 <= from <= |d.log| + 1 && from <= |n.log| + 1
    && n.log[..from - 1] == d.log[..from - 1]
    && Rising(n.log) && Bounded(n.log, n.term)
  }

  /** The state k whole records into the batch. */
  function Torn(d: Durable, n: Durable, from: nat, k: nat): Durable
    requires Follows(d, n, from) && k <= |Batch(d, n, from)|
  {
    var meta, cut := |MetaRecords(d, n)|, |CutRecords(d, from)|;
    if k < meta then d
    else if k < meta + cut then n.(log := d.log)
    else n.(log := n.log[..from - 1 + (k - meta - cut)])
  }

  lemma TornEntry(d: Durable, n: Durable, from: nat, i: nat)
    requires Follows(d, n, from) && from - 1 + i < |n.log|
    ensures Replay(n.(log := n.log[..from - 1 + i]), EntryRecord(from + i, n.log[from - 1 + i]))
         == Some(n.(log := n.log[..from + i]))
  {
    assert n.log[..from + i] == n.log[..from - 1 + i] + [n.log[from - 1 + i]];
  }

  /** One more record of the batch takes the torn state one step on. */
  lemma TornStep(d: Durable, n: Durable, from: nat, k: nat)
    requires Follows(d, n, from) && k < |Batch(d, n, from)|
    ensures Replay(Torn(d, n, from, k), Batch(d, n, from)[k]) == Some(Torn(d, n, from, k + 1))
  {
    var meta, cut := |MetaRecords(d, n)|, |CutRecords(d, from)|;
    if k >= meta + cut {
      var i := k - meta - cut;
      assert Batch(d, n, from)[k] == EntryRecords(n.log, from)[i];
      TornEntry(d, n, from, i);
    } else if k < meta && cut == 0 {
      assert n.log[..from - 1] == d.log;
    }
  }

  lemma ReplayNext(d: Durable, rs: seq<Record>, k: nat, m: Durable)
    requires k < |rs| && ReplayAll(d, rs[..k]) == Some(m)
    ensures ReplayAll(d, rs[..k + 1]) == Replay(m, rs[k])
  {
    assert rs[..k + 1][..k] == rs[..k];
  }

  /** Every first part of a batch replays, to the state Torn says. */
  lemma {:induction false} ReplayTorn(d: Durable, n: Durable, from: nat, k: nat)
    requires Follows(d, n, from) && k <= |Batch(d, n, from)|
    ensures ReplayAll(d, Batch(d, n, from)[..k]) == Some(Torn(d, n, from, k))
  {
    if k == 0 {
      TornStart(d, n, from);
    } else {
      var batch := Batch(d, n, from);
      ReplayTorn(d, n, from, k - 1);
      TornStep(d, n, from, k - 1);
      ReplayNext(d, batch, k - 1, Torn(d, n, from, k - 1));
    }
  }

  lemma TornStart(d: Durable, n: Durable, from: nat)
    requires Follows(d, n, from)
    ensures Torn(d, n, from, 0) == d
  {
    if from == |d.log| + 1 {
      assert d.log[..from - 1] == d.log;
    }
  }

  /** A whole batch replays to exactly the saved state. */
  lemma ReplayBatch(d: Durable, n: Durable, from: nat)
    requires Follows(d, n, from)
    ensures ReplayAll(d, Batch(d, n, from)) == Some(n)
  {
    var batch := Batch(d, n, from);
    ReplayTorn(d, n, from, |batch|);
    assert batch[..|batch|] == batch;
    assert n.log[..|n.log|] == n.log;
  }
}
