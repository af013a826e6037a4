/** The data of the Raft core: entries, calls, replies and the state that survives a crash.
    Indexes start at 1; index 0 with term 0 stands for "before the first entry". Terms, indexes
    and call numbers are unbounded here. */
module RaftTypes {

  /** No vote cast, no leader known. */
  const NOBODY: int := -1

  datatype Entry = Entry(term: nat, command: string)

  datatype VoteRequest = VoteRequest(term: nat, candidate: nat, lastIndex: nat, lastTerm: nat)
  datatype VoteReply = VoteReply(term: nat, granted: bool)

  datatype AppendRequest = AppendRequest(
    term: nat, leader: nat, prevIndex: nat, prevTerm: nat,
    entries: seq<Entry>, commit: nat, number: nat)
  datatype AppendReply = AppendReply(term: nat, success: bool, index: nat)

  /** One call the core wants made. */
  datatype Outgoing =
    | Ask(to: nat, vote: VoteRequest)
    | Push(to: nat, append: AppendRequest)

  /** What a replica keeps through a crash. */
  datatype Durable = Durable(term: nat, votedFor: int, log: seq<Entry>)

  function TermAt(log: seq<Entry>, i: nat): nat {
    if i == 0 || i > |log| then 0 else log[i - 1].term
  }

  /** The two logs hold the same first `n` entries. */
  predicate Agree(a: seq<Entry>, b: seq<Entry>, n: nat) {
    n <= |a| && n <= |b| && a[..n] == b[..n]
  }

  /** Terms never fall along the log. */
  predicate Rising(log: seq<Entry>) {
    forall i, j | 0 <= i <= j < |log| :: log[i].term <= log[j].term
  }

  predicate Bounded(log: seq<Entry>, term: nat) {
    forall i | 0 <= i < |log| :: log[i].term <= term
  }

  /** Section 5.4.1: a log ending in (`lastTerm`, `lastIndex`) is at least as up to date as `log`. */
  predicate AtLeastAsUpToDate(log: seq<Entry>, lastTerm: nat, lastIndex: nat) {
    var mine := TermAt(log, |log|);
    lastTerm > mine || (lastTerm == mine && lastIndex >= |log|)
  }

  // ---- majorities ----

  function Members(n: nat): (r: set<nat>)
    ensures forall x: nat :: x in r <==> x < n
    ensures |r| == n
  {
    if n == 0 then {} else Members(n - 1) + {n - 1}
  }

  predicate Majority(q: set<nat>, n: nat) {
    q <= Members(n) && 2 * |q| > n
  }

  lemma SubsetSize<T>(a: set<T>, b: set<T>)
    requires a <= b
    ensures |a| <= |b|
  {
    if a != {} {
      var x :| x in a;
      SubsetSize(a - {x}, b - {x});
    }
  }

  /** Any two majorities of one group share a replica. */
  lemma Overlap(a: set<nat>, b: set<nat>, n: nat) returns (x: nat)
    requires Majority(a, n) && Majority(b, n)
    ensures x in a && x in b && x < n
  {
    SubsetSize(a + b, Members(n));
    assert |a + b| == |a| + |b| - |a * b|;
    assert |a * b| > 0;
    x :| x in a * b;
    assert x in Members(n);
  }

  lemma MajorityGrows(a: set<nat>, b: set<nat>, n: nat)
    requires Majority(a, n) && a <= b <= Members(n)
    ensures Majority(b, n)
  {
    SubsetSize(a, b);
  }
}
