/** A leader finding where its log and a peer's meet, one probe and one reply at a time. */
module Reconciliation {
  import opened RaftTypes
  import opened RaftCore

  /** A leader and a running peer of its term or a lower one, whatever its role: the first call makes it adopt the term
      and follow. The peer holds the leader's log up to what the leader has matched, as every reachable state has it
      (RaftTheorems.ReachablePairs). */
  predicate Paired(s: Core, p: nat, f: Core) {
    && Fits(s) && Fits(f) && p < s.size && s.role == Leader && f.term <= s.term
    && s.matched[p] < s.next[p] <= |s.log| + 1
    && Agree(f.log, s.log, s.matched[p])
  }

  function Reply(s: Core, p: nat, f: Core): AppendReply
    requires Paired(s, p, f)
  {
    OnAppend(f, NextCall(s, p)).1
  }

  /** A probe one past what is matched is always taken. */
  lemma MatchedProbeTaken(s: Core, p: nat, f: Core)
    requires Paired(s, p, f) && s.next[p] == s.matched[p] + 1 && !OnAppend(f, NextCall(s, p)).0.stopped
    ensures Reply(s, p, f).success
  {
    var n := s.matched[p];
    assert n > 0 ==> f.log[..n][n - 1] == s.log[..n][n - 1];
  }

  /** A failure reply to the current probe lowers next, unless it is already one past matched; the
      follower's log and the leader's matched index stay as they were. */
  lemma FailureLowers(s: Core, p: nat, f: Core)
    requires Paired(s, p, f) && !Reply(s, p, f).success && !OnAppend(f, NextCall(s, p)).0.stopped
    ensures var s' := Bookkeep(s, p, NextCall(s, p), Reply(s, p, f));
            var f' := OnAppend(f, NextCall(s, p)).0;
            && Paired(s', p, f') && f'.log == f.log && f'.commit == f.commit && s' == s.(next := s'.next)
            && s.matched[p] < s'.next[p] < s.next[p]
  {
    if s.next[p] == s.matched[p] + 1 {
      MatchedProbeTaken(s, p, f);
      assert false;
    }
  }

  /** Every conflict the follower could meet lies above its commit index. */
  predicate NeverConflicts(s: Core, f: Core) {
    f.commit <= |f.log| && f.commit <= |s.log| && !f.stopped &&
    forall i | 0 <= i < f.commit :: f.log[i].term == s.log[i].term
  }

  lemma ProbeNeverStops(s: Core, p: nat, f: Core)
    requires Paired(s, p, f) && NeverConflicts(s, f)
    ensures !OnAppend(f, NextCall(s, p)).0.stopped
  {
    var call := NextCall(s, p);
    var f1 := BecomeFollower(f, call.term, call.leader);
    if call.prevIndex <= |f1.log| && TermAt(f1.log, call.prevIndex) == call.prevTerm {
      var k := FirstNew(f1.log, call.prevIndex, call.entries);
      assert k < |call.entries| ==> call.entries[k] == s.log[call.prevIndex + k];
    }
  }

  /** How many probes fail before one is taken. */
  function Failures(s: Core, p: nat, f: Core): (n: nat)
    requires Paired(s, p, f) && NeverConflicts(s, f)
    ensures n + 1 <= s.next[p] - s.matched[p]
    decreases s.next[p]
  {
    ProbeNeverStops(s, p, f);
    if Reply(s, p, f).success then 0
    else
      FailureLowers(s, p, f);
      1 + Failures(Bookkeep(s, p, NextCall(s, p), Reply(s, p, f)), p, OnAppend(f, NextCall(s, p)).0)
  }

  /** Reconciliation ends: from any reachable pair, after finitely many failures, the leader's next
      probe is taken. */
  lemma {:induction false} Reconciles(s: Core, p: nat, f: Core) returns (s': Core, f': Core)
    requires Paired(s, p, f) && NeverConflicts(s, f)
    ensures Paired(s', p, f') && Reply(s', p, f').success && !OnAppend(f', NextCall(s', p)).0.stopped
    ensures s' == s.(next := s'.next) && s'.next[p] <= s.next[p] - Failures(s, p, f) && f'.log == f.log
    decreases s.next[p]
  {
    ProbeNeverStops(s, p, f);
    if Reply(s, p, f).success {
      s', f' := s, f;
    } else {
      FailureLowers(s, p, f);
      s', f' := Reconciles(Bookkeep(s, p, NextCall(s, p), Reply(s, p, f)), p, OnAppend(f, NextCall(s, p)).0);
    }
  }

  /** A peer in a newer term ends it the other way: its reply makes the leader step down. */
  lemma NewerTermDeposes(s: Core, p: nat, f: Core, resend: bool)
    requires Fits(s) && Fits(f) && p < s.size && s.role == Leader && f.term > s.term
    ensures var reply := OnAppend(f, NextCall(s, p)).1;
            var s' := OnAppendReply(s, p, NextCall(s, p), reply, resend);
            !reply.success && s'.role == Follower && s'.term == f.term && s'.log == s.log
  {
  }

  // ---- the follower's commit index ----

  /** A call that is taken moves the follower's commit index back exactly when the leader's is higher
      but the call's own entries end below it. */
  lemma CommitMovesBack(f: Core, call: AppendRequest)
    requires Fits(f) && f.term <= call.term && OnAppend(f, call).1.success
    ensures OnAppend(f, call).0.commit < f.commit <==>
            f.commit < call.commit && call.prevIndex + |call.entries| < f.commit
  {
    TakenCommit(BecomeFollower(f, call.term, call.leader), call);
  }

  lemma TakenCommit(f: Core, call: AppendRequest)
    requires TryAppend(f, call).1.success
    ensures TryAppend(f, call).0.commit ==
            if call.commit > f.commit then Min(call.commit, call.prevIndex + |call.entries|) else f.commit
  {
  }
}
