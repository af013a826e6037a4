/** A follower taking a leader's entries. */
module AppendTie {
  import opened RaftTypes
  import opened RaftCore
  import opened Ledgers
  import opened ReplicaTie
  import opened HandlerTies

  ghost function AcceptRecord(l: Ledger, v: nat, log: seq<Entry>): Ledger
    requires v < l.Size() && |l.log| == l.Size()
  {
    if log == l.log[v] then l else Accept(l, v, log)
  }

  ghost function AppendRecord(l: Ledger, v: nat, log: seq<Entry>, n: nat): Ledger
    requires v < l.Size() && |l.log| == l.Size()
  {
    Match(AcceptRecord(l, v, log), v, n)
  }

  lemma SameTermAgree(l: Ledger, a: seq<Entry>, b: seq<Entry>, i: nat)
    requires Traced(l, a) && Traced(l, b) && i <= |a| && i <= |b| && TermAt(a, i) == TermAt(b, i)
    ensures Agree(a, b, i)
  {
    if i > 0 {
      assert Agree(a, l.reign[a[i - 1].term].log, i) && Agree(b, l.reign[b[i - 1].term].log, i);
    }
  }

  /** What a follower already holds of a call's entries, by their terms, it holds exactly. */
  lemma HeldAgrees(l: Ledger, log: seq<Entry>, r: seq<Entry>, push: AppendRequest, k: nat)
    requires Traced(l, log) && Traced(l, r) && PushTie(r, push)
    requires push.prevIndex <= |log| && TermAt(log, push.prevIndex) == push.prevTerm
    requires IsFirstNew(log, push.prevIndex, push.entries, k)
    ensures Agree(log, r, push.prevIndex + k)
  {
    assert k > 0 ==> push.entries[k - 1] == r[push.prevIndex + k - 1];
    SameTermAgree(l, log, r, push.prevIndex + k);
  }

  /** The log after the call: unchanged and holding the entries, or the leader's log cut at their
      end, joined where the two logs part. */
  lemma AbsorbedLog(s: Core, r: seq<Entry>, push: AppendRequest, k: nat)
    requires push.prevIndex <= |s.log| && PushTie(r, push) && IsFirstNew(s.log, push.prevIndex, push.entries, k)
    requires Agree(s.log, r, push.prevIndex + k)
    requires !AbsorbAt(s, push.prevIndex, push.entries, k).stopped
    ensures var n, i := push.prevIndex + |push.entries|, push.prevIndex + k;
            var log := AbsorbAt(s, push.prevIndex, push.entries, k).log;
            && Agree(log, r, n)
            && (log == s.log || (log == r[..n] && i < n && (i == |s.log| || s.log[i] != r[i])))
  {
    var prev, es := push.prevIndex, push.entries;
    if k < |es| {
      assert r[prev + k] == es[k];
      assert r[..prev + k] + r[prev + k..prev + |es|] == r[..prev + |es|];
      assert es[k..] == r[prev + k..prev + |es|];
    }
  }

  /** A follower never finds a conflict at or below its commit index: the fail-stop is unreachable. */
  lemma NoStop(l: Ledger, s: Core, push: AppendRequest, k: nat)
    requires CompleteOk(l) && CommittedOk(l) && Settled(l, s.log, s.commit, s.term) && s.term == push.term
    requires push.term in l.reign && PushTie(l.reign[push.term].log, push) && !s.stopped
    requires push.prevIndex <= |s.log| && IsFirstNew(s.log, push.prevIndex, push.entries, k)
    ensures !AbsorbAt(s, push.prevIndex, push.entries, k).stopped
  {
    var r := l.reign[push.term].log;
    SettledInReign(l, s.log, s.commit, s.term);
    assert forall i | 0 <= i < s.commit :: s.log[i] == s.log[..s.commit][i] && r[i] == r[..s.commit][i];
    assert k < |push.entries| ==> push.entries[k] == r[push.prevIndex + k];
  }

  /** A committed prefix is part of the log of the leader of the replica's own term. */
  lemma SettledInReign(l: Ledger, log: seq<Entry>, k: nat, term: nat)
    requires CompleteOk(l) && CommittedOk(l) && Settled(l, log, k, term) && term in l.reign
    ensures Agree(log, l.reign[term].log, k)
  {
    if k > 0 {
      var t :| SettledBy(l, log, k, term, t);
      LeaderCompleteness(l, t, term);
      AgreeLess(l.reign[term].log, l.reign[t].log, l.committed[t], k);
    }
  }

  /** `log` is what replica v may hold next, and it agrees with its leader's log through n. */
  ghost predicate Joined(l: Ledger, v: nat, log: seq<Entry>, n: nat) {
    && v < l.Size() && |l.log| == l.Size()
    && (log == l.log[v] || CanAccept(l, v, log))
    && l.term[v] in l.reign && Agree(log, l.reign[l.term[v]].log, n)
  }

  lemma AcceptAllowed(l: Ledger, v: nat, s: Core, push: AppendRequest, k: nat)
    requires v < l.Size() && |l.log| == l.Size() && l.term[v] == s.term == push.term && l.log[v] == s.log
    requires push.term in l.reign && PushTie(l.reign[push.term].log, push) && push.prevIndex <= |s.log|
    requires IsFirstNew(s.log, push.prevIndex, push.entries, k)
    requires Agree(s.log, l.reign[push.term].log, push.prevIndex + k)
    requires !AbsorbAt(s, push.prevIndex, push.entries, k).stopped
    ensures Joined(l, v, AbsorbAt(s, push.prevIndex, push.entries, k).log, push.prevIndex + |push.entries|)
  {
    var r := l.reign[push.term].log;
    AbsorbedLog(s, r, push, k);
    var i := push.prevIndex + k;
    var log := AbsorbAt(s, push.prevIndex, push.entries, k).log;
    if log != s.log {
      if i == |s.log| {
        assert s.log == r[..i];
        assert s.log <= log;
      } else {
        assert ConflictAt(l, v, i);
      }
    }
  }

  lemma AbsorbJoins(l: Ledger, v: nat, s: Core, push: AppendRequest, k: nat)
    requires CompleteOk(l) && CommittedOk(l) && DiskTie(l, v, Saved(s)) && !s.stopped
    requires Settled(l, s.log, s.commit, s.term) && s.term == push.term && CallTie(l, Push(v, push))
    requires push.prevIndex <= |s.log| && TermAt(s.log, push.prevIndex) == push.prevTerm
    requires IsFirstNew(s.log, push.prevIndex, push.entries, k)
    requires Traced(l, s.log) && Traced(l, l.reign[push.term].log)
    ensures var s' := AbsorbAt(s, push.prevIndex, push.entries, k);
            !s'.stopped && Joined(l, v, s'.log, push.prevIndex + |push.entries|)
  {
    NoStop(l, s, push, k);
    HeldAgrees(l, s.log, l.reign[push.term].log, push, k);
    AcceptAllowed(l, v, s, push, k);
  }

  lemma AcceptMatchGrew(l: Ledger, v: nat, log: seq<Entry>, n: nat)
    requires Inv(l) && Joined(l, v, log, n)
    ensures Grew(l, AcceptRecord(l, v, log), v) && Grew(l, AppendRecord(l, v, log, n), v)
    ensures Acked(AppendRecord(l, v, log, n), v, l.term[v], n)
  {
    var m := AcceptRecord(l, v, log);
    if log == l.log[v] {
      GrewSelf(l, v);
    } else {
      AcceptKeeps(l, v, log);
      AcceptOnlyBy(l, v, log);
    }
    MatchKeeps(m, v, n);
    MatchOnlyBy(m, v, n);
    GrewTransitive(l, m, Match(m, v, n), v);
  }

  lemma AcceptOnlyBy(l: Ledger, v: nat, log: seq<Entry>)
    requires v < l.Size() && |l.log| == l.Size()
    ensures OnlyBy(l, Accept(l, v, log), v)
  {
  }

  lemma MatchOnlyBy(l: Ledger, v: nat, n: nat)
    requires v < l.Size() && |l.log| == l.Size()
    ensures OnlyBy(l, Match(l, v, n), v)
  {
  }

  /** A committed prefix survives whatever a current leader sends. */
  lemma SettledSurvives(l: Ledger, v: nat, was: seq<Entry>, log: seq<Entry>, k: nat)
    requires CompleteOk(l) && CommittedOk(l) && v < l.Size() && |l.log| == l.Size() && l.log[v] == was
    requires was == log || CanAccept(l, v, log)
    requires Settled(l, was, k, l.term[v])
    ensures Settled(l, log, k, l.term[v])
  {
    if was != log && k > 0 {
      var term := l.term[v];
      var t :| SettledBy(l, was, k, term, t);
      SettledInReign(l, was, k, term);
      AcceptHolds(l, v, log, k);
      LeaderCompleteness(l, t, term);
      AgreeLess(l.reign[term].log, l.reign[t].log, l.committed[t], k);
      assert SettledBy(l, log, k, term, t);
    }
  }

  /** The commit index a call carries, cut at its last entry, is committed in the follower's log. */
  lemma SettledByCall(l: Ledger, log: seq<Entry>, push: AppendRequest, n: nat)
    requires push.term in l.reign && Settled(l, l.reign[push.term].log, push.commit, push.term)
    requires Agree(log, l.reign[push.term].log, n)
    ensures Settled(l, log, Min(push.commit, n), push.term)
  {
    var k := Min(push.commit, n);
    var r := l.reign[push.term].log;
    if k > 0 {
      var t :| SettledBy(l, r, push.commit, push.term, t);
      AgreeLess(log, r, n, k);
      AgreeLess(r, l.reign[t].log, push.commit, k);
      assert SettledBy(l, log, k, push.term, t);
    }
  }

  /** The successful branch of OnAppend, once the replica follows the leader's term. */
  function Appended(s: Core, push: AppendRequest): Core
    requires push.prevIndex <= |s.log|
  {
    Committing(Absorb(s, push.prevIndex, push.entries), push.commit, push.prevIndex + |push.entries|)
  }

  function Committing(s: Core, commit: nat, n: nat): Core {
    s.(commit := if commit > s.commit then Min(commit, n) else s.commit)
  }

  lemma AppendSettled(l: Ledger, v: nat, s: Core, log: seq<Entry>, push: AppendRequest, n: nat)
    requires CompleteOk(l) && CommittedOk(l) && DiskTie(l, v, Saved(s)) && SettledTie(l, s)
    requires s.term == push.term && push.term in l.reign && Settled(l, l.reign[push.term].log, push.commit, push.term)
    requires Joined(l, v, log, n)
    ensures SettledTie(l, Committing(s.(log := log), push.commit, n))
  {
    SettledSurvives(l, v, s.log, log, s.commit);
    SettledSurvives(l, v, s.log, log, s.applied);
    SettledByCall(l, log, push, n);
  }

  lemma AppendTies(l: Ledger, m: Ledger, v: nat, s: Core, s': Core)
    requires CoreTie(l, v, s) && s.role == Follower && Extends(l, m)
    requires s' == s.(log := s'.log, commit := s'.commit, dirty := s'.dirty, dirtyFrom := s'.dirtyFrom)
    requires m.term == l.term && m.votes == l.votes && m.log == l.log[v := s'.log] && SettledTie(l, s')
    ensures CoreTie(m, v, s')
  {
    SettledTieStays(l, m, s', s');
  }

  lemma AbsorbFields(s: Core, prev: nat, es: seq<Entry>, k: nat)
    requires prev <= |s.log| && IsFirstNew(s.log, prev, es, k)
    ensures var s' := AbsorbAt(s, prev, es, k);
            s' == s.(log := s'.log, dirty := s'.dirty, dirtyFrom := s'.dirtyFrom, stopped := s'.stopped)
  {
  }

  lemma AppendRecordFields(l: Ledger, v: nat, log: seq<Entry>, n: nat)
    requires v < l.Size() && |l.log| == l.Size()
    ensures var m := AppendRecord(l, v, log, n);
            m.term == l.term && m.votes == l.votes && m.log == l.log[v := log]
  {
  }

  lemma BothTraced(l: Ledger, v: nat, t: nat)
    requires |l.log| == l.Size() && ReignOk(l) && LogsOk(l) && v < l.Size() && t in l.reign
    ensures Traced(l, l.log[v]) && Traced(l, l.reign[t].log)
  {
    assert ReignHolds(l, t) && LogHolds(l, v);
  }

  /** What a call's entries do to a follower's log, in any state the group can reach. */
  lemma AppendJoins(l: Ledger, v: nat, s: Core, push: AppendRequest, k: nat)
    requires Inv(l) && CoreTie(l, v, s)
    requires s.term == push.term && CallTie(l, Push(v, push))
    requires push.prevIndex <= |s.log| && TermAt(s.log, push.prevIndex) == push.prevTerm
    requires IsFirstNew(s.log, push.prevIndex, push.entries, k)
    ensures var s' := AbsorbAt(s, push.prevIndex, push.entries, k);
            !s'.stopped && Joined(l, v, s'.log, push.prevIndex + |push.entries|)
  {
    BothTraced(l, v, push.term);
    AbsorbJoins(l, v, s, push, k);
  }

  lemma JoinKeeps(l: Ledger, v: nat, s: Core, s': Core, push: AppendRequest, n: nat)
    requires Inv(l) && CoreTie(l, v, s) && s.role == Follower && s.term == push.term && push.term in l.reign
    requires Settled(l, l.reign[push.term].log, push.commit, push.term)
    requires s' == s.(log := s'.log, dirty := s'.dirty, dirtyFrom := s'.dirtyFrom) && Joined(l, v, s'.log, n)
    ensures var m := AppendRecord(l, v, s'.log, n);
            Grew(l, m, v) && Acked(m, v, s.term, n) && CoreTie(m, v, Committing(s', push.commit, n))
  {
    AcceptMatchGrew(l, v, s'.log, n);
    AppendSettled(l, v, s, s'.log, push, n);
    AppendRecordFields(l, v, s'.log, n);
    AppendTies(l, AppendRecord(l, v, s'.log, n), v, s, Committing(s', push.commit, n));
  }
}
