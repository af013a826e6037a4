/** The replicas' wire format: one line of words for a call or a reply, and for APPEND a body of entry lines. Every
    number is below 10^18 and every replica id at most 1000. */
module Wire {
  import opened RaftTypes
  import opened Text

  const MAX_ID: nat := 1000

  // ---- lines of words, the last of them numbers ----

  function Nums(ns: seq<nat>): (ws: seq<string>)
    ensures |ws| == |ns| && forall i | 0 <= i < |ns| :: ws[i] == Digits(ns[i])
  {
    seq(|ns|, i requires 0 <= i < |ns| => Digits(ns[i]))
  }

  function ParseNums(ws: seq<string>): (r: Option<seq<nat>>)
    ensures r.Some? ==> |r.value| == |ws|
  {
    if ws == [] then Some([])
    else
      match (ParseNums(ws[..|ws| - 1]), ParseNumber(ws[|ws| - 1]))
      case (Some(ns), Some(n)) => Some(ns + [n])
      case _ => None
  }

  predicate Small(ns: seq<nat>) {
    forall i | 0 <= i < |ns| :: ns[i] < LIMIT
  }

  lemma {:induction false} NumsRoundTrip(ns: seq<nat>)
    requires Small(ns)
    ensures ParseNums(Nums(ns)) == Some(ns)
  {
    if ns != [] {
      var k := |ns| - 1;
      NumsRoundTrip(ns[..k]);
      NumberRoundTrip(ns[k]);
      assert Nums(ns)[..k] == Nums(ns[..k]);
      assert ns[..k] + [ns[k]] == ns;
    }
  }

  lemma {:induction false} NumsArePrinted(ws: seq<string>)
    requires ParseNums(ws).Some?
    ensures ws == Nums(ParseNums(ws).value) && Small(ParseNums(ws).value)
  {
    if ws != [] {
      var k := |ws| - 1;
      NumsArePrinted(ws[..k]);
      NumberIsPrinted(ws[k]);
    }
  }

  /** A verb, perhaps a group, and numbers. */
  predicate Words(ws: seq<string>) {
    ws != [] && forall i | 0 <= i < |ws| :: !Has(ws[i], ' ')
  }

  lemma LineRoundTrip(ws: seq<string>, ns: seq<nat>)
    requires Words(ws) && Small(ns)
    ensures Split(Join(ws + Nums(ns))) == ws + Nums(ns) && ParseNums((ws + Nums(ns))[|ws|..]) == Some(ns)
  {
    var all := ws + Nums(ns);
    forall w | w in all
      ensures !Has(w, ' ')
    {
      var i :| 0 <= i < |all| && all[i] == w;
      if i >= |ws| {
        DigitsAreWord(ns[i - |ws|]);
      }
    }
    SplitJoin(all);
    assert all[|ws|..] == Nums(ns);
    NumsRoundTrip(ns);
  }

  lemma LineIsPrinted(line: string, k: nat, ns: seq<nat>)
    requires 1 <= k <= |Split(line)| && ParseNums(Split(line)[k..]) == Some(ns)
    ensures line == Join(Split(line)[..k] + Nums(ns)) && Small(ns)
  {
    NumsArePrinted(Split(line)[k..]);
    assert Split(line) == Split(line)[..k] + Split(line)[k..];
    JoinSplit(line);
  }

  // ---- votes and replies ----

  function EncodeVote(group: string, r: VoteRequest): string {
    Join(["VOTE", group] + Nums([r.term, r.candidate, r.lastIndex, r.lastTerm]))
  }

  function ParseVote(w: seq<string>): Option<(string, VoteRequest)> {
    if |w| != 6 || w[0] != "VOTE" then None
    else
      match ParseNums(w[2..])
      case None => None
      case Some(ns) => if ns[1] <= MAX_ID then Some((w[1], VoteRequest(ns[0], ns[1], ns[2], ns[3]))) else None
  }

  function EncodeVoteReply(r: VoteReply): string {
    Join(["VOTED"] + Nums([r.term, if r.granted then 1 else 0]))
  }

  function ParseVoteReply(w: seq<string>): Option<VoteReply> {
    if |w| != 3 || w[0] != "VOTED" then None
    else
      match ParseNums(w[1..])
      case None => None
      case Some(ns) => if ns[1] <= 1 then Some(VoteReply(ns[0], ns[1] == 1)) else None
  }

  function EncodeAppendReply(r: AppendReply): string {
    Join(["APPENDED"] + Nums([r.term, if r.success then 1 else 0, r.index]))
  }

  function ParseAppendReply(w: seq<string>): Option<AppendReply> {
    if |w| != 4 || w[0] != "APPENDED" then None
    else
      match ParseNums(w[1..])
      case None => None
      case Some(ns) => if ns[1] <= 1 then Some(AppendReply(ns[0], ns[1] == 1, ns[2])) else None
  }

  lemma Verbs()
    ensures !Has("VOTE", ' ') && !Has("VOTED", ' ') && !Has("APPEND", ' ') && !Has("APPENDED", ' ')
  {
  }

  /** A vote request whose numbers are in range is read back. */
  lemma VoteRoundTrip(group: string, r: VoteRequest)
    requires !Has(group, ' ') && Small([r.term, r.candidate, r.lastIndex, r.lastTerm]) && r.candidate <= MAX_ID
    ensures ParseVote(Split(EncodeVote(group, r))) == Some((group, r))
  {
    Verbs();
    var ns := [r.term, r.candidate, r.lastIndex, r.lastTerm];
    LineRoundTrip(["VOTE", group], ns);
    var w := ["VOTE", group] + Nums(ns);
    assert w[2..] == w[|["VOTE", group]|..];
  }

  /** And nothing but what is printed is read. */
  lemma VoteIsPrinted(line: string)
    requires ParseVote(Split(line)).Some?
    ensures var (group, r) := ParseVote(Split(line)).value; EncodeVote(group, r) == line
  {
    var w := Split(line);
    var ns := ParseNums(w[2..]).value;
    LineIsPrinted(line, 2, ns);
    assert w[..2] == ["VOTE", w[1]];
    assert ns == [ns[0], ns[1], ns[2], ns[3]];
  }

  lemma VoteReplyRoundTrip(r: VoteReply)
    requires r.term < LIMIT
    ensures ParseVoteReply(Split(EncodeVoteReply(r))) == Some(r)
  {
    Verbs();
    var ns := [r.term, if r.granted then 1 else 0];
    LineRoundTrip(["VOTED"], ns);
    assert (["VOTED"] + Nums(ns))[1..] == (["VOTED"] + Nums(ns))[|["VOTED"]|..];
  }

  lemma VoteReplyIsPrinted(line: string)
    requires ParseVoteReply(Split(line)).Some?
    ensures EncodeVoteReply(ParseVoteReply(Split(line)).value) == line
  {
    var w := Split(line);
    var ns := ParseNums(w[1..]).value;
    LineIsPrinted(line, 1, ns);
    OneWord(w, "VOTED");
    assert ns == [ns[0], ns[1]];
  }

  lemma OneWord(w: seq<string>, verb: string)
    requires w != [] && w[0] == verb
    ensures w[..1] == [verb]
  {
  }

  lemma AppendReplyRoundTrip(r: AppendReply)
    requires r.term < LIMIT && r.index < LIMIT
    ensures ParseAppendReply(Split(EncodeAppendReply(r))) == Some(r)
  {
    Verbs();
    var ns := [r.term, if r.success then 1 else 0, r.index];
    LineRoundTrip(["APPENDED"], ns);
    assert (["APPENDED"] + Nums(ns))[1..] == (["APPENDED"] + Nums(ns))[|["APPENDED"]|..];
  }

  lemma AppendReplyIsPrinted(line: string)
    requires ParseAppendReply(Split(line)).Some?
    ensures EncodeAppendReply(ParseAppendReply(Split(line)).value) == line
  {
    var w := Split(line);
    var ns := ParseNums(w[1..]).value;
    LineIsPrinted(line, 1, ns);
    OneWord(w, "APPENDED");
    assert ns == [ns[0], ns[1], ns[2]];
  }
}
