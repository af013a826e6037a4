/** The durable state as one append-only text file: a record a line, each with the first eight
    characters of a digest of itself. A crash may leave any byte prefix of the batch being written;
    opening the file cuts that tail off and recovers the whole records before it. */
module LogFile {
  import opened RaftTypes
  import opened Text
  import opened LogRecords
  import opened Journal

  const LOG_TAIL_LIMIT: nat := 256 * 1024

  // ---- one record ----

  function VoteWord(votedFor: int): string {
    if votedFor < 0 then "-" else Digits(votedFor)
  }

  function Body(r: Record): string {
    match r
    case TermRecord(t, vote) => Join(["TERM", Digits(t), VoteWord(vote)])
    case EntryRecord(i, e) => Join(["ENTRY", Digits(i), Digits(e.term), e.command])
    case CutRecord(i) => Join(["CUT", Digits(i)])
  }

  function ParseVote(w: string): Option<int> {
    if w == "-" then Some(NOBODY)
    else match ParseNumber(w)
         case Some(v) => if v > 1000 then None else Some(v)
         case None => None
  }

  /** The record a body stands for, if any correct writer writes it. */
  function ParseBody(body: string): Option<Record> {
    ParseWords(Split(body), body)
  }

  function ParseWords(w: seq<string>, body: string): Option<Record>
    requires w != []
  {
    if "" in w then None
    else if w[0] == "TERM" && |w| == 3 then
      match (ParseNumber(w[1]), ParseVote(w[2]))
      case (Some(t), Some(v)) => Some(TermRecord(t, v))
      case _ => None
    else if w[0] == "ENTRY" && |w| >= 4 then
      match (ParseNumber(w[1]), ParseNumber(w[2]))
      case (Some(i), Some(t)) =>
        var at := |w[0]| + |w[1]| + |w[2]| + 3;
        if at <= |body| then Some(EntryRecord(i, Entry(t, body[at..]))) else None
      case _ => None
    else if w[0] == "CUT" && |w| == 2 then
      match ParseNumber(w[1])
      case Some(i) => Some(CutRecord(i))
      case None => None
    else None
  }

  /** A command that can stand in a record: one line, words separated by single spaces. */
  predicate LogLine(c: string) {
    !Has(c, '\n') && forall w | w in Split(c) :: w != ""
  }

  /** Records whose numbers the parser takes. */
  predicate Writable(r: Record) {
    match r
    case TermRecord(t, vote) => t < LIMIT && NOBODY <= vote <= 1000
    case EntryRecord(i, e) => i < LIMIT && e.term < LIMIT && LogLine(e.command)
    case CutRecord(i) => i < LIMIT
  }

  lemma Tags()
    ensures !Has("TERM", ' ') && !Has("ENTRY", ' ') && !Has("CUT", ' ') && !Has("-", ' ')
    ensures !Has("TERM", '\n') && !Has("ENTRY", '\n') && !Has("CUT", '\n') && !Has("-", '\n')
  {
  }

  lemma VoteRoundTrip(vote: int)
    requires NOBODY <= vote <= 1000
    ensures ParseVote(VoteWord(vote)) == Some(vote)
    ensures !Has(VoteWord(vote), ' ') && !Has(VoteWord(vote), '\n') && VoteWord(vote) != ""
  {
    Tags();
    if vote >= 0 {
      NumberRoundTrip(vote);
      DigitsAreWord(vote);
      assert Digits(vote)[0] != '-';
    }
  }

  lemma TermParses(t: nat, vote: int)
    requires t < LIMIT && NOBODY <= vote <= 1000
    ensures ParseBody(Body(TermRecord(t, vote))) == Some(TermRecord(t, vote))
  {
    Tags();
    DigitsAreWord(t);
    NumberRoundTrip(t);
    VoteRoundTrip(vote);
    SplitJoin(["TERM", Digits(t), VoteWord(vote)]);
  }

  lemma CutParses(i: nat)
    requires i < LIMIT
    ensures ParseBody(Body(CutRecord(i))) == Some(CutRecord(i))
  {
    Tags();
    DigitsAreWord(i);
    NumberRoundTrip(i);
    SplitJoin(["CUT", Digits(i)]);
  }

  lemma EntryParses(i: nat, e: Entry)
    requires i < LIMIT && e.term < LIMIT && LogLine(e.command)
    ensures ParseBody(Body(EntryRecord(i, e))) == Some(EntryRecord(i, e))
  {
    NumberRoundTrip(i);
    NumberRoundTrip(e.term);
    EntrySplits(i, e);
    EntryTail(Digits(i), Digits(e.term), e.command);
    var body := Body(EntryRecord(i, e));
    EntryReads(body, Split(body), i, e);
  }

  lemma EntryReads(body: string, w: seq<string>, i: nat, e: Entry)
    requires |w| >= 4 && w[0] == "ENTRY" && "" !in w && ParseNumber(w[1]) == Some(i)
    requires ParseNumber(w[2]) == Some(e.term)
    requires var at := |"ENTRY"| + |w[1]| + |w[2]| + 3; at <= |body| && body[at..] == e.command
    ensures ParseWords(w, body) == Some(EntryRecord(i, e))
  {
  }

  lemma EntrySplits(i: nat, e: Entry)
    requires LogLine(e.command)
    ensures var w := Split(Body(EntryRecord(i, e)));
            |w| >= 4 && w[0] == "ENTRY" && w[1] == Digits(i) && w[2] == Digits(e.term) && "" !in w
  {
    var ws := ["ENTRY", Digits(i), Digits(e.term), e.command];
    Tags();
    DigitsAreWord(i);
    DigitsAreWord(e.term);
    SplitRest(ws, Split(e.command));
    assert ws[..3] == ["ENTRY", Digits(i), Digits(e.term)];
  }

  lemma EntryTail(a: string, b: string, command: string)
    ensures var body, at := Join(["ENTRY", a, b, command]), |"ENTRY"| + |a| + |b| + 3;
            at <= |body| && body[at..] == command
  {
    var ws := ["ENTRY", a, b, command];
    JoinRest(ws);
    assert ws[..3] == ["ENTRY", a, b];
    HeadLength("ENTRY", a, b);
  }

  /** Every record a replica writes parses back to itself. */
  lemma BodyParses(r: Record)
    requires Writable(r)
    ensures ParseBody(Body(r)) == Some(r)
  {
    match r
    case TermRecord(t, vote) => TermParses(t, vote);
    case EntryRecord(i, e) => EntryParses(i, e);
    case CutRecord(i) => CutParses(i);
  }

  lemma BodyIsLine(r: Record)
    requires Writable(r)
    ensures !Has(Body(r), '\n')
  {
    Tags();
    match r
    case TermRecord(t, vote) =>
      DigitsAreWord(t);
      VoteRoundTrip(vote);
      WordsLine(["TERM", Digits(t), VoteWord(vote)]);
    case EntryRecord(i, e) =>
      DigitsAreWord(i);
      DigitsAreWord(e.term);
      WordsLine(["ENTRY", Digits(i), Digits(e.term), e.command]);
    case CutRecord(i) =>
      DigitsAreWord(i);
      WordsLine(["CUT", Digits(i)]);
  }

  // ---- one line ----

  function CheckOf(sha: Digest, body: string): (c: string)
    ensures |c| == 8 && !Has(c, ' ') && !Has(c, '\n')
  {
    sha(body)[..8]
  }

  function LogRecord(sha: Digest, body: string): string {
    body + " " + CheckOf(sha, body)
  }

  /** The body of a line whose check, its last word, matches. */
  function ParseLogRecord(sha: Digest, line: string): Option<string> {
    var body := if |line| >= 9 then line[..|line| - 9] else "";
    if |line| >= 9 && line[|line| - 9] == ' ' && !Has(line[|line| - 8..], ' ') &&
       line[|line| - 8..] == CheckOf(sha, body)
    then Some(body) else None
  }

  lemma RecordParses(sha: Digest, body: string)
    ensures ParseLogRecord(sha, LogRecord(sha, body)) == Some(body)
  {
    var line := LogRecord(sha, body);
    assert line[..|line| - 9] == body && line[|line| - 8..] == CheckOf(sha, body);
  }

  function Line(sha: Digest, r: Record): (s: string)
    ensures |s| >= 1
  {
    LogRecord(sha, Body(r)) + "\n"
  }

  function ReadLine(sha: Digest, d: Durable, line: string): Option<Durable> {
    match ParseLogRecord(sha, line)
    case None => None
    case Some(body) =>
      match ParseBody(body)
      case None => None
      case Some(r) => Replay(d, r)
  }

  lemma LineReads(sha: Digest, d: Durable, r: Record)
    requires Writable(r)
    ensures ReadLine(sha, d, LogRecord(sha, Body(r))) == Replay(d, r)
    ensures !Has(LogRecord(sha, Body(r)), '\n')
  {
    RecordParses(sha, Body(r));
    BodyParses(r);
    BodyIsLine(r);
    HasConcat(Body(r) + " ", CheckOf(sha, Body(r)), '\n');
    HasConcat(Body(r), " ", '\n');
  }

  // ---- the whole file ----

  function Fresh(): Durable {
    Durable(0, NOBODY, [])
  }

  function Reader(sha: Digest): (Durable, string) -> Option<Durable> {
    (d, line) => ReadLine(sha, d, line)
  }

  predicate AllWritable(rs: seq<Record>) {
    forall r | r in rs :: Writable(r)
  }

  // ---- a save of a replica ----

  /** What bounds the numbers of a replica's state: the parser's limits. */
  predicate InRange(d: Durable) {
    && d.term < LIMIT && |d.log| + 1 < LIMIT && NOBODY <= d.votedFor <= 1000
    && forall i | 0 <= i < |d.log| :: d.log[i].term < LIMIT && LogLine(d.log[i].command)
  }

  lemma BatchWritable(d: Durable, n: Durable, from: nat)
    requires Follows(d, n, from) && InRange(n) && InRange(d)
    ensures AllWritable(Batch(d, n, from))
  {
  }

  function Printer(sha: Digest): Record -> string {
    r => Line(sha, r)
  }

  /** The lines one save appends. */
  function BatchLines(sha: Digest, rs: seq<Record>): (ls: seq<string>) {
    Each(Printer(sha), rs)
  }

  function BatchText(sha: Digest, rs: seq<Record>): string {
    Concat(BatchLines(sha, rs))
  }

  /** The states between the records of a batch. */
  ghost function TornStates(d: Durable, n: Durable, from: nat): (ss: seq<Durable>)
    requires Follows(d, n, from)
    ensures |ss| == |Batch(d, n, from)| + 1 && forall k: nat | k < |ss| :: ss[k] == Torn(d, n, from, k)
  {
    seq(|Batch(d, n, from)| + 1, k requires 0 <= k <= |Batch(d, n, from)| => Torn(d, n, from, k))
  }

  lemma LineSteps(sha: Digest, d: Durable, r: Record, line: string)
    requires Writable(r) && line == Line(sha, r)
    ensures IsLine(line) && Reader(sha)(d, line[..|line| - 1]) == Replay(d, r)
  {
    LineReads(sha, d, r);
    assert line[..|line| - 1] == LogRecord(sha, Body(r));
  }

  lemma BatchSteps(sha: Digest, d: Durable, n: Durable, from: nat)
    requires Follows(d, n, from) && InRange(n) && InRange(d)
    ensures Steps(Reader(sha), TornStates(d, n, from), BatchLines(sha, Batch(d, n, from)))
  {
    var batch, ss := Batch(d, n, from), TornStates(d, n, from);
    var ls := BatchLines(sha, batch);
    BatchWritable(d, n, from);
    forall k: nat | k < |ls|
      ensures StepsAt(Reader(sha), ss, ls, k)
    {
      TornStep(d, n, from, k);
      LineSteps(sha, ss[k], batch[k], ls[k]);
    }
  }

  /** From any save a replica makes, whole or torn at any byte, the state recovered is the one the
      group model steps to: the saved state, or what k whole records of the batch replay to. */
  lemma SaveRecovers(sha: Digest, text: string, d: Durable, n: Durable, from: nat, ls: seq<string>, p: nat)
      returns (k: nat)
    requires Holds(Reader(sha), Fresh(), text, d) && Follows(d, n, from) && InRange(d) && InRange(n)
    requires ls == BatchLines(sha, Batch(d, n, from)) && p <= |Concat(ls)| <= LOG_TAIL_LIMIT
    ensures k == Pieces(ls, p) <= |Batch(d, n, from)|
    ensures var file := text + Concat(ls[..k]);
            && Opened(Reader(sha), Fresh(), text + Concat(ls)[..p], LOG_TAIL_LIMIT) == Some((Torn(d, n, from, k), file))
            && Holds(Reader(sha), Fresh(), file, Torn(d, n, from, k))
    ensures p == |Concat(ls)| ==> Torn(d, n, from, k) == n
  {
    BatchSteps(sha, d, n, from);
    TornStart(d, n, from);
    k := CrashRecovers(Reader(sha), Fresh(), text, TornStates(d, n, from), ls, p, LOG_TAIL_LIMIT);
    TornEnd(d, n, from);
  }

  lemma TornEnd(d: Durable, n: Durable, from: nat)
    requires Follows(d, n, from)
    ensures Torn(d, n, from, |Batch(d, n, from)|) == n
  {
    assert n.log[..|n.log|] == n.log;
  }
}
