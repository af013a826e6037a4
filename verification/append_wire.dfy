/** The APPEND call: a line of numbers and a body of entries. */
module AppendWire {
  import opened RaftTypes
  import opened Text
  import opened Names
  import opened Wire

  // ---- one entry, one line ----

  function EntryText(e: Entry): string {
    Digits(e.term) + " " + e.command
  }

  function ParseEntry(line: string): Option<Entry> {
    var space := Find(line, ' ');
    if space == |line| then None
    else
      match ParseNumber(line[..space])
      case None => None
      case Some(t) => if ValidCommand(line[space + 1..]) then Some(Entry(t, line[space + 1..])) else None
  }

  lemma EntryRoundTrip(e: Entry)
    requires e.term < LIMIT && ValidCommand(e.command)
    ensures ParseEntry(EntryText(e)) == Some(e) && !Has(EntryText(e), '\n')
  {
    var d := Digits(e.term);
    DigitsAreWord(e.term);
    FindAfter(d, ' ', e.command);
    NumberRoundTrip(e.term);
    CommandIsLine(e.command);
    assert EntryText(e)[..|d|] == d && EntryText(e)[|d| + 1..] == e.command;
    HasConcat(d, " ", '\n');
    HasConcat(d + " ", e.command, '\n');
  }

  lemma EntryIsPrinted(line: string)
    requires ParseEntry(line).Some?
    ensures EntryText(ParseEntry(line).value) == line && ParseEntry(line).value.term < LIMIT
    ensures ValidCommand(ParseEntry(line).value.command)
  {
    var space := Find(line, ' ');
    NumberIsPrinted(line[..space]);
    assert line == line[..space] + " " + line[space + 1..];
  }

  // ---- the body ----

  /** Terms that never fall, from the one before the entries to the leader's own. */
  predicate InOrder(es: seq<Entry>, prev: nat, term: nat) {
    (forall i | 0 <= i < |es| :: prev <= es[i].term <= term) &&
        forall i, j | 0 <= i < j < |es| :: es[i].term <= es[j].term
  }

  /** How a line is read, how an entry is written, and which entries are. */
  type Reader = string -> Option<Entry>
  type Writer = Entry -> string
  type Test = Entry -> bool

  function EntryReader(): Reader {
    l => ParseEntry(l)
  }

  function EntryWriter(): Writer {
    e => EntryText(e)
  }

  function GoodEntry(): Test {
    (e: Entry) => e.term < LIMIT && ValidCommand(e.command)
  }

  predicate All(good: Test, es: seq<Entry>) {
    forall i | 0 <= i < |es| :: good(es[i])
  }

  function Floor(es: seq<Entry>, prev: nat): nat {
    if es == [] then prev else es[|es| - 1].term
  }

  function ParseLines(read: Reader, ls: seq<string>, prev: nat, term: nat): (r: Option<seq<Entry>>)
    ensures r.Some? ==> |r.value| == |ls|
  {
    if ls == [] then Some([])
    else
      match (ParseLines(read, ls[..|ls| - 1], prev, term), read(ls[|ls| - 1]))
      case (Some(es), Some(e)) => if Floor(es, prev) <= e.term <= term then Some(es + [e]) else None
      case _ => None
  }

  function Body(es: seq<Entry>): string {
    Unlines(Each(EntryWriter(), es))
  }

  function ParseBody(body: string, prev: nat, term: nat): Option<seq<Entry>> {
    match SplitLines(body)
    case None => None
    case Some(ls) => ParseLines(EntryReader(), ls, prev, term)
  }

  lemma {:induction false} LinesParse(read: Reader, ls: seq<string>, es: seq<Entry>, prev: nat, term: nat)
    requires |ls| == |es| && InOrder(es, prev, term) && forall i | 0 <= i < |es| :: read(ls[i]) == Some(es[i])
    ensures ParseLines(read, ls, prev, term) == Some(es)
  {
    if es != [] {
      var k := |es| - 1;
      LinesParse(read, ls[..k], es[..k], prev, term);
      assert es[..k] + [es[k]] == es;
    }
  }

  /** What a line is read as is good, and is written as that line. */
  predicate ReadsBack(read: Reader, write: Writer, good: Test, l: string) {
    read(l).Some? ==> write(read(l).value) == l && good(read(l).value)
  }

  lemma {:induction false} LinesArePrinted(read: Reader, write: Writer, good: Test, ls: seq<string>, prev: nat,
                                           term: nat)
    requires forall l {:trigger ReadsBack(read, write, good, l)} :: ReadsBack(read, write, good, l)
    requires ParseLines(read, ls, prev, term).Some?
    ensures var es := ParseLines(read, ls, prev, term).value;
            InOrder(es, prev, term) && All(good, es) && Each(write, es) == ls
  {
    if ls != [] {
      var k := |ls| - 1;
      LinesArePrinted(read, write, good, ls[..k], prev, term);
      assert ReadsBack(read, write, good, ls[k]);
      LastParsed(read, ls, prev, term, k);
      LinePrinted(write, good, ls, k, ParseLines(read, ls[..k], prev, term).value, read(ls[k]).value, prev, term);
    }
  }

  lemma LastParsed(read: Reader, ls: seq<string>, prev: nat, term: nat, k: nat)
    requires |ls| == k + 1 && ParseLines(read, ls, prev, term).Some?
    ensures ParseLines(read, ls[..k], prev, term).Some? && read(ls[k]).Some?
    ensures var es, e := ParseLines(read, ls[..k], prev, term).value, read(ls[k]).value;
            Floor(es, prev) <= e.term <= term && ParseLines(read, ls, prev, term).value == es + [e]
  {
  }

  lemma LinePrinted(write: Writer, good: Test, ls: seq<string>, k: nat, es: seq<Entry>, e: Entry, prev: nat, term: nat)
    requires |ls| == k + 1 && InOrder(es, prev, term) && All(good, es) && Each(write, es) == ls[..k]
    requires Floor(es, prev) <= e.term <= term && good(e) && write(e) == ls[k]
    ensures InOrder(es + [e], prev, term) && All(good, es + [e]) && Each(write, es + [e]) == ls
  {
    OrderGrows(es, e, prev, term);
    EachMore(write, es, e);
    assert ls == ls[..k] + [ls[k]];
  }

  lemma EachMore(write: Writer, es: seq<Entry>, e: Entry)
    ensures Each(write, es + [e]) == Each(write, es) + [write(e)]
  {
    assert (es + [e])[..|es|] == es;
  }

  lemma OrderGrows(es: seq<Entry>, e: Entry, prev: nat, term: nat)
    requires InOrder(es, prev, term) && Floor(es, prev) <= e.term <= term
    ensures InOrder(es + [e], prev, term)
  {
  }

  lemma BodyRoundTrip(es: seq<Entry>, prev: nat, term: nat)
    requires All(GoodEntry(), es) && InOrder(es, prev, term)
    ensures ParseBody(Body(es), prev, term) == Some(es)
  {
    var ls := Each(EntryWriter(), es);
    forall i | 0 <= i < |es|
      ensures EntryReader()(ls[i]) == Some(es[i]) && !Has(ls[i], '\n')
    {
      assert ls[i] == EntryWriter()(es[i]) && GoodEntry()(es[i]);
      EntryRoundTrip(es[i]);
    }
    assert forall l | l in ls :: !Has(l, '\n');
    SplitUnlines(ls);
    LinesParse(EntryReader(), ls, es, prev, term);
  }

  lemma BodyIsPrinted(body: string, prev: nat, term: nat)
    requires ParseBody(body, prev, term).Some?
    ensures var es := ParseBody(body, prev, term).value;
            Body(es) == body && All(GoodEntry(), es) && InOrder(es, prev, term)
  {
    var ls := SplitLines(body).value;
    forall l
      ensures ReadsBack(EntryReader(), EntryWriter(), GoodEntry(), l)
    {
      if EntryReader()(l).Some? {
        EntryIsPrinted(l);
      }
    }
    LinesArePrinted(EntryReader(), EntryWriter(), GoodEntry(), ls, prev, term);
    UnlinesSplit(body, ls);
  }

  /** The loop that reads the lines of a body and refuses as soon as it can. */
  method ReadEntries(read: Reader, ls: seq<string>, prev: nat, term: nat, count: nat) returns (r: Option<seq<Entry>>)
    ensures var p := ParseLines(read, ls, prev, term); r == if p.Some? && |ls| == count then p else None
  {
    var es: seq<Entry> := [];
    for i := 0 to |ls|
      invariant i <= count && ParseLines(read, ls[..i], prev, term) == Some(es)
    {
      var e := read(ls[i]);
      assert ls[..i + 1][..i] == ls[..i];
      if e.None? || e.value.term < Floor(es, prev) || e.value.term > term {
        Refused(read, ls, i + 1, prev, term);
        return None;
      }
      es := es + [e.value];
      if |es| > count {
        return None;
      }
    }
    assert ls[..|ls|] == ls;
    r := if |es| == count then Some(es) else None;
  }

  method ReadBody(body: string, prev: nat, term: nat, count: nat) returns (r: Option<seq<Entry>>)
    ensures var p := ParseBody(body, prev, term); r == if p.Some? && |p.value| == count then p else None
  {
    var lines := ReadLines(body);
    if lines.None? {
      return None;
    }
    r := ReadEntries(EntryReader(), lines.value, prev, term, count);
  }

  /** A prefix that is refused refuses the whole. */
  lemma {:induction false} Refused(read: Reader, ls: seq<string>, i: nat, prev: nat, term: nat)
    requires i <= |ls| && ParseLines(read, ls[..i], prev, term) == None
    ensures ParseLines(read, ls, prev, term) == None
    decreases |ls|
  {
    if i == |ls| {
      assert ls[..i] == ls;
    } else {
      assert ls[..|ls| - 1][..i] == ls[..i];
      Refused(read, ls[..|ls| - 1], i, prev, term);
    }
  }

  // ---- the call ----

  /** The numbers of the line, the last of them the length of the body. */
  function NumbersOf(r: AppendRequest, length: nat): (ns: seq<nat>)
    ensures |ns| == 8 && ns[0] == r.term && ns[1] == r.leader && ns[2] == r.prevIndex && ns[3] == r.prevTerm
    ensures ns[4] == r.commit && ns[5] == r.number && ns[6] == |r.entries| && ns[7] == length
  {
    [r.term, r.leader, r.prevIndex, r.prevTerm, r.commit, r.number, |r.entries|, length]
  }

  function EncodeAppend(group: string, r: AppendRequest): (string, string) {
    var body := Body(r.entries);
    (Join(["APPEND", group] + Nums(NumbersOf(r, |body|))), body)
  }

  /** The call that the line's numbers and the body's entries make. */
  function Assemble(group: string, ns: seq<nat>, length: nat,
                    parsed: Option<seq<Entry>>): Option<(string, AppendRequest)>
    requires |ns| == 8
  {
    if ns[1] > MAX_ID || ns[7] != length then None
    else
      match parsed
      case None => None
      case Some(es) =>
          if |es| == ns[6] then Some((group, AppendRequest(ns[0], ns[1], ns[2], ns[3], es, ns[4], ns[5]))) else None
  }

  function ParseAppend(w: seq<string>, body: string): Option<(string, AppendRequest)> {
    if |w| != 10 || w[0] != "APPEND" then None
    else
      match ParseNums(w[2..])
      case None => None
      case Some(ns) => Assemble(w[1], ns, |body|, ParseBody(body, ns[3], ns[0]))
  }

  /** A call that is fit to send. */
  predicate Sendable(r: AppendRequest) {
    && Small(NumbersOf(r, |Body(r.entries)|)) && r.leader <= MAX_ID
    && All(GoodEntry(), r.entries) && InOrder(r.entries, r.prevTerm, r.term)
  }

  lemma AppendRoundTrip(group: string, r: AppendRequest)
    requires !Has(group, ' ') && Sendable(r)
    ensures ParseAppend(Split(EncodeAppend(group, r).0), EncodeAppend(group, r).1) == Some((group, r))
  {
    BodyRoundTrip(r.entries, r.prevTerm, r.term);
    var body := Body(r.entries);
    AppendReads(group, r, NumbersOf(r, |body|), EncodeAppend(group, r).0, body);
  }

  lemma AppendReads(group: string, r: AppendRequest, ns: seq<nat>, line: string, body: string)
    requires !Has(group, ' ') && |ns| == 8 && Small(ns) && line == Join(["APPEND", group] + Nums(ns))
    requires r.leader <= MAX_ID
    requires ns[0] == r.term && ns[1] == r.leader && ns[2] == r.prevIndex && ns[3] == r.prevTerm && ns[4] == r.commit
    requires ns[5] == r.number
    requires ns[6] == |r.entries| && ns[7] == |body| && ParseBody(body, r.prevTerm, r.term) == Some(r.entries)
    ensures ParseAppend(Split(line), body) == Some((group, r))
  {
    AppendLine(group, ns, line);
    ParsedIs(Split(line), group, ns, body, r.prevTerm, r.term, Some(r.entries));
  }

  lemma AppendLine(group: string, ns: seq<nat>, line: string)
    requires !Has(group, ' ') && |ns| == 8 && Small(ns) && line == Join(["APPEND", group] + Nums(ns))
    ensures var w := Split(line); |w| == 10 && w[0] == "APPEND" && w[1] == group && ParseNums(w[2..]) == Some(ns)
  {
    Wire.Verbs();
    var pre := ["APPEND", group];
    LineRoundTrip(pre, ns);
    assert (pre + Nums(ns))[2..] == (pre + Nums(ns))[|pre|..];
  }

  lemma ParsedIs(w: seq<string>, group: string, ns: seq<nat>, body: string, prev: nat, term: nat,
                 parsed: Option<seq<Entry>>)
    requires |w| == 10 && w[0] == "APPEND" && w[1] == group && |ns| == 8 && ns[3] == prev && ns[0] == term
    requires ParseNums(w[2..]) == Some(ns) && ParseBody(body, prev, term) == parsed
    ensures ParseAppend(w, body) == Assemble(group, ns, |body|, parsed)
  {
  }

  /** And nothing but what is printed is read: every call accepted is fit to send. */
  lemma AppendIsPrinted(line: string, body: string)
    requires ParseAppend(Split(line), body).Some?
    ensures var (group, r) := ParseAppend(Split(line), body).value;
            EncodeAppend(group, r) == (line, body) && Sendable(r)
  {
    var w := Split(line);
    var ns := ParseNums(w[2..]).value;
    LineIsPrinted(line, 2, ns);
    assert w[..2] == ["APPEND", w[1]];
    BodyIsPrinted(body, ns[3], ns[0]);
    AssembledIs(w[1], ns, |body|, ParseBody(body, ns[3], ns[0]));
  }

  lemma AssembledIs(group: string, ns: seq<nat>, length: nat, parsed: Option<seq<Entry>>)
    requires |ns| == 8 && Assemble(group, ns, length, parsed).Some?
    ensures var (g, r) := Assemble(group, ns, length, parsed).value;
            g == group && NumbersOf(r, length) == ns && Some(r.entries) == parsed
  {
  }
}
