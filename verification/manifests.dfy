/** Manifests: the text that lists a file's chunks, or the manifests below it. Printing and parsing are
    exact inverses, and a printed manifest fits one chunk. */
module Manifests {
  import opened Text

  const U64: nat := 0x1_0000_0000_0000_0000
  const MAX_CHUNK: nat := 512 * 1024
  const MANIFEST_FANOUT: nat := 8192

  datatype Kind = Data | Index
  datatype ManifestEntry = ManifestEntry(key: string, bytes: nat)
  datatype Manifest = Manifest(size: nat, chunk: nat, kind: Kind, entries: seq<ManifestEntry>)

  // ---- what a manifest may say ----

  function Sum(es: seq<ManifestEntry>): nat {
    if es == [] then 0 else Sum(es[..|es| - 1]) + es[|es| - 1].bytes
  }

  /** Data: every chunk full but the last, which holds 1 to `chunk` bytes. Index: no child empty, every
      child but the last a whole number of chunks. */
  predicate FitsAt(kind: Kind, chunk: nat, bytes: nat, last: bool)
    requires chunk >= 1
  {
    match kind
    case Data => if last then 1 <= bytes <= chunk else bytes == chunk
    case Index => bytes >= 1 && (last || bytes % chunk == 0)
  }

  predicate Shaped(kind: Kind, chunk: nat, es: seq<ManifestEntry>)
    requires chunk >= 1
  {
    && (forall i | 0 <= i < |es| :: FitsAt(kind, chunk, es[i].bytes, i + 1 == |es|))
    && (kind == Index ==> es != [])
  }

  predicate ValidEntry(e: ManifestEntry) {
    HexKey(e.key) && e.bytes < U64
  }

  predicate Valid(m: Manifest) {
    && m.size < U64 && 1 <= m.chunk <= MAX_CHUNK && |m.entries| <= MANIFEST_FANOUT
    && (forall i | 0 <= i < |m.entries| :: ValidEntry(m.entries[i]))
    && Sum(m.entries) == m.size && Shaped(m.kind, m.chunk, m.entries)
  }

  // ---- numbers up to 2^64 - 1 ----

  function ParseWide(s: string): Option<nat> {
    if 1 <= |s| <= 20 && (|s| > 1 ==> s[0] != '0') && AllDigits(s) && Value(s) < U64 then Some(Value(s)) else None
  }

  /** The loop that reads one, refusing before it would wrap. */
  method ReadWide(s: string) returns (r: Option<nat>)
    ensures r == ParseWide(s)
  {
    if |s| == 0 || |s| > 20 || (|s| > 1 && s[0] == '0') {
      return None;
    }
    var v := 0;
    for i := 0 to |s|
      invariant AllDigits(s[..i]) && v == Value(s[..i]) && v < U64
    {
      if !IsDigit(s[i]) {
        return None;
      }
      assert s[..i + 1][..i] == s[..i];
      var d := ValueOf(s[i]);
      if v > (U64 - 1 - d) / 10 {
        WideGrows(s, i + 1);
        return None;
      }
      v := 10 * v + d;
    }
    assert s[..|s|] == s;
    return Some(v);
  }

  lemma {:induction false} WideGrows(s: string, i: nat)
    requires i <= |s| && AllDigits(s[..i]) && Value(s[..i]) >= U64
    ensures !(AllDigits(s) && Value(s) < U64)
    decreases |s| - i
  {
    if i == |s| {
      assert s[..i] == s;
    } else if AllDigits(s) {
      assert s[..i + 1][..i] == s[..i];
      WideGrows(s, i + 1);
    }
  }

  lemma WideIsShort(n: nat)
    requires n < U64
    ensures |Digits(n)| <= 20
  {
    LimitIsPow();
    assert Pow10(19) == 10 * LIMIT && Pow10(20) == 10 * Pow10(19);
    DigitsLength(n, 20);
  }

  lemma WideRoundTrip(n: nat)
    requires n < U64
    ensures ParseWide(Digits(n)) == Some(n)
  {
    ValueDigits(n);
    WideIsShort(n);
    if n >= 10 {
      DigitsLength(n, 1);
    } else {
      assert Digits(n) == [DigitOf(n)];
    }
  }

  lemma WideIsPrinted(s: string)
    requires ParseWide(s).Some?
    ensures s == Digits(ParseWide(s).value) && ParseWide(s).value < U64
  {
    DigitsValue(s);
  }

  // ---- lines ----

  const MAGIC := "chordfs-manifest 1"

  function Header(name: string, n: nat): string {
    name + " " + Digits(n)
  }

  function ParseHeader(line: string, name: string): Option<nat> {
    if name + " " <= line then ParseWide(line[|name| + 1..]) else None
  }

  lemma HeaderRoundTrip(name: string, n: nat)
    requires n < U64
    ensures ParseHeader(Header(name, n), name) == Some(n)
  {
    WideRoundTrip(n);
    assert Header(name, n)[|name| + 1..] == Digits(n);
  }

  lemma HeaderIsPrinted(line: string, name: string)
    requires ParseHeader(line, name).Some?
    ensures line == Header(name, ParseHeader(line, name).value) && ParseHeader(line, name).value < U64
  {
    WideIsPrinted(line[|name| + 1..]);
    assert line == line[..|name| + 1] + line[|name| + 1..];
  }

  function EntryLine(e: ManifestEntry): string {
    e.key + " " + Digits(e.bytes)
  }

  function ParseEntry(l: string): Option<ManifestEntry> {
    if |l| >= 42 && l[40] == ' ' && HexKey(l[..40]) then
      match ParseWide(l[41..])
      case Some(n) => Some(ManifestEntry(l[..40], n))
      case None => None
    else None
  }

  lemma EntryRoundTrip(e: ManifestEntry)
    requires ValidEntry(e)
    ensures ParseEntry(EntryLine(e)) == Some(e)
  {
    var l := EntryLine(e);
    WideRoundTrip(e.bytes);
    assert l[..40] == e.key && l[41..] == Digits(e.bytes);
  }

  lemma EntryIsPrinted(l: string)
    requires ParseEntry(l).Some?
    ensures EntryLine(ParseEntry(l).value) == l && ValidEntry(ParseEntry(l).value)
  {
    WideIsPrinted(l[41..]);
    assert l == l[..40] + [l[40]] + l[41..];
  }

  function ParseEntries(ls: seq<string>): Option<seq<ManifestEntry>> {
    if ls == [] then Some([])
    else
      match (ParseEntries(ls[..|ls| - 1]), ParseEntry(ls[|ls| - 1]))
      case (Some(es), Some(e)) => Some(es + [e])
      case _ => None
  }

  function EntryPrinter(): ManifestEntry -> string {
    e => EntryLine(e)
  }

  lemma {:induction false} EachParses(ls: seq<string>, es: seq<ManifestEntry>)
    requires |ls| == |es| && forall i | 0 <= i < |es| :: ParseEntry(ls[i]) == Some(es[i])
    ensures ParseEntries(ls) == Some(es)
  {
    if es != [] {
      var k := |es| - 1;
      EachParses(ls[..k], es[..k]);
      assert es == es[..k] + [es[k]];
    }
  }

  lemma EntriesRoundTrip(es: seq<ManifestEntry>)
    requires forall i | 0 <= i < |es| :: ValidEntry(es[i])
    ensures ParseEntries(Each(EntryPrinter(), es)) == Some(es)
  {
    var ls := Each(EntryPrinter(), es);
    forall i | 0 <= i < |es|
      ensures ParseEntry(ls[i]) == Some(es[i])
    {
      EntryRoundTrip(es[i]);
    }
    EachParses(ls, es);
  }

  lemma {:induction false} EntriesArePrinted(ls: seq<string>)
    requires ParseEntries(ls).Some?
    ensures var es := ParseEntries(ls).value;
            Each(EntryPrinter(), es) == ls && forall i | 0 <= i < |es| :: ValidEntry(es[i])
  {
    if ls != [] {
      var k := |ls| - 1;
      EntriesArePrinted(ls[..k]);
      EntryIsPrinted(ls[k]);
      LastEntry(ls, k);
      PrintedMore(EntryPrinter(), ParseEntries(ls[..k]).value, ParseEntry(ls[k]).value, ls, k);
    }
  }

  lemma LastEntry(ls: seq<string>, k: nat)
    requires |ls| == k + 1 && ParseEntries(ls).Some?
    ensures ParseEntries(ls[..k]).Some? && ParseEntry(ls[k]).Some?
    ensures ParseEntries(ls).value == ParseEntries(ls[..k]).value + [ParseEntry(ls[k]).value]
  {
  }

  lemma PrintedMore(f: ManifestEntry -> string, es: seq<ManifestEntry>, e: ManifestEntry, ls: seq<string>, k: nat)
    requires |ls| == k + 1 && Each(f, es) == ls[..k] && f(e) == ls[k]
    ensures Each(f, es + [e]) == ls
  {
    assert (es + [e])[..|es|] == es;
    assert ls == ls[..k] + [ls[k]];
  }

  // ---- the whole text ----

  function KindLine(kind: Kind): string {
    if kind == Data then "kind data" else "kind index"
  }

  function FormatLines(m: Manifest): seq<string> {
    [MAGIC, Header("size", m.size), Header("chunk", m.chunk), KindLine(m.kind), Header("entries", |m.entries|)]
      + Each(EntryPrinter(), m.entries)
  }

  function Format(m: Manifest): string {
    Unlines(FormatLines(m))
  }

  function ParseKind(l: string): Option<Kind> {
    if l == "kind data" then Some(Data) else if l == "kind index" then Some(Index) else None
  }

  /** The header's four lines after the first, and the count they give. */
  function ParseTop(ls: seq<string>): Option<Manifest>
    requires |ls| >= 5
  {
    if ls[0] != MAGIC then None
    else
      match (ParseHeader(ls[1], "size"), ParseHeader(ls[2], "chunk"), ParseKind(ls[3]), ParseHeader(ls[4], "entries"))
      case (Some(size), Some(chunk), Some(kind), Some(count)) =>
        if chunk == 0 || chunk > MAX_CHUNK || count != |ls| - 5 then None else Some(Manifest(size, chunk, kind, []))
      case _ => None
  }

  function ParseLines(ls: seq<string>): Option<Manifest> {
    if |ls| < 5 || |ls| - 5 > MANIFEST_FANOUT then None
    else
      match (ParseTop(ls), ParseEntries(ls[5..]))
      case (Some(top), Some(es)) =>
        if Sum(es) == top.size && Shaped(top.kind, top.chunk, es) then Some(top.(entries := es)) else None
      case _ => None
  }

  function Parse(text: string): Option<Manifest> {
    match SplitLines(text)
    case None => None
    case Some(ls) => ParseLines(ls)
  }

  lemma HeaderIsLine(name: string, n: nat)
    requires !Has(name, '\n')
    ensures !Has(Header(name, n), '\n')
  {
    DigitsAreWord(n);
    HasConcat(name, " ", '\n');
    HasConcat(name + " ", Digits(n), '\n');
  }

  lemma EntryIsLine(e: ManifestEntry)
    requires HexKey(e.key)
    ensures !Has(EntryLine(e), '\n')
  {
    HexIsWord(e.key);
    HeaderIsLine(e.key, e.bytes);
  }

  lemma FixedLines()
    ensures !Has(MAGIC, '\n') && !Has("kind data", '\n') && !Has("kind index", '\n')
    ensures !Has("size", '\n') && !Has("chunk", '\n') && !Has("entries", '\n')
    ensures "kind data" != "kind index"
  {
    assert "kind data"[5] == 'd' && "kind index"[5] == 'i';
  }

  lemma FormatIsLines(m: Manifest)
    requires forall i | 0 <= i < |m.entries| :: HexKey(m.entries[i].key)
    ensures OneLiners(FormatLines(m))
  {
    FixedLines();
    HeaderIsLine("size", m.size);
    HeaderIsLine("chunk", m.chunk);
    HeaderIsLine("entries", |m.entries|);
    var es := Each(EntryPrinter(), m.entries);
    forall l | l in es
      ensures !Has(l, '\n')
    {
      var i :| 0 <= i < |es| && es[i] == l;
      EntryIsLine(m.entries[i]);
    }
  }

  lemma TopRoundTrip(m: Manifest, ls: seq<string>)
    requires Valid(m) && ls == FormatLines(m)
    ensures |ls| >= 5 && ParseTop(ls) == Some(m.(entries := []))
  {
    FixedLines();
    HeaderRoundTrip("size", m.size);
    HeaderRoundTrip("chunk", m.chunk);
    HeaderRoundTrip("entries", |m.entries|);
  }

  /** Every valid manifest parses back from its text. */
  lemma ParseFormat(m: Manifest)
    requires Valid(m)
    ensures Parse(Format(m)) == Some(m)
  {
    var ls := FormatLines(m);
    FormatIsLines(m);
    SplitUnlines(ls);
    TopRoundTrip(m, ls);
    assert ls[5..] == Each(EntryPrinter(), m.entries);
    EntriesRoundTrip(m.entries);
  }

  lemma TopIsPrinted(ls: seq<string>)
    requires |ls| >= 5 && ParseTop(ls).Some?
    ensures var top := ParseTop(ls).value;
            && ls[..5] == [MAGIC, Header("size", top.size), Header("chunk", top.chunk), KindLine(top.kind),
                           Header("entries", |ls| - 5)]
            && top.size < U64 && 1 <= top.chunk <= MAX_CHUNK
  {
    HeaderIsPrinted(ls[1], "size");
    HeaderIsPrinted(ls[2], "chunk");
    HeaderIsPrinted(ls[4], "entries");
  }

  /** Only texts that Format prints, for valid manifests, are accepted. */
  lemma FormatParse(text: string)
    requires Parse(text).Some?
    ensures Valid(Parse(text).value) && Format(Parse(text).value) == text
  {
    var ls := SplitLines(text).value;
    UnlinesSplit(text, ls);
    LinesArePrinted(ls, Parse(text).value);
  }

  lemma LinesArePrinted(ls: seq<string>, m: Manifest)
    requires ParseLines(ls) == Some(m)
    ensures Valid(m) && FormatLines(m) == ls
  {
    TopIsPrinted(ls);
    EntriesArePrinted(ls[5..]);
    assert ls == ls[..5] + ls[5..];
  }

  // ---- it fits one chunk ----

  lemma OneMoreLine(n: nat, w: nat)
    requires n >= 1
    ensures n * (w + 1) == (n - 1) * (w + 1) + (w + 1)
  {
  }

  lemma {:induction false} LinesLong(ls: seq<string>, w: nat)
    requires forall l | l in ls :: |l| <= w
    ensures |Unlines(ls)| <= |ls| * (w + 1)
  {
    if ls != [] {
      assert forall l | l in ls[1..] :: l in ls;
      LinesLong(ls[1..], w);
      OneMoreLine(|ls|, w);
    }
  }

  /** A manifest of at most 8192 entries is at most one chunk long. */
  lemma FormatFits(m: Manifest)
    requires Valid(m)
    ensures |Format(m)| <= MAX_CHUNK
  {
    var ls := FormatLines(m);
    WideIsShort(m.size);
    WideIsShort(m.chunk);
    WideIsShort(|m.entries|);
    forall l | l in ls
      ensures |l| <= 61
    {
      if l in Each(EntryPrinter(), m.entries) {
        var i :| 0 <= i < |m.entries| && Each(EntryPrinter(), m.entries)[i] == l;
        WideIsShort(m.entries[i].bytes);
      }
    }
    LinesLong(ls, 61);
    assert |ls| * 62 <= 8197 * 62;
  }
}
