/** Words, lines and decimal numbers, as every printer and parser of the system writes and reads
    them: numbers canonical, words separated by single spaces, lines ended by a newline. */
module Text {
  datatype Option<+T> = None | Some(value: T)

  // ---- characters ----

  predicate Has(s: string, c: char) {
    exists i | 0 <= i < |s| :: s[i] == c
  }

  lemma HasConcat(a: string, b: string, c: char)
    ensures Has(a + b, c) <==> Has(a, c) || Has(b, c)
  {
    if Has(a, c) {
      var i :| 0 <= i < |a| && a[i] == c;
      assert (a + b)[i] == c;
    }
    if Has(b, c) {
      var i :| 0 <= i < |b| && b[i] == c;
      assert (a + b)[|a| + i] == c;
    }
    if Has(a + b, c) {
      var i :| 0 <= i < |a + b| && (a + b)[i] == c;
      assert if i < |a| then a[i] == c else b[i - |a|] == c;
    }
  }

  /** Where `c` first occurs, or the length. */
  function Find(s: string, c: char): (i: nat)
    ensures i <= |s| && c !in s[..i] && (i < |s| ==> s[i] == c)
    ensures i == |s| <==> !Has(s, c)
  {
    if s == [] then 0 else if s[0] == c then 0
    else
      var i := 1 + Find(s[1..], c);
      assert s[..i] == [s[0]] + s[1..][..i - 1];
      assert forall k | 1 <= k < |s| :: s[k] == s[1..][k - 1];
      i
  }

  lemma FindIs(s: string, c: char, i: nat)
    requires i <= |s| && c !in s[..i] && (i < |s| ==> s[i] == c)
    ensures Find(s, c) == i
  {
    var j := Find(s, c);
    assert forall k | 0 <= k < i :: s[..i][k] == s[k];
    assert forall k | 0 <= k < j :: s[..j][k] == s[k];
  }

  lemma FindAfter(a: string, c: char, b: string)
    requires !Has(a, c)
    ensures Find(a + [c] + b, c) == |a|
  {
    var s := a + [c] + b;
    assert s[..|a|] == a;
    FindIs(s, c, |a|);
  }

  // ---- decimal numbers ----

  predicate IsDigit(c: char) {
    '0' <= c <= '9'
  }

  function DigitOf(n: nat): (c: char)
    requires n < 10
    ensures IsDigit(c)
  {
    '0' + n as char
  }

  function ValueOf(c: char): (n: nat)
    requires IsDigit(c)
    ensures n < 10 && DigitOf(n) == c
  {
    (c - '0') as nat
  }

  /** A number as it is printed. */
  function Digits(n: nat): (s: string)
    ensures |s| >= 1 && forall i | 0 <= i < |s| :: IsDigit(s[i])
  {
    if n < 10 then [DigitOf(n)] else Digits(n / 10) + [DigitOf(n % 10)]
  }

  function Value(s: string): nat
    requires forall i | 0 <= i < |s| :: IsDigit(s[i])
  {
    if s == [] then 0 else 10 * Value(s[..|s| - 1]) + ValueOf(s[|s| - 1])
  }

  predicate AllDigits(s: string) {
    forall i | 0 <= i < |s| :: IsDigit(s[i])
  }

  /** Digits only, no leading zero, at most 18 of them. */
  function ParseNumber(s: string): Option<nat> {
    if 1 <= |s| <= 18 && (|s| > 1 ==> s[0] != '0') && AllDigits(s) then Some(Value(s)) else None
  }

  /** The loop that reads a number. */
  method ReadNumber(s: string) returns (r: Option<nat>)
    ensures r == ParseNumber(s)
  {
    if |s| == 0 || |s| > 18 || (|s| > 1 && s[0] == '0') {
      return None;
    }
    var v := 0;
    for i := 0 to |s|
      invariant AllDigits(s[..i]) && v == Value(s[..i])
    {
      if !IsDigit(s[i]) {
        return None;
      }
      assert s[..i + 1][..i] == s[..i];
      v := 10 * v + ValueOf(s[i]);
    }
    assert s[..|s|] == s;
    return Some(v);
  }

  function Pow10(k: nat): (p: nat)
    ensures p >= 1
  {
    if k == 0 then 1 else 10 * Pow10(k - 1)
  }

  /** Numbers the parsers take are below this. */
  const LIMIT: nat := 1_000_000_000_000_000_000

  lemma LimitIsPow()
    ensures Pow10(18) == LIMIT
  {
    assert Pow10(6) == 1_000_000;
    assert Pow10(12) == 1_000_000 * 1_000_000 by {
      assert Pow10(9) == 1000 * Pow10(6);
      assert Pow10(12) == 1000 * Pow10(9);
    }
    assert Pow10(15) == 1000 * Pow10(12);
    assert Pow10(18) == 1000 * Pow10(15);
  }

  lemma {:induction false} DigitsLength(n: nat, k: nat)
    requires k >= 1
    ensures |Digits(n)| <= k <==> n < Pow10(k)
    decreases n
  {
    if n < 10 {
      assert Pow10(k) == 10 * Pow10(k - 1);
    } else if k == 1 {
      assert Pow10(1) == 10;
    } else {
      DigitsLength(n / 10, k - 1);
      assert Pow10(k) == 10 * Pow10(k - 1);
    }
  }

  lemma {:induction false} ValueDigits(n: nat)
    ensures Value(Digits(n)) == n && (n > 0 ==> Digits(n)[0] != '0')
  {
    if n >= 10 {
      ValueDigits(n / 10);
      assert Digits(n)[..|Digits(n)| - 1] == Digits(n / 10);
    }
  }

  lemma {:induction false} DigitsValue(s: string)
    requires |s| >= 1 && AllDigits(s) && (|s| > 1 ==> s[0] != '0')
    ensures Digits(Value(s)) == s && (|s| > 1 ==> Value(s) >= 10)
  {
    if |s| == 1 {
      assert s[..0] == [];
    } else {
      var t := s[..|s| - 1];
      DigitsValue(t);
      if |t| == 1 {
        assert Digits(Value(t)) == t;
        assert Value(t) != 0;
      }
    }
  }

  /** Below the limit, printing and parsing a number are inverse to each other. */
  lemma NumberRoundTrip(n: nat)
    ensures n < LIMIT <==> ParseNumber(Digits(n)) == Some(n)
  {
    ValueDigits(n);
    DigitsLength(n, 18);
    LimitIsPow();
    if n >= 10 {
      DigitsLength(n, 1);
    } else {
      assert Digits(n) == [DigitOf(n)];
    }
  }

  lemma NumberIsPrinted(s: string)
    requires ParseNumber(s).Some?
    ensures s == Digits(ParseNumber(s).value) && ParseNumber(s).value < LIMIT
  {
    DigitsValue(s);
    NumberRoundTrip(ParseNumber(s).value);
  }

  lemma DigitsAreWord(n: nat)
    ensures !Has(Digits(n), ' ') && !Has(Digits(n), '\n') && |Digits(n)| >= 1
  {
  }

  // ---- words ----

  /** The pieces between single spaces; one more than there are spaces. */
  function Split(s: string): (ws: seq<string>)
    ensures |ws| >= 1
    ensures forall w | w in ws :: !Has(w, ' ')
    decreases |s|
  {
    var i := Find(s, ' ');
    if i == |s| then [s] else [s[..i]] + Split(s[i + 1..])
  }

  /** The words from each position of a line on. */
  ghost function WordsFrom(s: string): nat -> seq<string> {
    (begin: nat) => if begin <= |s| then Split(s[begin..]) else []
  }

  /** What is left at each position is one word, up to the next space, and what is left after it. */
  ghost predicate WordByWord(s: string, left: nat -> seq<string>) {
    forall b: nat, e: nat {:trigger left(b), s[b..e]} | b <= e <= |s| && e - b == Find(s[b..], ' ') ::
      left(b) == [s[b..e]] + if e == |s| then [] else left(e + 1)
  }

  ghost predicate SplitsRest(s: string, left: nat -> seq<string>) {
    forall b: nat {:trigger left(b)} | b <= |s| :: left(b) == Split(s[b..])
  }

  lemma SplitsWordByWord(s: string, left: nat -> seq<string>)
    requires SplitsRest(s, left)
    ensures WordByWord(s, left)
  {
    forall b: nat, e: nat | b <= e <= |s| && e - b == Find(s[b..], ' ')
      ensures left(b) == [s[b..e]] + if e == |s| then [] else left(e + 1)
    {
      OneWord(s, b, e, left);
    }
  }

  lemma WordsSplitRest(s: string)
    ensures SplitsRest(s, WordsFrom(s))
  {
    forall b: nat | b <= |s|
      ensures WordsFrom(s)(b) == Split(s[b..])
    {
      WordsAt(s, b);
    }
  }

  lemma OneWord(s: string, b: nat, e: nat, left: nat -> seq<string>)
    requires b <= e <= |s| && e - b == Find(s[b..], ' ')
    requires left(b) == Split(s[b..]) && (e < |s| ==> left(e + 1) == Split(s[e + 1..]))
    ensures left(b) == [s[b..e]] + if e == |s| then [] else left(e + 1)
  {
    FirstWord(s, b, e, left(b), if e == |s| then [] else left(e + 1));
  }

  lemma FirstWord(s: string, b: nat, e: nat, all: seq<string>, rest: seq<string>)
    requires b <= e <= |s| && e - b == Find(s[b..], ' ')
    requires all == Split(s[b..]) && rest == if e == |s| then [] else Split(s[e + 1..])
    ensures all == [s[b..e]] + rest
  {
    SplitFrom(s, b, e);
    if e == |s| {
      assert s[b..e] == s[b..];
    }
  }

  lemma WordsAt(s: string, b: nat)
    requires b <= |s|
    ensures WordsFrom(s)(b) == Split(s[b..])
  {
  }

  lemma WordsOfAll(s: string)
    ensures WordsFrom(s)(0) == Split(s)
  {
    assert s[0..] == s;
  }

  method SplitWords(s: string) returns (ws: seq<string>)
    ensures ws == Split(s)
  {
    WordsSplitRest(s);
    SplitsWordByWord(s, WordsFrom(s));
    WordsOfAll(s);
    ws := SplitLoop(s, WordsFrom(s));
  }

  /** The loop that splits a line. */
  method SplitLoop(s: string, ghost left: nat -> seq<string>) returns (ws: seq<string>)
    requires WordByWord(s, left)
    ensures ws == left(0)
  {
    ws := [];
    var begin := 0;
    while true
      invariant begin <= |s| && left(0) == ws + left(begin)
      decreases |s| - begin
    {
      var space := FindFrom(s, begin, ' ');
      var w := s[begin..space];
      assert left(begin) == [w] + if space == |s| then [] else left(space + 1);
      ws := ws + [w];
      if space == |s| {
        return;
      }
      begin := space + 1;
    }
  }

  method FindFrom(s: string, begin: nat, c: char) returns (i: nat)
    requires begin <= |s|
    ensures begin <= i <= |s| && i - begin == Find(s[begin..], c)
  {
    i := begin;
    while i < |s| && s[i] != c
      invariant begin <= i <= |s| && forall k | begin <= k < i :: s[k] != c
    {
      i := i + 1;
    }
    FindIs(s[begin..], c, i - begin);
  }

  lemma SplitFrom(s: string, begin: nat, space: nat)
    requires begin <= space <= |s| && space - begin == Find(s[begin..], ' ')
    ensures Split(s[begin..]) == if space == |s| then [s[begin..]] else [s[begin..space]] + Split(s[space + 1..])
  {
    var t, i := s[begin..], space - begin;
    assert t[..i] == s[begin..space];
    if space < |s| {
      assert t[i + 1..] == s[space + 1..];
      SplitAt(t, i, s[space + 1..], Split(s[space + 1..]));
    }
  }

  function Join(ws: seq<string>): string
    requires |ws| >= 1
  {
    if |ws| == 1 then ws[0] else ws[0] + " " + Join(ws[1..])
  }

  lemma JoinPair(a: string, b: string)
    ensures Join([a, b]) == a + " " + b
  {
    assert [a, b][1..] == [b];
  }

  lemma SplitCons(a: string, b: string)
    requires !Has(a, ' ')
    ensures Split(a + " " + b) == [a] + Split(b)
  {
    var s := a + " " + b;
    FindAfter(a, ' ', b);
    assert s[..|a|] == a && s[|a| + 1..] == b;
  }

  lemma SplitWord(a: string)
    requires !Has(a, ' ')
    ensures Split(a) == [a]
  {
  }

  /** Splitting is exactly joining undone. */
  lemma {:induction false} SplitJoin(ws: seq<string>)
    requires |ws| >= 1 && forall w | w in ws :: !Has(w, ' ')
    ensures Split(Join(ws)) == ws
  {
    if |ws| > 1 {
      assert forall w | w in ws[1..] :: w in ws;
      SplitJoin(ws[1..]);
      SplitCons(ws[0], Join(ws[1..]));
    } else {
      assert ws == [ws[0]];
    }
  }

  lemma {:induction false} JoinSplit(s: string)
    ensures Join(Split(s)) == s
    decreases |s|
  {
    var i := Find(s, ' ');
    if i < |s| {
      JoinSplit(s[i + 1..]);
      SplitAt(s, i, s[i + 1..], Split(s[i + 1..]));
      JoinCons(s[..i], Split(s[i + 1..]));
      CutAt(s, ' ', i);
    }
  }

  lemma SplitAt(s: string, i: nat, rest: string, ws: seq<string>)
    requires i == Find(s, ' ') < |s| && rest == s[i + 1..] && ws == Split(rest)
    ensures Split(s) == [s[..i]] + ws
  {
  }

  lemma JoinCons(w: string, ws: seq<string>)
    requires |ws| >= 1
    ensures Join([w] + ws) == w + " " + Join(ws)
  {
    assert ([w] + ws)[1..] == ws;
  }

  lemma {:induction false} WordsLine(ws: seq<string>)
    requires |ws| >= 1 && forall w | w in ws :: !Has(w, '\n')
    ensures !Has(Join(ws), '\n')
  {
    if |ws| > 1 {
      assert forall w | w in ws[1..] :: w in ws;
      WordsLine(ws[1..]);
      HasConcat(ws[0] + " ", Join(ws[1..]), '\n');
      HasConcat(ws[0], " ", '\n');
    }
  }

  /** Some words, and at the end a rest that may be several words. */
  lemma {:induction false} SplitRest(ws: seq<string>, last: seq<string>)
    requires |ws| >= 1 && (forall i | 0 <= i < |ws| - 1 :: !Has(ws[i], ' ')) && last == Split(ws[|ws| - 1])
    ensures Split(Join(ws)) == ws[..|ws| - 1] + last
  {
    var k := |ws| - 1;
    if k == 0 {
      assert ws[..0] + last == last;
    } else {
      var rest := ws[1..];
      assert rest[k - 1] == ws[k];
      SplitRest(rest, last);
      SplitAfter(ws, Join(rest), rest[..k - 1] + last);
      FirstApart(ws, rest, k, last);
    }
  }

  lemma FirstApart(ws: seq<string>, rest: seq<string>, k: nat, last: seq<string>)
    requires 1 <= k < |ws| && rest == ws[1..]
    ensures ws[..k] + last == [ws[0]] + (rest[..k - 1] + last)
  {
  }

  lemma SplitAfter(ws: seq<string>, j: string, vs: seq<string>)
    requires |ws| > 1 && !Has(ws[0], ' ') && j == Join(ws[1..]) && Split(j) == vs
    ensures Split(Join(ws)) == [ws[0]] + vs
  {
    SplitCons(ws[0], j);
  }

  /** Everything before the rest: each word and the space after it. */
  function Head(ws: seq<string>): string {
    if ws == [] then "" else ws[0] + " " + Head(ws[1..])
  }

  lemma {:induction false} JoinRest(ws: seq<string>)
    requires |ws| >= 1
    ensures Join(ws) == Head(ws[..|ws| - 1]) + ws[|ws| - 1]
  {
    var k := |ws| - 1;
    if k > 0 {
      JoinRest(ws[1..]);
      assert ws[..k][1..] == ws[1..][..k - 1];
      assert ws[0] + " " + (Head(ws[1..][..k - 1]) + ws[k]) == (ws[0] + " " + Head(ws[1..][..k - 1])) + ws[k];
    } else {
      assert "" + ws[0] == ws[0];
    }
  }

  lemma HeadLength(a: string, b: string, c: string)
    ensures |Head([a, b, c])| == |a| + |b| + |c| + 3
  {
    assert [a, b, c][1..] == [b, c] && [b, c][1..] == [c] && [c][1..] == [];
    assert |Head([c])| == |c| + 1;
    assert |Head([b, c])| == |b| + 1 + |Head([c])|;
  }

  // ---- pieces laid end to end ----

  function Concat(ls: seq<string>): string {
    if ls == [] then "" else ls[0] + Concat(ls[1..])
  }

  lemma {:induction false} ConcatAppend(a: seq<string>, b: seq<string>)
    ensures Concat(a + b) == Concat(a) + Concat(b)
    decreases |a|
  {
    if a == [] {
      assert a + b == b;
      assert "" + Concat(b) == Concat(b);
    } else {
      ConcatAppend(a[1..], b);
      assert (a + b)[1..] == a[1..] + b;
      assert a[0] + (Concat(a[1..]) + Concat(b)) == (a[0] + Concat(a[1..])) + Concat(b);
    }
  }

  lemma {:induction false} ConcatShort(ls: seq<string>, k: nat)
    requires k < |ls|
    ensures |ls[k]| <= |Concat(ls)|
    decreases |ls|
  {
    if k > 0 {
      ConcatShort(ls[1..], k - 1);
    }
  }

  /** How many whole pieces the first p bytes hold. */
  function Pieces(ls: seq<string>, p: nat): (k: nat)
    ensures k <= |ls|
  {
    if ls == [] || p < |ls[0]| then 0 else 1 + Pieces(ls[1..], p - |ls[0]|)
  }

  /** Some whole pieces, and part of the next. */
  predicate PrefixIs(ls: seq<string>, p: nat, k: nat, q: nat) {
    && p <= |Concat(ls)| && k <= |ls| && (k < |ls| ==> q < |ls[k]|)
    && Concat(ls)[..p] == Concat(ls[..k]) + (if k < |ls| then ls[k][..q] else "")
    && (p == |Concat(ls)| ==> k == |ls|)
  }

  lemma {:induction false} ConcatPrefix(ls: seq<string>, p: nat) returns (k: nat, q: nat)
    requires p <= |Concat(ls)| && forall l | l in ls :: l != ""
    ensures k == Pieces(ls, p) && PrefixIs(ls, p, k, q)
    decreases |ls|
  {
    if ls == [] {
      return 0, 0;
    }
    var first, rest := ls[0], ls[1..];
    assert forall l | l in rest :: l in ls;
    if p < |first| {
      k, q := 0, p;
      assert Concat(ls)[..p] == first[..p];
      assert ls[..0] == [];
      assert "" + first[..p] == first[..p];
    } else {
      var j;
      j, q := ConcatPrefix(rest, p - |first|);
      k := j + 1;
      PrefixGrows(ls, p, j, q);
    }
  }

  lemma PrefixGrows(ls: seq<string>, p: nat, j: nat, q: nat)
    requires |ls| > 0 && |ls[0]| <= p <= |Concat(ls)| && PrefixIs(ls[1..], p - |ls[0]|, j, q)
    ensures PrefixIs(ls, p, j + 1, q)
  {
    var first, rest := ls[0], ls[1..];
    var part := if j < |rest| then rest[j][..q] else "";
    assert Concat(ls)[..p] == first + Concat(rest)[..p - |first|];
    assert ls[..j + 1] == [first] + rest[..j];
    assert Concat(ls[..j + 1]) == first + Concat(rest[..j]) by {
      assert ([first] + rest[..j])[1..] == rest[..j];
    }
    assert first + (Concat(rest[..j]) + part) == (first + Concat(rest[..j])) + part;
  }

  // ---- lines ----

  /** The lines of a text every one of which, the last included, ends in a newline. */
  function SplitLines(text: string): (r: Option<seq<string>>)
    decreases |text|
  {
    var nl := Find(text, '\n');
    if text == "" then Some([])
    else if nl == |text| then None
    else
      match SplitLines(text[nl + 1..])
      case None => None
      case Some(rest) => Some([text[..nl]] + rest)
  }

  function Unlines(ls: seq<string>): string {
    if ls == [] then "" else ls[0] + "\n" + Unlines(ls[1..])
  }

  predicate OneLiners(ls: seq<string>) {
    forall l | l in ls :: !Has(l, '\n')
  }

  lemma SplitFirstLine(line: string, rest: string, text: string)
    requires !Has(line, '\n') && text == line + "\n" + rest
    ensures SplitLines(text) == match SplitLines(rest) case None => None case Some(ls) => Some([line] + ls)
  {
    FindAfter(line, '\n', rest);
    assert text[..|line|] == line && text[|line| + 1..] == rest;
  }

  /** Splitting into lines is exactly joining them undone. */
  lemma {:induction false} SplitUnlines(ls: seq<string>)
    requires OneLiners(ls)
    ensures SplitLines(Unlines(ls)) == Some(ls)
  {
    if ls != [] {
      var rest := ls[1..];
      assert forall l | l in rest :: l in ls;
      SplitUnlines(rest);
      SplitFirstLine(ls[0], Unlines(rest), Unlines(ls));
      assert [ls[0]] + rest == ls;
    }
  }

  lemma {:induction false} UnlinesSplit(text: string, ls: seq<string>)
    requires SplitLines(text) == Some(ls)
    ensures Unlines(ls) == text && OneLiners(ls)
    decreases |text|
  {
    if text != "" {
      var rest := FirstLine(text, ls);
      UnlinesSplit(rest, ls[1..]);
      FirstLineBack(ls[0], rest, ls[1..]);
      assert ls == [ls[0]] + ls[1..];
    }
  }

  lemma FirstLine(text: string, ls: seq<string>) returns (rest: string)
    requires SplitLines(text) == Some(ls) && text != ""
    ensures ls != [] && |rest| < |text| && SplitLines(rest) == Some(ls[1..])
    ensures !Has(ls[0], '\n') && text == ls[0] + "\n" + rest
  {
    var nl := Find(text, '\n');
    rest := text[nl + 1..];
    CutAt(text, '\n', nl);
    FirstOf(text[..nl], SplitLines(rest).value, ls);
  }

  lemma CutAt(text: string, c: char, i: nat)
    requires i < |text| && text[i] == c && c !in text[..i]
    ensures text == text[..i] + [c] + text[i + 1..] && !Has(text[..i], c)
  {
  }

  lemma FirstOf(line: string, tail: seq<string>, ls: seq<string>)
    requires ls == [line] + tail
    ensures ls != [] && ls[0] == line && ls[1..] == tail
  {
  }

  lemma FirstLineBack(line: string, rest: string, ls: seq<string>)
    requires Unlines(ls) == rest && OneLiners(ls)
    ensures Unlines([line] + ls) == line + "\n" + rest
    ensures !Has(line, '\n') ==> OneLiners([line] + ls)
  {
    assert ([line] + ls)[1..] == ls;
  }

  /** Some lines, and whatever follows them. */
  function Prepend(ls: seq<string>, r: Option<seq<string>>): Option<seq<string>> {
    match r
    case None => None
    case Some(rest) => Some(ls + rest)
  }

  lemma PrependMore(ls: seq<string>, l: string, r: Option<seq<string>>)
    ensures Prepend(ls, Prepend([l], r)) == Prepend(ls + [l], r) && Prepend([], r) == r
  {
    if r.Some? {
      assert ls + ([l] + r.value) == ls + [l] + r.value;
      assert [] + r.value == r.value;
    }
  }

  /** The loop that splits a text into lines. */
  method ReadLines(text: string) returns (r: Option<seq<string>>)
    ensures r == SplitLines(text)
  {
    var ls: seq<string> := [];
    var pos := 0;
    ghost var whole, left := SplitLines(text), SplitLines(text);
    assert text[0..] == text;
    PrependMore([], "", left);
    while pos < |text|
      invariant pos <= |text| && left == SplitLines(text[pos..]) && whole == Prepend(ls, left)
      decreases |text| - pos
    {
      var nl := FindFrom(text, pos, '\n');
      LinesFrom(text, pos, nl);
      if nl == |text| {
        return None;
      }
      left := SplitLines(text[nl + 1..]);
      PrependMore(ls, text[pos..nl], left);
      ls := ls + [text[pos..nl]];
      pos := nl + 1;
    }
    assert text[pos..] == "" && ls + [] == ls;
    return Some(ls);
  }

  lemma LinesFrom(text: string, pos: nat, nl: nat)
    requires pos <= nl <= |text| && pos < |text| && nl - pos == Find(text[pos..], '\n')
    ensures SplitLines(text[pos..]) == if nl == |text| then None
            else Prepend([text[pos..nl]], SplitLines(text[nl + 1..]))
  {
    if nl == |text| {
      NoLine(text[pos..]);
    } else {
      LineThenRest(text[pos..], nl - pos, text[pos..nl], text[nl + 1..]);
    }
  }

  lemma NoLine(t: string)
    requires t != "" && Find(t, '\n') == |t|
    ensures SplitLines(t) == None
  {
  }

  lemma LineThenRest(t: string, nl: nat, line: string, rest: string)
    requires nl == Find(t, '\n') < |t| && t[..nl] == line && t[nl + 1..] == rest
    ensures SplitLines(t) == Prepend([line], SplitLines(rest))
  {
  }

  // ---- printing a list ----

  function Each<A>(f: A -> string, xs: seq<A>): (ls: seq<string>)
    ensures |ls| == |xs| && forall i | 0 <= i < |xs| :: ls[i] == f(xs[i])
  {
    if xs == [] then [] else Each(f, xs[..|xs| - 1]) + [f(xs[|xs| - 1])]
  }

  function Print<A>(f: A -> string, xs: seq<A>): string {
    Concat(Each(f, xs))
  }

  lemma PrintJoin<A>(f: A -> string, a: seq<A>, b: seq<A>)
    ensures Print(f, a + b) == Print(f, a) + Print(f, b)
  {
    assert Each(f, a + b) == Each(f, a) + Each(f, b);
    ConcatAppend(Each(f, a), Each(f, b));
  }

  lemma PrintOne<A>(f: A -> string, x: A)
    ensures Print(f, [x]) == f(x)
  {
    var ls := Each(f, [x]);
    assert ls[1..] == [];
    assert Concat(ls) == ls[0] + Concat(ls[1..]);
    assert ls[0] + "" == ls[0] == f([x][0]);
  }

  lemma PrintSnoc<A>(f: A -> string, a: seq<A>, x: A)
    ensures Print(f, a + [x]) == Print(f, a) + f(x)
  {
    PrintJoin(f, a, [x]);
    PrintOne(f, x);
  }

  /** The loop that prints one. */
  method PrintAll<A>(f: A -> string, xs: seq<A>) returns (s: string)
    ensures s == Print(f, xs)
  {
    s := "";
    for i := 0 to |xs|
      invariant s == Print(f, xs[..i])
    {
      PrintSnoc(f, xs[..i], xs[i]);
      assert xs[..i + 1] == xs[..i] + [xs[i]];
      s := s + f(xs[i]);
    }
    assert xs[..|xs|] == xs;
  }

  // ---- hexadecimal digests ----

  predicate IsHex(c: char) {
    '0' <= c <= '9' || 'a' <= c <= 'f'
  }

  predicate HexKey(s: string) {
    |s| == 40 && forall i | 0 <= i < |s| :: IsHex(s[i])
  }

  /** Any function from bytes to 40 hexadecimal characters: SHA-1 as far as this model knows it. */
  type Digest = f: string -> string | forall s :: HexKey(f(s)) witness (s => seq(40, i => 'a'))

  lemma HexIsWord(s: string)
    requires forall i | 0 <= i < |s| :: IsHex(s[i])
    ensures !Has(s, ' ') && !Has(s, '\n')
  {
  }
}
