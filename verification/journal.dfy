/** An append-only text file whose every line takes a state one step on. A crash may leave any byte
    prefix of the lines being written; opening the file cuts such a tail off. */
module Journal {
  import opened Text

  datatype Scanned<S> = Scanned(state: S, good: nat, damaged: bool)

  /** Line by line up to the first bad one; `good` is the length of what was read. */
  function Scan<S>(read: (S, string) -> Option<S>, s: S, text: string): (r: Scanned<S>)
    ensures r.good <= |text| && (!r.damaged ==> r.good == |text|)
    decreases |text|
  {
    var nl := Find(text, '\n');
    if text == "" then Scanned(s, 0, false)
    else if nl == |text| then Scanned(s, 0, true)
    else
      match read(s, text[..nl])
      case None => Scanned(s, 0, true)
      case Some(s') =>
        var r := Scan(read, s', text[nl + 1..]);
        r.(good := nl + 1 + r.good)
  }

  /** The loop that reads the file. */
  method ReadAll<S>(read: (S, string) -> Option<S>, start: S, text: string) returns (s: S, good: nat, damaged: bool)
    ensures Scanned(s, good, damaged) == Scan(read, start, text)
  {
    s, good, damaged := start, 0, false;
    ghost var left := Scan(read, start, text);
    ghost var all := left;
    assert text[0..] == text;
    while good < |text|
      invariant good <= |text| && !damaged && left == Scan(read, s, text[good..]) && all == Past(left, good)
      decreases |text| - good
    {
      var ok, s', end := ReadNext(read, s, text, good);
      if !ok {
        damaged := true;
        return;
      }
      s, good := s', end;
      left := Scan(read, s, text[good..]);
    }
    assert text[good..] == "";
  }

  /** The scan of `text` is the scan of `rest` from `s'`, `k` bytes further on. */
  predicate Goes<S(==)>(read: (S, string) -> Option<S>, s: S, text: string, s': S, rest: string, k: nat) {
    Scan(read, s, text) == Past(Scan(read, s', rest), k)
  }

  /** The scan of `text` stops at once. */
  predicate Stuck<S(==)>(read: (S, string) -> Option<S>, s: S, text: string) {
    Scan(read, s, text) == Scanned(s, 0, true)
  }

  method ReadNext<S>(read: (S, string) -> Option<S>, s: S, text: string, good: nat) returns (ok: bool, s': S, end: nat)
    requires good < |text|
    ensures if ok then good < end <= |text| && Goes(read, s, text[good..], s', text[end..], end - good)
            else Stuck(read, s, text[good..])
  {
    var nl := FindFrom(text, good, '\n');
    end := nl + 1;
    var line := text[good..nl];
    var next := read(s, line);
    ScanFrom(read, s, text, good, nl, end, line, next);
    ok := nl < |text| && next.Some?;
    s' := if ok then next.value else s;
  }

  /** One turn of the loop: what the line from `good` to `nl` makes of the scan. */
  lemma ScanFrom<S>(read: (S, string) -> Option<S>, s: S, text: string, good: nat, nl: nat, end: nat, line: string,
                    next: Option<S>)
    requires good <= nl <= |text| && good < |text| && nl - good == Find(text[good..], '\n') && line == text[good..nl]
    requires next == read(s, line) && end == nl + 1
    ensures nl == |text| || next.None? ==> Stuck(read, s, text[good..])
    ensures nl < |text| && next.Some? ==> Goes(read, s, text[good..], next.value, text[end..], end - good)
  {
    TailFrom(text, good, nl);
    ScanHere(read, s, text[good..], nl - good, line, next);
  }

  lemma TailFrom(text: string, good: nat, nl: nat)
    requires good <= nl <= |text|
    ensures text[good..][..nl - good] == text[good..nl]
    ensures nl < |text| ==> text[good..][nl - good + 1..] == text[nl + 1..]
  {
  }

  lemma ScanHere<S>(read: (S, string) -> Option<S>, s: S, rest: string, nl: nat, line: string, next: Option<S>)
    requires rest != "" && nl == Find(rest, '\n') && line == rest[..nl] && next == read(s, line)
    ensures nl == |rest| || next.None? ==> Stuck(read, s, rest)
    ensures nl < |rest| && next.Some? ==> Goes(read, s, rest, next.value, rest[nl + 1..], nl + 1)
  {
    if nl < |rest| && next.Some? {
      ScanGoes(read, s, rest, nl, next.value, rest[nl + 1..], Scan(read, next.value, rest[nl + 1..]));
    } else {
      ScanSticks(read, s, rest, nl);
    }
  }

  lemma ScanGoes<S>(read: (S, string) -> Option<S>, s: S, rest: string, nl: nat, s': S, tail: string, r: Scanned<S>)
    requires nl == Find(rest, '\n') < |rest| && read(s, rest[..nl]) == Some(s')
    requires tail == rest[nl + 1..] && r == Scan(read, s', tail)
    ensures Scan(read, s, rest) == Past(r, nl + 1)
  {
  }

  lemma ScanSticks<S>(read: (S, string) -> Option<S>, s: S, rest: string, nl: nat)
    requires rest != "" && nl == Find(rest, '\n') && (nl == |rest| || read(s, rest[..nl]).None?)
    ensures Stuck(read, s, rest)
  {
  }

  function Past<S>(r: Scanned<S>, n: nat): Scanned<S> {
    r.(good := n + r.good)
  }

  /** What is recovered, and the file as it is left; None if the damage is further back than `limit`. */
  function Opened<S>(read: (S, string) -> Option<S>, start: S, text: string, limit: nat): Option<(S, string)> {
    var r := Scan(read, start, text);
    if r.damaged && |text| - r.good > limit then None else Some((r.state, text[..r.good]))
  }

  predicate IsLine(line: string) {
    |line| >= 1 && line[|line| - 1] == '\n' && !Has(line[..|line| - 1], '\n')
  }

  /** Each line takes one state to the next. */
  ghost predicate Steps<S(!new)>(read: (S, string) -> Option<S>, ss: seq<S>, ls: seq<string>) {
    |ss| == |ls| + 1 && forall i: nat {:trigger StepsAt(read, ss, ls, i)} | i < |ls| :: StepsAt(read, ss, ls, i)
  }

  ghost predicate StepsAt<S(!new)>(read: (S, string) -> Option<S>, ss: seq<S>, ls: seq<string>, i: nat)
    requires |ss| == |ls| + 1 && i < |ls|
  {
    IsLine(ls[i]) && read(ss[i], ls[i][..|ls[i]| - 1]) == Some(ss[i + 1])
  }

  lemma LineEnds(line: string, tail: string)
    requires IsLine(line)
    ensures var text, k := line + tail, |line| - 1;
            text != "" && Find(text, '\n') == k < |text| && text[..k] == line[..k] && text[k + 1..] == tail
  {
    var body, text := line[..|line| - 1], line + tail;
    assert text == body + ['\n'] + tail;
    FindAfter(body, '\n', tail);
  }

  lemma ScanLine<S>(read: (S, string) -> Option<S>, s: S, s': S, line: string, tail: string, text: string)
    requires IsLine(line) && read(s, line[..|line| - 1]) == Some(s') && text == line + tail
    ensures Scan(read, s, text) == Past(Scan(read, s', tail), |line|)
  {
    LineEnds(line, tail);
  }

  /** A file that starts with some lines scans as they step. */
  lemma {:induction false} ScanSteps<S(!new)>(read: (S, string) -> Option<S>, ss: seq<S>, ls: seq<string>,
                                       tail: string, text: string)
    requires Steps(read, ss, ls) && text == Concat(ls) + tail
    ensures Scan(read, ss[0], text) == Past(Scan(read, ss[|ls|], tail), |Concat(ls)|)
    decreases |ls|
  {
    if ls == [] {
      assert text == tail;
    } else {
      var rest := Concat(ls[1..]) + tail;
      assert text == ls[0] + rest;
      assert StepsAt(read, ss, ls, 0);
      StepsRest(read, ss, ls);
      ScanSteps(read, ss[1..], ls[1..], tail, rest);
      ScanMore(read, ss[0], ss[1], ls[0], rest, text, |Concat(ls[1..])|, Scan(read, ss[|ls|], tail));
    }
  }

  lemma ScanMore<S>(read: (S, string) -> Option<S>, s: S, s': S, line: string, rest: string, text: string, n: nat,
                    r: Scanned<S>)
    requires IsLine(line) && read(s, line[..|line| - 1]) == Some(s') && text == line + rest
    requires Scan(read, s', rest) == Past(r, n)
    ensures Scan(read, s, text) == Past(r, |line| + n)
  {
    ScanLine(read, s, s', line, rest, text);
  }

  lemma StepsRest<S(!new)>(read: (S, string) -> Option<S>, ss: seq<S>, ls: seq<string>)
    requires Steps(read, ss, ls) && ls != []
    ensures Steps(read, ss[1..], ls[1..])
  {
    var ss', ls' := ss[1..], ls[1..];
    forall i: nat | i < |ls'|
      ensures StepsAt(read, ss', ls', i)
    {
      assert StepsAt(read, ss, ls, i + 1);
    }
  }

  lemma StepsFirst<S(!new)>(read: (S, string) -> Option<S>, ss: seq<S>, ls: seq<string>, k: nat)
    requires Steps(read, ss, ls) && k <= |ls|
    ensures Steps(read, ss[..k + 1], ls[..k])
  {
    var ss', ls' := ss[..k + 1], ls[..k];
    forall i: nat | i < k
      ensures StepsAt(read, ss', ls', i)
    {
      assert StepsAt(read, ss, ls, i);
    }
  }

  lemma StepsJoin<S(!new)>(read: (S, string) -> Option<S>, ss: seq<S>, ls: seq<string>, ss': seq<S>, ls': seq<string>)
    requires Steps(read, ss, ls) && Steps(read, ss', ls') && ss[|ls|] == ss'[0]
    ensures Steps(read, ss + ss'[1..], ls + ls')
  {
    var a, b := ss + ss'[1..], ls + ls';
    forall i: nat | i < |b|
      ensures StepsAt(read, a, b, i)
    {
      if i < |ls| {
        assert StepsAt(read, ss, ls, i);
      } else {
        assert StepsAt(read, ss', ls', i - |ls|);
      }
    }
  }

  /** Part of a line, without its newline, is damage right where it starts. */
  lemma ScanTorn<S>(read: (S, string) -> Option<S>, s: S, line: string, q: nat)
    requires IsLine(line) && q < |line|
    ensures Scan(read, s, line[..q]) == Scanned(s, 0, q > 0)
  {
    var body := line[..|line| - 1];
    assert line[..q] == body[..q] && body == body[..q] + body[q..];
    HasConcat(body[..q], body[q..], '\n');
  }

  // ---- what the file holds ----

  /** The file is whole and, read from `start`, gives `s`. */
  ghost predicate Holds<S(!new)>(read: (S, string) -> Option<S>, start: S, text: string, s: S) {
    exists ss: seq<S>, ls: seq<string> :: HeldBy(read, start, text, s, ss, ls)
  }

  ghost predicate HeldBy<S(!new)>(read: (S, string) -> Option<S>, start: S, text: string, s: S, ss: seq<S>,
                           ls: seq<string>) {
    Steps(read, ss, ls) && text == Concat(ls) && ss[0] == start && ss[|ls|] == s
  }

  lemma HoldsNothing<S(!new)>(read: (S, string) -> Option<S>, start: S)
    ensures Holds(read, start, "", start)
  {
    assert HeldBy(read, start, "", start, [start], []);
  }

  /** Opening a whole file gives back exactly what it holds, and leaves it alone. */
  lemma OpenWhole<S(!new)>(read: (S, string) -> Option<S>, start: S, text: string, s: S, limit: nat)
    requires Holds(read, start, text, s)
    ensures Opened(read, start, text, limit) == Some((s, text))
  {
    var ss, ls :| HeldBy(read, start, text, s, ss, ls);
    ScanSteps(read, ss, ls, "", text);
    assert text + "" == text && text[..|text|] == text;
  }

  lemma OneLine(text: string, nl: nat)
    requires nl < |text| && Find(text, '\n') == nl
    ensures IsLine(text[..nl + 1]) && text[..nl + 1][..nl] == text[..nl] && text == text[..nl + 1] + text[nl + 1..]
  {
    CutAt(text, '\n', nl);
  }

  lemma HeldCons<S(!new)>(read: (S, string) -> Option<S>, s: S, s': S, line: string, rest: string, t: S)
    requires IsLine(line) && read(s, line[..|line| - 1]) == Some(s') && Holds(read, s', rest, t)
    ensures Holds(read, s, line + rest, t)
  {
    var ss, ls :| HeldBy(read, s', rest, t, ss, ls);
    var one, first := [s, s'], [line];
    assert StepsAt(read, one, first, 0);
    assert Steps(read, one, first);
    StepsJoin(read, one, first, ss, ls);
    assert (first + ls)[1..] == ls;
    assert HeldBy(read, s, line + rest, t, one + ss[1..], first + ls);
  }

  /** Whatever the file, the good part of it is whole and holds the state it scans to. */
  lemma {:induction false} ScanHolds<S(!new)>(read: (S, string) -> Option<S>, s: S, text: string)
    ensures var r := Scan(read, s, text); Holds(read, s, text[..r.good], r.state)
    decreases |text|
  {
    var r, nl := Scan(read, s, text), Find(text, '\n');
    if text == "" || nl == |text| || read(s, text[..nl]).None? {
      assert text[..r.good] == "";
      HoldsNothing(read, s);
    } else {
      var s', rest := read(s, text[..nl]).value, text[nl + 1..];
      ScanHolds(read, s', rest);
      OneLine(text, nl);
      var more := Scan(read, s', rest);
      HeldCons(read, s, s', text[..nl + 1], rest[..more.good], more.state);
      assert text[..r.good] == text[..nl + 1] + rest[..more.good];
    }
  }

  /** What opening leaves is whole and holds what it recovered. */
  lemma OpenedHolds<S(!new)>(read: (S, string) -> Option<S>, start: S, text: string, limit: nat)
    requires Opened(read, start, text, limit).Some?
    ensures var (s, file) := Opened(read, start, text, limit).value;
            Holds(read, start, file, s) && file <= text && (file == text || |text| - |file| <= limit)
  {
    ScanHolds(read, start, text);
  }

  /** No record, or none that may follow, where one should start. */
  predicate Broken<S>(read: (S, string) -> Option<S>, s: S, tail: string) {
    tail != "" && ('\n' !in tail || read(s, tail[..Find(tail, '\n')]).None?)
  }

  /** The file is whole up to `cut`, where it holds s, and is broken there, further from its end than a crash can
      reach. */
  ghost predicate Ruined<S(!new)>(read: (S, string) -> Option<S>, start: S, text: string, limit: nat, cut: nat, s: S) {
    cut <= |text| && |text| - cut > limit && Holds(read, start, text[..cut], s) && Broken(read, s, text[cut..])
  }

  lemma ScanBroken<S(!new)>(read: (S, string) -> Option<S>, start: S, text: string, limit: nat, cut: nat, s: S)
    requires Ruined(read, start, text, limit, cut, s)
    ensures Scan(read, start, text) == Scanned(s, cut, true)
  {
    var file, tail := text[..cut], text[cut..];
    assert text == file + tail;
    var ss, ls :| HeldBy(read, start, file, s, ss, ls);
    ScanSteps(read, ss, ls, tail, text);
    ScanSticks(read, s, tail, Find(tail, '\n'));
  }

  lemma {:induction false} ScanStopsBroken<S(!new)>(read: (S, string) -> Option<S>, s: S, text: string)
    ensures var r := Scan(read, s, text); r.damaged ==> Broken(read, r.state, text[r.good..])
    decreases |text|
  {
    var nl := Find(text, '\n');
    if text == "" {
    } else if nl == |text| || read(s, text[..nl]).None? {
      ScanSticks(read, s, text, nl);
      assert text[0..] == text;
    } else {
      var s', rest := read(s, text[..nl]).value, text[nl + 1..];
      var more := Scan(read, s', rest);
      ScanStopsBroken(read, s', rest);
      ScanGoes(read, s, text, nl, s', rest, more);
      TailOfTail(text, nl + 1, more.good);
    }
  }

  lemma TailOfTail(text: string, a: nat, b: nat)
    requires a + b <= |text|
    ensures text[a..][b..] == text[a + b..]
  {
  }

  /** Opening fails on exactly the files that are ruined: whole up to some place and broken there, with more than
      `limit` bytes from there on. Whatever else a file holds, nothing that it acknowledged is forgotten. */
  lemma OpenRefuses<S(!new)>(read: (S, string) -> Option<S>, start: S, text: string, limit: nat)
    ensures Opened(read, start, text, limit).None? <==> exists cut: nat, s :: Ruined(read, start, text, limit, cut, s)
  {
    var r := Scan(read, start, text);
    if Opened(read, start, text, limit).None? {
      ScanHolds(read, start, text);
      ScanStopsBroken(read, start, text);
      assert Ruined(read, start, text, limit, r.good, r.state);
    }
    forall cut: nat, s | Ruined(read, start, text, limit, cut, s)
      ensures Opened(read, start, text, limit).None?
    {
      ScanBroken(read, start, text, limit, cut, s);
    }
  }

  lemma HoldsMore<S(!new)>(read: (S, string) -> Option<S>, start: S, text: string, ss: seq<S>, ls: seq<string>)
    requires Steps(read, ss, ls) && Holds(read, start, text, ss[0])
    ensures Holds(read, start, text + Concat(ls), ss[|ls|])
  {
    var ss', ls' :| HeldBy(read, start, text, ss[0], ss', ls');
    ConcatAppend(ls', ls);
    StepsJoin(read, ss', ls', ss, ls);
    assert HeldBy(read, start, text + Concat(ls), ss[|ls|], ss' + ss[1..], ls' + ls);
  }

  lemma OpenTail<S(!new)>(read: (S, string) -> Option<S>, start: S, file: string, s: S, part: string, limit: nat)
    requires Holds(read, start, file, s) && |part| <= limit
    requires Scan(read, s, part) == Scanned(s, 0, part != "")
    ensures Opened(read, start, file + part, limit) == Some((s, file))
  {
    var ss, ls :| HeldBy(read, start, file, s, ss, ls);
    ScanSteps(read, ss, ls, part, file + part);
    assert (file + part)[..|file|] == file;
  }

  /** A crash that leaves any byte prefix of the lines being written: opening succeeds, recovers the
      state after the whole lines of the prefix, and leaves a whole file that holds it. */
  lemma CrashRecovers<S(!new)>(read: (S, string) -> Option<S>, start: S, text: string, ss: seq<S>, ls: seq<string>,
                               p: nat, limit: nat) returns (k: nat)
    requires Steps(read, ss, ls) && Holds(read, start, text, ss[0]) && p <= |Concat(ls)| <= limit
    ensures k == Pieces(ls, p) && (p == |Concat(ls)| ==> k == |ls|)
    ensures var file := text + Concat(ls[..k]);
            && Opened(read, start, text + Concat(ls)[..p], limit) == Some((ss[k], file))
            && Holds(read, start, file, ss[k])
  {
    forall i: nat | i < |ls|
      ensures ls[i] != "" && IsLine(ls[i])
    {
      assert StepsAt(read, ss, ls, i);
    }
    var q;
    k, q := ConcatPrefix(ls, p);
    var part := if k < |ls| then ls[k][..q] else "";
    var file := text + Concat(ls[..k]);
    StepsFirst(read, ss, ls, k);
    HoldsMore(read, start, text, ss[..k + 1], ls[..k]);
    if k < |ls| {
      ScanTorn(read, ss[k], ls[k], q);
      ConcatShort(ls, k);
    }
    assert text + (Concat(ls[..k]) + part) == file + part;
    OpenTail(read, start, file, ss[k], part, limit);
  }
}
