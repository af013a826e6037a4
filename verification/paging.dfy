/** The loops that print one page: of the names, as many as fit one line; of a node's chunks, up to a limit. */
module Paging {
  import opened Text
  import opened Names
  import opened Listing

  const MAX_LINE: nat := 1024

  ghost predicate Ascends(lt: Order, out: seq<string>) {
    forall i, j | 0 <= i < j < |out| :: lt(out[i], out[j])
  }

  /** `out` is what came before `it`, and nothing has been passed over. */
  ghost predicate Walked(lt: Order, index: set<string>, after: string, out: seq<string>, it: Option<string>) {
    && Ascends(lt, out) && (forall i | 0 <= i < |out| :: out[i] in index && Past(lt, after, out[i]))
    && (it.Some? ==>
        it.value in index && Past(lt, after, it.value) && forall i | 0 <= i < |out| :: lt(out[i], it.value))
    && (forall x | x in index && Past(lt, after, x) :: x in out || (it.Some? && (x == it.value || lt(it.value, x))))
  }

  /** `next` is the first past `it`. */
  ghost predicate IsNext(lt: Order, index: set<string>, it: string, next: Option<string>) {
    && (next.Some? ==> next.value in index && lt(it, next.value) && forall x | x in index &&
        lt(it, x) :: x == next.value || lt(next.value, x))
    && (next.None? ==> forall x | x in index :: !lt(it, x))
  }

  ghost predicate Transitive(lt: Order) {
    forall a, b, c :: lt(a, b) && lt(b, c) ==> lt(a, c)
  }

  lemma LexicalOrders()
    ensures Transitive(Lexical())
  {
    forall a, b, c | Lexical()(a, b) && Lexical()(b, c)
      ensures Lexical()(a, c)
    {
      BelowTrans(a, b, c);
    }
  }

  lemma WalkOn(lt: Order, index: set<string>, after: string, out: seq<string>, it: string, next: Option<string>)
    requires Transitive(lt) && Walked(lt, index, after, out, Some(it)) && IsNext(lt, index, it, next)
    ensures Walked(lt, index, after, out + [it], next)
  {
    assert (out + [it])[|out|] == it;
    forall x | x in index && Past(lt, after, x)
      ensures x in out + [it] || (next.Some? && (x == next.value || lt(next.value, x)))
    {
      assert x in out ==> x in out + [it];
    }
  }

  lemma WalkEnds(lt: Order, index: set<string>, after: string, out: seq<string>, it: Option<string>)
    requires Transitive(lt) && Walked(lt, index, after, out, it) && (it.Some? ==> out != [])
    ensures IsPage(lt, index, after, out)
  {
    forall x | x in index && Past(lt, after, x)
      ensures out != [] && (x in out || lt(out[|out| - 1], x))
    {
      if x !in out {
        assert lt(out[|out| - 1], it.value);
      }
    }
  }

  method StepPast(index: set<string>, it: string) returns (next: Option<string>)
    requires it != ""
    ensures IsNext(Lexical(), index, it, next)
  {
    next := FirstPast(index, it);
  }

  /** One page of what a node holds. */
  method KeysAfter(keys: set<string>, after: string, limit: nat) returns (out: seq<string>)
    requires limit >= 1 && "" !in keys
    ensures |out| <= limit && IsPage(Lexical(), keys, after, out)
    ensures |out| < limit ==> forall x | x in keys && Past(Lexical(), after, x) :: x in out
  {
    LexicalOrders();
    out := [];
    var it := FirstPast(keys, after);
    while it.Some? && |out| < limit
      invariant |out| <= limit && Walked(Lexical(), keys, after, out, it)
      decreases limit - |out|
    {
      var next := StepPast(keys, it.value);
      WalkOn(Lexical(), keys, after, out, it.value, next);
      out, it := out + [it.value], next;
    }
    WalkEnds(Lexical(), keys, after, out, it);
  }

  /** What the state machine keeps of every name it holds. */
  ghost predicate GoodNames(ns: Namespace) {
    forall n | n in ns :: ValidName(n) && HexKey(ns[n].key)
  }

  lemma GoodKept(ns: Namespace, c: string)
    requires GoodNames(ns)
    ensures GoodNames(ApplyCommand(ns, c).0)
  {
    if ValidCommand(c) && c != "NOOP" {
      CommandIsPrinted(c);
      var w := Split(c);
      if w[0] == "REGISTER" {
        RegisterEffect(ns, w[1], w[2], if |w| == 4 then w[3] else "");
      } else {
        UnregisterEffect(ns, w[1], w[2]);
      }
    }
  }

  /** Whatever commands are applied, every name held is valid, with a valid key. */
  lemma {:induction false} FoldIsGood(cs: seq<string>)
    ensures GoodNames(Fold(cs))
  {
    if cs != [] {
      FoldIsGood(cs[..|cs| - 1]);
      GoodKept(Fold(cs[..|cs| - 1]), cs[|cs| - 1]);
    }
  }

  /** " <name> <key>", as ENTRIES prints an entry. */
  function Item(ns: Namespace, n: string): string
    requires n in ns
  {
    " " + n + " " + ns[n].key
  }

  function Items(ns: Namespace, page: seq<string>): (text: string)
    requires forall i | 0 <= i < |page| :: page[i] in ns
  {
    if page == [] then "" else Items(ns, page[..|page| - 1]) + Item(ns, page[|page| - 1])
  }

  /** The first name past the cursor that is not on the page. */
  ghost predicate NextLeft(ns: Namespace, after: string, page: seq<string>, n: string) {
    && n in ns && Past(Lexical(), after, n) && n !in page
    && forall x | x in ns && Past(Lexical(), after, x) && x !in page :: x == n || Below(n, x)
  }

  lemma WalkedNext(ns: Namespace, after: string, page: seq<string>, it: string)
    requires Walked(Lexical(), ns.Keys, after, page, Some(it))
    ensures NextLeft(ns, after, page, it)
  {
    forall i | 0 <= i < |page|
      ensures page[i] != it
    {
      BelowItself(it);
    }
  }

  /** A page's text and names so far, and the first name that is left. */
  ghost predicate Filled(ns: Namespace, after: string, text: string, page: seq<string>, it: Option<string>) {
    && Walked(Lexical(), ns.Keys, after, page, it) && (forall i | 0 <= i < |page| :: page[i] in ns)
    && text == Items(ns, page) && |page| <= |text|
  }

  lemma FilledMore(ns: Namespace, after: string, text: string, page: seq<string>, it: string, next: Option<string>)
    requires Filled(ns, after, text, page, Some(it)) && IsNext(Lexical(), ns.Keys, it, next)
    ensures Filled(ns, after, text + Item(ns, it), page + [it], next)
  {
    LexicalOrders();
    WalkOn(Lexical(), ns.Keys, after, page, it, next);
    assert (page + [it])[..|page|] == page;
  }

  method FillPage(ns: Namespace, after: string, budget: nat)
      returns (text: (string, seq<string>), ghost left: Option<string>)
    requires GoodNames(ns) && budget >= MAX_NAME + 42
    ensures Filled(ns, after, text.0, text.1, left) && |text.0| <= budget
    ensures left.Some? ==> text.1 != [] && left.value in ns && |text.0| + |Item(ns, left.value)| > budget
  {
    var out, page := "", [];
    var it := FirstPast(ns.Keys, after);
    while it.Some?
      invariant Filled(ns, after, out, page, it) && |out| <= budget
      decreases budget - |out|
    {
      var w := Item(ns, it.value);
      if |out| + |w| > budget {
        return (out, page), it;
      }
      var next := StepPast(ns.Keys, it.value);
      FilledMore(ns, after, out, page, it.value, next);
      out, page, it := out + w, page + [it.value], next;
    }
    return (out, page), None;
  }

  /** One page of the names: it fits one line, is empty only if no name is left, and ends early only if the next name
      does not fit. */
  method PageOfNames(ns: Namespace, after: string) returns (line: string, page: seq<string>)
    requires GoodNames(ns)
    ensures IsPage(Lexical(), ns.Keys, after, page) && (forall i | 0 <= i < |page| :: page[i] in ns)
    ensures line == "ENTRIES" + " " + Digits(|page|) + Items(ns, page) && |line| <= MAX_LINE
    ensures || (forall x | x in ns && Past(Lexical(), after, x) :: x in page)
            || exists n ::
                 NextLeft(ns, after, page, n) && |Items(ns, page)| + |Item(ns, n)| > MAX_LINE - |"ENTRIES 9999"|
  {
    var text, left := FillPage(ns, after, MAX_LINE - |"ENTRIES 9999"|);
    page := text.1;
    LexicalOrders();
    WalkEnds(Lexical(), ns.Keys, after, page, left);
    if left.Some? {
      WalkedNext(ns, after, page, left.value);
    }
    CountIsShort(|page|);
    line := "ENTRIES" + " " + Digits(|page|) + text.0;
  }

  lemma CountIsShort(n: nat)
    requires n <= MAX_LINE
    ensures |Digits(n)| <= 4
  {
    DigitsLength(n, 4);
    assert Pow10(4) == 10 * Pow10(3) && Pow10(3) == 10 * Pow10(2) && Pow10(2) == 10 * Pow10(1) &&
           Pow10(1) == 10 * Pow10(0);
  }
}
