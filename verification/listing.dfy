/** Pages of an ordered index that changes between one page and the next. */
module Listing {
  import opened Text

  // ---- the order of strings ----

  predicate Below(a: string, b: string) {
    if b == [] then false
    else if a == [] then true
    else a[0] < b[0] || (a[0] == b[0] && Below(a[1..], b[1..]))
  }

  lemma {:induction false} BelowItself(a: string)
    ensures !Below(a, a)
  {
    if a != [] {
      BelowItself(a[1..]);
    }
  }

  lemma {:induction false} BelowTotal(a: string, b: string)
    ensures a == b || Below(a, b) || Below(b, a)
  {
    if a != [] && b != [] && a[0] == b[0] {
      BelowTotal(a[1..], b[1..]);
      assert a == [a[0]] + a[1..] && b == [b[0]] + b[1..];
    }
  }

  lemma {:induction false} BelowAsym(a: string, b: string)
    requires Below(a, b)
    ensures !Below(b, a) && a != b
  {
    if a != [] && a[0] == b[0] {
      BelowAsym(a[1..], b[1..]);
    }
  }

  lemma {:induction false} BelowTrans(a: string, b: string, c: string)
    requires Below(a, b) && Below(b, c)
    ensures Below(a, c)
  {
    if a != [] && a[0] == b[0] == c[0] {
      BelowTrans(a[1..], b[1..], c[1..]);
    }
  }

  /** An order on strings, such as Lexical(). */
  type Order = (string, string) -> bool

  function Lexical(): Order {
    (a: string, b: string) => Below(a, b)
  }

  // ---- one page ----

  /** From the start if the cursor is empty, else strictly after it. */
  predicate Past(lt: Order, after: string, x: string) {
    after == "" || lt(after, x)
  }

  /** A page holds the first names past the cursor, in order, and is empty only if there are none. */
  ghost predicate IsPage(lt: Order, index: set<string>, after: string, page: seq<string>) {
    && (forall i | 0 <= i < |page| :: page[i] in index && Past(lt, after, page[i]))
    && (forall i, j | 0 <= i < j < |page| :: lt(page[i], page[j]))
    && (forall x | x in index && Past(lt, after, x) :: page != [] && (x in page || lt(page[|page| - 1], x)))
  }

  /** The first name past a cursor: how an ordered map is walked. */
  method FirstPast(index: set<string>, after: string) returns (r: Option<string>)
    ensures r.Some? ==> r.value in index && Past(Lexical(), after, r.value) && forall x | x in index &&
            Past(Lexical(), after, x) :: x == r.value || Below(r.value, x)
    ensures r.None? ==> forall x | x in index :: !Past(Lexical(), after, x)
  {
    r := None;
    var left := index;
    while left != {}
      invariant left <= index
      invariant r.Some? ==> r.value in index && Past(Lexical(), after, r.value)
      invariant r.Some? ==>
                forall x | x in index - left && Past(Lexical(), after, x) :: x == r.value || Below(r.value, x)
      invariant r.None? ==> forall x | x in index - left :: !Past(Lexical(), after, x)
      decreases |left|
    {
      var y :| y in left;
      if Past(Lexical(), after, y) {
        if r.Some? {
          BelowTotal(y, r.value);
        }
        if r.None? || Below(y, r.value) {
          if r.Some? {
            forall x | x in index - left && Past(Lexical(), after, x)
              ensures Below(y, x)
            {
              if x != r.value {
                BelowTrans(y, r.value, x);
              }
            }
          }
          r := Some(y);
        }
      }
      left := left - {y};
    }
  }

  // ---- all the pages ----

  /** The cursor after a page is its last name. */
  predicate Follows(pages: seq<seq<string>>, cursors: seq<string>, i: nat) {
    i < |pages| && i + 1 < |cursors| && pages[i] != [] && cursors[i + 1] == pages[i][|pages[i]| - 1]
  }

  /** Page by page, each from what the index was then and after the last name of the page before; the last is empty. */
  ghost predicate IsListing(lt: Order, views: seq<set<string>>, cursors: seq<string>, pages: seq<seq<string>>) {
    && |views| == |cursors| == |pages| > 0 && cursors[0] == "" && pages[|pages| - 1] == []
    && (forall i {:trigger IsPage(lt, views[i], cursors[i], pages[i])} | 0 <= i < |pages| ::
        IsPage(lt, views[i], cursors[i], pages[i]))
    && (forall i | 0 <= i < |pages| - 1 :: Follows(pages, cursors, i))
  }

  lemma {:induction false} SeenOrAhead(lt: Order, views: seq<set<string>>, cursors: seq<string>,
                                       pages: seq<seq<string>>, x: string, n: nat)
    returns (i: nat)
    requires IsListing(lt, views, cursors, pages) && n < |pages| && forall j | 0 <= j < n :: x in views[j]
    ensures (i < n && x in pages[i]) || Past(lt, cursors[n], x)
    decreases n
  {
    i := 0;
    if n > 0 {
      i := SeenOrAhead(lt, views, cursors, pages, x, n - 1);
      assert IsPage(lt, views[n - 1], cursors[n - 1], pages[n - 1]) && Follows(pages, cursors, n - 1);
      if !(i < n - 1 && x in pages[i]) {
        i := n - 1;
      }
    }
  }

  /** Whatever is added or removed meanwhile, a name present throughout the listing is on one of its pages. */
  lemma PresentIsListed(lt: Order, views: seq<set<string>>, cursors: seq<string>, pages: seq<seq<string>>, x: string)
      returns (i: nat)
    requires IsListing(lt, views, cursors, pages) && forall j | 0 <= j < |views| :: x in views[j]
    ensures i < |pages| && x in pages[i]
  {
    var n := |pages| - 1;
    i := SeenOrAhead(lt, views, cursors, pages, x, n);
    assert IsPage(lt, views[n], cursors[n], pages[n]);
  }
}
