/** The collection: list the names, mark what their trees hold, and ask each node to drop the rest. */
module Collector {
  import opened Text
  import opened ManifestTrees
  import opened TreeRoundTrip
  import opened Reachability

  const MAX_HAVE_KEYS: nat := 20

  datatype Settings = Settings(upload: int, wait: int, deadline: int, dryRun: bool)
  type Page = seq<(string, string)>

  // ---- mark ----

  ghost predicate OnPage(pages: seq<Page>, e: (string, string)) {
    exists i :: 0 <= i < |pages| && e in pages[i]
  }

  function Together(pages: seq<Page>): Page {
    if pages == [] then [] else Together(pages[..|pages| - 1]) + pages[|pages| - 1]
  }

  lemma {:induction false} TogetherIs(pages: seq<Page>, e: (string, string))
    ensures e in Together(pages) <==> OnPage(pages, e)
  {
    if pages != [] {
      var k := |pages| - 1;
      TogetherIs(pages[..k], e);
      assert forall i | 0 <= i < k :: pages[..k][i] == pages[i];
      if OnPage(pages[..k], e) {
        var i :| 0 <= i < k && e in pages[..k][i];
        assert e in pages[i];
      }
    }
  }

  /** Each cursor is the last name of the page before. */
  predicate CursorAfter(pages: seq<Page>, asked: seq<string>, i: nat) {
    i < |pages| && i + 1 < |asked| && pages[i] != [] && asked[i + 1] == pages[i][|pages[i]| - 1].0
  }

  predicate CursorsFollow(pages: seq<Page>, asked: seq<string>) {
    && |pages| <= |asked| <= |pages| + 1 && (asked != [] ==> asked[0] == "")
    && forall i | 0 <= i < |asked| - 1 :: CursorAfter(pages, asked, i)
  }

  lemma CursorMore(pages: seq<Page>, asked: seq<string>, page: Page)
    requires CursorsFollow(pages, asked) && |asked| == |pages| + 1
    ensures CursorsFollow(pages + [page], asked)
    ensures page != [] ==> CursorsFollow(pages + [page], asked + [page[|page| - 1].0])
  {
    var more := pages + [page];
    forall i | 0 <= i < |asked| - 1
      ensures CursorAfter(more, asked, i)
    {
      assert CursorAfter(pages, asked, i);
    }
    if page != [] {
      var next := asked + [page[|page| - 1].0];
      forall i | 0 <= i < |next| - 1
        ensures CursorAfter(more, next, i)
      {
        assert i < |pages| ==> CursorAfter(pages, asked, i);
      }
    }
  }

  /** This reply is the first empty page, and none before it failed. */
  predicate PagesEnd(replies: seq<Option<Page>>, end: nat) {
    && end < |replies| && replies[end] == Some([])
    && forall i | 0 <= i < end :: replies[i].Some? && replies[i].value != []
  }

  /** Page after page until an empty one; `replies` are what the group answers, request by request. */
  method ListNames(replies: seq<Option<Page>>) returns (ok: bool, all: Page, pages: seq<Page>, asked: seq<string>)
    ensures |pages| <= |replies| && forall i | 0 <= i < |pages| :: replies[i] == Some(pages[i])
    ensures CursorsFollow(pages, asked) && (ok ==> pages != [] && pages[|pages| - 1] == [] && |asked| == |pages|)
    ensures all == Together(pages) && (ok <==> exists end: nat :: PagesEnd(replies, end))
  {
    all, pages := [], [];
    asked := [""];
    while |pages| < |replies|
      invariant |pages| <= |replies| && forall i | 0 <= i < |pages| :: replies[i] == Some(pages[i])
      invariant |asked| == |pages| + 1 && CursorsFollow(pages, asked) && all == Together(pages)
      invariant forall i | 0 <= i < |pages| :: replies[i].Some? && replies[i].value != []
      decreases |replies| - |pages|
    {
      var reply := replies[|pages|];
      if reply.None? {
        return false, all, pages, asked;
      }
      var page := reply.value;
      CursorMore(pages, asked, page);
      assert (pages + [page])[..|pages|] == pages;
      all, pages := all + page, pages + [page];
      if page == [] {
        assert PagesEnd(replies, |pages| - 1);
        return true, all, pages, asked;
      }
      asked := asked + [page[|page| - 1].0];
    }
    return false, all, pages, asked;
  }

  /** The trees' store, root by root. */
  type Stores = string -> Store

  ghost predicate Marked(get: Stores, roots: set<string>, key: string) {
    exists root :: root in roots && Resolve(get(root), root).Some? && key in LiveOf(Resolve(get(root), root).value)
  }

  /** Every tree is read, or nothing is marked at all. */
  method MarkTrees(roots: set<string>, get: Stores) returns (live: Option<set<string>>)
    ensures live.Some? <==> forall root | root in roots :: Resolve(get(root), root).Some?
    ensures live.Some? ==> forall key :: key in live.value <==> Marked(get, roots, key)
  {
    var left, marked: set<string> := roots, {};
    while left != {}
      invariant left <= roots && forall root | root in roots - left :: Resolve(get(root), root).Some?
      invariant forall key :: key in marked <==> Marked(get, roots - left, key)
      decreases |left|
    {
      var root :| root in left;
      var r := ResolveManifest(get(root), root);
      if r.None? {
        return None;
      }
      forall key
        ensures Marked(get, roots - (left - {root}), key) <==> Marked(get, roots - left, key) || key in LiveOf(r.value)
      {
        MarkedMore(get, roots - left, roots - (left - {root}), root, key);
      }
      marked := marked + LiveOf(r.value);
      left := left - {root};
    }
    assert roots - left == roots;
    live := Some(marked);
  }

  lemma MarkedMore(get: Stores, a: set<string>, b: set<string>, root: string, key: string)
    requires b == a + {root} && Resolve(get(root), root).Some?
    ensures Marked(get, b, key) <==> Marked(get, a, key) || key in LiveOf(Resolve(get(root), root).value)
  {
    if key in LiveOf(Resolve(get(root), root).value) {
      assert root in b;
    }
  }

  // ---- sweep ----

  /** A node's answer to KEYS: some of its keys, and its grace. */
  datatype KeysReply = KeysReply(keys: seq<string>, grace: int)

  /** How a node answers, and when its batches would be sent. */
  datatype Node = Node(replies: seq<Option<KeysReply>>, clock: nat -> int, accepts: nat -> bool)

  ghost predicate Told(replies: seq<Option<KeysReply>>, end: nat, key: string) {
    exists i :: 0 <= i < end && i < |replies| && replies[i].Some? && key in replies[i].value.keys
  }

  /** The list ends with this reply, the first that holds no keys, which gives the node's grace. */
  predicate Ends(replies: seq<Option<KeysReply>>, end: nat, grace: int) {
    && end < |replies| && replies[end] == Some(KeysReply([], grace))
    && forall i | 0 <= i < end :: replies[i].Some? && replies[i].value.keys != []
  }

  method DeadOf(keys: seq<string>, live: set<string>) returns (dead: seq<string>)
    ensures forall k :: k in dead <==> k in keys && k !in live
  {
    dead := [];
    for i := 0 to |keys|
      invariant forall k :: k in dead <==> k in keys[..i] && k !in live
    {
      if keys[i] !in live {
        dead := dead + [keys[i]];
      }
      assert keys[..i + 1] == keys[..i] + [keys[i]];
    }
    assert keys[..|keys|] == keys;
  }

  /** What a node holds that no name needs; `listed` only if the list came to its end. */
  method ListNode(replies: seq<Option<KeysReply>>, live: set<string>)
      returns (listed: bool, grace: int, garbage: seq<string>, end: nat)
    ensures end <= |replies| && forall k :: k in garbage <==> Told(replies, end, k) && k !in live
    ensures listed ==> Ends(replies, end, grace)
    ensures listed <==> exists e: nat, g :: Ends(replies, e, g)
  {
    listed, grace, garbage, end := false, -1, [], 0;
    while end < |replies|
      invariant end <= |replies| && !listed && forall k :: k in garbage <==> Told(replies, end, k) && k !in live
      invariant forall i | 0 <= i < end :: replies[i].Some? && replies[i].value.keys != []
      decreases |replies| - end
    {
      if replies[end].None? {
        return;
      }
      var keys := replies[end].value.keys;
      grace := replies[end].value.grace;
      if keys == [] {
        assert Ends(replies, end, grace);
        listed := true;
        return;
      }
      var dead := DeadOf(keys, live);
      forall k
        ensures Told(replies, end + 1, k) <==> Told(replies, end, k) || k in keys
      {
        assert k in keys ==> k in replies[end].value.keys;
      }
      garbage := garbage + dead;
      end := end + 1;
    }
  }

  /** One DROP: to which node, when, and of which keys. */
  datatype Sent = Sent(node: nat, at: int, keys: seq<string>)

  function AllSent(sent: seq<Sent>): seq<string> {
    if sent == [] then [] else AllSent(sent[..|sent| - 1]) + sent[|sent| - 1].keys
  }

  /** Every DROP is sent in time and holds a few keys of `garbage`. */
  ghost predicate Proper(sent: seq<Sent>, node: nat, t0: int, deadline: int, garbage: seq<string>) {
    forall i | 0 <= i < |sent| ::
      && sent[i].node == node && sent[i].at - t0 <= deadline && 1 <= |sent[i].keys| <= MAX_HAVE_KEYS
      && forall k | k in sent[i].keys :: k in garbage
  }

  /** Batch after batch, and none once the deadline has passed; if nothing stopped it, all of it. */
  method SweepNode(p: nat, garbage: seq<string>, node: Node, t0: int, deadline: int)
      returns (sent: seq<Sent>, hit: bool, refused: bool)
    ensures Proper(sent, p, t0, deadline, garbage)
    ensures !hit && !refused ==> AllSent(sent) == garbage
    ensures hit ==> node.clock(|sent|) - t0 > deadline
    ensures refused <==> exists j :: 0 <= j < |sent| && !node.accepts(j)
    ensures forall j | 0 <= j < |sent| - 1 :: |sent[j].keys| == MAX_HAVE_KEYS
  {
    sent, hit, refused := [], false, false;
    var i := 0;
    while i < |garbage|
      invariant 0 <= i <= |garbage| && Proper(sent, p, t0, deadline, garbage) && AllSent(sent) == garbage[..i]
      invariant forall j | 0 <= j < |sent| :: node.accepts(j)
      invariant forall j | 0 <= j < |sent| && (j < |sent| - 1 || i < |garbage|) :: |sent[j].keys| == MAX_HAVE_KEYS
      decreases |garbage| - i
    {
      var now := node.clock(|sent|);
      if now - t0 > deadline {
        hit := true;
        return;
      }
      var end := if |garbage| < i + MAX_HAVE_KEYS then |garbage| else i + MAX_HAVE_KEYS;
      var keys := garbage[i..end];
      assert garbage[..i] + keys == garbage[..end];
      var ok := node.accepts(|sent|);
      assert (sent + [Sent(p, now, keys)])[..|sent|] == sent;
      sent := sent + [Sent(p, now, keys)];
      if !ok {
        assert !node.accepts(|sent| - 1);
        refused := true;
        return;
      }
      i := end;
    }
    assert garbage[..i] == garbage;
  }

  // ---- the whole collection ----

  datatype Report = Report(ok: bool, all: Page, live: set<string>, sent: seq<Sent>, deadlineHit: bool)

  function Roots(all: Page): set<string> {
    set i | 0 <= i < |all| :: all[i].1
  }

  /** The node's list ended, with this grace or more, and all these keys are on it. */
  ghost predicate Gave(node: Node, needed: int, keys: seq<string>) {
    exists end: nat, grace {:trigger Ends(node.replies, end, grace)} ::
      Ends(node.replies, end, grace) && grace >= needed && forall k | k in keys :: Told(node.replies, end, k)
  }

  /** A DROP that may be sent: in time, to a node whose grace is long enough, of nothing that any name needs. */
  ghost predicate MaySend(s: Sent, nodes: seq<Node>, limits: Settings, t0: int, live: set<string>) {
    && s.node < |nodes| && !limits.dryRun && s.at - t0 <= limits.deadline && |s.keys| <= MAX_HAVE_KEYS
    && Gave(nodes[s.node], limits.upload + limits.wait + limits.deadline, s.keys)
    && forall k | k in s.keys :: k !in live
  }

  /** The pages are the replies so far, each asked for after the last name of the one before. */
  predicate Listed(replies: seq<Option<Page>>, pages: seq<Page>, asked: seq<string>) {
    |pages| <= |replies| && (forall i | 0 <= i < |pages| :: replies[i] == Some(pages[i])) && CursorsFollow(pages, asked)
  }

  predicate Finished(pages: seq<Page>, asked: seq<string>) {
    pages != [] && pages[|pages| - 1] == [] && |asked| == |pages|
  }

  /** Every tree was read, and what they hold is exactly what is live. */
  ghost predicate MarkedAll(rep: Report, get: Stores) {
    && (forall root | root in Roots(rep.all) :: Resolve(get(root), root).Some?)
    && forall key :: key in rep.live <==> Marked(get, Roots(rep.all), key)
  }

  ghost predicate SentProperly(rep: Report, nodes: seq<Node>, limits: Settings, t0: int) {
    forall i | 0 <= i < |rep.sent| :: MaySend(rep.sent[i], nodes, limits, t0, rep.live)
  }

  // ---- what the sweep reaches ----

  /** The DROPs sent to one node, in order. */
  function SentTo(sent: seq<Sent>, p: nat): (to: seq<Sent>) {
    if sent == [] then []
    else SentTo(sent[..|sent| - 1], p) + if sent[|sent| - 1].node == p then [sent[|sent| - 1]] else []
  }

  lemma {:induction false} SentToJoin(a: seq<Sent>, b: seq<Sent>, p: nat)
    ensures SentTo(a + b, p) == SentTo(a, p) + SentTo(b, p)
    decreases |b|
  {
    if b == [] {
      assert a + b == a;
    } else {
      SentToJoin(a, b[..|b| - 1], p);
      assert (a + b)[..|a + b| - 1] == a + b[..|b| - 1];
    }
  }

  lemma {:induction false} SentToOne(sent: seq<Sent>, q: nat, p: nat)
    requires forall i | 0 <= i < |sent| :: sent[i].node == q
    ensures SentTo(sent, p) == if p == q then sent else []
  {
    if sent != [] {
      SentToOne(sent[..|sent| - 1], q, p);
      assert sent == sent[..|sent| - 1] + [sent[|sent| - 1]];
    }
  }

  /** All of the node's garbage was sent to it, unless it refused a batch: if its list ended with grace enough, the
      keys sent are exactly those on the list that are not live; and if not, nothing was sent. */
  ghost predicate Swept(node: Node, to: seq<Sent>, needed: int, live: set<string>) {
    && (forall end: nat, grace {:trigger Ends(node.replies, end, grace)} |
          Ends(node.replies, end, grace) && grace >= needed && (forall j | 0 <= j < |to| :: node.accepts(j)) ::
          forall k :: k in AllSent(to) <==> Told(node.replies, end, k) && k !in live)
    && (to != [] ==> exists end: nat, grace {:trigger Ends(node.replies, end, grace)} ::
                       Ends(node.replies, end, grace) && grace >= needed)
  }

  /** Nodes from `from` on were sent nothing; those before are swept. */
  ghost predicate SweptUpTo(nodes: seq<Node>, sent: seq<Sent>, needed: int, live: set<string>, upTo: nat, from: nat) {
    && (forall p {:trigger SentTo(sent, p)} | 0 <= p < |nodes| && p < upTo ::
          Swept(nodes[p], SentTo(sent, p), needed, live))
    && forall p: nat {:trigger SentTo(sent, p)} | p >= from :: SentTo(sent, p) == []
  }

  /** The deadline was found passed at this node, with the next batch to send. */
  ghost predicate HitAt(nodes: seq<Node>, sent: seq<Sent>, t0: int, deadline: int, p: nat) {
    p < |nodes| && nodes[p].clock(|SentTo(sent, p)|) - t0 > deadline
  }

  /** A real sweep reaches every node, or stops where it finds the deadline passed. */
  ghost predicate SweptAll(nodes: seq<Node>, limits: Settings, t0: int, live: set<string>, sent: seq<Sent>, hit: bool) {
    var needed := limits.upload + limits.wait + limits.deadline;
    if limits.dryRun then sent == [] && !hit
    else if !hit then SweptUpTo(nodes, sent, needed, live, |nodes|, |nodes|)
    else exists p: nat :: HitAt(nodes, sent, t0, limits.deadline, p) && SweptUpTo(nodes, sent, needed, live, p, p + 1)
  }

  /** If the names come to their end and every tree is read, and only then, the collection goes through, and what no
      name needs is dropped. */
  method Collect(replies: seq<Option<Page>>, get: Stores, nodes: seq<Node>, limits: Settings, t0: int)
    returns (rep: Report, pages: seq<Page>, asked: seq<string>)
    ensures Listed(replies, pages, asked) && rep.all == Together(pages)
    ensures rep.ok <==> && (exists end: nat :: PagesEnd(replies, end))
                        && forall root | root in Roots(rep.all) :: Resolve(get(root), root).Some?
    ensures !rep.ok ==> rep.sent == []
    ensures rep.ok ==> Finished(pages, asked) && MarkedAll(rep, get) && SentProperly(rep, nodes, limits, t0)
    ensures rep.ok ==> SweptAll(nodes, limits, t0, rep.live, rep.sent, rep.deadlineHit)
  {
    var ok, all;
    ok, all, pages, asked := ListNames(replies);
    rep := Report(false, all, {}, [], false);
    if !ok {
      return;
    }
    var live := MarkTrees(Roots(all), get);
    if live.None? {
      return;
    }
    var sent, hit := SweepAll(nodes, limits, t0, live.value);
    rep := Report(true, all, live.value, sent, hit);
  }

  method SweepAll(nodes: seq<Node>, limits: Settings, t0: int, live: set<string>) returns (sent: seq<Sent>, hit: bool)
    ensures forall i | 0 <= i < |sent| :: MaySend(sent[i], nodes, limits, t0, live)
    ensures SweptAll(nodes, limits, t0, live, sent, hit)
  {
    sent, hit := [], false;
    var needed := limits.upload + limits.wait + limits.deadline;
    var p := 0;
    while p < |nodes| && !hit
      invariant 0 <= p <= |nodes| && forall i | 0 <= i < |sent| :: MaySend(sent[i], nodes, limits, t0, live)
      invariant limits.dryRun ==> sent == [] && !hit
      invariant !limits.dryRun && !hit ==> SweptUpTo(nodes, sent, needed, live, p, p)
      invariant !limits.dryRun && hit ==>
                  && p > 0 && HitAt(nodes, sent, t0, limits.deadline, p - 1)
                  && SweptUpTo(nodes, sent, needed, live, p - 1, p)
      decreases |nodes| - p, !hit
    {
      var more, h := SweepOne(nodes, p, limits, t0, live, needed);
      if !limits.dryRun {
        SweptMore(nodes, sent, more, needed, live, p, h, t0, limits.deadline);
      }
      sent, hit := sent + more, h;
      p := p + 1;
    }
  }

  /** What one node's turn leaves: it is swept, unless the deadline was found passed. */
  method SweepOne(nodes: seq<Node>, p: nat, limits: Settings, t0: int, live: set<string>, needed: int)
      returns (more: seq<Sent>, hit: bool)
    requires p < |nodes| && needed == limits.upload + limits.wait + limits.deadline
    ensures forall i | 0 <= i < |more| :: more[i].node == p && MaySend(more[i], nodes, limits, t0, live)
    ensures limits.dryRun ==> more == [] && !hit
    ensures !limits.dryRun && !hit ==> Swept(nodes[p], more, needed, live)
    ensures hit ==> nodes[p].clock(|more|) - t0 > limits.deadline
  {
    more, hit := [], false;
    var listed, grace, garbage, end := ListNode(nodes[p].replies, live);
    if listed && grace >= needed && !limits.dryRun {
      var refused;
      more, hit, refused := SweepNode(p, garbage, nodes[p], t0, limits.deadline);
      forall i | 0 <= i < |more|
        ensures MaySend(more[i], nodes, limits, t0, live)
      {
        assert Ends(nodes[p].replies, end, grace);
      }
    }
    if !limits.dryRun && !hit {
      TurnSweeps(nodes[p], more, needed, live, listed, grace, garbage, end);
    }
  }

  /** A list has only one end. */
  lemma OneEnd(replies: seq<Option<KeysReply>>, a: nat, g: int, b: nat, h: int)
    requires Ends(replies, a, g) && Ends(replies, b, h)
    ensures a == b && g == h
  {
  }

  lemma TurnSweeps(node: Node, to: seq<Sent>, needed: int, live: set<string>, listed: bool, grace: int,
                   garbage: seq<string>, end: nat)
    requires forall k :: k in garbage <==> Told(node.replies, end, k) && k !in live
    requires listed <==> exists e: nat, g :: Ends(node.replies, e, g)
    requires listed ==> Ends(node.replies, end, grace)
    requires !(listed && grace >= needed) ==> to == []
    requires listed && grace >= needed && (forall j | 0 <= j < |to| :: node.accepts(j)) ==> AllSent(to) == garbage
    ensures Swept(node, to, needed, live)
  {
    forall e: nat, g | Ends(node.replies, e, g)
      ensures e == end && g == grace
    {
      OneEnd(node.replies, e, g, end, grace);
    }
  }

  lemma SweptMore(nodes: seq<Node>, sent: seq<Sent>, more: seq<Sent>, needed: int, live: set<string>, p: nat, h: bool,
                  t0: int, deadline: int)
    requires p < |nodes| && SweptUpTo(nodes, sent, needed, live, p, p)
    requires forall i | 0 <= i < |more| :: more[i].node == p
    requires !h ==> Swept(nodes[p], more, needed, live)
    requires h ==> nodes[p].clock(|more|) - t0 > deadline
    ensures !h ==> SweptUpTo(nodes, sent + more, needed, live, p + 1, p + 1)
    ensures h ==> HitAt(nodes, sent + more, t0, deadline, p) && SweptUpTo(nodes, sent + more, needed, live, p, p + 1)
  {
    forall q: nat
      ensures SentTo(sent + more, q) == if q == p then SentTo(sent, p) + more else SentTo(sent, q)
    {
      SentToJoin(sent, more, q);
      SentToOne(more, p, q);
    }
    assert SentTo(sent, p) == [] && [] + more == more;
  }
}
