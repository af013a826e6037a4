/** No acknowledged upload is collected. */
module CollectTheorems {
  import opened Text
  import opened Names
  import opened Listing
  import opened Manifests
  import opened ManifestTrees
  import opened Reachability
  import opened Collector
  import opened StoreRuns

  /** A collection that went through with its mark: when its listing began, the names as they stood for each page, the
      pages and cursors, the store it read trees from, and what it found live. */
  datatype Collection = Collection(begun: int, views: seq<Namespace>, pages: seq<Page>, asked: seq<string>,
                                   get: Stores, live: set<string>)

  function NamesOn(page: Page): (names: seq<string>)
    ensures |names| == |page| && forall i | 0 <= i < |page| :: names[i] == page[i].0
  {
    seq(|page|, i requires 0 <= i < |page| => page[i].0)
  }

  /** A page of the names as they stood, each with its key. */
  ghost predicate PageFrom(lt: Order, ns: Namespace, after: string, page: Page) {
    && IsPage(lt, ns.Keys, after, NamesOn(page))
    && forall i | 0 <= i < |page| :: page[i].0 in ns && page[i].1 == ns[page[i].0].key
  }

  /** What Collect promises of one that went through, on pages that the group served. */
  ghost predicate Conducted(c: Collection) {
    && |c.views| == |c.pages| == |c.asked| > 0 && c.pages[|c.pages| - 1] == [] && CursorsFollow(c.pages, c.asked)
    && (forall i | 0 <= i < |c.pages| :: PageFrom(Lexical(), c.views[i], c.asked[i], c.pages[i]))
    && (forall root | root in Roots(Together(c.pages)) :: Resolve(c.get(root), root).Some?)
    && forall key :: key in c.live <==> Marked(c.get, Roots(Together(c.pages)), key)
  }

  /** The name has this root on every page's view. */
  ghost predicate Throughout(c: Collection, name: string, root: string) {
    forall i | 0 <= i < |c.views| :: name in c.views[i] && c.views[i][name].key == root
  }

  lemma NamesListing(lt: Order, views: seq<Namespace>, pages: seq<Page>, asked: seq<string>)
      returns (index: seq<set<string>>, names: seq<seq<string>>)
    requires |views| == |pages| == |asked| > 0 && pages[|pages| - 1] == [] && CursorsFollow(pages, asked)
    requires forall i | 0 <= i < |pages| :: PageFrom(lt, views[i], asked[i], pages[i])
    ensures IsListing(lt, index, asked, names)
    ensures forall i | 0 <= i < |pages| :: index[i] == views[i].Keys && names[i] == NamesOn(pages[i])
  {
    index := seq(|views|, i requires 0 <= i < |views| => views[i].Keys);
    names := seq(|pages|, i requires 0 <= i < |pages| => NamesOn(pages[i]));
    forall i | 0 <= i < |pages|
      ensures IsPage(lt, index[i], asked[i], names[i])
    {
      assert PageFrom(lt, views[i], asked[i], pages[i]);
    }
    forall i | 0 <= i < |pages| - 1
      ensures Follows(names, asked, i)
    {
      assert CursorAfter(pages, asked, i);
    }
  }

  lemma ListedEntry(lt: Order, views: seq<Namespace>, pages: seq<Page>, asked: seq<string>, name: string, root: string)
    requires |views| == |pages| == |asked| > 0 && pages[|pages| - 1] == [] && CursorsFollow(pages, asked)
    requires forall i | 0 <= i < |pages| :: PageFrom(lt, views[i], asked[i], pages[i])
    requires forall i | 0 <= i < |views| :: name in views[i] && views[i][name].key == root
    ensures OnPage(pages, (name, root))
  {
    var index, names := NamesListing(lt, views, pages, asked);
    var i := PresentIsListed(lt, index, asked, names, name);
    EntryOn(lt, views[i], asked[i], pages[i], name);
  }

  lemma EntryOn(lt: Order, ns: Namespace, after: string, page: Page, name: string)
    requires PageFrom(lt, ns, after, page) && name in NamesOn(page)
    ensures name in ns && (name, ns[name].key) in page
  {
    var j :| 0 <= j < |page| && NamesOn(page)[j] == name;
    assert page[j] == (name, ns[name].key);
  }

  lemma ListedRoot(c: Collection, name: string, root: string)
    requires Conducted(c) && Throughout(c, name, root)
    ensures root in Roots(Together(c.pages))
  {
    ListedEntry(Lexical(), c.views, c.pages, c.asked, name, root);
    TogetherIs(c.pages, (name, root));
    RootIn(Together(c.pages), (name, root));
  }

  lemma RootIn(all: Page, e: (string, string))
    requires e in all
    ensures e.1 in Roots(all)
  {
    var k :| 0 <= k < |all| && all[k] == e;
  }

  /** What a name reaches: `ks` leads from its root to `key` through manifests that the content of their keys fixes. */
  ghost predicate Reaches(view: string -> Option<Manifest>, root: string, ks: seq<string>, key: string) {
    Chain(view, ks) && ks[0] == root && ks[|ks| - 1] == key
  }

  /** Everything reachable from a name that is present throughout a collection's listing is live. */
  lemma NamedIsLive(c: Collection, name: string, root: string, view: string -> Option<Manifest>, ks: seq<string>,
                    key: string)
    requires Conducted(c) && Throughout(c, name, root) && Reaches(view, root, ks, key)
    requires Consistent(Fetched(c.get(root)), view)
    ensures key in c.live
  {
    ListedRoot(c, name, root);
    ReachableIsLive(Fetched(c.get(root)), view, root, ks);
    assert Resolve(c.get(root), root).Some? && key in LiveOf(Resolve(c.get(root), root).value);
    assert Marked(c.get, Roots(Together(c.pages)), key);
  }

  /** The bounds: an upload's limit, the tracker's wait, the collector's deadline. */
  datatype Bounds = Bounds(upload: int, wait: int, deadline: int)

  /** An upload of a name: when it began, when its registration took effect, and what it reaches. */
  datatype Upload = Upload(name: string, root: string, began: int, registered: int)

  /** Every DROP of `key` comes from a collection: within its deadline, of a key it did not find live; and once the
      name is registered it stays, so a listing that began later finds it on every view. */
  ghost predicate ByCollection(c: Collection, b: Bounds, u: Upload, view: string -> Option<Manifest>, key: string,
                               now: int) {
    && Conducted(c) && Consistent(Fetched(c.get(u.root)), view) && key !in c.live && now <= c.begun + b.deadline
    && (u.registered <= c.begun ==> Throughout(c, u.name, u.root))
  }

  // ---- the collector is what makes such collections ----

  /** What Collect leaves, on pages that the group served from its names as they stood, is a collection as above. */
  lemma CollectConducts(rep: Report, replies: seq<Option<Page>>, pages: seq<Page>, asked: seq<string>, get: Stores,
                        t0: int, views: seq<Namespace>) returns (c: Collection)
    requires rep.ok && rep.all == Together(pages) && Listed(replies, pages, asked) && Finished(pages, asked)
    requires MarkedAll(rep, get)
    requires |views| == |pages| && forall i | 0 <= i < |pages| :: PageFrom(Lexical(), views[i], asked[i], pages[i])
    ensures c == Collection(t0, views, pages, asked, get, rep.live) && Conducted(c)
  {
    c := Collection(t0, views, pages, asked, get, rep.live);
  }

  /** Every key of every DROP it sends is one that such a collection did not find live, sent within the deadline, to
      a node whose grace is at least U + W + D; if the DROP also takes effect within the deadline, it is one
      UploadIsKept admits. */
  lemma SentByCollection(rep: Report, nodes: seq<Node>, limits: Settings, c: Collection, i: nat, key: string, now: int,
                         u: Upload, view: string -> Option<Manifest>)
    requires SentProperly(rep, nodes, limits, c.begun) && i < |rep.sent| && key in rep.sent[i].keys
    requires Conducted(c) && c.live == rep.live && Consistent(Fetched(c.get(u.root)), view)
    requires now <= c.begun + limits.deadline && (u.registered <= c.begun ==> Throughout(c, u.name, u.root))
    ensures var b := Bounds(limits.upload, limits.wait, limits.deadline);
            && ByCollection(c, b, u, view, key, now) && rep.sent[i].at <= c.begun + b.deadline
            && rep.sent[i].node < |nodes|
            && Gave(nodes[rep.sent[i].node], b.upload + b.wait + b.deadline, rep.sent[i].keys)
  {
    assert MaySend(rep.sent[i], nodes, limits, c.begun, rep.live);
  }

  lemma KeysStay(size: Sizes, g: int, s: Shop, e: Event, key: string)
    requires key in s.keys && (e == Drop(key) ==> !Old(g, s, key)) && Survives(s, e, key)
    ensures key in Step(size, g, true, s, e).keys
  {
  }

  lemma DropIsRefused(g: int, s: Shop, b: Bounds, u: Upload, c: Collection, view: string -> Option<Manifest>,
                      ks: seq<string>, key: string, w: int)
    requires g >= b.upload + b.wait + b.deadline && u.registered <= u.began + b.upload + b.wait && u.began <= w
    requires Reaches(view, u.root, ks, key) && ByCollection(c, b, u, view, key, s.now)
    requires Fresh(g, s, key, w)
    ensures !Old(g, s, key)
  {
    if u.registered <= c.begun {
      NamedIsLive(c, u.name, u.root, view, ks, key);
    }
  }

  /** The premises: the node's grace is at least U + W + D, the upload's put of `key` was answered here at step a, no
      earlier than the upload began, the registration took effect within U + W of that, and every later DROP of the key
      comes from a collection. */
  ghost predicate Upheld(size: Sizes, g: int, s0: Shop, trace: seq<Event>, a: nat, key: string, b: Bounds, u: Upload,
                         whose: nat -> Collection, view: string -> Option<Manifest>, ks: seq<string>) {
    && a < |trace| && s0.birth <= s0.now && Acks(Run(size, g, true, s0, trace[..a]), trace[a], key)
    && u.began <= Run(size, g, true, s0, trace[..a]).now && u.registered <= u.began + b.upload + b.wait
    && Reaches(view, u.root, ks, key)
    && forall i | a < i < |trace| && trace[i] == Drop(key) ::
         ByCollection(whose(i), b, u, view, key, Run(size, g, true, s0, trace[..i]).now)
  }

  lemma UpheldPrefix(size: Sizes, g: int, s0: Shop, trace: seq<Event>, a: nat, key: string, b: Bounds, u: Upload,
                     whose: nat -> Collection, view: string -> Option<Manifest>, ks: seq<string>, k: nat)
    requires Upheld(size, g, s0, trace, a, key, b, u, whose, view, ks) && a < k <= |trace|
    ensures Upheld(size, g, s0, trace[..k], a, key, b, u, whose, view, ks) && trace[..k][..a] == trace[..a]
  {
    assert trace[..k][..a] == trace[..a];
    forall i | a < i < k && trace[..k][i] == Drop(key)
      ensures ByCollection(whose(i), b, u, view, key, Run(size, g, true, s0, trace[..k][..i]).now)
    {
      assert trace[..k][..i] == trace[..i];
    }
  }

  /** Still indexed, and counted as written since `w`. */
  predicate Kept(g: int, s: Shop, key: string, w: int) {
    key in s.keys && Fresh(g, s, key, w) && s.birth <= s.now && w <= s.now
  }

  /** No acknowledged upload is collected. In any run of a node's store, with any number of collections and
      restarts, the chunk is in the index ever after, if its file is there at every restart. */
  lemma UploadIsKept(size: Sizes, g: int, s0: Shop, trace: seq<Event>, a: nat, key: string, b: Bounds, u: Upload,
                     whose: nat -> Collection, view: string -> Option<Manifest>, ks: seq<string>)
    requires Upheld(size, g, s0, trace, a, key, b, u, whose, view, ks) && g >= b.upload + b.wait + b.deadline
    requires FileStays(size, g, s0, trace, key, a + 1)
    ensures Kept(g, Run(size, g, true, s0, trace), key, Run(size, g, true, s0, trace[..a]).now)
  {
    KeptRun(size, g, s0, trace, a, key, b, u, whose, view, ks, Run(size, g, true, s0, trace[..a]).now);
  }

  lemma {:induction false} KeptRun(size: Sizes, g: int, s0: Shop, trace: seq<Event>, a: nat, key: string, b: Bounds,
                                   u: Upload,
                                   whose: nat -> Collection, view: string -> Option<Manifest>, ks: seq<string>, w: int)
    requires Upheld(size, g, s0, trace, a, key, b, u, whose, view, ks) && g >= b.upload + b.wait + b.deadline
    requires FileStays(size, g, s0, trace, key, a + 1) && w == Run(size, g, true, s0, trace[..a]).now
    ensures Kept(g, Run(size, g, true, s0, trace), key, w)
    decreases |trace|
  {
    var k := |trace| - 1;
    if k == a {
      KeptFirst(size, g, s0, trace, a, key, w);
    } else {
      UpheldPrefix(size, g, s0, trace, a, key, b, u, whose, view, ks, k);
      StaysPrefix(size, g, s0, trace, key, a + 1, k);
      KeptRun(size, g, s0, trace[..k], a, key, b, u, whose, view, ks, w);
      assert Survives(Run(size, g, true, s0, trace[..k]), trace[k], key);
      KeptOn(size, g, Run(size, g, true, s0, trace[..k]), trace[k], key, b, u, whose(k), view, ks, w);
    }
  }

  lemma KeptFirst(size: Sizes, g: int, s0: Shop, trace: seq<Event>, a: nat, key: string, w: int)
    requires |trace| == a + 1 && s0.birth <= s0.now && Acks(Run(size, g, true, s0, trace[..a]), trace[a], key)
    requires w == Run(size, g, true, s0, trace[..a]).now
    ensures Kept(g, Run(size, g, true, s0, trace), key, w)
  {
    var s := Run(size, g, true, s0, trace[..a]);
    AckIsFresh(size, g, s, trace[a], key);
    RunTimes(size, g, s0, trace[..a]);
    AckAdds(size, g, s, trace[a], key);
  }

  lemma KeptOn(size: Sizes, g: int, s: Shop, e: Event, key: string, b: Bounds, u: Upload, c: Collection,
               view: string -> Option<Manifest>, ks: seq<string>, w: int)
    requires Kept(g, s, key, w) && Survives(s, e, key) && g >= b.upload + b.wait + b.deadline && u.began <= w
    requires u.registered <= u.began + b.upload + b.wait && Reaches(view, u.root, ks, key)
    requires e == Drop(key) ==> ByCollection(c, b, u, view, key, s.now)
    ensures Kept(g, Step(size, g, true, s, e), key, w)
  {
    StepFresh(size, g, s, e, key, w);
    if e == Drop(key) {
      DropIsRefused(g, s, b, u, c, view, ks, key, w);
    }
    KeysStay(size, g, s, e, key);
  }

  lemma AckAdds(size: Sizes, g: int, s: Shop, e: Event, key: string)
    requires Acks(s, e, key)
    ensures var t := Step(size, g, true, s, e); key in t.keys && t.now == s.now && t.birth == s.birth
  {
  }

  lemma {:induction false} RunTimes(size: Sizes, g: int, s0: Shop, trace: seq<Event>)
    requires s0.birth <= s0.now
    ensures Run(size, g, true, s0, trace).birth <= Run(size, g, true, s0, trace).now
  {
    if trace != [] {
      RunTimes(size, g, s0, trace[..|trace| - 1]);
    }
  }

  /** If no put of this key lasts as long as the grace, that is so at every restart, and the chunk stays both indexed
      and on disk. */
  lemma UploadIsOnDisk(size: Sizes, g: int, s0: Shop, trace: seq<Event>, a: nat, key: string, b: Bounds, u: Upload,
                       whose: nat -> Collection, view: string -> Option<Manifest>, ks: seq<string>)
    requires Upheld(size, g, s0, trace, a, key, b, u, whose, view, ks) && g >= b.upload + b.wait + b.deadline
    requires KeySound(g, s0, key) && KeyBrisk(size, g, s0, trace, key)
    ensures key in Run(size, g, true, s0, trace).keys && key in Run(size, g, true, s0, trace).files
  {
    BriskStays(size, g, s0, trace, key);
    UploadIsKept(size, g, s0, trace, a, key, b, u, whose, view, ks);
    KeyIsOnDisk(size, g, s0, trace, key);
  }

  // ---- the inequality is tight ----

  /** A collection of a group that has no names yet: it finds nothing live. */
  function Unaware(begun: int): Collection {
    Collection(begun, [map[]], [[]], [""], root => (n, key) => None, {})
  }

  /** No manifest anywhere. */
  function Nothing(): string -> Option<Manifest> {
    key => None
  }

  lemma UnawareConsistent(begun: int, root: string)
    ensures Consistent(Fetched(Unaware(begun).get(root)), Nothing())
  {
  }

  lemma UnawareConducted(begun: int)
    ensures Conducted(Unaware(begun))
  {
    var c := Unaware(begun);
    assert NamesOn([]) == [];
    assert PageFrom(Lexical(), c.views[0], c.asked[0], c.pages[0]);
    assert Together(c.pages) == [] by {
      assert c.pages[..0] == [];
    }
    assert Roots([]) == {};
    assert forall key :: !Marked(c.get, {}, key);
  }

  /** Answered, then left alone for exactly the grace, then dropped. */
  lemma DroppedAtGrace(size: Sizes, s0: Shop, key: string, g: nat, trace: seq<Event>)
    requires trace == [Begin(0, key), Tick(g), Drop(key)] && key in s0.keys
    ensures Run(size, g, true, s0, trace[..0]) == s0 && Run(size, g, true, s0, trace[..2]).now == s0.now + g
    ensures key !in Run(size, g, true, s0, trace).keys
  {
    var one, two := [Begin(0, key)], [Begin(0, key), Tick(g)];
    RunSnoc(size, g, true, s0, [], Begin(0, key));
    RunSnoc(size, g, true, s0, one, Tick(g));
    RunSnoc(size, g, true, s0, two, Drop(key));
    assert [] + [Begin(0, key)] == one && one + [Tick(g)] == two && two + [Drop(key)] == trace;
    assert trace[..2] == two;
  }

  /** With a grace one shorter every other premise can hold, and the chunk is dropped: answered as the upload began,
      within D of a listing that began one tick before the registration took effect. */
  lemma GraceIsTight(size: Sizes, b: Bounds, s0: Shop, key: string, g: int)
    returns (trace: seq<Event>, u: Upload, c: Collection, view: string -> Option<Manifest>, ks: seq<string>)
    requires b.upload >= 0 && b.wait >= 0 && b.deadline >= 0 && g == b.upload + b.wait + b.deadline - 1 && g >= 0
    requires key in s0.keys && s0.birth <= s0.now
    ensures Upheld(size, g, s0, trace, 0, key, b, u, _ => c, view, ks) && FileStays(size, g, s0, trace, key, 1)
    ensures key !in Run(size, g, true, s0, trace).keys
  {
    u := Upload("", key, s0.now, s0.now + b.upload + b.wait);
    c, view, ks := Unaware(u.registered - 1), Nothing(), [key];
    UnawareConducted(u.registered - 1);
    UnawareConsistent(u.registered - 1, key);
    trace := [Begin(0, key), Tick(g), Drop(key)];
    DroppedAtGrace(size, s0, key, g, trace);
    TightUpheld(size, g, s0, trace, key, b, u, c, view, ks, Run(size, g, true, s0, trace[..2]).now);
  }

  lemma TightUpheld(size: Sizes, g: nat, s0: Shop, trace: seq<Event>, key: string, b: Bounds, u: Upload, c: Collection,
                    view: string -> Option<Manifest>, ks: seq<string>, now: int)
    requires trace == [Begin(0, key), Tick(g), Drop(key)] && key in s0.keys && s0.birth <= s0.now
    requires Run(size, g, true, s0, trace[..0]) == s0 && Run(size, g, true, s0, trace[..2]).now == now
    requires u.began <= s0.now && u.registered <= u.began + b.upload + b.wait && u.root == key && ks == [key]
    requires ByCollection(c, b, u, view, key, now)
    ensures Upheld(size, g, s0, trace, 0, key, b, u, _ => c, view, ks) && FileStays(size, g, s0, trace, key, 1)
  {
  }
}
