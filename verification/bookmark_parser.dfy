/** Bookmark-file ingestion (src/lib/bookmarkParser.ts): a browser-exported
    HTML bookmark tree or one of two JSON shapes becomes a `ParsedData`, a map
    from category name to bookmarks in insertion order plus an
    `uncategorized` list. */
module BookmarkParser {
  import opened Wrappers
  import opened Strings
  import opened JsValue
  import opened Seqs

  /** A parsed bookmark. HTML input yields strings; JSON input copies whatever
      values the document holds. */
  datatype Bookmark = Bookmark(name: Value, url: Value, category: Value)

  /** A JavaScript `Map<category, Bookmark[]>`: entries in insertion order. */
  type Buckets = seq<(Value, seq<Bookmark>)>

  datatype ParsedData = ParsedData(categories: Buckets, uncategorized: seq<Bookmark>)

  const Empty := ParsedData([], [])

  const UnnamedLink := "未命名"
  const UnnamedFolder := "未命名分类"
  const DefaultCategory := "默认分类"
  const InvalidJson := "无效的 JSON 格式"

  // ---------------------------------------------------------------------------
  // The category map

  /** `map.keys()`, in insertion order. */
  function MapKeys(m: Buckets): (ks: seq<Value>)
    ensures |ks| == |m|
    ensures forall i :: 0 <= i < |m| ==> ks[i] == m[i].0
  {
    if m == [] then [] else [m[0].0] + MapKeys(m[1..])
  }

  predicate DistinctKeys(m: Buckets) {
    forall i, j :: 0 <= i < j < |m| ==> m[i].0 != m[j].0
  }

  /** `map.get(k) ?? []`. */
  function Lookup(m: Buckets, k: Value): seq<Bookmark> {
    if m == [] then [] else if m[0].0 == k then m[0].1 else Lookup(m[1..], k)
  }

  /** Appends `b` to the bucket of `k`, opening an empty bucket at the end
      when `k` is new. */
  function Push(m: Buckets, k: Value, b: Bookmark): (r: Buckets)
    ensures k in MapKeys(m) ==> MapKeys(r) == MapKeys(m)
    ensures k !in MapKeys(m) ==> MapKeys(r) == MapKeys(m) + [k]
  {
    if m == [] then [(k, [b])]
    else if m[0].0 == k then [(k, m[0].1 + [b])] + m[1..]
    else [m[0]] + Push(m[1..], k, b)
  }

  /** Pushing under `k` appends `b` to bucket `k` and leaves every other bucket alone. */
  lemma {:induction false} PushLookup(m: Buckets, k: Value, b: Bookmark, k': Value)
    ensures Lookup(Push(m, k, b), k') == Lookup(m, k') + (if k' == k then [b] else [])
  {
    if m != [] && m[0].0 != k {
      PushLookup(m[1..], k, b, k');
    }
  }

  lemma {:induction false} PushDistinct(m: Buckets, k: Value, b: Bookmark)
    requires DistinctKeys(m)
    ensures DistinctKeys(Push(m, k, b))
  {
    if m != [] && m[0].0 != k {
      var tail := Push(m[1..], k, b);
      PushDistinct(m[1..], k, b);
      assert m[0].0 !in MapKeys(m[1..]);
      assert m[0].0 !in MapKeys(tail);
      var r := [m[0]] + tail;
      assert Push(m, k, b) == r;
      forall i, j | 0 <= i < j < |r|
        ensures r[i].0 != r[j].0
      {
        if i == 0 {
          assert r[j].0 == MapKeys(tail)[j - 1];
        } else {
          assert r[i] == tail[i - 1] && r[j] == tail[j - 1];
        }
      }
    }
  }

  lemma {:induction false} LookupAbsent(m: Buckets, k: Value)
    requires k !in MapKeys(m)
    ensures Lookup(m, k) == []
  {
    if m != [] {
      assert MapKeys(m) == [m[0].0] + MapKeys(m[1..]);
      LookupAbsent(m[1..], k);
    }
  }

  /** Total number of bookmarks held in the buckets. */
  function BucketSize(m: Buckets): nat {
    if m == [] then 0 else |m[0].1| + BucketSize(m[1..])
  }

  lemma {:induction false} PushSize(m: Buckets, k: Value, b: Bookmark)
    ensures BucketSize(Push(m, k, b)) == BucketSize(m) + 1
  {
    if m != [] && m[0].0 != k {
      PushSize(m[1..], k, b);
    }
  }

  function Size(d: ParsedData): nat {
    BucketSize(d.categories) + |d.uncategorized|
  }

  // ---------------------------------------------------------------------------
  // Filing bookmarks one by one

  /** The common filing step: a truthy category goes to its bucket, anything
      else to `uncategorized`. */
  function File(d: ParsedData, b: Bookmark): ParsedData {
    if Truthy(b.category) then d.(categories := Push(d.categories, b.category, b))
    else d.(uncategorized := d.uncategorized + [b])
  }

  function FileAll(d: ParsedData, bs: seq<Bookmark>): ParsedData
    decreases |bs|
  {
    if bs == [] then d else FileAll(File(d, bs[0]), bs[1..])
  }

  lemma {:induction false} FileAllConcat(d: ParsedData, xs: seq<Bookmark>, ys: seq<Bookmark>)
    ensures FileAll(d, xs + ys) == FileAll(FileAll(d, xs), ys)
    decreases |xs|
  {
    if xs == [] {
      assert xs + ys == ys;
    } else {
      assert (xs + ys)[1..] == xs[1..] + ys;
      FileAllConcat(File(d, xs[0]), xs[1..], ys);
    }
  }

  function HasCategory(k: Value): Bookmark -> bool {
    (b: Bookmark) => b.category == k
  }

  predicate IsUncategorized(b: Bookmark) {
    !Truthy(b.category)
  }

  /** Bucket `k` is the subsequence of `bs` whose category is `k`. */
  ghost predicate BucketsMatch(d: ParsedData, bs: seq<Bookmark>) {
    forall k :: Truthy(k) ==> Lookup(d.categories, k) == Filter(HasCategory(k), bs)
  }

  /** The keys are distinct, and are exactly the truthy categories of `bs`. */
  ghost predicate KeysMatch(d: ParsedData, bs: seq<Bookmark>) {
    && DistinctKeys(d.categories)
    && forall k :: k in MapKeys(d.categories) <==> Truthy(k) && exists b :: b in bs && b.category == k
  }

  /** `d` holds exactly the bookmarks of `bs`, grouped: bucket `k` is the
      subsequence of `bs` whose category is `k`, `uncategorized` the
      subsequence whose category is falsy, and only truthy categories that
      occur in `bs` are keys, each once. */
  ghost predicate Groups(d: ParsedData, bs: seq<Bookmark>) {
    && KeysMatch(d, bs)
    && BucketsMatch(d, bs)
    && d.uncategorized == Filter(IsUncategorized, bs)
  }

  lemma FileBuckets(d: ParsedData, bs: seq<Bookmark>, b: Bookmark)
    requires BucketsMatch(d, bs)
    ensures BucketsMatch(File(d, b), bs + [b])
  {
    var d' := File(d, b);
    forall k | Truthy(k)
      ensures Lookup(d'.categories, k) == Filter(HasCategory(k), bs + [b])
    {
      FilterConcat(HasCategory(k), bs, [b]);
      if Truthy(b.category) {
        PushLookup(d.categories, b.category, b, k);
      }
    }
  }

  lemma FileKeys(d: ParsedData, bs: seq<Bookmark>, b: Bookmark)
    requires KeysMatch(d, bs)
    ensures KeysMatch(File(d, b), bs + [b])
  {
    var d' := File(d, b);
    if Truthy(b.category) {
      PushDistinct(d.categories, b.category, b);
      assert MapKeys(d'.categories) == MapKeys(d.categories) || MapKeys(d'.categories) == MapKeys(d.categories) + [b.category];
      forall k
        ensures k in MapKeys(d'.categories) <==> Truthy(k) && exists x :: x in bs + [b] && x.category == k
      {
        if k == b.category {
          assert b in bs + [b];
        } else if Truthy(k) && exists x :: x in bs + [b] && x.category == k {
          var x :| x in bs + [b] && x.category == k;
          assert x in bs;
        }
      }
    } else {
      forall k
        ensures k in MapKeys(d'.categories) <==> Truthy(k) && exists x :: x in bs + [b] && x.category == k
      {
        if Truthy(k) && exists x :: x in bs + [b] && x.category == k {
          var x :| x in bs + [b] && x.category == k;
          assert x in bs;
        }
      }
    }
  }

  lemma {:induction false} FileAllBuckets(d: ParsedData, prev: seq<Bookmark>, bs: seq<Bookmark>)
    requires BucketsMatch(d, prev)
    ensures BucketsMatch(FileAll(d, bs), prev + bs)
    decreases |bs|
  {
    if bs == [] {
      assert prev + bs == prev;
    } else {
      var d', prev' := File(d, bs[0]), prev + [bs[0]];
      FileBuckets(d, prev, bs[0]);
      FileAllBuckets(d', prev', bs[1..]);
      assert FileAll(d, bs) == FileAll(d', bs[1..]);
      assert prev' + bs[1..] == prev + bs;
    }
  }

  lemma {:induction false} FileAllKeys(d: ParsedData, prev: seq<Bookmark>, bs: seq<Bookmark>)
    requires KeysMatch(d, prev)
    ensures KeysMatch(FileAll(d, bs), prev + bs)
    decreases |bs|
  {
    if bs == [] {
      assert prev + bs == prev;
    } else {
      var d', prev' := File(d, bs[0]), prev + [bs[0]];
      FileKeys(d, prev, bs[0]);
      FileAllKeys(d', prev', bs[1..]);
      assert FileAll(d, bs) == FileAll(d', bs[1..]);
      assert prev' + bs[1..] == prev + bs;
    }
  }

  lemma {:induction false} FileAllUncategorized(d: ParsedData, prev: seq<Bookmark>, bs: seq<Bookmark>)
    requires d.uncategorized == Filter(IsUncategorized, prev)
    ensures FileAll(d, bs).uncategorized == Filter(IsUncategorized, prev + bs)
    decreases |bs|
  {
    if bs == [] {
      assert prev + bs == prev;
    } else {
      var d', prev' := File(d, bs[0]), prev + [bs[0]];
      FileUncategorized(d, prev, bs[0]);
      FileAllUncategorized(d', prev', bs[1..]);
      assert FileAll(d, bs) == FileAll(d', bs[1..]);
      assert prev' + bs[1..] == prev + bs;
    }
  }

  lemma FileUncategorized(d: ParsedData, prev: seq<Bookmark>, b: Bookmark)
    requires d.uncategorized == Filter(IsUncategorized, prev)
    ensures File(d, b).uncategorized == Filter(IsUncategorized, prev + [b])
  {
    FilterConcat(IsUncategorized, prev, [b]);
    assert [b][1..] == [];
    assert Filter(IsUncategorized, [b]) == if IsUncategorized(b) then [b] else [];
  }

  lemma {:induction false} FileAllSize(d: ParsedData, bs: seq<Bookmark>)
    ensures Size(FileAll(d, bs)) == Size(d) + |bs|
    decreases |bs|
  {
    if bs != [] {
      if Truthy(bs[0].category) {
        PushSize(d.categories, bs[0].category, bs[0]);
      }
      FileAllSize(File(d, bs[0]), bs[1..]);
    }
  }

  /** Filing a list into an empty result groups it and keeps every bookmark. */
  lemma FileAllFromEmpty(bs: seq<Bookmark>)
    ensures Groups(FileAll(Empty, bs), bs)
    ensures Size(FileAll(Empty, bs)) == |bs|
  {
    var none: seq<Bookmark> := [];
    assert none + bs == bs;
    assert BucketsMatch(Empty, none) by {
      forall k | Truthy(k)
        ensures Lookup(Empty.categories, k) == Filter(HasCategory(k), none)
      {
      }
    }
    assert KeysMatch(Empty, none);
    FileAllBuckets(Empty, none, bs);
    FileAllKeys(Empty, none, bs);
    FileAllUncategorized(Empty, none, bs);
    FileAllSize(Empty, bs);
  }

  // ---------------------------------------------------------------------------
  // HTML bookmark files

  /** An `<A>` element: its `href` property ("" when the attribute is absent)
      and its text content. */
  datatype Anchor = Anchor(href: string, text: string)

  /** A `<DT>` child of a `<DL>`. A DT that contains an `<H3>` is a folder, with
      the heading's text and the first `<DL>` inside the DT, if any; any other
      DT is a link, with the first `<A>` inside it, if any. */
  datatype Entry =
    | FolderEntry(heading: string, list: Option<Folder>)
    | LinkEntry(anchor: Option<Anchor>)

  /** A `<DL>` element, seen through its direct `<DT>` children. */
  datatype Folder = Folder(entries: seq<Entry>)

  /** A parsed document, seen through its first `<DL>` element. */
  datatype Document = Document(root: Option<Folder>)

  function FolderName(heading: string): string {
    if Trim(heading) != "" then Trim(heading) else UnnamedFolder
  }

  function LinkBookmark(a: Anchor, categoryName: string): Bookmark {
    Bookmark(Str(if Trim(a.text) != "" then Trim(a.text) else UnnamedLink), Str(a.href), Str(categoryName))
  }

  /** `parseFolder`: walk the DT children of a DL in order, descending into
      folders under the folder's own name and filing links under
      `categoryName`. */
  function ParseEntries(items: seq<Entry>, categoryName: string, acc: ParsedData): ParsedData
    decreases items
  {
    if items == [] then acc
    else
      var acc' :=
        match items[0]
        case FolderEntry(heading, list) =>
          if list.Some? then ParseEntries(list.value.entries, FolderName(heading), acc) else acc
        case LinkEntry(anchor) =>
          if anchor.Some? && anchor.value.href != "" then File(acc, LinkBookmark(anchor.value, categoryName))
          else acc;
      ParseEntries(items[1..], categoryName, acc')
  }

  /** `parseHTMLBookmarks`: parse from the first DL; no DL gives the empty result. */
  function ParseHtml(doc: Document): ParsedData {
    match doc.root
    case None => Empty
    case Some(dl) => ParseEntries(dl.entries, "", Empty)
  }

  /** The reference traversal: every anchor with an `href`, in document order,
      labelled with the name of its nearest enclosing folder. */
  function LinksInOrder(items: seq<Entry>, categoryName: string): seq<Bookmark>
    decreases items
  {
    if items == [] then []
    else
      var here :=
        match items[0]
        case FolderEntry(heading, list) =>
          if list.Some? then LinksInOrder(list.value.entries, FolderName(heading)) else []
        case LinkEntry(anchor) =>
          if anchor.Some? && anchor.value.href != "" then [LinkBookmark(anchor.value, categoryName)] else [];
      here + LinksInOrder(items[1..], categoryName)
  }

  function DocumentLinks(doc: Document): seq<Bookmark> {
    match doc.root
    case None => []
    case Some(dl) => LinksInOrder(dl.entries, "")
  }

  lemma {:induction false} ParseEntriesIsFiling(items: seq<Entry>, categoryName: string, acc: ParsedData)
    ensures ParseEntries(items, categoryName, acc) == FileAll(acc, LinksInOrder(items, categoryName))
    decreases items
  {
    if items != [] {
      var rest := LinksInOrder(items[1..], categoryName);
      match items[0]
      case FolderEntry(heading, list) =>
        if list.Some? {
          var inner := LinksInOrder(list.value.entries, FolderName(heading));
          ParseEntriesIsFiling(list.value.entries, FolderName(heading), acc);
          var acc' := ParseEntries(list.value.entries, FolderName(heading), acc);
          ParseEntriesIsFiling(items[1..], categoryName, acc');
          FileAllConcat(acc, inner, rest);
          assert LinksInOrder(items, categoryName) == inner + rest;
        } else {
          ParseEntriesIsFiling(items[1..], categoryName, acc);
          assert LinksInOrder(items, categoryName) == rest;
        }
      case LinkEntry(anchor) =>
        if anchor.Some? && anchor.value.href != "" {
          var b := LinkBookmark(anchor.value, categoryName);
          ParseEntriesIsFiling(items[1..], categoryName, File(acc, b));
          assert LinksInOrder(items, categoryName) == [b] + rest;
          assert ([b] + rest)[1..] == rest;
        } else {
          ParseEntriesIsFiling(items[1..], categoryName, acc);
          assert LinksInOrder(items, categoryName) == rest;
        }
    }
  }

  /** Every anchor with an `href` is filed exactly once: bucket `k` holds, in
      document order, the links whose nearest folder is named `k`, and
      `uncategorized` those outside every folder. */
  lemma HtmlBucketing(doc: Document)
    ensures Groups(ParseHtml(doc), DocumentLinks(doc))
    ensures Size(ParseHtml(doc)) == |DocumentLinks(doc)|
  {
    FileAllFromEmpty(DocumentLinks(doc));
    if doc.root.Some? {
      ParseEntriesIsFiling(doc.root.value.entries, "", Empty);
    }
  }

  /** Inside a folder every link carries a non-empty category name. */
  lemma {:induction false} FolderLinksNamed(items: seq<Entry>, categoryName: string)
    requires categoryName != ""
    ensures forall b :: b in LinksInOrder(items, categoryName) ==> Truthy(b.category)
    decreases items
  {
    if items != [] {
      var rest := LinksInOrder(items[1..], categoryName);
      FolderLinksNamed(items[1..], categoryName);
      match items[0]
      case FolderEntry(heading, list) =>
        if list.Some? {
          FolderLinksNamed(list.value.entries, FolderName(heading));
          assert LinksInOrder(items, categoryName) == LinksInOrder(list.value.entries, FolderName(heading)) + rest;
        } else {
          assert LinksInOrder(items, categoryName) == rest;
        }
      case LinkEntry(anchor) =>
        if anchor.Some? && anchor.value.href != "" {
          assert LinksInOrder(items, categoryName) == [LinkBookmark(anchor.value, categoryName)] + rest;
        } else {
          assert LinksInOrder(items, categoryName) == rest;
        }
    }
  }

  /** The link a DT holds directly, if it is a link with an `href`. */
  function OwnLink(e: Entry, categoryName: string): seq<Bookmark> {
    match e
    case LinkEntry(anchor) =>
      if anchor.Some? && anchor.value.href != "" then [LinkBookmark(anchor.value, categoryName)] else []
    case FolderEntry(_, _) => []
  }

  /** The links of a DL that sit directly in it, not inside a sub-folder. */
  function DirectLinks(items: seq<Entry>, categoryName: string): seq<Bookmark> {
    if items == [] then [] else OwnLink(items[0], categoryName) + DirectLinks(items[1..], categoryName)
  }

  lemma {:induction false} UncategorizedAreTopLevel(items: seq<Entry>)
    ensures Filter(IsUncategorized, LinksInOrder(items, "")) == DirectLinks(items, "")
    decreases items
  {
    if items != [] {
      UncategorizedAreTopLevel(items[1..]);
      if items[0].FolderEntry? {
        FolderAddsNoUncategorized(items);
      } else {
        LinkAddsOwnUncategorized(items);
      }
    }
  }

  /** A leading folder adds nothing to the top-level links. */
  lemma FolderAddsNoUncategorized(items: seq<Entry>)
    requires items != [] && items[0].FolderEntry?
    ensures Filter(IsUncategorized, LinksInOrder(items, "")) == Filter(IsUncategorized, LinksInOrder(items[1..], ""))
    ensures DirectLinks(items, "") == DirectLinks(items[1..], "")
  {
    var rest := LinksInOrder(items[1..], "");
    var heading, list := items[0].heading, items[0].list;
    if list.Some? {
      var inner := LinksInOrder(list.value.entries, FolderName(heading));
      FolderLinksNamed(list.value.entries, FolderName(heading));
      FilterNone(IsUncategorized, inner);
      FilterConcat(IsUncategorized, inner, rest);
      assert LinksInOrder(items, "") == inner + rest;
    } else {
      assert LinksInOrder(items, "") == rest;
    }
    assert DirectLinks(items, "") == [] + DirectLinks(items[1..], "");
  }

  /** A leading link adds itself, if it has an `href`, to the top-level links. */
  lemma LinkAddsOwnUncategorized(items: seq<Entry>)
    requires items != [] && items[0].LinkEntry?
    ensures Filter(IsUncategorized, LinksInOrder(items, "")) ==
            OwnLink(items[0], "") + Filter(IsUncategorized, LinksInOrder(items[1..], ""))
  {
    var rest := LinksInOrder(items[1..], "");
    var own := OwnLink(items[0], "");
    assert LinksInOrder(items, "") == own + rest;
    FilterConcat(IsUncategorized, own, rest);
    if own != [] {
      assert own[1..] == [];
    }
  }

  /** A link goes to `uncategorized` exactly when it sits directly in the
      root DL, outside every folder. */
  lemma HtmlUncategorizedIsTopLevel(dl: Folder)
    ensures ParseHtml(Document(Some(dl))).uncategorized == DirectLinks(dl.entries, "")
  {
    HtmlBucketing(Document(Some(dl)));
    UncategorizedAreTopLevel(dl.entries);
  }

  /** A document without a DL parses to the empty result. */
  lemma HtmlNoList()
    ensures ParseHtml(Document(None)).categories == []
    ensures ParseHtml(Document(None)).uncategorized == []
  {
  }

  /** The links one DT contributes to the reference traversal. */
  function EntryLinks(e: Entry, categoryName: string): seq<Bookmark> {
    match e
    case FolderEntry(heading, list) =>
      if list.Some? then LinksInOrder(list.value.entries, FolderName(heading)) else []
    case LinkEntry(anchor) => OwnLink(e, categoryName)
  }

  lemma LinksCons(e: Entry, rest: seq<Entry>, categoryName: string)
    ensures LinksInOrder([e] + rest, categoryName) == EntryLinks(e, categoryName) + LinksInOrder(rest, categoryName)
  {
    assert ([e] + rest)[0] == e;
    assert ([e] + rest)[1..] == rest;
  }

  /** A heading with text and no surrounding whitespace names its folder as is. */
  predicate PlainHeading(h: string) {
    h != [] && !IsWhitespace(h[0]) && !IsWhitespace(h[|h| - 1])
  }

  /** Folder H1 holding links L1, L2 and sub-folder H2 holding L3 gives
      {H1: [L1, L2], H2: [L3]}: a sub-folder's links go under its own name
      only, and nothing is uncategorized. */
  lemma HtmlNestedFolders(h1: string, h2: string, l1: Anchor, l2: Anchor, l3: Anchor)
    requires PlainHeading(h1) && PlainHeading(h2) && h1 != h2
    requires l1.href != "" && l2.href != "" && l3.href != ""
    ensures
      var f2 := FolderEntry(h2, Some(Folder([LinkEntry(Some(l3))])));
      var f1 := FolderEntry(h1, Some(Folder([LinkEntry(Some(l1)), LinkEntry(Some(l2)), f2])));
      ParseHtml(Document(Some(Folder([f1])))) ==
      ParsedData([(Str(h1), [LinkBookmark(l1, h1), LinkBookmark(l2, h1)]),
                  (Str(h2), [LinkBookmark(l3, h2)])],
                 [])
  {
    var f2 := FolderEntry(h2, Some(Folder([LinkEntry(Some(l3))])));
    var f1 := FolderEntry(h1, Some(Folder([LinkEntry(Some(l1)), LinkEntry(Some(l2)), f2])));
    TrimOfTrimmed(h1);
    TrimOfTrimmed(h2);
    NestedLinks(h1, h2, l1, l2, l3);
    ParseEntriesIsFiling([f1], "", Empty);
    FileTwoFolders(Str(h1), Str(h2), LinkBookmark(l1, h1), LinkBookmark(l2, h1), LinkBookmark(l3, h2));
  }

  lemma NestedLinks(h1: string, h2: string, l1: Anchor, l2: Anchor, l3: Anchor)
    requires PlainHeading(h1) && PlainHeading(h2)
    requires l1.href != "" && l2.href != "" && l3.href != ""
    ensures
      var f2 := FolderEntry(h2, Some(Folder([LinkEntry(Some(l3))])));
      var f1 := FolderEntry(h1, Some(Folder([LinkEntry(Some(l1)), LinkEntry(Some(l2)), f2])));
      LinksInOrder([f1], "") == [LinkBookmark(l1, h1), LinkBookmark(l2, h1), LinkBookmark(l3, h2)]
  {
    var f2 := FolderEntry(h2, Some(Folder([LinkEntry(Some(l3))])));
    var f1 := FolderEntry(h1, Some(Folder([LinkEntry(Some(l1)), LinkEntry(Some(l2)), f2])));
    TrimOfTrimmed(h1);
    TrimOfTrimmed(h2);
    SingleFolderLinks(h2, l3, h1);
    TwoLinksThen(l1, l2, f2, h1);
    SingleFolder(f1, "");
  }

  lemma SingleFolderLinks(heading: string, l: Anchor, categoryName: string)
    requires l.href != ""
    ensures LinksInOrder([FolderEntry(heading, Some(Folder([LinkEntry(Some(l))])))], categoryName) ==
            [LinkBookmark(l, FolderName(heading))]
  {
    var e := LinkEntry(Some(l));
    var nil: seq<Entry> := [];
    LinksCons(e, nil, FolderName(heading));
    assert [e] == [e] + nil;
    SingleFolder(FolderEntry(heading, Some(Folder([e]))), categoryName);
  }

  lemma SingleFolder(f: Entry, categoryName: string)
    ensures LinksInOrder([f], categoryName) == EntryLinks(f, categoryName)
  {
    var nil: seq<Entry> := [];
    LinksCons(f, nil, categoryName);
    assert [f] == [f] + nil;
  }

  lemma TwoLinksThen(l1: Anchor, l2: Anchor, f: Entry, categoryName: string)
    requires l1.href != "" && l2.href != ""
    ensures LinksInOrder([LinkEntry(Some(l1)), LinkEntry(Some(l2)), f], categoryName) ==
            [LinkBookmark(l1, categoryName), LinkBookmark(l2, categoryName)] + LinksInOrder([f], categoryName)
  {
    var e1, e2 := LinkEntry(Some(l1)), LinkEntry(Some(l2));
    var b1, b2 := LinkBookmark(l1, categoryName), LinkBookmark(l2, categoryName);
    var rest := [f];
    var mid := [e2] + rest;
    LinkEntryLinks(l1, categoryName);
    LinkEntryLinks(l2, categoryName);
    LinksCons(e2, rest, categoryName);
    LinksCons(e1, mid, categoryName);
    assert [e1] + mid == [e1, e2, f];
    PairThen(b1, b2, LinksInOrder(rest, categoryName));
  }

  lemma LinkEntryLinks(l: Anchor, categoryName: string)
    requires l.href != ""
    ensures EntryLinks(LinkEntry(Some(l)), categoryName) == [LinkBookmark(l, categoryName)]
  {
  }

  lemma PairThen<T>(x: T, y: T, tail: seq<T>)
    ensures [x] + ([y] + tail) == [x, y] + tail
  {
  }

  /** Filing two links of one folder and then one of another gives two buckets. */
  lemma FileTwoFolders(k1: Value, k2: Value, b1: Bookmark, b2: Bookmark, b3: Bookmark)
    requires Truthy(k1) && Truthy(k2) && k1 != k2
    requires b1.category == k1 && b2.category == k1 && b3.category == k2
    ensures FileAll(Empty, [b1, b2, b3]) == ParsedData([(k1, [b1, b2]), (k2, [b3])], [])
  {
    var d1 := File(Empty, b1);
    assert d1 == ParsedData([(k1, [b1])], []);
    var m1 := d1.categories;
    assert m1[1..] == [];
    assert [b1] + [b2] == [b1, b2];
    var d2 := File(d1, b2);
    assert d2 == ParsedData([(k1, [b1, b2])], []);
    var m2 := d2.categories;
    assert m2[1..] == [];
    assert Push(m2[1..], k2, b3) == [(k2, [b3])];
    assert File(d2, b3) == ParsedData([(k1, [b1, b2]), (k2, [b3])], []);
    assert [b1, b2, b3] == [b1] + [b2] + [b3];
    FileAllConcat(Empty, [b1] + [b2], [b3]);
    FileAllConcat(Empty, [b1], [b2]);
  }

  /** A DT without an `<A>`, an anchor without `href`, and a folder without a
      DL add nothing; blank link text gets the link placeholder and a blank
      heading the folder placeholder. */
  lemma HtmlSkipsAndDefaults(href: string)
    requires href != ""
    ensures
      var blank := Anchor(href, " ");
      var items := [LinkEntry(None), LinkEntry(Some(Anchor("", "x"))), FolderEntry("F", None),
                    FolderEntry(" ", Some(Folder([LinkEntry(Some(blank))])))];
      ParseHtml(Document(Some(Folder(items)))) ==
      ParsedData([(Str(UnnamedFolder), [Bookmark(Str(UnnamedLink), Str(href), Str(UnnamedFolder))])], [])
  {
    var blank := Anchor(href, " ");
    var items := [LinkEntry(None), LinkEntry(Some(Anchor("", "x"))), FolderEntry("F", None),
                  FolderEntry(" ", Some(Folder([LinkEntry(Some(blank))])))];
    SkipsAndDefaultsLinks(href);
    ParseEntriesIsFiling(items, "", Empty);
    var b := Bookmark(Str(UnnamedLink), Str(href), Str(UnnamedFolder));
    assert [b][1..] == [];
  }

  /** The only link of the document above is the blank one in the blank folder. */
  lemma SkipsAndDefaultsLinks(href: string)
    requires href != ""
    ensures
      var blank := Anchor(href, " ");
      var items := [LinkEntry(None), LinkEntry(Some(Anchor("", "x"))), FolderEntry("F", None),
                    FolderEntry(" ", Some(Folder([LinkEntry(Some(blank))])))];
      LinksInOrder(items, "") == [Bookmark(Str(UnnamedLink), Str(href), Str(UnnamedFolder))]
  {
    var folder := FolderEntry(" ", Some(Folder([LinkEntry(Some(Anchor(href, " ")))])));
    BlankFolderLinks(href, folder);
    var x1, x2, x3 := LinkEntry(None), LinkEntry(Some(Anchor("", "x"))), FolderEntry("F", None);
    SkippedEntries(x1, x2, x3, [folder]);
    assert [x1, x2, x3, folder] == [x1, x2, x3] + [folder];
  }

  /** Three entries that yield no link leave the links of what follows. */
  lemma SkippedEntries(x1: Entry, x2: Entry, x3: Entry, rest: seq<Entry>)
    requires x1 == LinkEntry(None) && x2 == LinkEntry(Some(Anchor("", "x"))) && x3 == FolderEntry("F", None)
    ensures LinksInOrder([x1, x2, x3] + rest, "") == LinksInOrder(rest, "")
  {
    LinksCons(x3, rest, "");
    LinksCons(x2, [x3] + rest, "");
    assert [x2, x3] + rest == [x2] + ([x3] + rest);
    LinksCons(x1, [x2, x3] + rest, "");
    assert [x1, x2, x3] + rest == [x1] + ([x2, x3] + rest);
  }

  /** A folder with a blank heading holding one blank-text link yields that
      link, named and filed by the defaults. */
  lemma BlankFolderLinks(href: string, folder: Entry)
    requires href != ""
    requires folder == FolderEntry(" ", Some(Folder([LinkEntry(Some(Anchor(href, " ")))])))
    ensures LinksInOrder([folder], "") == [Bookmark(Str(UnnamedLink), Str(href), Str(UnnamedFolder))]
  {
    var inner := LinkEntry(Some(Anchor(href, " ")));
    var b := Bookmark(Str(UnnamedLink), Str(href), Str(UnnamedFolder));
    assert Trim(" ") == [] by { TrimEmptyIff(" "); }
    assert FolderName(" ") == UnnamedFolder;
    assert EntryLinks(inner, UnnamedFolder) == [b];
    var nil: seq<Entry> := [];
    assert LinksInOrder([inner], UnnamedFolder) == [b] by {
      LinksCons(inner, nil, UnnamedFolder);
      assert [inner] == [inner] + nil;
    }
    assert EntryLinks(folder, "") == [b];
    LinksCons(folder, nil, "");
    assert [folder] == [folder] + nil;
  }

  // ---------------------------------------------------------------------------
  // JSON bookmark files

  /** `categoryMap.get(k)`: `undefined` for an unknown key. */
  function MapGet(m: map<Value, Value>, k: Value): (r: Value)
    ensures k !in m ==> r == Undefined
  {
    if k in m then m[k] else Undefined
  }

  /** The id-to-name map built from the category entries in order,
      starting from `m`: a later category with the same id overwrites an
      earlier one, and reading `id` from a `null` entry throws. */
  function CategoryMap(cats: seq<Value>, m: map<Value, Value>): (r: Result<map<Value, Value>>)
    ensures r.Failure? <==> exists i :: 0 <= i < |cats| && Nullish(cats[i])
    ensures r.Success? ==> m.Keys <= r.value.Keys
    decreases |cats|
  {
    if cats == [] then Success(m)
    else if Nullish(cats[0]) then Failure(TypeError)
    else
      var r := CategoryMap(cats[1..], m[Prop(cats[0], "id") := Prop(cats[0], "name")]);
      assert forall i :: 1 <= i < |cats| ==> cats[i] == cats[1..][i - 1];
      r
  }

  /** `cats[i]` is the last category entry carrying its id. */
  predicate LastWithId(cats: seq<Value>, i: int)
    requires 0 <= i < |cats| && !Nullish(cats[i])
  {
    forall j :: i < j < |cats| && !Nullish(cats[j]) ==> Prop(cats[j], "id") != Prop(cats[i], "id")
  }

  /** No category entry carries id `k`. */
  predicate NoEntryWithId(cats: seq<Value>, k: Value) {
    forall i :: 0 <= i < |cats| && !Nullish(cats[i]) ==> Prop(cats[i], "id") != k
  }

  /** The map holds the ids already in `m` and every category's id; each id
      maps to the name of the last category carrying it, and the other keys
      keep their values from `m`. */
  lemma {:induction false} CategoryMapContents(cats: seq<Value>, m: map<Value, Value>)
    requires CategoryMap(cats, m).Success?
    ensures var r := CategoryMap(cats, m).value;
            forall k :: k in r <==> k in m || exists i :: 0 <= i < |cats| && !Nullish(cats[i]) && Prop(cats[i], "id") == k
    ensures var r := CategoryMap(cats, m).value;
            forall i :: 0 <= i < |cats| && !Nullish(cats[i]) && LastWithId(cats, i) ==>
              Prop(cats[i], "id") in r && r[Prop(cats[i], "id")] == Prop(cats[i], "name")
    ensures var r := CategoryMap(cats, m).value;
            forall k :: k in m && NoEntryWithId(cats, k) ==> k in r && r[k] == m[k]
  {
    CategoryMapKeys(cats, m);
    CategoryMapLastWins(cats, m);
    CategoryMapKeepsOthers(cats, m);
  }

  /** The step of the `forEach` over `cats`: the first entry is set, then the
      rest are applied. */
  lemma CategoryMapStep(cats: seq<Value>, m: map<Value, Value>)
    requires cats != [] && CategoryMap(cats, m).Success?
    ensures !Nullish(cats[0])
    ensures CategoryMap(cats[1..], m[Prop(cats[0], "id") := Prop(cats[0], "name")]) == CategoryMap(cats, m)
    ensures forall i :: 1 <= i < |cats| ==> cats[i] == cats[1..][i - 1]
  {
  }

  lemma {:induction false} CategoryMapKeys(cats: seq<Value>, m: map<Value, Value>)
    requires CategoryMap(cats, m).Success?
    ensures var r := CategoryMap(cats, m).value;
            forall k :: k in r <==> k in m || exists i :: 0 <= i < |cats| && !Nullish(cats[i]) && Prop(cats[i], "id") == k
    decreases |cats|
  {
    if cats != [] {
      CategoryMapStep(cats, m);
      var c, tail := cats[0], cats[1..];
      CategoryMapKeys(tail, m[Prop(c, "id") := Prop(c, "name")]);
      var r := CategoryMap(cats, m).value;
      forall k
        ensures k in r <==> k in m || exists i :: 0 <= i < |cats| && !Nullish(cats[i]) && Prop(cats[i], "id") == k
      {
        if exists i :: 0 <= i < |tail| && !Nullish(tail[i]) && Prop(tail[i], "id") == k {
          var i :| 0 <= i < |tail| && !Nullish(tail[i]) && Prop(tail[i], "id") == k;
          assert cats[i + 1] == tail[i];
        }
      }
    }
  }

  lemma {:induction false} CategoryMapKeepsOthers(cats: seq<Value>, m: map<Value, Value>)
    requires CategoryMap(cats, m).Success?
    ensures var r := CategoryMap(cats, m).value;
            forall k :: k in m && NoEntryWithId(cats, k) ==> k in r && r[k] == m[k]
    decreases |cats|
  {
    if cats != [] {
      CategoryMapStep(cats, m);
      var c, tail := cats[0], cats[1..];
      var m' := m[Prop(c, "id") := Prop(c, "name")];
      CategoryMapKeepsOthers(tail, m');
      forall k | k in m && NoEntryWithId(cats, k)
        ensures k in m' && m'[k] == m[k] && NoEntryWithId(tail, k)
      {
        assert Prop(c, "id") != k;
        forall j | 0 <= j < |tail| && !Nullish(tail[j])
          ensures Prop(tail[j], "id") != k
        {
          assert tail[j] == cats[j + 1];
        }
      }
    }
  }

  lemma {:induction false} CategoryMapLastWins(cats: seq<Value>, m: map<Value, Value>)
    requires CategoryMap(cats, m).Success?
    ensures var r := CategoryMap(cats, m).value;
            forall i :: 0 <= i < |cats| && !Nullish(cats[i]) && LastWithId(cats, i) ==>
              Prop(cats[i], "id") in r && r[Prop(cats[i], "id")] == Prop(cats[i], "name")
    decreases |cats|
  {
    if cats != [] {
      CategoryMapStep(cats, m);
      var c, tail := cats[0], cats[1..];
      var m' := m[Prop(c, "id") := Prop(c, "name")];
      CategoryMapLastWins(tail, m');
      var r := CategoryMap(cats, m).value;
      forall i | 0 <= i < |cats| && !Nullish(cats[i]) && LastWithId(cats, i)
        ensures Prop(cats[i], "id") in r && r[Prop(cats[i], "id")] == Prop(cats[i], "name")
      {
        if i == 0 {
          FirstIsLast(cats, m');
        } else {
          assert LastWithId(tail, i - 1) by {
            forall j | i - 1 < j < |tail| && !Nullish(tail[j])
              ensures Prop(tail[j], "id") != Prop(tail[i - 1], "id")
            {
              assert tail[j] == cats[j + 1];
            }
          }
        }
      }
    }
  }

  /** When no later entry carries the first entry's id, the value set for it
      survives the rest of the loop. */
  lemma FirstIsLast(cats: seq<Value>, m': map<Value, Value>)
    requires cats != [] && !Nullish(cats[0]) && LastWithId(cats, 0)
    requires Prop(cats[0], "id") in m' && m'[Prop(cats[0], "id")] == Prop(cats[0], "name")
    requires CategoryMap(cats[1..], m').Success?
    ensures var r := CategoryMap(cats[1..], m').value;
            Prop(cats[0], "id") in r && r[Prop(cats[0], "id")] == Prop(cats[0], "name")
  {
    var tail := cats[1..];
    var k := Prop(cats[0], "id");
    assert NoEntryWithId(tail, k) by {
      forall j | 0 <= j < |tail| && !Nullish(tail[j])
        ensures Prop(tail[j], "id") != k
      {
        assert tail[j] == cats[j + 1];
      }
    }
    CategoryMapKeepsOthers(tail, m');
  }

  /** One site of the system's own export shape, filed under its category's
      name, or under the default category when that name is missing or falsy. */
  function SiteRecord(site: Value, names: map<Value, Value>): (r: Result<Bookmark>)
    ensures r.Failure? <==> Nullish(site)
    ensures r.Success? ==> Truthy(r.value.category)
    ensures r.Success? && !Truthy(MapGet(names, Prop(site, "category_id"))) ==> r.value.category == Str(DefaultCategory)
    ensures r.Success? && Truthy(MapGet(names, Prop(site, "category_id"))) ==>
              r.value.category == MapGet(names, Prop(site, "category_id"))
    ensures r.Success? ==> r.value.name == Prop(site, "name") && r.value.url == Prop(site, "url")
  {
    if Nullish(site) then Failure(TypeError)
    else
      var categoryName := Or(MapGet(names, Prop(site, "category_id")), Str(DefaultCategory));
      Success(Bookmark(Prop(site, "name"), Prop(site, "url"), categoryName))
  }

  /** `xs.forEach(...)` whose body builds one record per element: the records
      in order, or the first exception. */
  function MapResults<T>(f: T -> Result<Bookmark>, xs: seq<T>): (r: Result<seq<Bookmark>>)
    ensures r.Success? ==> |r.value| == |xs|
    ensures r.Success? ==> forall i :: 0 <= i < |xs| ==> f(xs[i]) == Success(r.value[i])
    ensures r.Failure? <==> exists i :: 0 <= i < |xs| && f(xs[i]).Failure?
  {
    if xs == [] then Success([])
    else
      match f(xs[0])
      case Failure(e) => Failure(e)
      case Success(b) =>
        match MapResults(f, xs[1..])
        case Failure(e) =>
          assert forall i :: 1 <= i < |xs| ==> xs[i] == xs[1..][i - 1];
          Failure(e)
        case Success(rest) =>
          assert forall i :: 1 <= i < |xs| ==> xs[i] == xs[1..][i - 1];
          Success([b] + rest)
  }

  /** Shape 1, `{categories, sites}`: both must be arrays (`forEach` is called
      on them); every site's category id is resolved against the categories. */
  function ExportShapeRecords(categories: Value, sites: Value): (r: Result<seq<Bookmark>>)
    ensures r.Success? ==> sites.Arr? && |r.value| == |sites.items|
    ensures r.Success? ==> forall i :: 0 <= i < |r.value| ==> Truthy(r.value[i].category)
    ensures !categories.Arr? || !sites.Arr? ==> r.Failure?
    ensures categories.Arr? && sites.Arr? ==>
              (r.Failure? <==> CategoryMap(categories.items, map[]).Failure? ||
                               exists i :: 0 <= i < |sites.items| && Nullish(sites.items[i]))
    ensures r.Success? ==> categories.Arr? && CategoryMap(categories.items, map[]).Success?
    ensures r.Success? ==> forall i :: 0 <= i < |r.value| ==>
                             SiteRecord(sites.items[i], CategoryMap(categories.items, map[]).value) == Success(r.value[i])
  {
    if !categories.Arr? then Failure(TypeError)
    else
      match CategoryMap(categories.items, map[])
      case Failure(e) => Failure(e)
      case Success(names) =>
        if !sites.Arr? then Failure(TypeError)
        else
          var r := MapResults(s => SiteRecord(s, names), sites.items);
          assert r.Success? ==> forall i :: 0 <= i < |r.value| ==> SiteRecord(sites.items[i], names) == Success(r.value[i]);
          r
  }

  /** In the export shape, site `i` keeps its name and URL and is filed
      under the name of the last category carrying its `category_id`, or
      under the default category when that name is falsy or no category
      carries the id. */
  lemma ExportShapeFiling(categories: Value, sites: Value, i: int)
    requires ExportShapeRecords(categories, sites).Success?
    requires 0 <= i < |sites.items|
    ensures !Nullish(sites.items[i])
    ensures var r := ExportShapeRecords(categories, sites).value;
            r[i].name == Prop(sites.items[i], "name") && r[i].url == Prop(sites.items[i], "url")
    ensures var r := ExportShapeRecords(categories, sites).value;
            var id := Prop(sites.items[i], "category_id");
            forall j :: 0 <= j < |categories.items| && !Nullish(categories.items[j]) && LastWithId(categories.items, j) &&
                        Prop(categories.items[j], "id") == id ==>
              r[i].category == (if Truthy(Prop(categories.items[j], "name")) then Prop(categories.items[j], "name")
                                else Str(DefaultCategory))
    ensures var r := ExportShapeRecords(categories, sites).value;
            NoEntryWithId(categories.items, Prop(sites.items[i], "category_id")) ==> r[i].category == Str(DefaultCategory)
  {
    var names := CategoryMap(categories.items, map[]).value;
    var r := ExportShapeRecords(categories, sites).value;
    assert SiteRecord(sites.items[i], names) == Success(r[i]);
    CategoryMapContents(categories.items, map[]);
  }

  /** The first of `a` and `b` that is truthy, and `d` when neither is. */
  function FirstTruthy(a: Value, b: Value, d: Value): (r: Value)
    ensures Truthy(a) ==> r == a
    ensures !Truthy(a) && Truthy(b) ==> r == b
    ensures !Truthy(a) && !Truthy(b) ==> r == d
  {
    if Truthy(a) then a else if Truthy(b) then b else d
  }

  /** One entry of shape 2, with the `||` fallbacks of each field. */
  function ListRecord(entry: Value): (r: Result<Bookmark>)
    ensures r.Failure? <==> Nullish(entry)
    ensures r.Success? ==> Truthy(r.value.name)
    ensures r.Success? && !Truthy(Prop(entry, "name")) && !Truthy(Prop(entry, "title")) ==> r.value.name == Str(UnnamedLink)
    ensures r.Success? && !Truthy(Prop(entry, "category")) && !Truthy(Prop(entry, "folder")) ==> !Truthy(r.value.category)
    ensures r.Success? ==> r.value.name == FirstTruthy(Prop(entry, "name"), Prop(entry, "title"), Str(UnnamedLink))
    ensures r.Success? ==> r.value.url == FirstTruthy(Prop(entry, "url"), Prop(entry, "link"), Str(""))
    ensures r.Success? ==> r.value.category == FirstTruthy(Prop(entry, "category"), Prop(entry, "folder"), Str(""))
  {
    if Nullish(entry) then Failure(TypeError)
    else
      Success(Bookmark(Or(Or(Prop(entry, "name"), Prop(entry, "title")), Str(UnnamedLink)),
                       Or(Or(Prop(entry, "url"), Prop(entry, "link")), Str("")),
                       Or(Or(Prop(entry, "category"), Prop(entry, "folder")), Str(""))))
  }

  /** The bookmarks a JSON document holds, in the order `parseJSONBookmarks`
      files them; `Failure` when reading them throws. Shape 1 is tried first;
      for shape 2 an array document wins over its (absent) `bookmarks`. */
  function JsonRecords(data: Value): Result<seq<Bookmark>> {
    if Nullish(data) then Failure(TypeError)
    else if Truthy(Prop(data, "categories")) && Truthy(Prop(data, "sites")) then
      ExportShapeRecords(Prop(data, "categories"), Prop(data, "sites"))
    else if data.Arr? then MapResults(ListRecord, data.items)
    else if Prop(data, "bookmarks").Arr? then MapResults(ListRecord, Prop(data, "bookmarks").items)
    else Success([])
  }

  /** `parseJSONBookmarks`: `data` is the outcome of `JSON.parse` (`None` when
      it throws). Every exception becomes the one invalid-JSON error. */
  function ParseJson(data: Option<Value>): (r: Result<ParsedData>)
    ensures r.Failure? ==> r.error == InvalidJson
    ensures data.None? ==> r.Failure?
    ensures data == Some(Null) ==> r.Failure?
  {
    match data
    case None => Failure(InvalidJson)
    case Some(d) =>
      match JsonRecords(d)
      case Failure(_) => Failure(InvalidJson)
      case Success(bs) => Success(FileAll(Empty, bs))
  }

  /** A successful JSON parse groups its records by category, keeping all of them. */
  lemma JsonBucketing(d: Value)
    requires JsonRecords(d).Success?
    ensures ParseJson(Some(d)).Success?
    ensures Groups(ParseJson(Some(d)).value, JsonRecords(d).value)
    ensures Size(ParseJson(Some(d)).value) == |JsonRecords(d).value|
  {
    FileAllFromEmpty(JsonRecords(d).value);
  }

  /** Shape 1 wins: with truthy `categories` and `sites`, a `bookmarks` field
      changes nothing, every site is filed under a category and none is
      uncategorized, one record per site. */
  lemma ExportShapePrecedence(fields: seq<(string, Value)>, bookmarks: Value)
    requires Truthy(Field(fields, "categories")) && Truthy(Field(fields, "sites"))
    ensures ParseJson(Some(Obj(fields + [("bookmarks", bookmarks)]))) == ParseJson(Some(Obj(fields)))
    ensures ParseJson(Some(Obj(fields))).Success? ==>
              && ParseJson(Some(Obj(fields))).value.uncategorized == []
              && Field(fields, "sites").Arr?
              && Size(ParseJson(Some(Obj(fields))).value) == |Field(fields, "sites").items|
  {
    var d := Obj(fields);
    var d' := Obj(fields + [("bookmarks", bookmarks)]);
    assert JsonRecords(d') == JsonRecords(d) by {
      FieldAppendOther(fields, ("bookmarks", bookmarks), "categories");
      FieldAppendOther(fields, ("bookmarks", bookmarks), "sites");
    }
    if JsonRecords(d).Success? {
      var bs := JsonRecords(d).value;
      assert bs == ExportShapeRecords(Field(fields, "categories"), Field(fields, "sites")).value;
      JsonBucketing(d);
      forall x | x in bs
        ensures !IsUncategorized(x)
      {
        var i :| 0 <= i < |bs| && bs[i] == x;
      }
      FilterNone(IsUncategorized, bs);
    }
  }

  /** Shape 2: one record per entry, falsy categories go to `uncategorized`;
      any `null` entry makes the parse fail. */
  lemma ListShape(entries: seq<Value>)
    ensures ParseJson(Some(Arr(entries))).Success? <==> forall i :: 0 <= i < |entries| ==> entries[i] != Null && entries[i] != Undefined
    ensures ParseJson(Some(Arr(entries))).Success? ==>
              && Size(ParseJson(Some(Arr(entries))).value) == |entries|
              && ParseJson(Some(Arr(entries))).value.uncategorized ==
                 Filter(IsUncategorized, JsonRecords(Arr(entries)).value)
  {
    if ParseJson(Some(Arr(entries))).Success? {
      JsonBucketing(Arr(entries));
    }
  }

  /** JSON that parses to something of neither shape gives the empty result. */
  lemma NeitherShape(d: Value)
    requires !Nullish(d) && !d.Arr?
    requires !(Truthy(Prop(d, "categories")) && Truthy(Prop(d, "sites")))
    requires !Prop(d, "bookmarks").Arr?
    ensures ParseJson(Some(d)) == Success(Empty)
  {
  }

  /** `[{"url": "https://example.com"}]`: the entry is named with the
      placeholder and, having no category or folder, is uncategorized. */
  lemma MissingFieldDefaults()
    ensures ParseJson(Some(Arr([Obj([("url", Str("https://example.com"))])]))) ==
            Success(ParsedData([], [Bookmark(Str(UnnamedLink), Str("https://example.com"), Str(""))]))
  {
    var url := Str("https://example.com");
    var fields := [("url", url)];
    var entry := Obj(fields);
    assert fields[..0] == [];
    assert Field(fields, "url") == url;
    assert Field(fields, "name") == Undefined;
    assert Field(fields, "title") == Undefined;
    assert Field(fields, "category") == Undefined;
    assert Field(fields, "folder") == Undefined;
    var b := Bookmark(Str(UnnamedLink), url, Str(""));
    assert ListRecord(entry) == Success(b);
    var xs := [entry];
    assert xs[1..] == [];
    assert MapResults(ListRecord, xs[1..]) == Success([]);
    assert MapResults(ListRecord, xs) == Success([b] + []);
    assert [b] + [] == [b];
    assert !Truthy(Prop(Arr(xs), "categories"));
    assert JsonRecords(Arr([entry])) == Success([b]);
    assert [b][1..] == [];
    assert File(Empty, b) == ParsedData([], [b]);
    assert FileAll(Empty, [b]) == ParsedData([], [b]);
  }
}
