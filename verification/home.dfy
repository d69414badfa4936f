/** The derived views and handlers of the home page: the default settings,
    the visit-sorted lists, the site grid, the search box and the visit
    counter. Database reads arrive as parameters and database writes are
    returned as values; opening a browser tab is the URL the handler opens. */
module Home {
  import opened Wrappers
  import opened Strings
  import opened Seqs
  import opened Entities

  // ---------------------------------------------------------------------------
  // Settings and loading

  const DefaultSiteTitle := "智能导航网站"
  const DefaultLogoType := "url"
  const DefaultLogoContent := "🌐"
  const DefaultSearchEngine := "google"

  /** The settings `loadData` uses when there is no row. The home page's
      default object has no location or weather columns; they are empty here. */
  function DefaultSettings(userId: string): (r: Settings)
    ensures r.userId == userId && r.id == ""
    ensures r.siteTitle == DefaultSiteTitle && r.logoType == DefaultLogoType
    ensures r.logoContent == DefaultLogoContent && r.defaultSearchEngine == DefaultSearchEngine
  {
    Settings("", userId, DefaultSiteTitle, DefaultLogoType, DefaultLogoContent,
             DefaultSearchEngine, "", "", "", "", "", "")
  }

  /** The lists and settings `loadData` puts into the page state. */
  datatype HomeData = HomeData(settings: Settings, categories: seq<Category>, sites: seq<Site>)

  /** `loadData`: a guest, or a user without a settings row, gets the default
      settings; a missing category or site list becomes empty. `row` is the
      `maybeSingle` reply of the settings query, consulted only for a user. */
  function LoadData(user: Option<string>, row: Option<Settings>,
                    categories: Option<seq<Category>>, sites: Option<seq<Site>>): (r: HomeData)
    ensures user.Some? && row.Some? ==> r.settings == row.value
    ensures user.None? ==> r.settings == DefaultSettings("")
    ensures user.Some? && row.None? ==> r.settings == DefaultSettings(user.value)
    ensures categories.None? ==> r.categories == []
    ensures categories.Some? ==> r.categories == categories.value
    ensures sites.None? ==> r.sites == []
    ensures sites.Some? ==> r.sites == sites.value
  {
    var userId := if user.Some? then user.value else "";
    var settings := if user.Some? && row.Some? then row.value else DefaultSettings(userId);
    HomeData(settings, categories.GetOr([]), sites.GetOr([]))
  }

  // ---------------------------------------------------------------------------
  // Sorting by visits

  /** Non-increasing visit counts, the order of the descending sort by visits. */
  predicate SortedByVisits(s: seq<Site>) {
    forall i, j :: 0 <= i < j < |s| ==> s[i].visits >= s[j].visits
  }

  /** Places `x` before the first site with no more visits than it has. */
  function InsertByVisits(x: Site, t: seq<Site>): seq<Site> {
    if t == [] then [x]
    else if x.visits >= t[0].visits then [x] + t
    else [t[0]] + InsertByVisits(x, t[1..])
  }

  lemma {:induction false} InsertByVisitsPermutes(x: Site, t: seq<Site>)
    ensures multiset(InsertByVisits(x, t)) == multiset(t) + multiset{x}
  {
    if t != [] && x.visits < t[0].visits {
      InsertByVisitsPermutes(x, t[1..]);
      assert t == [t[0]] + t[1..];
    }
  }

  lemma {:induction false} InsertByVisitsSorted(x: Site, t: seq<Site>)
    requires SortedByVisits(t)
    ensures SortedByVisits(InsertByVisits(x, t))
  {
    if t != [] && x.visits < t[0].visits {
      var rest := InsertByVisits(x, t[1..]);
      InsertByVisitsSorted(x, t[1..]);
      InsertByVisitsPermutes(x, t[1..]);
      forall k | 0 <= k < |rest|
        ensures rest[k].visits <= t[0].visits
      {
        assert rest[k] in multiset(rest);
        if rest[k] != x {
          assert rest[k] in multiset(t[1..]);
        }
      }
    }
  }

  /** The visit-descending sort of the source. Ties keep their input order
      (the sort is stable), which the model inherits from inserting each site
      before the later ones with as many visits. */
  function SortByVisits(s: seq<Site>): seq<Site> {
    if s == [] then [] else InsertByVisits(s[0], SortByVisits(s[1..]))
  }

  /** The sort returns a permutation of its input in non-increasing visit order. */
  lemma SortByVisitsCorrect(s: seq<Site>)
    ensures multiset(SortByVisits(s)) == multiset(s)
    ensures SortedByVisits(SortByVisits(s))
    ensures |SortByVisits(s)| == |s|
  {
    SortByVisitsPermutes(s);
    SortByVisitsSorted(s);
    assert |multiset(SortByVisits(s))| == |multiset(s)|;
  }

  lemma {:induction false} SortByVisitsPermutes(s: seq<Site>)
    ensures multiset(SortByVisits(s)) == multiset(s)
  {
    if s != [] {
      SortByVisitsPermutes(s[1..]);
      InsertByVisitsPermutes(s[0], SortByVisits(s[1..]));
      assert s == [s[0]] + s[1..];
    }
  }

  lemma {:induction false} SortByVisitsSorted(s: seq<Site>)
    ensures SortedByVisits(SortByVisits(s))
  {
    if s != [] {
      SortByVisitsSorted(s[1..]);
      InsertByVisitsSorted(s[0], SortByVisits(s[1..]));
    }
  }

  /** Filtering a sorted list keeps it sorted. */
  lemma {:induction false} FilterKeepsSorted(f: Site -> bool, s: seq<Site>)
    requires SortedByVisits(s)
    ensures SortedByVisits(Filter(f, s))
  {
    if s != [] {
      FilterKeepsSorted(f, s[1..]);
      FilterMembers(f, s[1..]);
      var rest := Filter(f, s[1..]);
      forall k | 0 <= k < |rest|
        ensures rest[k].visits <= s[0].visits
      {
        assert rest[k] in s[1..];
      }
    }
  }

  // ---------------------------------------------------------------------------
  // Derived lists

  predicate Visited(s: Site) {
    s.visits > 0
  }

  const RecentLimit := 8

  /** `getAllSitesSortedByVisits`. */
  function AllSitesSortedByVisits(sites: seq<Site>): (r: seq<Site>)
    ensures multiset(r) == multiset(sites)
    ensures SortedByVisits(r)
  {
    SortByVisitsCorrect(sites);
    SortByVisits(sites)
  }

  /** `getRecentSites`: nothing for a guest; otherwise the visited sites,
      most visited first, cut to the first eight. */
  function RecentSites(user: Option<string>, sites: seq<Site>): (r: seq<Site>)
    ensures user.None? ==> r == []
    ensures |r| <= RecentLimit
  {
    if user.None? then []
    else
      var sorted := SortByVisits(Filter(Visited, sites));
      if |sorted| <= RecentLimit then sorted else sorted[..RecentLimit]
  }

  /** For a signed-in user the recent list holds only visited sites, most
      visited first, as many as were visited up to eight, each drawn from
      the visited sites. */
  lemma RecentSitesShape(user: string, sites: seq<Site>)
    ensures var r := RecentSites(Some(user), sites);
      && (forall i :: 0 <= i < |r| ==> r[i].visits > 0)
      && SortedByVisits(r)
      && multiset(r) <= multiset(Filter(Visited, sites))
      && multiset(r) <= multiset(sites)
      && |r| == if |Filter(Visited, sites)| < RecentLimit then |Filter(Visited, sites)| else RecentLimit
  {
    var visited := Filter(Visited, sites);
    var sorted := SortByVisits(visited);
    var r := RecentSites(Some(user), sites);
    assert |sorted| == |visited| && SortedByVisits(sorted) && multiset(sorted) == multiset(visited) by {
      SortByVisitsCorrect(visited);
    }
    assert r == sorted[..|r|] && |r| == if |visited| < RecentLimit then |visited| else RecentLimit;
    PrefixOfSorted(sorted, |r|);
    assert multiset(visited) <= multiset(sites) && forall x :: x in visited ==> x.visits > 0 by {
      FilterMembers(Visited, sites);
    }
    forall i | 0 <= i < |r|
      ensures r[i].visits > 0
    {
      assert r[i] in multiset(visited);
    }
  }

  /** A prefix of a list is a sub-multiset of it and keeps it sorted. */
  lemma PrefixOfSorted(s: seq<Site>, k: nat)
    requires k <= |s|
    ensures multiset(s[..k]) <= multiset(s)
    ensures SortedByVisits(s) ==> SortedByVisits(s[..k])
  {
    assert s == s[..k] + s[k..];
  }

  /** The recent list is the top of the visited sites: a visited site left
      out has no more visits than any site that made the list, and when at
      most eight sites were visited the list holds all of them. */
  lemma RecentSitesAreTop(user: string, sites: seq<Site>)
    ensures var r := RecentSites(Some(user), sites);
      forall x, y :: x in sites && x.visits > 0 && x !in r && y in r ==> y.visits >= x.visits
    ensures |Filter(Visited, sites)| <= RecentLimit ==>
      multiset(RecentSites(Some(user), sites)) == multiset(Filter(Visited, sites))
  {
    var r := RecentSites(Some(user), sites);
    var visited := Filter(Visited, sites);
    var sorted := SortByVisits(visited);
    FilterMembers(Visited, sites);
    SortByVisitsCorrect(visited);
    forall x, y | x in sites && x.visits > 0 && x !in r && y in r
      ensures y.visits >= x.visits
    {
      assert x in multiset(sorted);
      var k :| 0 <= k < |sorted| && sorted[k] == x;
      var j :| 0 <= j < |r| && r[j] == y;
      assert r == sorted[..|r|];
      assert k >= |r|;
    }
  }

  /** `getSitesByCategory`: the category's sites in list order. */
  function SitesByCategory(id: string, sites: seq<Site>): (r: seq<Site>)
    ensures forall x :: x in r <==> x in sites && x.categoryId == id
    ensures multiset(r) <= multiset(sites)
    ensures forall x :: multiset(r)[x] == if x.categoryId == id then multiset(sites)[x] else 0
    ensures IsSubsequence(r, sites)
  {
    FilterMembers(InCategory(id), sites);
    FilterKeepsOrder(InCategory(id), sites);
    Filter(InCategory(id), sites)
  }

  /** `getNonEmptyCategories`: the categories, in order, that own a site. */
  function NonEmptyCategories(categories: seq<Category>, sites: seq<Site>): seq<Category> {
    Filter((c: Category) => |SitesByCategory(c.id, sites)| > 0, categories)
  }

  /** A category is kept iff it owns a site; the kept ones appear as often as
      in the list and in its order. */
  lemma NonEmptyCategoriesMembers(categories: seq<Category>, sites: seq<Site>)
    ensures forall c :: c in NonEmptyCategories(categories, sites) <==>
      c in categories && exists s :: s in sites && s.categoryId == c.id
    ensures forall c :: multiset(NonEmptyCategories(categories, sites))[c] ==
                        (if exists s :: s in sites && s.categoryId == c.id then multiset(categories)[c] else 0)
    ensures IsSubsequence(NonEmptyCategories(categories, sites), categories)
  {
    var f := (c: Category) => |SitesByCategory(c.id, sites)| > 0;
    FilterMembers(f, categories);
    FilterKeepsOrder(f, categories);
    forall c: Category
      ensures f(c) <==> exists s :: s in sites && s.categoryId == c.id
    {
      FilterNonEmpty(InCategory(c.id), sites);
    }
  }

  // ---------------------------------------------------------------------------
  // The site grid

  /** `activeCategory` is set: a non-null, non-empty id. */
  predicate IsActive(active: Option<string>) {
    active.Some? && active.value != ""
  }

  /** The grid: the active category's sites by visits, or, without an
      active category, every visited site by visits. */
  function Grid(active: Option<string>, sites: seq<Site>): seq<Site> {
    if IsActive(active) then SortByVisits(SitesByCategory(active.value, sites))
    else Filter(Visited, AllSitesSortedByVisits(sites))
  }

  /** The grid is sorted by visits and holds exactly the category's sites, or
      exactly the visited sites, each as often as in the list. */
  lemma GridContents(active: Option<string>, sites: seq<Site>)
    ensures SortedByVisits(Grid(active, sites))
    ensures IsActive(active) ==> multiset(Grid(active, sites)) == multiset(Filter(InCategory(active.value), sites))
    ensures !IsActive(active) ==> multiset(Grid(active, sites)) == multiset(Filter(Visited, sites))
  {
    if IsActive(active) {
      SortByVisitsCorrect(SitesByCategory(active.value, sites));
    } else {
      var sorted := AllSitesSortedByVisits(sites);
      FilterKeepsSorted(Visited, sorted);
      FilterPermutation(Visited, sorted, sites);
    }
  }

  /** The recent list draws from the sites the default grid shows. */
  lemma RecentWithinGrid(user: Option<string>, sites: seq<Site>)
    ensures multiset(RecentSites(user, sites)) <= multiset(Grid(None, sites))
  {
    GridContents(None, sites);
    if user.Some? {
      RecentSitesShape(user.value, sites);
    }
  }

  const RecentHeading := "最近访问"

  /** `i` is the position `categories.find` stops at for `id`. */
  predicate FirstWithId(categories: seq<Category>, id: string, i: int) {
    0 <= i < |categories| && categories[i].id == id
    && forall j :: 0 <= j < i ==> categories[j].id != id
  }

  /** The grid heading: the name of the first category with the active id,
      or "最近访问" when no category is active, none has the id, or the first
      one with it has an empty name. */
  function GridHeading(active: Option<string>, categories: seq<Category>): (r: string)
    ensures r != ""
    ensures !IsActive(active) ==> r == RecentHeading
    ensures IsActive(active) && (exists i :: FirstWithId(categories, active.value, i) && categories[i].name != "") ==>
      exists i :: FirstWithId(categories, active.value, i) && r == categories[i].name
    ensures IsActive(active) && !(exists i :: FirstWithId(categories, active.value, i) && categories[i].name != "") ==>
      r == RecentHeading
  {
    if !IsActive(active) then RecentHeading
    else
      var i := FindIndex(CategoryId, categories, active.value);
      if i >= 0 && categories[i].name != "" then
        assert FirstWithId(categories, active.value, i);
        categories[i].name
      else
        assert forall k :: FirstWithId(categories, active.value, k) ==> k == i;
        RecentHeading
  }

  // ---------------------------------------------------------------------------
  // Search

  const GoogleSearch := "https://www.google.com/search?q="
  const BaiduSearch := "https://www.baidu.com/s?wd="
  const BingSearch := "https://www.bing.com/search?q="
  const GithubSearch := "https://github.com/search?q="

  /** The `searchEngines` record: the URL prefix for each engine name. */
  function EngineTemplate(engine: string): Option<string> {
    if engine == "Google" then Some(GoogleSearch)
    else if engine == "百度" then Some(BaiduSearch)
    else if engine == "Bing" then Some(BingSearch)
    else if engine == "github" then Some(GithubSearch)
    else None
  }

  /** What a submitted search does: the tab it opens, if any, and the query
      box's contents afterwards. */
  datatype SearchOutcome = SearchOutcome(tab: Option<string>, query: string)

  /** `handleSearch`: a blank query does nothing. Otherwise the engine's
      template, or Google's for an engine the record lacks, is followed by the
      encoded untrimmed query, and the box is cleared. `encode` stands for
      `encodeURIComponent`. */
  function Search(engine: string, query: string, encode: string -> string): (r: SearchOutcome)
    ensures AllWhitespace(query) <==> r.tab.None?
    ensures r.tab.None? ==> r.query == query
    ensures r.tab.Some? ==> r.query == ""
    ensures r.tab.Some? && EngineTemplate(engine).Some? ==>
      r.tab.value == EngineTemplate(engine).value + encode(query)
    ensures r.tab.Some? && EngineTemplate(engine).None? ==>
      r.tab.value == GoogleSearch + encode(query)
  {
    TrimEmptyIff(query);
    if Trim(query) == "" then SearchOutcome(None, query)
    else SearchOutcome(Some(EngineTemplate(engine).GetOr(GoogleSearch) + encode(query)), "")
  }

  /** The four templates are pairwise distinguishable: each has a character
      position where it differs from each other one. */
  predicate Diverge(a: string, b: string) {
    exists k :: 0 <= k < |a| && k < |b| && a[k] != b[k]
  }

  lemma TemplatesDiverge()
    ensures Diverge(GoogleSearch, BaiduSearch) && Diverge(GoogleSearch, BingSearch)
    ensures Diverge(GoogleSearch, GithubSearch) && Diverge(BaiduSearch, BingSearch)
    ensures Diverge(BaiduSearch, GithubSearch) && Diverge(BingSearch, GithubSearch)
  {
    assert GoogleSearch[12] != BaiduSearch[12];
    assert GoogleSearch[12] != BingSearch[12];
    assert GoogleSearch[8] != GithubSearch[8];
    assert BaiduSearch[12] != BingSearch[12] || BaiduSearch[13] != BingSearch[13];
    assert BaiduSearch[8] != GithubSearch[8];
    assert BingSearch[8] != GithubSearch[8];
  }

  predicate KnownEngine(engine: string) {
    engine in {"Google", "百度", "Bing", "github"}
  }

  /** Searching with two different listed engines never opens the same URL,
      whatever the queries: the opened URL identifies the engine. */
  lemma SearchIdentifiesEngine(e1: string, e2: string, q1: string, q2: string, encode: string -> string)
    requires KnownEngine(e1) && KnownEngine(e2) && e1 != e2
    requires !AllWhitespace(q1) && !AllWhitespace(q2)
    ensures Search(e1, q1, encode).tab != Search(e2, q2, encode).tab
  {
    EnginesDiverge(e1, e2);
    DivergedPrefixes(EngineTemplate(e1).value, EngineTemplate(e2).value, encode(q1), encode(q2));
  }

  /** Two different listed engines have templates that differ at some
      position both reach. */
  lemma EnginesDiverge(e1: string, e2: string)
    requires KnownEngine(e1) && KnownEngine(e2) && e1 != e2
    ensures EngineTemplate(e1).Some? && EngineTemplate(e2).Some?
    ensures Diverge(EngineTemplate(e1).value, EngineTemplate(e2).value)
  {
    var t1, t2 := EngineTemplate(e1).value, EngineTemplate(e2).value;
    TemplatesDiverge();
    assert t1 in {GoogleSearch, BaiduSearch, BingSearch, GithubSearch};
    assert t2 in {GoogleSearch, BaiduSearch, BingSearch, GithubSearch};
    if !Diverge(t1, t2) {
      DivergeSymmetric(t2, t1);
    }
  }

  lemma DivergeSymmetric(a: string, b: string)
    requires Diverge(a, b)
    ensures Diverge(b, a)
  {
    var k :| 0 <= k < |a| && k < |b| && a[k] != b[k];
    assert b[k] != a[k];
  }

  /** Strings that differ within both of their beginnings stay different
      whatever follows them. */
  lemma DivergedPrefixes(t1: string, t2: string, a: string, b: string)
    requires Diverge(t1, t2)
    ensures t1 + a != t2 + b
  {
    var k :| 0 <= k < |t1| && k < |t2| && t1[k] != t2[k];
    assert (t1 + a)[k] == t1[k] && (t2 + b)[k] == t2[k];
  }

  /** An engine the record lacks searches exactly as Google does. */
  lemma UnknownEngineIsGoogle(engine: string, google: string, query: string, encode: string -> string)
    requires !KnownEngine(engine) && google == "Google"
    ensures Search(engine, query, encode) == Search(google, query, encode)
  {
  }

  // ---------------------------------------------------------------------------
  // Visit counting

  /** The update a click sends: the new visit count for the row with that id. */
  datatype VisitWrite = VisitWrite(id: string, visits: int)

  /** What a click does: the visit write, sent only for a signed-in user,
      and the URL opened in a new tab. */
  datatype Click = Click(write: Option<VisitWrite>, tab: string)

  /** Applies a visit write to the site table: every row with that id gets
      the new count. */
  function ApplyVisit(sites: seq<Site>, w: VisitWrite): (r: seq<Site>)
    ensures |r| == |sites|
    ensures forall i :: 0 <= i < |sites| && sites[i].id == w.id ==> r[i] == sites[i].(visits := w.visits)
    ensures forall i :: 0 <= i < |sites| && sites[i].id != w.id ==> r[i] == sites[i]
  {
    seq(|sites|, i requires 0 <= i < |sites| =>
      if sites[i].id == w.id then sites[i].(visits := w.visits) else sites[i])
  }

  function ApplyClick(table: seq<Site>, c: Click): seq<Site> {
    if c.write.Some? then ApplyVisit(table, c.write.value) else table
  }

  /** `handleSiteClick` as written: the new count is computed from the copy
      of the site the page loaded, which the page does not refresh. */
  function SiteClick(user: Option<string>, site: Site): (r: Click)
    ensures r.tab == site.url
    ensures r.write.Some? <==> user.Some?
    ensures r.write.Some? ==> r.write.value.id == site.id
  {
    Click(if user.Some? then Some(VisitWrite(site.id, site.visits + 1)) else None, site.url)
  }

  /** A guest's click leaves the table as it was. */
  lemma GuestClickWritesNothing(table: seq<Site>, site: Site)
    ensures ApplyClick(table, SiteClick(None, site)) == table
  {
  }

  /** One click by a signed-in user on a site whose loaded copy matches the
      table raises that site's count by one and changes nothing else. */
  lemma ClickCountsOnce(user: string, table: seq<Site>, i: nat)
    requires i < |table|
    requires forall j :: 0 <= j < |table| && j != i ==> table[j].id != table[i].id
    ensures var after := ApplyClick(table, SiteClick(Some(user), table[i]));
      && after[i].visits == table[i].visits + 1
      && forall j :: 0 <= j < |table| && j != i ==> after[j] == table[j]
  {
  }

  /** Two clicks on the same loaded site count once: both send the loaded
      count plus one, so the second write repeats the first. */
  lemma RepeatedClicksCountOnce(user: string, table: seq<Site>, i: nat)
    requires i < |table|
    requires forall j :: 0 <= j < |table| && j != i ==> table[j].id != table[i].id
    ensures var c := SiteClick(Some(user), table[i]);
      ApplyClick(ApplyClick(table, c), c)[i].visits == table[i].visits + 1
  {
  }

  /** The click handler with the page's copy refreshed after each click: the
      clicked site's count is raised in the page list as it is in the table. */
  function SiteClickRefreshing(user: Option<string>, page: seq<Site>, i: nat): (r: (Click, seq<Site>))
    requires i < |page|
    ensures r.0 == SiteClick(user, page[i])
    ensures r.1 == ApplyClick(page, r.0)
  {
    var c := SiteClick(user, page[i]);
    (c, ApplyClick(page, c))
  }

  /** `n` clicks on site `i`, each handled by `SiteClickRefreshing` against the
      page's current list, with the same writes applied to the table. */
  function ClickTimes(user: Option<string>, page: seq<Site>, i: nat, n: nat): (r: seq<Site>)
    requires i < |page|
    ensures |r| == |page|
    decreases n
  {
    if n == 0 then page
    else
      var next := SiteClickRefreshing(user, page, i).1;
      ClickTimes(user, next, i, n - 1)
  }

  /** With the page refreshed, `n` clicks by a signed-in user raise the site's
      count by `n` and leave every other site alone. */
  lemma {:induction false} ClickTimesCounts(user: string, page: seq<Site>, i: nat, n: nat)
    requires i < |page|
    requires forall j :: 0 <= j < |page| && j != i ==> page[j].id != page[i].id
    ensures ClickTimes(Some(user), page, i, n)[i].visits == page[i].visits + n
    ensures forall j :: 0 <= j < |page| && j != i ==> ClickTimes(Some(user), page, i, n)[j] == page[j]
    decreases n
  {
    if n > 0 {
      var next := SiteClickRefreshing(Some(user), page, i).1;
      assert next[i].id == page[i].id;
      ClickTimesCounts(user, next, i, n - 1);
    }
  }
}
