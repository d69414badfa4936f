# nav-web start page, modelled in Dafny

This project models the logic of a personal navigation start page. The page
is a React single-page app backed by a hosted Postgres database. The model
covers these parts:

- **Bookmark import parser**: an HTML bookmark export (nested `DL`/`DT`/`H3`/`A`)
  and two JSON shapes are filed into category buckets. A hostname is mapped to
  an emoji through an ordered substring table plus top-level-domain rules, and
  a URL is mapped to a favicon-service address.
- **Admin page handlers**: add, rename and delete for categories and sites;
  drag reordering with dense re-indexing; the backup document and its file
  name; the field-by-field import of a backup.
- **Text utilities**: the `http:`/`https:` allow-list, scheme auto-prefixing
  and HTML escaping.
- **Home page**: default settings, the recent-sites and visit-sorted views,
  the category grid and its heading, the search-engine URL, the visit counter,
  and the five-source favicon fallback chain.
- **City table** (34 provinces) and its lookups.
- **Service worker**: the routing of `fetch` and the eviction of old caches in
  `activate`.
- **Sidebar**: the icon and label derived from a category name, and the click
  handler.
- **Weather service**: provider dispatch and the 30-minute in-memory cache.
- **Registration form**: the password checks and the default settings row.

Everything is a pure function over immutable datatypes. The outside world
enters as parameters:

- the database replies;
- the browser's URL parser, as a partial function `Url.Parser` from text to a
  record of protocol, hostname and pathname;
- `JSON.parse`, whose outcome is given as an `Option<JsValue.Value>`;
- the DOM, seen as an abstract tree of `DL` lists;
- `encodeURIComponent`, the wall clock, the weather providers' HTTP calls and
  the authentication service.

Modules follow the source files: `BookmarkParser` and `BookmarkIcons`
(bookmarkParser.ts), `Admin` (Admin.tsx), `Utils` (utils.ts), `Home` and
`IconFallback` (Home.tsx), `Cities` and `ChinaCities` (cities.ts),
`ServiceWorker` (sw.js), `Sidebar` (Sidebar.tsx), `Weather` (weather.ts) and
`Register` (Register.tsx). The shared modules are `Wrappers`, `Strings`,
`Seqs`, `JsValue`, `Url` and `Entities`.

## Model

| member | source | states |
|---|---|---|
| Utils.IsValidUrl | src/lib/utils.ts:9-17 | Empty text is refused. Otherwise the result is true iff the text parses and its protocol is exactly `http:` or `https:`. |
| Utils.NormalizeUrl | src/lib/utils.ts:20-27 | "" iff the input is "". Any other input gives a result that starts with an HTTP scheme: the trimmed input when it already starts with `http://` or `https://` in any case, else `https://` before it. |
| Utils.NormalizeIdempotent | src/lib/utils.ts:20-27 | Normalizing a normalized URL changes nothing. |
| Utils.NormalizedIsTrimmed | src/lib/utils.ts:22-26 | A non-empty input normalizes to text with no surrounding whitespace. |
| Utils.NormalizeWhitespace | src/lib/utils.ts:21-24 | Non-empty, all-whitespace input normalizes to the bare `https://`. |
| Utils.NormalizeKeepsUpperScheme | src/lib/utils.ts:23 | The scheme test ignores case: `HTTP://…` is kept, not prefixed again. |
| Utils.SanitizeText | src/lib/utils.ts:30-37 | Empty text gives "", and any text gives exactly its per-character reference escape `EscapeAll`. |
| Utils.SanitizeIsEscape | src/lib/utils.ts:32-36 | The four chained global replacements, in source order, equal escaping each character on its own. |
| Utils.ChainedReplaceChar | src/lib/utils.ts:33-36 | On one character the chain acts exactly as the reference escape of that character. |
| Utils.ChainedReplaceConcat | src/lib/utils.ts:33-36 | The chain distributes over concatenation. |
| Utils.ReplaceAllConcat | src/lib/utils.ts:33 | A global one-character replace distributes over concatenation. |
| Utils.EscapeAllSafe | src/lib/utils.ts:32-36 | Escaped text holds no `<`, `>`, `"` or `'` and is no shorter than its input. |
| Utils.SanitizeSafe | src/lib/utils.ts:30-37 | The sanitized text holds none of the four characters and is no shorter than the input. |
| Utils.AmpersandKept | src/lib/utils.ts:32-36 | `&` is not escaped, so `&amp;` comes out unchanged. |
| Url.Hostname | src/lib/bookmarkParser.ts:203-204 | Defined exactly when the parser accepts the text, and then it is the parsed hostname. |
| JsValue.Or | src/lib/bookmarkParser.ts:114-116 | `a \|\| b` is `a` when `a` is truthy and `b` otherwise; the result is truthy iff either operand is. |
| JsValue.FieldFound | src/lib/bookmarkParser.ts:86 | A property read returns a field of that name, and a name no field has reads as `undefined`. |
| JsValue.Get | src/lib/bookmarkParser.ts:89-90 | A property read throws exactly on `null` and `undefined`; otherwise it is the property's value. |
| JsValue.Iterate | src/pages/Admin.tsx:467 | `for … of` visits an array's elements in order, or one element per character of a string, and throws on anything else. |
| BookmarkParser.Push | src/lib/bookmarkParser.ts:50-53 | A new category key is appended at the end of the key order; an existing key keeps the order. |
| BookmarkParser.PushLookup | src/lib/bookmarkParser.ts:50-53 | Pushing under `k` appends the bookmark to bucket `k` and leaves every other bucket as it was. |
| BookmarkParser.PushDistinct | src/lib/bookmarkParser.ts:50-53 | Pushing keeps the bucket keys distinct, as in a `Map`. |
| BookmarkParser.LookupAbsent | src/lib/bookmarkParser.ts:50 | A key the map lacks has no bookmarks. |
| BookmarkParser.PushSize | src/lib/bookmarkParser.ts:53 | Pushing adds exactly one bookmark. |
| BookmarkParser.FileAllConcat | src/lib/bookmarkParser.ts:30 | Filing a list in two parts equals filing it at once. |
| BookmarkParser.FileBuckets | src/lib/bookmarkParser.ts:49-56 | Filing one bookmark keeps "bucket `k` is exactly the filed bookmarks of category `k`, in order". |
| BookmarkParser.FileKeys | src/lib/bookmarkParser.ts:49-53 | Filing one bookmark keeps the keys equal to the distinct truthy categories in first-seen order. |
| BookmarkParser.FileAllBuckets | src/lib/bookmarkParser.ts:49-56 | Filing a list keeps each bucket equal to its category's bookmarks in order. |
| BookmarkParser.FileAllKeys | src/lib/bookmarkParser.ts:49-53 | Filing a list keeps the keys in first-seen order. |
| BookmarkParser.FileAllUncategorized | src/lib/bookmarkParser.ts:54-55 | `uncategorized` is exactly the filed bookmarks with a falsy category, in order. |
| BookmarkParser.FileAllSize | src/lib/bookmarkParser.ts:49-56 | Filing `n` bookmarks adds exactly `n` to the total. |
| BookmarkParser.FileAllFromEmpty | src/lib/bookmarkParser.ts:49-56 | Filing into the empty result groups the list by category and keeps every bookmark once. |
| BookmarkParser.ParseEntriesIsFiling | src/lib/bookmarkParser.ts:27-60 | The recursive walk equals filing, in order, the reference list of links: each anchor with an `href`, in document order, labelled with its nearest folder's name. |
| BookmarkParser.HtmlBucketing | src/lib/bookmarkParser.ts:17-69 | Every anchor with an `href` is filed exactly once, under its nearest enclosing folder in document order, and the total equals the number of such anchors. |
| BookmarkParser.FolderLinksNamed | src/lib/bookmarkParser.ts:33-37 | Every link inside a folder carries a non-empty category name. |
| BookmarkParser.UncategorizedAreTopLevel | src/lib/bookmarkParser.ts:49-56 | The uncategorized links of a walk from the root are exactly the links that sit directly in the root list. |
| BookmarkParser.HtmlUncategorizedIsTopLevel | src/lib/bookmarkParser.ts:49-66 | A link goes to `uncategorized` iff it sits outside every folder. |
| BookmarkParser.HtmlNoList | src/lib/bookmarkParser.ts:21-68 | A document without a `DL` gives empty categories and an empty uncategorized list. |
| BookmarkParser.HtmlNestedFolders | src/lib/bookmarkParser.ts:33-37 | A sub-folder's links are filed under the sub-folder's own name only, so nesting is flattened to the nearest folder. |
| BookmarkParser.FileTwoFolders | src/lib/bookmarkParser.ts:49-53 | Two links of one category and one of another give two buckets in first-seen order. |
| BookmarkParser.HtmlSkipsAndDefaults | src/lib/bookmarkParser.ts:32-44 | A DT without an anchor, an anchor without `href` and a folder without a `DL` add nothing. Blank link text becomes 未命名 and a blank heading becomes 未命名分类. |
| BookmarkParser.MapGet | src/lib/bookmarkParser.ts:95 | An unknown id reads as `undefined`. |
| BookmarkParser.CategoryMap | src/lib/bookmarkParser.ts:88-91 | Building the id-to-name map throws iff some category entry is `null` or `undefined`. On success no key already present is lost. |
| BookmarkParser.CategoryMapContents | src/lib/bookmarkParser.ts:88-91 | The keys are the starting keys plus the ids of the category entries. Each id maps to the name of the last entry carrying it, and other keys keep their values. |
| BookmarkParser.SiteRecord | src/lib/bookmarkParser.ts:94-100 | A site record throws iff the site is nullish. Its name and url are the site's own. Its category is the name mapped from the site's `category_id` when that is truthy, and 默认分类 otherwise. |
| BookmarkParser.MapResults | src/lib/bookmarkParser.ts:94 | A `forEach` that builds one record per element gives the records in order, or fails iff some element fails. |
| BookmarkParser.ExportShapeRecords | src/lib/bookmarkParser.ts:86-107 | The export shape fails iff building the map fails or some site is nullish, and it needs both fields to be arrays. On success record i is the record of site i under the map of all categories. |
| BookmarkParser.ExportShapeFiling | src/lib/bookmarkParser.ts:88-100 | Record i has site i's name and url. Its category is the name of the last category carrying the site's id when that name is truthy, and 默认分类 when it is falsy or no category carries the id. |
| BookmarkParser.ListRecord | src/lib/bookmarkParser.ts:113-117 | Each field is the first truthy of its two sources: name is name, then title, then 未命名; url is url, then link, then the empty text; category is category, then folder, then the empty text. The record throws iff the entry is nullish. |
| BookmarkParser.ParseJson | src/lib/bookmarkParser.ts:77-135 | Every failure is the single 无效的 JSON 格式 error. A parse failure and a `null` document both fail. |
| BookmarkParser.JsonBucketing | src/lib/bookmarkParser.ts:102-126 | A successful JSON parse groups its records by category and keeps each one once. |
| BookmarkParser.ExportShapePrecedence | src/lib/bookmarkParser.ts:86-107 | With truthy `categories` and `sites`, a `bookmarks` field changes nothing. On success nothing is uncategorized, and there is one record per site. |
| BookmarkParser.ListShape | src/lib/bookmarkParser.ts:109-127 | An array document succeeds iff no entry is nullish. On success there is one record per entry, and the falsy-category ones are exactly `uncategorized`. |
| BookmarkParser.NeitherShape | src/lib/bookmarkParser.ts:86-130 | A document of neither shape gives the empty result without error. |
| BookmarkParser.MissingFieldDefaults | src/lib/bookmarkParser.ts:113-125 | An entry with only a `url` is named 未命名 and is uncategorized. |
| BookmarkIcons.FirstMatch | src/lib/bookmarkParser.ts:178-182 | The position returned is that of the first table entry that matches, or the table's length when none does. |
| BookmarkIcons.SuffixEmoji | src/lib/bookmarkParser.ts:185-191 | `.gov` takes precedence, then `.edu`. The link emoji is returned iff none of the four suffixes applies. |
| BookmarkIcons.PickEmoji | src/lib/bookmarkParser.ts:178-191 | The first matching entry in declaration order decides the emoji; with no match, the suffix rules decide. |
| BookmarkIcons.EmojiForUrl | src/lib/bookmarkParser.ts:141-195 | An unparsable URL gives 🔗; otherwise the lower-cased hostname is looked up. |
| BookmarkIcons.EmojiRange | src/lib/bookmarkParser.ts:146-191 | Every emoji returned comes from the table or from the suffix rules. |
| BookmarkIcons.HostWithoutKnownSite | src/lib/bookmarkParser.ts:178-191 | A host that contains no table domain falls through to the suffix rules. |
| BookmarkIcons.XComShadows | src/lib/bookmarkParser.ts:147-182 | A host holding `x.com` gets ❌ unless one of the four entries above it matches first. |
| BookmarkIcons.BoxHoldsX | src/lib/bookmarkParser.ts:147-151 | `box.com` is such a host. |
| BookmarkIcons.TableBeforeSuffix | src/lib/bookmarkParser.ts:178-187 | Any table match beats the suffix rules, so `wikipedia.org` never gets the `.org` globe. |
| BookmarkIcons.NetflixUnreachable | src/lib/bookmarkParser.ts:151-182 | No host ever gets 🎬: `netflix.com` contains `x.com`, which comes earlier in the table. |
| BookmarkIcons.LabelMatchIncludes | src/lib/bookmarkParser.ts:179 | The corrected label match implies the substring match, so it only narrows the rule. |
| BookmarkIcons.NetflixByLabel | src/lib/bookmarkParser.ts:164-182 | With label matching, `netflix.com` gets 🎬. |
| BookmarkIcons.FaviconUrl | src/lib/bookmarkParser.ts:201-210 | "" iff the URL does not parse; otherwise the Google favicon address for the hostname. |
| BookmarkIcons.FaviconDomain | src/lib/bookmarkParser.ts:206 | A host read back out of an address rebuilds that address. |
| BookmarkIcons.FaviconRoundTrip | src/lib/bookmarkParser.ts:201-210 | Reading the host back out of `getFaviconUrl` gives exactly the URL's hostname, or nothing when the URL does not parse. |
| Admin.AddCategory | src/pages/Admin.tsx:206-230 | A blank name or no user does nothing. Otherwise one insert is issued, with `order_index` equal to the list length. The returned row is appended last and the input cleared; a failed insert changes no state. |
| Admin.ReplaceById | src/pages/Admin.tsx:243-245 | Same length; the entries with the edited id become the edited entry and every other entry stays in place. |
| Admin.UpdateCategory | src/pages/Admin.tsx:232-253 | Without an edit or a user nothing happens. Otherwise one rename is written. On success the category is replaced by id and edit mode ends; on failure the state is unchanged. |
| Admin.DeleteCategoryStep | src/pages/Admin.tsx:255-270 | Unconfirmed does nothing. Confirmed issues one delete; a failed delete leaves the state unchanged. |
| Admin.DeleteCategoryCascades | src/pages/Admin.tsx:262-263 | A category survives iff it is not the deleted one, and a site survives iff it is not filed under it. Each survivor keeps its count of copies, and both lists keep their order. |
| Admin.OrderWrites | src/pages/Admin.tsx:285-290 | One write per element, element `i` getting position `i`. |
| Admin.DragEndCategories | src/pages/Admin.tsx:272-296 | No target, or a drop onto itself, does nothing. Otherwise the list is a permutation with the dragged category at the target's index, and position `i` is written for the `i`-th category. |
| Admin.ReorderCategories | src/pages/Admin.tsx:278-290 | Moving from one index to another keeps the multiset and puts the moved category at the target index. Positions are written densely and the sites are untouched. |
| Admin.AddSite | src/pages/Admin.tsx:299-327 | A blank name or URL, no selected category or no user does nothing. Otherwise the insert has 0 visits and `order_index` equal to the number of sites already in that category. The returned row is appended and the form reset. |
| Admin.UpdateSite | src/pages/Admin.tsx:329-352 | One write of name, URL and logo. On success the site is replaced by id; on failure nothing changes. |
| Admin.DeleteSiteStep | src/pages/Admin.tsx:354-368 | Unconfirmed does nothing. Confirmed issues one delete; categories are untouched. |
| Admin.DeleteSiteExact | src/pages/Admin.tsx:361 | A site survives iff its id differs from the deleted one. Each survivor keeps its count of copies and the list keeps its order. |
| Admin.DragEndSites | src/pages/Admin.tsx:370-396 | No target, or a drop onto itself, does nothing. |
| Admin.DragEndSitesShape | src/pages/Admin.tsx:374-380 | Every site is kept once. The other categories' sites come first in their old order, only the selected category's sites follow, and the dragged site lands where the target site stood. |
| Admin.DragEndSitesKeepsOrder | src/pages/Admin.tsx:374-380 | Apart from the dragged site, the selected category's sites keep their relative order. |
| Admin.DragEndSitesWrites | src/pages/Admin.tsx:385-390 | Exactly the selected category's sites get positions 0..k-1, in their new order. |
| Admin.SitePartition | src/pages/Admin.tsx:374-379 | "In the category" and "not in it" split the sites with nothing lost or duplicated. |
| Admin.ExportDocument | src/pages/Admin.tsx:427-434 | The backup has exactly the fields categories, sites, settings, exportDate and version, in that order. The date is the clock reading and the version is `1.0`. |
| Admin.DatePart | src/pages/Admin.tsx:442 | `split('T')[0]` is the longest prefix of the date text without a `T`. |
| Admin.ExportFileName | src/pages/Admin.tsx:442 | The name is `navigation-data-`, then the date part of its own clock reading, then `.json`. |
| Admin.ExportFileNameExample | src/pages/Admin.tsx:442 | `2024-05-01T08:30:00.000Z` gives `navigation-data-2024-05-01.json`. |
| Admin.ForEach | src/pages/Admin.tsx:467-473 | Each write is its element's row. The loop completes iff every element yields a row, and it stops at the first that throws. |
| Admin.CategoryRow | src/pages/Admin.tsx:468-472 | Reading a category row throws iff the entry is nullish. The row is for the current user, with the entry's name and position. |
| Admin.SiteRow | src/pages/Admin.tsx:478-487 | Reading a site row throws iff the entry is nullish. The row is for the current user, and copies category, name, url, logo and position. Visits are copied when truthy and 0 otherwise. |
| Admin.SettingsFields | src/pages/Admin.tsx:495-502 | Exactly the six listed settings columns are overwritten, each with the file's value. |
| Admin.ImportList | src/pages/Admin.tsx:466-477 | A falsy list is skipped without error. |
| Admin.ImportData | src/pages/Admin.tsx:447-515 | No user or no confirmation does nothing. A JSON parse failure issues no write. Otherwise sites and then categories are deleted first, and a `null` document fails right after that. |
| Admin.ForEachAll | src/pages/Admin.tsx:467-488 | A loop whose elements all yield rows completes and issues exactly those rows. |
| Admin.ImportOfExport | src/pages/Admin.tsx:461-503 | Importing a backup clears the data, then re-inserts every category (name and position) and every site (category id, name, URL, logo, visits, position). It then restores the six settings columns and succeeds. |
| Admin.ImportedCategories | src/pages/Admin.tsx:466-474 | The categories loop over a backup issues one insert per category, in order, with its name and position. |
| Admin.ImportedSites | src/pages/Admin.tsx:477-489 | The sites loop over a backup issues one insert per site, in order, with its fields copied verbatim. |
| Admin.ExportFields | src/pages/Admin.tsx:428-434 | The backup's three lists read back as written. |
| Admin.CategoryRowOfExport | src/pages/Admin.tsx:468-472 | A category read back from a backup gives its own name and position. |
| Admin.SiteRowOfExport | src/pages/Admin.tsx:478-487 | A site read back from a backup gives its own fields. |
| Admin.SettingsRowOfExport | src/pages/Admin.tsx:495-502 | Settings read back from a backup give their own six columns. |
| Home.DefaultSettings | src/pages/Home.tsx:49-58 | The fallback settings carry the given user id and the defaults 智能导航网站, `url`, 🌐 and `google`. |
| Home.LoadData | src/pages/Home.tsx:44-95 | A guest gets the defaults with an empty user id, and a user without a row gets the defaults with their id. A user's row is used as is, and a missing list becomes empty. |
| Home.InsertByVisitsPermutes | src/pages/Home.tsx:130 | Insertion adds exactly the inserted site. |
| Home.InsertByVisitsSorted | src/pages/Home.tsx:130 | Insertion keeps the visit order non-increasing. |
| Home.SortByVisitsCorrect | src/pages/Home.tsx:136 | The sort is a permutation of its input in non-increasing visit order. |
| Home.FilterKeepsSorted | src/pages/Home.tsx:275 | Filtering a sorted list keeps it sorted. |
| Home.AllSitesSortedByVisits | src/pages/Home.tsx:135-137 | A permutation of the sites in non-increasing visit order. |
| Home.RecentSites | src/pages/Home.tsx:126-132 | A guest gets nothing; nobody gets more than eight. |
| Home.RecentSitesShape | src/pages/Home.tsx:126-132 | Only visited sites, most visited first, as many as were visited up to eight, each drawn from the sites. |
| Home.RecentSitesAreTop | src/pages/Home.tsx:128-131 | A visited site left out has no more visits than any listed site. With at most eight visited sites, all are listed. |
| Home.SitesByCategory | src/pages/Home.tsx:140-142 | A site is kept iff it is in the category. Each kept site keeps its count of copies, and the result is a subsequence of the list. |
| Home.NonEmptyCategoriesMembers | src/pages/Home.tsx:145-147 | A category is kept iff it owns a site. Each kept category keeps its count of copies, and the result is a subsequence of the list. |
| Home.GridContents | src/pages/Home.tsx:273-276 | The grid is sorted by visits. It holds exactly the active category's sites, or exactly the visited sites, each as often as in the list. |
| Home.RecentWithinGrid | src/pages/Home.tsx:126-132 | Every recent site appears in the default grid. |
| Home.GridHeading | src/pages/Home.tsx:267-270 | The heading is the first category with the active id, by name. It is 最近访问 when no category is active, none matches, or the name is empty. |
| Home.Search | src/pages/Home.tsx:109-123 | A blank query opens nothing and keeps the query. Otherwise the engine's template, or Google's for an unknown engine, is followed by the encoded query, and the box is cleared. |
| Home.TemplatesDiverge | src/pages/Home.tsx:113-118 | The four templates differ pairwise at some position. |
| Home.SearchIdentifiesEngine | src/pages/Home.tsx:113-121 | Two different listed engines never open the same URL, whatever the queries. |
| Home.UnknownEngineIsGoogle | src/pages/Home.tsx:120 | An engine the record lacks searches exactly as Google does. |
| Home.ApplyVisit | src/pages/Home.tsx:100-103 | The write sets the count of the rows with that id and nothing else. |
| Home.SiteClick | src/pages/Home.tsx:98-106 | The site's URL always opens. A visit write is issued iff a user is signed in, and it targets that site. |
| Home.GuestClickWritesNothing | src/pages/Home.tsx:99 | A guest's click leaves the table as it was. |
| Home.ClickCountsOnce | src/pages/Home.tsx:98-106 | One signed-in click raises that site's count by one and leaves every other row alone. |
| Home.RepeatedClicksCountOnce | src/pages/Home.tsx:102 | Two clicks on the same loaded site raise its count by one only. |
| Home.SiteClickRefreshing | src/pages/Home.tsx:98-106 | With the page's copy refreshed, the page list gets the same write as the table. |
| Home.ClickTimesCounts | src/pages/Home.tsx:98-106 | With the page refreshed, `n` signed-in clicks raise the count by `n` and leave every other site alone. |
| IconFallback.InitialSrc | src/pages/Home.tsx:285-291 | The first source is unavatar.io for the hostname, or for `localhost` when the URL does not parse. |
| IconFallback.EmojiText | src/pages/Home.tsx:332 | The emoji text is never empty, and it is the site's logo whenever the logo is non-empty. |
| IconFallback.UnparsableShowsEmoji | src/pages/Home.tsx:299-309 | An unparsable site URL shows the emoji after the first error. |
| IconFallback.UnavatarSrcMarks | src/pages/Home.tsx:285-291 | The unavatar source contains `unavatar.io`. |
| IconFallback.IconHorseSrcMarks | src/pages/Home.tsx:314-315 | The icon.horse source contains `icon.horse`, and `unavatar.io` only if the host does. |
| IconFallback.DirectSrcMarks | src/pages/Home.tsx:316-317 | The direct source contains `favicon.ico`, and an earlier service name only if the host does. |
| IconFallback.GoogleSrcMarks | src/pages/Home.tsx:318-319 | The Google source contains `google.com`, and an earlier service name only if the host does. |
| IconFallback.GoogleSrcNoFavicon | src/pages/Home.tsx:317-318 | When the host lacks `favicon.ico`, so does the Google source; it is never taken for the direct source. |
| IconFallback.FaviconKitSrcMarks | src/pages/Home.tsx:319-321 | The FaviconKit source contains a service name iff the hostname does. |
| IconFallback.ChainToFaviconKit | src/pages/Home.tsx:312-320 | For a hostname naming none of the first three services, the chain runs unavatar, icon.horse, /favicon.ico, Google and then FaviconKit. |
| IconFallback.MarkerFreeChain | src/pages/Home.tsx:312-328 | For a hostname naming no service, the emoji shows at the fifth error. |
| IconFallback.ChainEnds | src/pages/Home.tsx:295-330 | An unparsable URL, or a hostname naming no service, shows the emoji after at most five errors. |
| IconFallback.EmojiStays | src/pages/Home.tsx:321-328 | Once shown, the emoji stays. |
| IconFallback.GoogleHostNeverShowsEmoji | src/pages/Home.tsx:319-320 | A hostname holding `google.com` and no other service name gets FaviconKit again on every error from the fourth on; it never shows the emoji. |
| IconFallback.ByTierEnds | src/pages/Home.tsx:312 | The corrected chain shows the emoji after at most five errors, whatever the hostname. |
| IconFallback.ByTierSources | src/pages/Home.tsx:312-320 | The corrected chain tries the five sources in the documented order. |
| IconFallback.ByTierAgrees | src/pages/Home.tsx:295-330 | The corrected and the written chains agree on unparsable URLs and on hostnames that name no service. |
| IconFallback.ByTierEmojiStays | src/pages/Home.tsx:321-328 | In the corrected chain too, the emoji stays once shown. |
| IconFallback.GoogleHostByTier | src/pages/Home.tsx:312-330 | On a Google hostname the two chains part at the fifth error: the corrected one shows the emoji. |
| Cities.WellFiledByRows | src/lib/cities.ts:11-380 | A table whose every row is filed under its own key is well filed. |
| Cities.FlattenMembers | src/lib/cities.ts:399-400 | A city is among all cities iff some province lists it. |
| Cities.Provinces | src/lib/cities.ts:383-385 | The province names in declaration order, one per row. |
| Cities.CitiesByProvince | src/lib/cities.ts:388-390 | An unknown province gives []. A known one gives the list filed under the first key equal to it. |
| Cities.ProvincesRoundTrip | src/lib/cities.ts:383-390 | Each listed province maps back to its own cities. |
| Cities.CitiesByProvinceFiled | src/lib/cities.ts:388-390 | In a well-filed table, every city returned names the province asked for. |
| Cities.SearchCities | src/lib/cities.ts:393-408 | A blank query gives []. Otherwise the loops return exactly the reference filter of all cities, in table order, on "lowercased name contains the lowercased untrimmed query". |
| Cities.AppendMatches | src/lib/cities.ts:400-404 | One province's loop appends its matching cities in order. |
| Cities.SearchCitiesMembers | src/lib/cities.ts:393-408 | A city is a result iff the table lists it and its name matches. Each result appears as often as it is listed. |
| Cities.Find | src/lib/cities.ts:413 | `find` returns nothing iff no element matches; otherwise it returns the first match. |
| Cities.FindConcat | src/lib/cities.ts:412-415 | `find` on two lists joined is `find` on the first, else on the second. |
| Cities.FindInTableAt | src/lib/cities.ts:412-416 | The province loop stops at the first province with a match. |
| Cities.FindInTableIsFirst | src/lib/cities.ts:412-416 | The province-by-province search equals `find` over all cities in table order. |
| Cities.CityByCodeIsFirst | src/lib/cities.ts:411-417 | The result is the first city in table order with that code; it is nothing iff no city has the code. |
| Cities.CityByNameIsFirst | src/lib/cities.ts:420-426 | The result is the first city in table order with that exact name; it is nothing iff none has it. |
| ChinaCities.TableWellFiled | src/lib/cities.ts:11-380 | Every city of the 34-province table names the province it is filed under. |
| ChinaCities.SharedCodeFindsTangshan | src/lib/cities.ts:411-417 | 唐山 and 保定 share code 101090201, and the lookup by that code returns 唐山. |
| ServiceWorker.RouteOf | public/sw.js:30-74 | A `supabase.co` URL is bypassed before anything else, and an unparsable URL throws. HTML means navigate, an accept header with `text/html`, or document destination. Static means the extension list in any case, or one of the four destinations; only a static GET goes cache first. |
| ServiceWorker.BypassIgnoresRest | public/sw.js:32-34 | A backend URL is bypassed whatever the rest of the request says. |
| ServiceWorker.HtmlWinsOverStatic | public/sw.js:46-52 | An HTML request is never routed as a static asset. |
| ServiceWorker.NonGetStaticIsNetworkFirst | public/sw.js:54-74 | A non-GET static request goes network first. |
| ServiceWorker.StaticExtensionIgnoresCase | public/sw.js:43 | The extension test ignores letter case. |
| ServiceWorker.ExtensionMakesStatic | public/sw.js:43 | Every listed extension, including `woff` and `woff2`, makes a path static. |
| ServiceWorker.MatchIn | public/sw.js:49-73 | `caches.match` finds nothing iff no cache holds the URL. Otherwise it finds the entry of the first (oldest) cache that holds it. |
| ServiceWorker.Put | public/sw.js:62 | Storing into one cache leaves every other cache as it was. The named cache now maps the URL to the response; it is opened at the end when new. |
| ServiceWorker.Handle | public/sw.js:30-75 | A response is given iff the route is neither bypass nor a throw. Only a static GET can change the storage. A successful network reply is passed through on the network-first routes. |
| ServiceWorker.HtmlStrategy | public/sw.js:46-52 | HTML is network first, falls back to the cached `/index.html`, and is never stored. |
| ServiceWorker.StaticStrategy | public/sw.js:54-67 | A cache hit answers without the network. A miss fetches, and the response is stored in `nav-web-v2` exactly when it is ok. |
| ServiceWorker.OtherStrategy | public/sw.js:71-74 | Network first, falling back to any cached entry, and never stored. |
| ServiceWorker.Evict | public/sw.js:2-27 | A cache survives activation iff its name is `nav-web-v2`. |
| ServiceWorker.EvictIdempotent | public/sw.js:16-27 | Activating again deletes nothing more. |
| ServiceWorker.StoredAssetServedNext | public/sw.js:54-67 | After activation, a static asset stored on a miss is answered from the cache next time. |
| ServiceWorker.PutIntoCurrent | public/sw.js:62 | An entry put into the worker's only cache is what `caches.match` finds. |
| Sidebar.Icon | src/components/Sidebar.tsx:143 | A name with no emoji in U+1F300–U+1F9FF gives 📁. Otherwise the icon is the first such code point. |
| Sidebar.Strip | src/components/Sidebar.tsx:147 | The stripped name holds no emoji of the range. |
| Sidebar.StripMembers | src/components/Sidebar.tsx:147 | Stripping keeps exactly the characters outside the range. |
| Sidebar.StripNoEmoji | src/components/Sidebar.tsx:147 | A name without emoji is unchanged by stripping. |
| Sidebar.StripAppend | src/components/Sidebar.tsx:147 | Stripping distributes over concatenation. |
| Sidebar.LabelShape | src/components/Sidebar.tsx:147 | The label is empty iff the name is. It is either the name itself or a non-empty, emoji-free, trimmed piece of it. |
| Sidebar.EmojiThenText | src/components/Sidebar.tsx:143-147 | An emoji followed by plain text gives that emoji as icon and the trimmed text as label. |
| Sidebar.NonEmptyCategoriesMembers | src/components/Sidebar.tsx:47 | A category is kept iff it is present in the input. Each keeps its count of copies, the result is a subsequence of the input, and with no absent entries nothing is dropped. |
| Sidebar.CategoryClick | src/components/Sidebar.tsx:39-44 | The id is always forwarded first; `onClose` is called iff the screen is mobile. |
| Weather.Dispatch | src/lib/weather.ts:94-110 | qweather gets the city code, and openweather and seniverse get the city name. Any other provider fails with `Unsupported weather provider: <provider>`. |
| Weather.CacheKeyInjective | src/lib/weather.ts:122 | For providers without a hyphen, the key determines the provider and the city code. |
| Weather.ProvidersHaveNoHyphen | src/lib/weather.ts:116-117 | The three provider names contain no hyphen. |
| Weather.GetCached | src/lib/weather.ts:116-140 | A fresh entry is returned and the cache kept. Otherwise the provider's outcome is returned, and the cache is rewritten with the new reading and the later clock reading only on success. |
| Weather.HitIgnoresProvider | src/lib/weather.ts:126-128 | A hit calls no provider: the outcome is independent of the providers, the city name and the API key. |
| Weather.ExpiryIsStrict | src/lib/weather.ts:114-126 | An entry exactly 30 minutes old is stale; one a millisecond younger is fresh. |
| Weather.FailureKeepsCache | src/lib/weather.ts:131-137 | A failed fetch leaves the cache as it was. |
| Weather.StoredIsServed | src/lib/weather.ts:126-137 | A reading stored on a miss is served, without any provider, to the same provider and city code less than 30 minutes later. |
| Weather.Clear | src/lib/weather.ts:143-145 | After clearing, no key is present. |
| Weather.ClearedMisses | src/lib/weather.ts:130-145 | After clearing, the next call asks the provider. |
| Register.Utf16Length | src/pages/Register.tsx:22 | The length in UTF-16 code units lies between the number of characters and twice that. |
| Register.ThreeAstralCharactersAreLongEnough | src/pages/Register.tsx:22 | Three characters outside the Basic Multilingual Plane already pass the length check. |
| Register.NewUserSettings | src/pages/Register.tsx:43-53 | The new user's row holds the user id, the home defaults, and 北京市, 北京, 20°C and 晴. |
| Register.NewUserSettingsMatchHome | src/pages/Register.tsx:43-53 | The row differs from the home page's fallback settings only in the four location and weather columns. |
| Register.ErrorText | src/pages/Register.tsx:58 | The text is never empty. It is the error's message when that is non-empty, else 注册失败，请重试. |
| Register.Validate | src/pages/Register.tsx:22-30 | Passes iff the length is at least 6 and the two entries are equal. A short password reports the length error even when the entries also differ. |
| Register.Submit | src/pages/Register.tsx:17-62 | The error is always cleared first. |
| Register.RejectedMakesNoCall | src/pages/Register.tsx:22-30 | A rejected password shows its error and makes no sign-up call and no insert. |
| Register.AcceptedSignsUpOnce | src/pages/Register.tsx:32-61 | An accepted password signs up exactly once. After a successful sign-up with a user, exactly one default row is inserted and the page goes home. A sign-up error shows its message. |

## Left out

- JSX rendering, styling, the progress bar, dnd-kit sensors and contexts, and the admin tab components: they are layout with no logic beyond what is modelled.
- The database and authentication calls: they are parameters (replies, `ok` flags, returned rows). Sequential awaits, missing transactions and partial failures are not modelled. The insert error in `Register` is returned in its reply and not examined, and `signUp` comes from `AuthContext`, which is not part of this model.
- `handleSaveSettings` and the admin page's `loadData`: database writes and reads with no derived logic.
- `handleImportBookmarks`: the admin data tab receives it as a property, and its definition is not part of this model.
- `handleLogout` in Home.tsx: a sign-out call followed by navigation, with no logic of its own.
- WHATWG URL parsing, `DOMParser`, `JSON.parse`, `encodeURIComponent` and `arrayMove`: they are parameters or minimal definitions. `arrayMove` with a negative index is not modelled, because the drag handlers only see ids of the list.
- JavaScript `Map` keys are compared structurally; object keys compared by reference are not modelled. JSON numbers are integers; floating point is left out.
- Inputs that are not strings (the `typeof` guards of `isValidUrl` and `sanitizeText`): the model's inputs are typed text.
- Lower-casing is ASCII only. This is exact for hostnames and for the `/i` patterns. For non-ASCII city names, `searchCities` may differ from full Unicode case mapping.
- `Array.prototype.sort` is modelled as a stable insertion sort. The properties stated (permutation, visit order) hold for any correct comparison sort.
- Prototype keys such as `constructor` in `CHINA_CITIES[province] || []` are not modelled; any unknown name gives [].
- ChinaCities.TableWellFiled: distinct province keys are not proved, because an object literal with a duplicate key would be a compile error in the source language.
- The weather providers' HTTP calls, response field extraction and `Math.round` are a `Fetcher` parameter. `Date.now` is two clock parameters. The edge functions are left out.
- Home.DefaultSettings: the home page's default object has no location or weather columns; the model gives them as empty text.
- The service worker's `install` listener caches an empty asset list and is not modelled. `caches.match` looks only at the URL and the method; `Vary` and other request matching are left out. `'/index.html'` is resolved against an origin parameter.
- `self.skipWaiting`, `clients.claim` and `waitUntil` are left out: they are lifecycle plumbing.
- The `logger` and `cn` helpers of utils.ts, `MatrixRain`, `ThemeToggle`, `Login`, `ProtectedRoute`, routing, the edge functions and the build configuration are outside the core.
- Home.RecentSites: the source copies the list before sorting, so the input is never mutated; in a pure model that holds trivially and is not stated.
- BookmarkParser.ListRecord: in JavaScript a string entry's `link` is the inherited `String.prototype.link` method, so a string entry would get that function as its url. The model's values have no functions, so such a read is `undefined` and the url falls back to the empty text.
- Stale category ids on import: an imported site keeps the `category_id` of the backup, while the re-inserted categories get new ids from the database. The stale ids are copied as the source copies them; the model does not re-link sites to categories.
- Two clock readings on export: the file name reads the clock a second time, apart from the backup's `exportDate`. Each is a separate clock parameter, and the model does not promise that the two dates agree.

## Findings

| source | as written | input that shows it | evidently intended | confidence | as-written member | corrected member |
|---|---|---|---|---|---|---|
| src/lib/bookmarkParser.ts:151-182 | `hostname.includes(domain)` over the table in declaration order; `x.com` (entry 5) is a substring of `netflix.com` (entry 18). | `https://netflix.com` gives ❌ | `netflix.com` gives 🎬 | high, not executed | BookmarkIcons.NetflixUnreachable | BookmarkIcons.NetflixByLabel |
| src/pages/Home.tsx:313-320 | The next source is chosen by a substring of the current `src`. The FaviconKit source embeds the hostname, so a hostname holding `google.com` matches the Google branch again. | a site at `https://mail.google.com/` | the emoji after FaviconKit fails, as for any other host | high, not executed | IconFallback.GoogleHostNeverShowsEmoji | IconFallback.GoogleHostByTier |
| src/pages/Home.tsx:98-106 | The new count is the loaded `site.visits + 1`, and the page list is never refreshed. | two clicks on a site loaded with 3 visits write 4 twice | each click adds one visit | medium, not executed | Home.RepeatedClicksCountOnce | Home.ClickTimesCounts |
