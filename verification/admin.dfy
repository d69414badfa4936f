/** The data-management handlers of the admin page as pure state
    transitions. Each database call becomes a write the handler issues plus,
    where the handler reads the reply, a parameter carrying that reply. */
module Admin {
  import opened Wrappers
  import opened Strings
  import opened Seqs
  import opened JsValue
  import opened Entities

  /** The new-site form. */
  datatype SiteForm = SiteForm(name: string, url: string, logo: string)

  const EmptySiteForm := SiteForm("", "", "🔗")

  datatype AdminState = AdminState(
    categories: seq<Category>,
    sites: seq<Site>,
    newCategoryName: string,
    editingCategory: Option<Category>,
    newSite: SiteForm,
    editingSite: Option<Site>,
    selectedCategoryId: string)

  /** The database writes the handlers issue, in the order they issue them. */
  datatype Write =
    | InsertCategory(userId: string, name: string, orderIndex: int)
    | RenameCategory(id: string, name: string)
    | DeleteCategory(id: string)
    | SetCategoryOrder(id: string, orderIndex: int)
    | InsertSite(userId: string, categoryId: string, name: string, url: string, logo: string, visits: int, orderIndex: int)
    | EditSite(id: string, name: string, url: string, logo: string)
    | DeleteSite(id: string)
    | SetSiteOrder(id: string, orderIndex: int)

  datatype Step = Step(state: AdminState, writes: seq<Write>)

  function NotInCategory(id: string): Site -> bool {
    (s: Site) => s.categoryId != id
  }

  function CategoryIsNot(id: string): Category -> bool {
    (c: Category) => c.id != id
  }

  function SiteIsNot(id: string): Site -> bool {
    (s: Site) => s.id != id
  }

  // ---------------------------------------------------------------------------
  // Categories

  /** `handleAddCategory`: a blank name or no user does nothing. Otherwise the
      category is inserted (the name as typed, untrimmed) at position
      `categories.length`; the row the database returns is appended and the
      input cleared. A failed insert changes nothing. */
  function AddCategory(st: AdminState, user: Option<string>, reply: Result<Category>): (r: Step)
    ensures Trim(st.newCategoryName) == "" || user.None? ==> r == Step(st, [])
    ensures Trim(st.newCategoryName) != "" && user.Some? ==>
              && r.writes == [InsertCategory(user.value, st.newCategoryName, |st.categories|)]
              && (reply.Failure? ==> r.state == st)
              && (reply.Success? ==>
                    r.state.categories == st.categories + [reply.value] && r.state.newCategoryName == "" && r.state.sites == st.sites)
  {
    if Trim(st.newCategoryName) == "" || user.None? then Step(st, [])
    else
      var w := [InsertCategory(user.value, st.newCategoryName, |st.categories|)];
      match reply
      case Failure(_) => Step(st, w)
      case Success(row) => Step(st.(categories := st.categories + [row], newCategoryName := ""), w)
  }

  /** Every element with the id of `e` replaced by `e`, the rest kept in place. */
  function ReplaceById<T>(id: T -> string, xs: seq<T>, e: T): (r: seq<T>)
    ensures |r| == |xs|
    ensures forall i :: 0 <= i < |xs| ==> r[i] == if id(xs[i]) == id(e) then e else xs[i]
  {
    seq(|xs|, i requires 0 <= i < |xs| => if id(xs[i]) == id(e) then e else xs[i])
  }

  /** `handleUpdateCategory`: rename in the database, then replace the entry
      with the same id in place and leave edit mode. */
  function UpdateCategory(st: AdminState, user: Option<string>, ok: bool): (r: Step)
    ensures st.editingCategory.None? || user.None? ==> r == Step(st, [])
    ensures st.editingCategory.Some? && user.Some? ==>
              r.writes == [RenameCategory(st.editingCategory.value.id, st.editingCategory.value.name)]
    ensures st.editingCategory.Some? && user.Some? && ok ==>
              r.state == st.(categories := ReplaceById(CategoryId, st.categories, st.editingCategory.value),
                             editingCategory := None)
    ensures !ok ==> r.state == st
  {
    if st.editingCategory.None? || user.None? then Step(st, [])
    else
      var e := st.editingCategory.value;
      var w := [RenameCategory(e.id, e.name)];
      if !ok then Step(st, w)
      else Step(st.(categories := ReplaceById(CategoryId, st.categories, e), editingCategory := None), w)
  }

  /** `handleDeleteCategory`: after confirmation, delete the category and drop
      it and every site filed under it from the lists. */
  function DeleteCategoryStep(st: AdminState, id: string, confirmed: bool, ok: bool): (r: Step)
    ensures !confirmed ==> r == Step(st, [])
    ensures confirmed ==> r.writes == [DeleteCategory(id)]
    ensures confirmed && !ok ==> r.state == st
  {
    if !confirmed then Step(st, [])
    else if !ok then Step(st, [DeleteCategory(id)])
    else Step(st.(categories := Filter(CategoryIsNot(id), st.categories),
                  sites := Filter(NotInCategory(id), st.sites)), [DeleteCategory(id)])
  }

  /** The delete cascades exactly: a category survives iff it is not the
      deleted one, a site survives iff it is not filed under it, each
      survivor as often as before, and both lists keep their order. */
  lemma DeleteCategoryCascades(st: AdminState, id: string)
    ensures var r := DeleteCategoryStep(st, id, true, true).state;
            && (forall c :: c in r.categories <==> c in st.categories && c.id != id)
            && (forall s :: s in r.sites <==> s in st.sites && s.categoryId != id)
            && (forall c :: multiset(r.categories)[c] == if c.id != id then multiset(st.categories)[c] else 0)
            && (forall s :: multiset(r.sites)[s] == if s.categoryId != id then multiset(st.sites)[s] else 0)
            && IsSubsequence(r.categories, st.categories)
            && IsSubsequence(r.sites, st.sites)
  {
    FilterMembers(CategoryIsNot(id), st.categories);
    FilterMembers(NotInCategory(id), st.sites);
    FilterKeepsOrder(CategoryIsNot(id), st.categories);
    FilterKeepsOrder(NotInCategory(id), st.sites);
  }

  /** The writes that store positions 0..n-1 for a reordered list. */
  function OrderWrites<T>(xs: seq<T>, id: T -> string, mk: (string, int) -> Write): (ws: seq<Write>)
    ensures |ws| == |xs|
    ensures forall i :: 0 <= i < |xs| ==> ws[i] == mk(id(xs[i]), i)
  {
    seq(|xs|, i requires 0 <= i < |xs| => mk(id(xs[i]), i))
  }

  function MkCategoryOrder(id: string, i: int): Write { SetCategoryOrder(id, i) }
  function MkSiteOrder(id: string, i: int): Write { SetSiteOrder(id, i) }

  /** `handleDragEndCategories`: no drop target or a drop onto itself does
      nothing; otherwise the dragged category moves to the target's position
      and every position is written back densely. The in-memory rows keep
      their old `order_index`. The dragged and target ids are ids of the list
      (the sortable context is built from them). */
  function DragEndCategories(st: AdminState, active: string, over: Option<string>): (r: Step)
    requires over.Some? ==> active in Keys(CategoryId, st.categories) && over.value in Keys(CategoryId, st.categories)
    ensures over.None? || over.value == active ==> r == Step(st, [])
    ensures over.Some? && over.value != active ==>
              && |r.state.categories| == |st.categories|
              && multiset(r.state.categories) == multiset(st.categories)
              && r.state.categories[FindIndex(CategoryId, st.categories, over.value)] ==
                 st.categories[FindIndex(CategoryId, st.categories, active)]
              && |r.writes| == |st.categories|
              && (forall i :: 0 <= i < |r.writes| ==> r.writes[i] == SetCategoryOrder(r.state.categories[i].id, i))
              && r.state.sites == st.sites
  {
    if over.None? || over.value == active then Step(st, [])
    else
      KeysFind(CategoryId, st.categories, active);
      KeysFind(CategoryId, st.categories, over.value);
      ReorderCategories(st, FindIndex(CategoryId, st.categories, active), FindIndex(CategoryId, st.categories, over.value))
  }

  /** The category at `from` moves to `to`, and every position is written. */
  function ReorderCategories(st: AdminState, from: nat, to: nat): (r: Step)
    requires from < |st.categories| && to < |st.categories|
    ensures |r.state.categories| == |st.categories|
    ensures multiset(r.state.categories) == multiset(st.categories)
    ensures r.state.categories[to] == st.categories[from]
    ensures |r.writes| == |st.categories|
    ensures forall i :: 0 <= i < |r.writes| ==> r.writes[i] == SetCategoryOrder(r.state.categories[i].id, i)
    ensures r.state.sites == st.sites
  {
    var moved := Move(st.categories, from, to);
    Step(st.(categories := moved), OrderWrites(moved, CategoryId, MkCategoryOrder))
  }

  /** The ids of a list, in order. */
  function Keys<T>(id: T -> string, xs: seq<T>): (ks: seq<string>)
    ensures |ks| == |xs|
    ensures forall i :: 0 <= i < |xs| ==> ks[i] == id(xs[i])
  {
    seq(|xs|, i requires 0 <= i < |xs| => id(xs[i]))
  }

  lemma KeysFind<T>(id: T -> string, xs: seq<T>, k: string)
    requires k in Keys(id, xs)
    ensures 0 <= FindIndex(id, xs, k)
  {
    var ks := Keys(id, xs);
    var j :| 0 <= j < |ks| && ks[j] == k;
    assert id(xs[j]) == k;
  }

  // ---------------------------------------------------------------------------
  // Sites

  /** `handleAddSite`: name and URL must be non-blank and a category and a
      user present. The site is inserted as typed with no visits, at the
      position after the sites already in its category; the returned row is
      appended and the form reset. */
  function AddSite(st: AdminState, user: Option<string>, reply: Result<Site>): (r: Step)
    ensures Trim(st.newSite.name) == "" || Trim(st.newSite.url) == "" || st.selectedCategoryId == "" || user.None? ==>
              r == Step(st, [])
    ensures Trim(st.newSite.name) != "" && Trim(st.newSite.url) != "" && st.selectedCategoryId != "" && user.Some? ==>
              && r.writes == [InsertSite(user.value, st.selectedCategoryId, st.newSite.name, st.newSite.url, st.newSite.logo, 0,
                                         |Filter(InCategory(st.selectedCategoryId), st.sites)|)]
              && (reply.Failure? ==> r.state == st)
              && (reply.Success? ==>
                    r.state.sites == st.sites + [reply.value] && r.state.newSite == EmptySiteForm && r.state.categories == st.categories)
  {
    if Trim(st.newSite.name) == "" || Trim(st.newSite.url) == "" || st.selectedCategoryId == "" || user.None? then Step(st, [])
    else
      var f := st.newSite;
      var position := |Filter(InCategory(st.selectedCategoryId), st.sites)|;
      var w := [InsertSite(user.value, st.selectedCategoryId, f.name, f.url, f.logo, 0, position)];
      match reply
      case Failure(_) => Step(st, w)
      case Success(row) => Step(st.(sites := st.sites + [row], newSite := EmptySiteForm), w)
  }

  /** `handleUpdateSite`: write name, URL and logo, then replace the entry
      with the same id in place and leave edit mode. */
  function UpdateSite(st: AdminState, user: Option<string>, ok: bool): (r: Step)
    ensures st.editingSite.None? || user.None? ==> r == Step(st, [])
    ensures st.editingSite.Some? && user.Some? ==>
              var e := st.editingSite.value;
              r.writes == [EditSite(e.id, e.name, e.url, e.logo)]
    ensures st.editingSite.Some? && user.Some? && ok ==>
              r.state == st.(sites := ReplaceById(SiteId, st.sites, st.editingSite.value), editingSite := None)
    ensures !ok ==> r.state == st
  {
    if st.editingSite.None? || user.None? then Step(st, [])
    else
      var e := st.editingSite.value;
      var w := [EditSite(e.id, e.name, e.url, e.logo)];
      if !ok then Step(st, w)
      else Step(st.(sites := ReplaceById(SiteId, st.sites, e), editingSite := None), w)
  }

  /** `handleDeleteSite`: after confirmation, delete the site and drop it
      from the list. */
  function DeleteSiteStep(st: AdminState, id: string, confirmed: bool, ok: bool): (r: Step)
    ensures !confirmed ==> r == Step(st, [])
    ensures confirmed ==> r.writes == [DeleteSite(id)]
    ensures confirmed && !ok ==> r.state == st
    ensures confirmed && ok ==> r.state.categories == st.categories
  {
    if !confirmed then Step(st, [])
    else if !ok then Step(st, [DeleteSite(id)])
    else Step(st.(sites := Filter(SiteIsNot(id), st.sites)), [DeleteSite(id)])
  }

  /** Deleting a site drops exactly the sites with that id; every other site
      stays, as often as before and in its order. */
  lemma DeleteSiteExact(st: AdminState, id: string)
    ensures var r := DeleteSiteStep(st, id, true, true).state;
            && (forall s :: s in r.sites <==> s in st.sites && s.id != id)
            && (forall s :: multiset(r.sites)[s] == if s.id != id then multiset(st.sites)[s] else 0)
            && IsSubsequence(r.sites, st.sites)
  {
    FilterMembers(SiteIsNot(id), st.sites);
    FilterKeepsOrder(SiteIsNot(id), st.sites);
  }

  /** `handleDragEndSites`: reorder within the selected category; the list
      becomes the other categories' sites followed by the reordered ones,
      and the reordered sites get positions 0..k-1 in the database. */
  function DragEndSites(st: AdminState, active: string, over: Option<string>): (r: Step)
    requires over.Some? ==>
               var own := Filter(InCategory(st.selectedCategoryId), st.sites);
               active in Keys(SiteId, own) && over.value in Keys(SiteId, own)
    ensures over.None? || over.value == active ==> r == Step(st, [])
  {
    if over.None? || over.value == active then Step(st, [])
    else
      var own := Filter(InCategory(st.selectedCategoryId), st.sites);
      var from := FindIndex(SiteId, own, active);
      var to := FindIndex(SiteId, own, over.value);
      KeysFind(SiteId, own, active);
      KeysFind(SiteId, own, over.value);
      var moved := Move(own, from, to);
      var others := Filter(NotInCategory(st.selectedCategoryId), st.sites);
      Step(st.(sites := others + moved), OrderWrites(moved, SiteId, MkSiteOrder))
  }

  /** The dragged list: the other categories' sites, in their old order,
      followed by the selected category's sites with one moved. */
  function DraggedSites(st: AdminState, active: string, over: string): seq<Site>
    requires var own := Filter(InCategory(st.selectedCategoryId), st.sites);
             active in Keys(SiteId, own) && over in Keys(SiteId, own)
  {
    var own := Filter(InCategory(st.selectedCategoryId), st.sites);
    KeysFind(SiteId, own, active);
    KeysFind(SiteId, own, over);
    Filter(NotInCategory(st.selectedCategoryId), st.sites) +
      Move(own, FindIndex(SiteId, own, active), FindIndex(SiteId, own, over))
  }

  lemma DragEndSitesIsDragged(st: AdminState, active: string, over: string)
    requires over != active
    requires var own := Filter(InCategory(st.selectedCategoryId), st.sites);
             active in Keys(SiteId, own) && over in Keys(SiteId, own)
    ensures var r := DragEndSites(st, active, Some(over));
            var others := Filter(NotInCategory(st.selectedCategoryId), st.sites);
            && r.state == st.(sites := DraggedSites(st, active, over))
            && r.writes == OrderWrites(DraggedSites(st, active, over)[|others|..], SiteId, MkSiteOrder)
  {
    var others := Filter(NotInCategory(st.selectedCategoryId), st.sites);
    var own := Filter(InCategory(st.selectedCategoryId), st.sites);
    KeysFind(SiteId, own, active);
    KeysFind(SiteId, own, over);
    var moved := Move(own, FindIndex(SiteId, own, active), FindIndex(SiteId, own, over));
    assert (others + moved)[|others|..] == moved;
  }

  /** Dragging sites keeps every site exactly once, puts the other
      categories' sites first in their old order, and leaves only the
      selected category's sites after them, the dragged site at the place
      the target site held within the category. */
  lemma DragEndSitesShape(st: AdminState, active: string, over: string)
    requires over != active
    requires var own := Filter(InCategory(st.selectedCategoryId), st.sites);
             active in Keys(SiteId, own) && over in Keys(SiteId, own)
    ensures var r := DragEndSites(st, active, Some(over));
            var others := Filter(NotInCategory(st.selectedCategoryId), st.sites);
            var own := Filter(InCategory(st.selectedCategoryId), st.sites);
            && multiset(r.state.sites) == multiset(st.sites)
            && |r.state.sites| == |others| + |own|
            && r.state.sites[..|others|] == others
            && multiset(r.state.sites[|others|..]) == multiset(own)
            && (forall i :: |others| <= i < |r.state.sites| ==> r.state.sites[i].categoryId == st.selectedCategoryId)
            && 0 <= FindIndex(SiteId, own, active) && 0 <= FindIndex(SiteId, own, over)
            && r.state.sites[|others| + FindIndex(SiteId, own, over)] == own[FindIndex(SiteId, own, active)]
  {
    var sel := st.selectedCategoryId;
    var others := Filter(NotInCategory(sel), st.sites);
    var own := Filter(InCategory(sel), st.sites);
    KeysFind(SiteId, own, active);
    KeysFind(SiteId, own, over);
    var to := FindIndex(SiteId, own, over);
    var moved := Move(own, FindIndex(SiteId, own, active), to);
    DragEndSitesIsDragged(st, active, over);
    assert DraggedSites(st, active, over) == others + moved;
    SitePartition(sel, st.sites);
    FilterMembers(InCategory(sel), st.sites);
    AppendShape(others, moved, own, st.sites, sel);
    assert (others + moved)[|others| + to] == moved[to];
  }

  /** Apart from the dragged site, the selected category's sites keep their
      relative order. */
  lemma DragEndSitesKeepsOrder(st: AdminState, active: string, over: string)
    requires over != active
    requires var own := Filter(InCategory(st.selectedCategoryId), st.sites);
             active in Keys(SiteId, own) && over in Keys(SiteId, own)
    ensures var r := DragEndSites(st, active, Some(over));
            var others := Filter(NotInCategory(st.selectedCategoryId), st.sites);
            var own := Filter(InCategory(st.selectedCategoryId), st.sites);
            var from, to := FindIndex(SiteId, own, active), FindIndex(SiteId, own, over);
            && 0 <= from && 0 <= to && |r.state.sites| == |others| + |own|
            && KeepsOthersInOrder(r.state.sites, |others|, own, from, to)
  {
    var sel := st.selectedCategoryId;
    var others := Filter(NotInCategory(sel), st.sites);
    var own := Filter(InCategory(sel), st.sites);
    KeysFind(SiteId, own, active);
    KeysFind(SiteId, own, over);
    var from, to := FindIndex(SiteId, own, active), FindIndex(SiteId, own, over);
    var sites := DragEndSites(st, active, Some(over)).state.sites;
    var d := others + Move(own, from, to);
    assert sites == d by {
      DragEndSitesIsDragged(st, active, over);
    }
    MovedTail(others, own, from, to);
    assert |sites| == |others| + |own|;
    assert KeepsOthersInOrder(sites, |others|, own, from, to);
  }

  /** From position `base` on, `sites` holds `own` with the element at
      `from` taken out and put at `to`, the others in their order. */
  predicate KeepsOthersInOrder(sites: seq<Site>, base: nat, own: seq<Site>, from: nat, to: nat)
    requires from < |own| && to < |own| && |sites| == base + |own|
  {
    sites[base..base + to] + sites[base + to + 1..] == own[..from] + own[from + 1..]
  }

  /** After a list `others`, a moved list keeps its other elements in order. */
  lemma MovedTail<T>(others: seq<T>, own: seq<T>, from: nat, to: nat)
    requires from < |own| && to < |own|
    ensures var d := others + Move(own, from, to);
            && |d| == |others| + |own|
            && d[|others|..|others| + to] + d[|others| + to + 1..] == own[..from] + own[from + 1..]
  {
    var moved := Move(own, from, to);
    MoveKeepsOthers(own, from, to);
    assert (others + moved)[|others|..|others| + to] == moved[..to];
    assert (others + moved)[|others| + to + 1..] == moved[to + 1..];
  }

  /** Dragging sites writes dense positions 0..k-1 for the selected
      category's sites, in their new order, and for no other site. */
  lemma DragEndSitesWrites(st: AdminState, active: string, over: string)
    requires over != active
    requires var own := Filter(InCategory(st.selectedCategoryId), st.sites);
             active in Keys(SiteId, own) && over in Keys(SiteId, own)
    ensures var r := DragEndSites(st, active, Some(over));
            var others := Filter(NotInCategory(st.selectedCategoryId), st.sites);
            var own := Filter(InCategory(st.selectedCategoryId), st.sites);
            && |r.writes| == |own|
            && (forall i :: 0 <= i < |own| ==> r.writes[i] == SetSiteOrder(r.state.sites[|others| + i].id, i))
  {
    var sel := st.selectedCategoryId;
    var others := Filter(NotInCategory(sel), st.sites);
    var own := Filter(InCategory(sel), st.sites);
    var r := DragEndSites(st, active, Some(over));
    var d := DraggedSites(st, active, over);
    assert |d| == |others| + |own| && r.state.sites == d && r.writes == OrderWrites(d[|others|..], SiteId, MkSiteOrder) by {
      KeysFind(SiteId, own, active);
      KeysFind(SiteId, own, over);
      var moved := Move(own, FindIndex(SiteId, own, active), FindIndex(SiteId, own, over));
      DragEndSitesIsDragged(st, active, over);
      assert d == others + moved;
    }
    TailWrites(d, |others|);
  }

  /** The dense positions written for the tail of `d` from index `k` on. */
  lemma TailWrites(d: seq<Site>, k: nat)
    requires k <= |d|
    ensures |OrderWrites(d[k..], SiteId, MkSiteOrder)| == |d| - k
    ensures forall i :: 0 <= i < |d| - k ==> OrderWrites(d[k..], SiteId, MkSiteOrder)[i] == SetSiteOrder(d[k + i].id, i)
  {
  }

  lemma AppendShape(others: seq<Site>, moved: seq<Site>, own: seq<Site>, all: seq<Site>, sel: string)
    requires multiset(others) + multiset(own) == multiset(all)
    requires multiset(moved) == multiset(own)
    requires forall x :: x in own ==> x.categoryId == sel
    ensures multiset(others + moved) == multiset(all)
    ensures (others + moved)[..|others|] == others
    ensures (others + moved)[|others|..] == moved
    ensures forall i :: |others| <= i < |others + moved| ==> (others + moved)[i].categoryId == sel
  {
    assert (others + moved)[..|others|] == others;
    assert (others + moved)[|others|..] == moved;
    forall i | |others| <= i < |others + moved|
      ensures (others + moved)[i].categoryId == sel
    {
      var x := moved[i - |others|];
      assert x in multiset(moved);
      assert x in own;
    }
  }

  /** Splitting the sites by "in the category" and "not in it" keeps each once. */
  lemma SitePartition(sel: string, sites: seq<Site>)
    ensures multiset(Filter(NotInCategory(sel), sites)) + multiset(Filter(InCategory(sel), sites)) == multiset(sites)
  {
    FilterPartition(InCategory(sel), NotInCategory(sel), sites);
  }

  // ---------------------------------------------------------------------------
  // Export

  function CategoryValue(c: Category): Value {
    Obj([("id", Str(c.id)), ("user_id", Str(c.userId)), ("name", Str(c.name)),
         ("order_index", Num(c.orderIndex)), ("created_at", Str(c.createdAt))])
  }

  function SiteValue(s: Site): Value {
    Obj([("id", Str(s.id)), ("category_id", Str(s.categoryId)), ("user_id", Str(s.userId)),
         ("name", Str(s.name)), ("url", Str(s.url)), ("logo", Str(s.logo)),
         ("visits", Num(s.visits)), ("order_index", Num(s.orderIndex)), ("created_at", Str(s.createdAt))])
  }

  function SettingsValue(s: Settings): Value {
    Obj([("id", Str(s.id)), ("user_id", Str(s.userId)), ("site_title", Str(s.siteTitle)),
         ("logo_type", Str(s.logoType)), ("logo_content", Str(s.logoContent)),
         ("default_search_engine", Str(s.defaultSearchEngine)), ("province", Str(s.province)),
         ("city", Str(s.city)), ("temperature", Str(s.temperature)),
         ("weather_condition", Str(s.weatherCondition)), ("created_at", Str(s.createdAt)),
         ("updated_at", Str(s.updatedAt))])
  }

  const ExportVersion := "1.0"

  /** `handleExportData`: the backup document, with the moment of export as
      an ISO timestamp. */
  function ExportDocument(categories: seq<Category>, sites: seq<Site>, settings: Option<Settings>, now: string): (v: Value)
    ensures v.Obj? && |v.fields| == 5
    ensures Keys(FieldName, v.fields) == ["categories", "sites", "settings", "exportDate", "version"]
    ensures Prop(v, "exportDate") == Str(now) && Prop(v, "version") == Str("1.0")
  {
    var d := Obj([("categories", Arr(seq(|categories|, i requires 0 <= i < |categories| => CategoryValue(categories[i])))),
                  ("sites", Arr(seq(|sites|, i requires 0 <= i < |sites| => SiteValue(sites[i])))),
                  ("settings", if settings.Some? then SettingsValue(settings.value) else Null),
                  ("exportDate", Str(now)),
                  ("version", Str(ExportVersion))]);
    assert Keys(FieldName, d.fields) == ["categories", "sites", "settings", "exportDate", "version"];
    FieldAt(d.fields, "exportDate", 3);
    FieldAt(d.fields, "version", 4);
    d
  }

  function FieldName(f: (string, Value)): string { f.0 }

  /** `iso.split('T')[0]`: the text before the first `T`. */
  function DatePart(iso: string): (r: string)
    ensures IsPrefix(r, iso)
    ensures 'T' !in r
    ensures |r| < |iso| ==> iso[|r|] == 'T'
  {
    if iso == [] then []
    else if iso[0] == 'T' then []
    else
      var rest := DatePart(iso[1..]);
      assert [iso[0]] + rest == iso[..|rest| + 1];
      [iso[0]] + rest
  }

  /** The download name of the backup. */
  function ExportFileName(now: string): (r: string)
    ensures IsPrefix("navigation-data-", r) && IsSuffix(".json", r)
    ensures |r| == 21 + |DatePart(now)| && r[16..|r| - 5] == DatePart(now)
  {
    var r := "navigation-data-" + DatePart(now) + ".json";
    assert r[..16] == "navigation-data-";
    assert r[|r| - 5..] == ".json";
    assert r[16..|r| - 5] == DatePart(now);
    r
  }

  /** A concrete timestamp gives the file name of its day. */
  lemma ExportFileNameExample(now: string)
    requires now == "2024-05-01T08:30:00.000Z"
    ensures ExportFileName(now) == "navigation-data-2024-05-01.json"
  {
    ExampleDate(now, "2024-05-01");
    FileNameOf(now, "2024-05-01");
  }

  lemma ExampleDate(now: string, day: string)
    requires now == "2024-05-01T08:30:00.000Z" && day == "2024-05-01"
    ensures DatePart(now) == day
  {
    DatePartAt(now, 10);
    assert now[..10] == day;
  }

  lemma FileNameOf(now: string, day: string)
    requires DatePart(now) == day
    ensures ExportFileName(now) == "navigation-data-" + day + ".json"
  {
  }

  lemma {:induction false} DatePartAt(iso: string, k: nat)
    requires k < |iso| && iso[k] == 'T' && forall i :: 0 <= i < k ==> iso[i] != 'T'
    ensures DatePart(iso) == iso[..k]
    decreases k
  {
    if k > 0 {
      DatePartAt(iso[1..], k - 1);
      assert [iso[0]] + iso[1..][..k - 1] == iso[..k];
    }
  }

  // ---------------------------------------------------------------------------
  // Import

  /** The writes of `handleImportData`, whose values come straight out of the
      parsed file. */
  datatype ImportWrite =
    | ClearSites(userId: string)
    | ClearCategories(userId: string)
    | AddCategoryRow(userId: string, name: Value, orderIndex: Value)
    | AddSiteRow(userId: string, categoryId: Value, name: Value, url: Value, logo: Value, visits: Value, orderIndex: Value)
    | UpdateSettingsRow(userId: string, fields: seq<(string, Value)>)

  /** The writes issued and whether the import reached its success message;
      writes issued before an exception stay issued. */
  datatype Trace = Trace(writes: seq<ImportWrite>, ok: bool)

  /** A `for ... of` loop whose body issues one write per element and throws
      when `row` fails. */
  function ForEach(row: Value -> Result<ImportWrite>, xs: seq<Value>): (t: Trace)
    ensures forall i :: 0 <= i < |t.writes| ==> i < |xs| && row(xs[i]) == Success(t.writes[i])
    ensures t.ok ==> |t.writes| == |xs|
    ensures !t.ok ==> |t.writes| < |xs| && row(xs[|t.writes|]).Failure?
    ensures t.ok <==> forall i :: 0 <= i < |xs| ==> row(xs[i]).Success?
  {
    if xs == [] then Trace([], true)
    else
      match row(xs[0])
      case Failure(_) => Trace([], false)
      case Success(w) =>
        var t := ForEach(row, xs[1..]);
        assert forall i :: 1 <= i < |xs| ==> xs[i] == xs[1..][i - 1];
        Trace([w] + t.writes, t.ok)
  }

  /** The insert for one category of the file: its name and position copied
      as they are, for the importing user; a null entry throws. */
  function CategoryRow(user: string, cat: Value): (r: Result<ImportWrite>)
    ensures r.Failure? <==> Nullish(cat)
    ensures r.Success? ==> r.value.AddCategoryRow? && r.value.userId == user
    ensures r.Success? ==> r.value.name == Prop(cat, "name") && r.value.orderIndex == Prop(cat, "order_index")
  {
    if Nullish(cat) then Failure(TypeError)
    else Success(AddCategoryRow(user, Prop(cat, "name"), Prop(cat, "order_index")))
  }

  /** The insert for one site of the file: every column copied as it is,
      except that a falsy visit count becomes 0; a null entry throws. */
  function SiteRow(user: string, site: Value): (r: Result<ImportWrite>)
    ensures r.Failure? <==> Nullish(site)
    ensures r.Success? ==> r.value.AddSiteRow? && (Truthy(r.value.visits) || r.value.visits == Num(0))
    ensures r.Success? ==> r.value.userId == user && r.value.categoryId == Prop(site, "category_id")
    ensures r.Success? ==> r.value.name == Prop(site, "name") && r.value.url == Prop(site, "url")
    ensures r.Success? ==> r.value.logo == Prop(site, "logo") && r.value.orderIndex == Prop(site, "order_index")
    ensures r.Success? && Truthy(Prop(site, "visits")) ==> r.value.visits == Prop(site, "visits")
    ensures r.Success? && !Truthy(Prop(site, "visits")) ==> r.value.visits == Num(0)
  {
    if Nullish(site) then Failure(TypeError)
    else Success(AddSiteRow(user, Prop(site, "category_id"), Prop(site, "name"), Prop(site, "url"),
                            Prop(site, "logo"), Or(Prop(site, "visits"), Num(0)), Prop(site, "order_index")))
  }

  const SettingsKeys := ["site_title", "logo_content", "city", "temperature", "weather_condition", "default_search_engine"]

  /** The settings columns an import overwrites, read from the file. */
  function SettingsFields(s: Value): (fs: seq<(string, Value)>)
    requires !Nullish(s)
    ensures |fs| == |SettingsKeys|
    ensures forall i :: 0 <= i < |fs| ==> fs[i] == (SettingsKeys[i], Prop(s, SettingsKeys[i]))
  {
    seq(|SettingsKeys|, i requires 0 <= i < |SettingsKeys| => (SettingsKeys[i], Prop(s, SettingsKeys[i])))
  }

  /** One guarded import loop: a falsy list is skipped, otherwise each of its
      elements is inserted in turn. */
  function ImportList(data: Value, key: string, row: Value -> Result<ImportWrite>): (t: Trace)
    requires !Nullish(data)
    ensures !Truthy(Prop(data, key)) ==> t == Trace([], true)
  {
    var v := Prop(data, key);
    if !Truthy(v) then Trace([], true)
    else
      match Iterate(v)
      case Failure(_) => Trace([], false)
      case Success(xs) => ForEach(row, xs)
  }

  /** `handleImportData`: `data` is the outcome of `JSON.parse` (`None` when
      it throws). `None` from the handler means it returned before doing
      anything (no file, no user, or not confirmed). Existing sites and
      categories are deleted before the file's contents are read. */
  function ImportData(user: Option<string>, confirmed: bool, data: Option<Value>): (r: Option<Trace>)
    ensures user.None? || !confirmed ==> r.None?
    ensures user.Some? && confirmed && data.None? ==> r == Some(Trace([], false))
    ensures user.Some? && confirmed && data.Some? ==>
              r.Some? && |r.value.writes| >= 2 &&
              r.value.writes[..2] == [ClearSites(user.value), ClearCategories(user.value)]
    ensures user.Some? && confirmed && data.Some? && Nullish(data.value) ==>
              r == Some(Trace([ClearSites(user.value), ClearCategories(user.value)], false))
  {
    if user.None? || !confirmed then None
    else
      var u := user.value;
      var clear := [ClearSites(u), ClearCategories(u)];
      match data
      case None => Some(Trace([], false))
      case Some(d) =>
        if Nullish(d) then Some(Trace(clear, false))
        else
          var cats := ImportList(d, "categories", CategoryRows(u));
          if !cats.ok then Some(Trace(clear + cats.writes, false))
          else
            var sites := ImportList(d, "sites", SiteRows(u));
            if !sites.ok then Some(Trace(clear + cats.writes + sites.writes, false))
            else
              var settings := Prop(d, "settings");
              var last := if Truthy(settings) then [UpdateSettingsRow(u, SettingsFields(settings))] else [];
              Some(Trace(clear + cats.writes + sites.writes + last, true))
  }

  /** The row functions of the two import loops. */
  function CategoryRows(user: string): Value -> Result<ImportWrite> {
    v => CategoryRow(user, v)
  }

  function SiteRows(user: string): Value -> Result<ImportWrite> {
    v => SiteRow(user, v)
  }

  /** A loop over elements that all produce their rows completes and issues
      exactly those rows. */
  lemma {:induction false} ForEachAll(row: Value -> Result<ImportWrite>, xs: seq<Value>, ws: seq<ImportWrite>)
    requires |xs| == |ws|
    requires forall i :: 0 <= i < |xs| ==> row(xs[i]) == Success(ws[i])
    ensures ForEach(row, xs) == Trace(ws, true)
  {
    if xs != [] {
      assert row(xs[0]) == Success(ws[0]);
      forall i | 0 <= i < |xs| - 1
        ensures row(xs[1..][i]) == Success(ws[1..][i])
      {
        assert xs[1..][i] == xs[i + 1];
      }
      ForEachAll(row, xs[1..], ws[1..]);
      assert ForEach(row, xs) == Trace([ws[0]] + ws[1..], true);
      assert [ws[0]] + ws[1..] == ws;
    }
  }

  /** The import rows a backup of these categories, sites and settings
      should produce. */
  function CategoryImportRow(user: string, c: Category): ImportWrite {
    AddCategoryRow(user, Str(c.name), Num(c.orderIndex))
  }

  function SiteImportRow(user: string, s: Site): ImportWrite {
    AddSiteRow(user, Str(s.categoryId), Str(s.name), Str(s.url), Str(s.logo), Num(s.visits), Num(s.orderIndex))
  }

  function SettingsImportRow(user: string, s: Settings): ImportWrite {
    UpdateSettingsRow(user, [("site_title", Str(s.siteTitle)), ("logo_content", Str(s.logoContent)),
                             ("city", Str(s.city)), ("temperature", Str(s.temperature)),
                             ("weather_condition", Str(s.weatherCondition)),
                             ("default_search_engine", Str(s.defaultSearchEngine))])
  }

  function CategoryImportRows(user: string, categories: seq<Category>): seq<ImportWrite> {
    seq(|categories|, i requires 0 <= i < |categories| => CategoryImportRow(user, categories[i]))
  }

  function SiteImportRows(user: string, sites: seq<Site>): seq<ImportWrite> {
    seq(|sites|, i requires 0 <= i < |sites| => SiteImportRow(user, sites[i]))
  }

  /** Importing an exported backup clears the user's data, then re-inserts
      every category with its name and position and every site with its
      category id, name, URL, logo, visit count and position, then restores
      the six settings columns, and reports success. */
  lemma ImportOfExport(user: string, categories: seq<Category>, sites: seq<Site>, settings: Option<Settings>, now: string)
    ensures ImportData(Some(user), true, Some(ExportDocument(categories, sites, settings, now))) ==
            Some(Trace([ClearSites(user), ClearCategories(user)]
                       + CategoryImportRows(user, categories)
                       + SiteImportRows(user, sites)
                       + (if settings.Some? then [SettingsImportRow(user, settings.value)] else []),
                       true))
  {
    ExportFields(categories, sites, settings, now);
    ImportedCategories(user, categories, sites, settings, now);
    ImportedSites(user, categories, sites, settings, now);
    if settings.Some? {
      SettingsRowOfExport(user, settings.value);
    }
  }

  /** The categories loop of an import of a backup. */
  lemma ImportedCategories(user: string, categories: seq<Category>, sites: seq<Site>, settings: Option<Settings>, now: string)
    ensures ImportList(ExportDocument(categories, sites, settings, now), "categories", CategoryRows(user)) ==
            Trace(CategoryImportRows(user, categories), true)
  {
    var values := seq(|categories|, i requires 0 <= i < |categories| => CategoryValue(categories[i]));
    ExportFields(categories, sites, settings, now);
    ImportListOfArr(ExportDocument(categories, sites, settings, now), "categories", CategoryRows(user), values);
    forall i | 0 <= i < |categories|
      ensures CategoryRows(user)(values[i]) == Success(CategoryImportRows(user, categories)[i])
    {
      CategoryRowOfExport(user, categories[i]);
    }
    ForEachAll(CategoryRows(user), values, CategoryImportRows(user, categories));
  }

  /** The sites loop of an import of a backup. */
  lemma ImportedSites(user: string, categories: seq<Category>, sites: seq<Site>, settings: Option<Settings>, now: string)
    ensures ImportList(ExportDocument(categories, sites, settings, now), "sites", SiteRows(user)) ==
            Trace(SiteImportRows(user, sites), true)
  {
    var values := seq(|sites|, i requires 0 <= i < |sites| => SiteValue(sites[i]));
    ExportFields(categories, sites, settings, now);
    ImportListOfArr(ExportDocument(categories, sites, settings, now), "sites", SiteRows(user), values);
    forall i | 0 <= i < |sites|
      ensures SiteRows(user)(values[i]) == Success(SiteImportRows(user, sites)[i])
    {
      SiteRowOfExport(user, sites[i]);
    }
    ForEachAll(SiteRows(user), values, SiteImportRows(user, sites));
  }

  /** An import loop over an array field runs the rows over its elements. */
  lemma ImportListOfArr(data: Value, key: string, row: Value -> Result<ImportWrite>, xs: seq<Value>)
    requires !Nullish(data) && Prop(data, key) == Arr(xs)
    ensures ImportList(data, key, row) == ForEach(row, xs)
  {
  }

  /** Reading the backup's three lists back out of the document. */
  lemma ExportFields(categories: seq<Category>, sites: seq<Site>, settings: Option<Settings>, now: string)
    ensures var d := ExportDocument(categories, sites, settings, now);
            && Prop(d, "categories") == Arr(seq(|categories|, i requires 0 <= i < |categories| => CategoryValue(categories[i])))
            && Prop(d, "sites") == Arr(seq(|sites|, i requires 0 <= i < |sites| => SiteValue(sites[i])))
            && Prop(d, "settings") == if settings.Some? then SettingsValue(settings.value) else Null
  {
    var fs := ExportDocument(categories, sites, settings, now).fields;
    FieldAt(fs, "categories", 0);
    FieldAt(fs, "sites", 1);
    FieldAt(fs, "settings", 2);
  }

  lemma CategoryRowOfExport(user: string, c: Category)
    ensures CategoryRow(user, CategoryValue(c)) == Success(CategoryImportRow(user, c))
  {
    var fs := CategoryValue(c).fields;
    assert Field(fs, "name") == fs[2].1 by { FieldAt(fs, "name", 2); }
    assert Field(fs, "order_index") == fs[3].1 by { FieldAt(fs, "order_index", 3); }
  }

  lemma SiteRowOfExport(user: string, s: Site)
    ensures SiteRow(user, SiteValue(s)) == Success(SiteImportRow(user, s))
  {
    SiteLeadingFields(s);
    SiteTrailingFields(s);
  }

  /** An exported site reads back its category, name and URL. */
  lemma SiteLeadingFields(s: Site)
    ensures Prop(SiteValue(s), "category_id") == Str(s.categoryId)
    ensures Prop(SiteValue(s), "name") == Str(s.name)
    ensures Prop(SiteValue(s), "url") == Str(s.url)
  {
    var fs := SiteValue(s).fields;
    FieldAt(fs, "category_id", 1);
    FieldAt(fs, "name", 3);
    FieldAt(fs, "url", 4);
  }

  /** An exported site reads back its logo, visit count and position. */
  lemma SiteTrailingFields(s: Site)
    ensures Prop(SiteValue(s), "logo") == Str(s.logo)
    ensures Prop(SiteValue(s), "visits") == Num(s.visits)
    ensures Prop(SiteValue(s), "order_index") == Num(s.orderIndex)
  {
    var fs := SiteValue(s).fields;
    FieldAt(fs, "logo", 5);
    FieldAt(fs, "visits", 6);
    FieldAt(fs, "order_index", 7);
  }

  lemma SettingsRowOfExport(user: string, s: Settings)
    ensures SettingsFields(SettingsValue(s)) == SettingsImportRow(user, s).fields
  {
    SettingsTitleField(s);
    SettingsLogoFields(s);
    SettingsTrailingFields(s);
  }

  /** Exported settings read back their title. */
  lemma SettingsTitleField(s: Settings)
    ensures Prop(SettingsValue(s), "site_title") == Str(s.siteTitle)
  {
    FieldAt(SettingsValue(s).fields, "site_title", 2);
  }

  /** Exported settings read back their logo and search engine. */
  lemma SettingsLogoFields(s: Settings)
    ensures Prop(SettingsValue(s), "logo_content") == Str(s.logoContent)
    ensures Prop(SettingsValue(s), "default_search_engine") == Str(s.defaultSearchEngine)
  {
    var fs := SettingsValue(s).fields;
    FieldAt(fs, "logo_content", 4);
    FieldAt(fs, "default_search_engine", 5);
  }

  /** Exported settings read back their city and weather. */
  lemma SettingsTrailingFields(s: Settings)
    ensures Prop(SettingsValue(s), "city") == Str(s.city)
    ensures Prop(SettingsValue(s), "temperature") == Str(s.temperature)
    ensures Prop(SettingsValue(s), "weather_condition") == Str(s.weatherCondition)
  {
    var fs := SettingsValue(s).fields;
    FieldAt(fs, "city", 7);
    FieldAt(fs, "temperature", 8);
    FieldAt(fs, "weather_condition", 9);
  }
}
