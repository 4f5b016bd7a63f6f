/**
 * The items store: the cached list `myItems` of the user's belongings, the list
 * filters, the dev-mode backing list `FAKE_ITEMS`, and the actions that query and
 * update them. In dev mode every action works on `FAKE_ITEMS` locally; otherwise
 * the backend's reply is a parameter and only its effect on the cache is modelled.
 */
module Items {
  import opened Wrappers
  import opened Seqs
  import opened Text

  datatype Visibility = Private | Public | Group

  /** The list filter's visibility choice: `'all' | 'private' | 'public'`. */
  datatype VisibilityFilter = ShowAll | ShowPrivate | ShowPublic

  /** An item record, restricted to the columns the store's logic reads or writes. */
  datatype Item = Item(
    id: string,
    ownerId: string,
    name: string,
    description: Option<string>,
    categoryId: Option<string>,
    labels: seq<string>,
    photos: seq<string>,
    visibility: Option<Visibility>,
    locationRoom: Option<string>,
    locationFurniture: Option<string>,
    locationDetail: Option<string>,
    isAvailable: bool,
    createdAt: string,
    updatedAt: string)

  /** The fields a caller supplies to `addItem`; `None` is an absent optional field. */
  datatype ItemInsert = ItemInsert(
    ownerId: string,
    name: string,
    description: Option<string>,
    categoryId: Option<string>,
    labels: Option<seq<string>>,
    photos: Option<seq<string>>,
    visibility: Option<Visibility>,
    locationRoom: Option<string>,
    locationFurniture: Option<string>,
    locationDetail: Option<string>)

  /** The fields of an `updateItem` patch; `None` is a key the patch does not carry. */
  datatype ItemUpdate = ItemUpdate(
    name: Option<string>,
    description: Option<Option<string>>,
    categoryId: Option<Option<string>>,
    labels: Option<seq<string>>,
    photos: Option<seq<string>>,
    visibility: Option<Visibility>,
    locationRoom: Option<Option<string>>,
    locationFurniture: Option<Option<string>>,
    locationDetail: Option<Option<string>>)

  /** The filter fields of the store, as `loadMyItems` reads them. */
  datatype Filters = Filters(
    selectedCategory: Option<string>,
    visibilityFilter: VisibilityFilter,
    selectedLabels: seq<string>,
    searchQuery: string)

  /** The backend's reply to an insert: the stored row, or an error message. */
  datatype InsertReply = InsertReply(data: Option<Item>, error: Option<string>)

  // ---------------------------------------------------------------------------
  // The dev-mode query: four filters applied in turn

  /** `if (selectedCategory)`: a null or empty category selects nothing to filter. */
  predicate CategoryActive(selected: Option<string>)
    ensures CategoryActive(selected) <==> selected != None && selected != Some("")
  {
    selected.Some? && selected.value != ""
  }

  /** An inactive category keeps every item; an active one keeps exactly the items filed under it. */
  predicate MatchesCategory(item: Item, selected: Option<string>)
    ensures !CategoryActive(selected) ==> MatchesCategory(item, selected)
    ensures CategoryActive(selected) ==> (MatchesCategory(item, selected) <==> item.categoryId == selected)
  {
    !CategoryActive(selected) || item.categoryId == Some(selected.value)
  }

  /** `'all'` keeps every item; the other two keep exactly the items of that visibility, never a group item. */
  predicate MatchesVisibility(item: Item, filter: VisibilityFilter)
    ensures filter == ShowAll ==> MatchesVisibility(item, filter)
    ensures filter != ShowAll && MatchesVisibility(item, filter) ==> item.visibility.Some? && item.visibility.value != Group
    ensures filter == ShowPrivate ==> (MatchesVisibility(item, filter) <==> item.visibility == Some(Private))
    ensures filter == ShowPublic ==> (MatchesVisibility(item, filter) <==> item.visibility == Some(Public))
  {
    match filter
    case ShowAll => true
    case ShowPrivate => item.visibility == Some(Private)
    case ShowPublic => item.visibility == Some(Public)
  }

  /** Any-of match: the item carries at least one of the selected labels. */
  predicate MatchesLabels(item: Item, selected: seq<string>)
    ensures selected == [] ==> MatchesLabels(item, selected)
    ensures selected != [] ==>
              (MatchesLabels(item, selected) <==> exists k :: 0 <= k < |item.labels| && item.labels[k] in selected)
  {
    |selected| == 0 || exists l :: l in selected && l in item.labels
  }

  /** Case-insensitive substring search over the name and the (optional) description. */
  predicate MatchesSearch(item: Item, query: string)
    ensures query == "" ==> MatchesSearch(item, query)
    ensures ToLower(query) == ToLower(item.name) ==> MatchesSearch(item, query)
  {
    query == "" ||
    Includes(ToLower(item.name), ToLower(query)) ||
    (item.description.Some? && Includes(ToLower(item.description.value), ToLower(query)))
  }

  /** An item passes the list filters when it passes each of the four. */
  predicate Matches(item: Item, f: Filters)
    ensures f == Filters(None, ShowAll, [], "") ==> Matches(item, f)
    ensures Matches(item, f) && CategoryActive(f.selectedCategory) ==> item.categoryId == f.selectedCategory
    ensures Matches(item, f) && f.visibilityFilter != ShowAll ==> item.visibility.Some? && item.visibility.value != Group
  {
    && MatchesCategory(item, f.selectedCategory)
    && MatchesVisibility(item, f.visibilityFilter)
    && MatchesLabels(item, f.selectedLabels)
    && MatchesSearch(item, f.searchQuery)
  }

  function ByCategory(selected: Option<string>): Item -> bool { (item: Item) => MatchesCategory(item, selected) }
  function ByVisibility(filter: VisibilityFilter): Item -> bool { (item: Item) => MatchesVisibility(item, filter) }
  function ByLabels(selected: seq<string>): Item -> bool { (item: Item) => MatchesLabels(item, selected) }
  function BySearch(query: string): Item -> bool { (item: Item) => MatchesSearch(item, query) }
  function ByFilters(f: Filters): Item -> bool { (item: Item) => Matches(item, f) }

  /**
   * What the dev-mode `loadMyItems` stores in `myItems`: the items of the source
   * list that pass every filter, in source order, each as many times as it occurs.
   */
  lemma QueryResultProperties(items: seq<Item>, f: Filters)
    ensures SubseqOf(Filter(items, ByFilters(f)), items)
    ensures forall x :: x in Filter(items, ByFilters(f)) <==> x in items && Matches(x, f)
    ensures forall x :: Matches(x, f) ==> multiset(Filter(items, ByFilters(f)))[x] == multiset(items)[x]
  {
    FilterIsSubsequence(items, ByFilters(f));
    forall x | Matches(x, f)
      ensures multiset(Filter(items, ByFilters(f)))[x] == multiset(items)[x]
    {
      FilterCounts(items, ByFilters(f), x);
    }
  }

  /** Inactive filters exclude nothing: with no filter set the query returns the whole list. */
  lemma NoFiltersKeepEverything(items: seq<Item>)
    ensures Filter(items, ByFilters(Filters(None, ShowAll, [], ""))) == items
  {
    FilterKeepsAll(items, ByFilters(Filters(None, ShowAll, [], "")));
  }

  /** With a non-empty query, every result contains the lower-cased query in its lower-cased name or description. */
  lemma SearchResultsContainQuery(items: seq<Item>, f: Filters, x: Item)
    requires f.searchQuery != ""
    requires x in Filter(items, ByFilters(f))
    ensures exists i :: OccursAt(ToLower(x.name), ToLower(f.searchQuery), i) ||
                        (x.description.Some? && OccursAt(ToLower(x.description.value), ToLower(f.searchQuery), i))
  {
    IncludesIff(ToLower(x.name), ToLower(f.searchQuery));
    if x.description.Some? {
      IncludesIff(ToLower(x.description.value), ToLower(f.searchQuery));
    }
  }

  /** The filters of the pipeline up to and including the category, visibility and label stages. */
  function UpToCategory(f: Filters): Item -> bool {
    (item: Item) => MatchesCategory(item, f.selectedCategory)
  }
  function UpToVisibility(f: Filters): Item -> bool {
    (item: Item) => MatchesCategory(item, f.selectedCategory) && MatchesVisibility(item, f.visibilityFilter)
  }
  function UpToLabels(f: Filters): Item -> bool {
    (item: Item) => MatchesCategory(item, f.selectedCategory) && MatchesVisibility(item, f.visibilityFilter)
                    && MatchesLabels(item, f.selectedLabels)
  }

  /**
   * One stage of the pipeline: when the stage's filter field is set the list is
   * filtered by it, otherwise the stage excludes nothing; either way the list is
   * the source filtered by every stage so far.
   */
  lemma PipelineStage(s: seq<Item>, acc: seq<Item>, before: Item -> bool, stage: Item -> bool,
                      after: Item -> bool, active: bool)
    requires acc == Filter(s, before)
    requires forall x :: after(x) == (before(x) && stage(x))
    requires !active ==> forall x :: stage(x)
    ensures (if active then Filter(acc, stage) else acc) == Filter(s, after)
  {
    FilterFilter(s, before, stage, after);
    if !active {
      FilterKeepsAll(acc, stage);
    }
  }

  lemma CategoryStage(s: seq<Item>, f: Filters)
    ensures (if CategoryActive(f.selectedCategory) then Filter(s, ByCategory(f.selectedCategory)) else s)
            == Filter(s, UpToCategory(f))
  {
    FilterKeepsAll(s, (_: Item) => true);
    PipelineStage(s, s, (_: Item) => true, ByCategory(f.selectedCategory), UpToCategory(f),
                  CategoryActive(f.selectedCategory));
  }

  lemma VisibilityStage(s: seq<Item>, f: Filters)
    ensures (if f.visibilityFilter != ShowAll
             then Filter(Filter(s, UpToCategory(f)), ByVisibility(f.visibilityFilter))
             else Filter(s, UpToCategory(f)))
            == Filter(s, UpToVisibility(f))
  {
    PipelineStage(s, Filter(s, UpToCategory(f)), UpToCategory(f), ByVisibility(f.visibilityFilter),
                  UpToVisibility(f), f.visibilityFilter != ShowAll);
  }

  lemma LabelsStage(s: seq<Item>, f: Filters)
    ensures (if |f.selectedLabels| > 0
             then Filter(Filter(s, UpToVisibility(f)), ByLabels(f.selectedLabels))
             else Filter(s, UpToVisibility(f)))
            == Filter(s, UpToLabels(f))
  {
    PipelineStage(s, Filter(s, UpToVisibility(f)), UpToVisibility(f), ByLabels(f.selectedLabels),
                  UpToLabels(f), |f.selectedLabels| > 0);
  }

  lemma SearchStage(s: seq<Item>, f: Filters)
    ensures (if f.searchQuery != ""
             then Filter(Filter(s, UpToLabels(f)), BySearch(f.searchQuery))
             else Filter(s, UpToLabels(f)))
            == Filter(s, ByFilters(f))
  {
    PipelineStage(s, Filter(s, UpToLabels(f)), UpToLabels(f), BySearch(f.searchQuery),
                  ByFilters(f), f.searchQuery != "");
  }

  // ---------------------------------------------------------------------------
  // Cache updates

  /**
   * The item a dev-mode `addItem` builds: the insert's fields, a fresh id, the two
   * timestamps (each read from the clock on its own), and empty defaults.
   */
  function NewLocalItem(ins: ItemInsert, nowMillis: nat, createdIso: string, updatedIso: string): (r: Item)
    ensures r.id == "item-" + NatToString(nowMillis)
    ensures r.ownerId == ins.ownerId && r.name == ins.name && r.description == ins.description
    ensures r.categoryId == ins.categoryId && r.visibility == ins.visibility
    ensures r.locationRoom == ins.locationRoom && r.locationFurniture == ins.locationFurniture
    ensures r.locationDetail == ins.locationDetail
    ensures r.labels == (if ins.labels.Some? then ins.labels.value else [])
    ensures r.photos == (if ins.photos.Some? then ins.photos.value else [])
    ensures r.isAvailable && r.createdAt == createdIso && r.updatedAt == updatedIso
  {
    Item(
      id := "item-" + NatToString(nowMillis),
      ownerId := ins.ownerId,
      name := ins.name,
      description := ins.description,
      categoryId := ins.categoryId,
      labels := ins.labels.GetOr([]),
      photos := ins.photos.GetOr([]),
      visibility := ins.visibility,
      locationRoom := ins.locationRoom,
      locationFurniture := ins.locationFurniture,
      locationDetail := ins.locationDetail,
      isAvailable := true,
      createdAt := createdIso,
      updatedAt := updatedIso)
  }

  /** `{ ...item, ...updates }`: each field the patch carries replaces the item's. */
  function Merge(item: Item, u: ItemUpdate): (r: Item)
    ensures r.id == item.id && r.ownerId == item.ownerId && r.isAvailable == item.isAvailable
    ensures r.createdAt == item.createdAt && r.updatedAt == item.updatedAt
    ensures r.name == u.name.GetOr(item.name)
    ensures r.description == u.description.GetOr(item.description)
    ensures r.categoryId == u.categoryId.GetOr(item.categoryId)
    ensures r.labels == u.labels.GetOr(item.labels) && r.photos == u.photos.GetOr(item.photos)
    ensures r.visibility == (if u.visibility.Some? then u.visibility else item.visibility)
    ensures r.locationRoom == u.locationRoom.GetOr(item.locationRoom)
    ensures r.locationFurniture == u.locationFurniture.GetOr(item.locationFurniture)
    ensures r.locationDetail == u.locationDetail.GetOr(item.locationDetail)
  {
    item.(
      name := u.name.GetOr(item.name),
      description := u.description.GetOr(item.description),
      categoryId := u.categoryId.GetOr(item.categoryId),
      labels := u.labels.GetOr(item.labels),
      photos := u.photos.GetOr(item.photos),
      visibility := if u.visibility.Some? then u.visibility else item.visibility,
      locationRoom := u.locationRoom.GetOr(item.locationRoom),
      locationFurniture := u.locationFurniture.GetOr(item.locationFurniture),
      locationDetail := u.locationDetail.GetOr(item.locationDetail))
  }

  /** Applying the same patch twice is applying it once. */
  lemma MergeIdempotent(item: Item, u: ItemUpdate)
    ensures Merge(Merge(item, u), u) == Merge(item, u)
  {
  }

  /** An empty patch changes nothing. */
  lemma MergeEmpty(item: Item)
    ensures Merge(item, ItemUpdate(None, None, None, None, None, None, None, None, None)) == item
  {
  }

  /** `myItems.map(item => item.id === id ? { ...item, ...updates } : item)`. */
  function UpdateById(s: seq<Item>, id: string, u: ItemUpdate): (r: seq<Item>)
    ensures |r| == |s|
    ensures forall k :: 0 <= k < |s| ==> r[k] == if s[k].id == id then Merge(s[k], u) else s[k]
  {
    if s == [] then []
    else [if s[0].id == id then Merge(s[0], u) else s[0]] + UpdateById(s[1..], id, u)
  }

  /** Updating an id no item carries leaves the list as it was. */
  lemma UpdateAbsentId(s: seq<Item>, id: string, u: ItemUpdate)
    requires forall k :: 0 <= k < |s| ==> s[k].id != id
    ensures UpdateById(s, id, u) == s
  {
  }

  /** Repeating an update by id is harmless. */
  lemma UpdateIdempotent(s: seq<Item>, id: string, u: ItemUpdate)
    ensures UpdateById(UpdateById(s, id, u), id, u) == UpdateById(s, id, u)
  {
    forall k | 0 <= k < |s| ensures UpdateById(UpdateById(s, id, u), id, u)[k] == UpdateById(s, id, u)[k] {
      MergeIdempotent(s[k], u);
    }
  }

  function OtherId(id: string): Item -> bool { (item: Item) => item.id != id }

  /** `myItems.filter(item => item.id !== id)`. */
  function DeleteById(s: seq<Item>, id: string): (r: seq<Item>)
    ensures forall x :: x in r ==> x.id != id
    ensures forall x: Item :: x.id != id ==> multiset(r)[x] == multiset(s)[x]
    ensures SubseqOf(r, s)
  {
    var r := Filter(s, OtherId(id));
    forall x: Item | x.id != id ensures multiset(r)[x] == multiset(s)[x] {
      FilterCounts(s, OtherId(id), x);
    }
    FilterIsSubsequence(s, OtherId(id));
    r
  }

  /** Deleting an id no item carries leaves the list as it was. */
  lemma DeleteAbsentId(s: seq<Item>, id: string)
    requires forall k :: 0 <= k < |s| ==> s[k].id != id
    ensures DeleteById(s, id) == s
  {
    FilterKeepsAll(s, OtherId(id));
  }

  /** Deleting the same id twice is deleting it once. */
  lemma DeleteIdempotent(s: seq<Item>, id: string)
    ensures DeleteById(DeleteById(s, id), id) == DeleteById(s, id)
  {
    FilterIdempotent(s, OtherId(id));
  }

  // ---------------------------------------------------------------------------
  // The dev-mode backing list

  /** `FAKE_ITEMS.findIndex(i => i.id === id)`, with `None` for -1. */
  function FindIndex(s: seq<Item>, id: string): (r: Option<nat>)
    ensures r.Some? ==> r.value < |s| && s[r.value].id == id
    ensures r.Some? ==> forall k :: 0 <= k < r.value ==> s[k].id != id
    ensures r.None? ==> forall k :: 0 <= k < |s| ==> s[k].id != id
  {
    if s == [] then None
    else if s[0].id == id then Some(0)
    else match FindIndex(s[1..], id)
      case None => None
      case Some(k) => Some(k + 1)
  }

  /** `FAKE_ITEMS[idx] = { ...FAKE_ITEMS[idx], ...updates }` at the first index with that id, if any. */
  function UpdateFirst(s: seq<Item>, id: string, u: ItemUpdate): (r: seq<Item>)
    ensures |r| == |s|
    ensures FindIndex(s, id).None? ==> r == s
    ensures FindIndex(s, id).Some? ==>
              var i := FindIndex(s, id).value;
              r[i] == Merge(s[i], u) && forall k :: 0 <= k < |s| && k != i ==> r[k] == s[k]
  {
    match FindIndex(s, id)
    case None => s
    case Some(i) => s[i := Merge(s[i], u)]
  }

  /** `FAKE_ITEMS.splice(idx, 1)` at the first index with that id, if any. */
  function RemoveFirst(s: seq<Item>, id: string): (r: seq<Item>)
    ensures FindIndex(s, id).None? ==> r == s
    ensures FindIndex(s, id).Some? ==>
              var i := FindIndex(s, id).value;
              |r| == |s| - 1 && r == s[..i] + s[i + 1..]
  {
    match FindIndex(s, id)
    case None => s
    case Some(i) => s[..i] + s[i + 1..]
  }

  /** The cache update after the in-place update of the same list gives the same result as without it. */
  lemma UpdateAfterUpdateFirst(s: seq<Item>, id: string, u: ItemUpdate)
    ensures UpdateById(UpdateFirst(s, id, u), id, u) == UpdateById(s, id, u)
  {
    var t := UpdateFirst(s, id, u);
    forall k | 0 <= k < |s| ensures UpdateById(t, id, u)[k] == UpdateById(s, id, u)[k] {
      MergeIdempotent(s[k], u);
    }
  }

  /** The cache delete after the in-place splice of the same list gives the same result as without it. */
  lemma DeleteAfterRemoveFirst(s: seq<Item>, id: string)
    ensures DeleteById(RemoveFirst(s, id), id) == DeleteById(s, id)
  {
    match FindIndex(s, id)
    case None =>
    case Some(i) =>
      assert s == s[..i] + ([s[i]] + s[i + 1..]);
      FilterAppend(s[..i], [s[i]] + s[i + 1..], OtherId(id));
      FilterAppend(s[..i], s[i + 1..], OtherId(id));
  }

  /** The six dev-mode items `FAKE_ITEMS` starts with, stamped with the module's load time. */
  function FakeItemsSeed(loadedAt: string): (r: seq<Item>)
    ensures |r| == 6 && forall k :: 0 <= k < |r| ==> r[k].ownerId == "dev-user-001"
  {
    [
      Item("item-1", "dev-user-001", "Trapano Black & Decker",
           Some("Trapano a percussione, funziona perfettamente. Usato poco."), Some("cat-2"),
           ["disponibile", "utile"], [], Some(Public), Some("Garage"), Some("Scaffale"),
           Some("Ripiano alto a sinistra"), true, loadedAt, loadedAt),
      Item("item-2", "dev-user-001", "Cavo HDMI 2m", Some("HDMI 2.0, supporta 4K"), Some("cat-9"),
           ["disponibile", "inutile"], [], Some(Public), Some("Studio"), Some("Cassetto"), None,
           true, loadedAt, loadedAt),
      Item("item-3", "dev-user-001", "Tastiera meccanica Logitech", Some("Switch blu, retroilluminata RGB"),
           Some("cat-1"), ["accantonato"], [], Some(Private), Some("Studio"), Some("Scaffale"), None,
           true, loadedAt, loadedAt),
      Item("item-4", "dev-user-001", "Libro \"Sapiens\" - Harari", Some("Edizione italiana, qualche sottolineatura"),
           Some("cat-5"), ["disponibile", "inutile"], [], Some(Public), Some("Soggiorno"), Some("Libreria"),
           Some("Secondo scaffale"), true, loadedAt, loadedAt),
      Item("item-5", "dev-user-001", "Racchetta tennis Wilson", Some("Corde da cambiare"), Some("cat-4"),
           ["accantonato", "da_riparare"], [], Some(Private), Some("Ripostiglio"), Some("Appendiabiti"), None,
           true, loadedAt, loadedAt),
      Item("item-6", "dev-user-001", "Cuffie Sony WH-1000XM3", Some("Noise cancelling, batteria OK"),
           Some("cat-1"), ["utile"], [], Some(Private), Some("Camera"), Some("Comodino"), None,
           true, loadedAt, loadedAt)
    ]
  }

  // ---------------------------------------------------------------------------
  // The store

  class ItemsStore {
    /** Whether the store runs on local fake data (`DEV_MODE && USE_FAKE_DATA`). */
    const devMode: bool
    /** The module-level `FAKE_ITEMS` array, mutated in place by the dev-mode actions. */
    var fakeItems: seq<Item>
    var myItems: seq<Item>
    /**
     * True while `myItems` is the very `FAKE_ITEMS` array (the dev-mode initial
     * state), so that an in-place change of `FAKE_ITEMS` is also a change of `myItems`.
     */
    var sharesFake: bool
    var isLoading: bool
    var searchQuery: string
    var selectedCategory: Option<string>
    var selectedLabels: seq<string>
    var visibilityFilter: VisibilityFilter

    ghost predicate Valid()
      reads this
    {
      sharesFake ==> devMode && myItems == fakeItems
    }

    function CurrentFilters(): Filters
      reads this
    {
      Filters(selectedCategory, visibilityFilter, selectedLabels, searchQuery)
    }

    constructor (devMode: bool, loadedAt: string)
      ensures Valid() && this.devMode == devMode
      ensures fakeItems == FakeItemsSeed(loadedAt)
      ensures myItems == (if devMode then fakeItems else []) && sharesFake == devMode
      ensures !isLoading && searchQuery == "" && selectedCategory == None
      ensures selectedLabels == [] && visibilityFilter == ShowAll
    {
      this.devMode := devMode;
      fakeItems := FakeItemsSeed(loadedAt);
      myItems := if devMode then FakeItemsSeed(loadedAt) else [];
      sharesFake := devMode;
      isLoading := false;
      searchQuery := "";
      selectedCategory := None;
      selectedLabels := [];
      visibilityFilter := ShowAll;
    }

    /**
     * `loadMyItems`. In dev mode: the filters are applied in turn to a copy of
     * `FAKE_ITEMS`, and the result is the list of the items that pass them all.
     * Otherwise `remote` is the backend's answer and `myItems` becomes it, or `[]`.
     */
    method LoadMyItems(remote: Option<seq<Item>>)
      requires Valid()
      modifies this`myItems, this`sharesFake, this`isLoading
      ensures Valid() && !isLoading
      ensures devMode ==> myItems == Filter(fakeItems, ByFilters(CurrentFilters())) && !sharesFake
      ensures !devMode ==> myItems == remote.GetOr([]) && sharesFake == old(sharesFake)
    {
      if devMode {
        var f := CurrentFilters();
        var filtered := fakeItems;
        CategoryStage(fakeItems, f);
        if CategoryActive(f.selectedCategory) {
          filtered := Filter(filtered, ByCategory(f.selectedCategory));
        }
        VisibilityStage(fakeItems, f);
        if f.visibilityFilter != ShowAll {
          filtered := Filter(filtered, ByVisibility(f.visibilityFilter));
        }
        LabelsStage(fakeItems, f);
        if |f.selectedLabels| > 0 {
          filtered := Filter(filtered, ByLabels(f.selectedLabels));
        }
        SearchStage(fakeItems, f);
        if f.searchQuery != "" {
          filtered := Filter(filtered, BySearch(f.searchQuery));
        }
        myItems := filtered;
        sharesFake := false;
        isLoading := false;
      } else {
        myItems := remote.GetOr([]);
        isLoading := false;
      }
    }

    /** `searchMyItems`: record the query, then reload. */
    method SearchMyItems(query: string, remote: Option<seq<Item>>)
      requires Valid()
      modifies this`searchQuery, this`myItems, this`sharesFake, this`isLoading
      ensures Valid() && !isLoading && searchQuery == query
      ensures devMode ==> myItems == Filter(fakeItems, ByFilters(CurrentFilters()))
      ensures !devMode ==> myItems == remote.GetOr([])
    {
      searchQuery := query;
      LoadMyItems(remote);
    }

    /**
     * `addItem`. In dev mode the new item is put in front of `FAKE_ITEMS` (in place)
     * and in front of the cached list; while the cached list still is `FAKE_ITEMS`,
     * the in-place insertion has already put it there, so it then appears twice.
     * Otherwise the backend's reply decides: a returned row is put in front of the cache.
     */
    method AddItem(ins: ItemInsert, nowMillis: nat, createdIso: string, updatedIso: string, reply: InsertReply)
      returns (data: Option<Item>, error: Option<string>)
      requires Valid()
      modifies this`fakeItems, this`myItems, this`sharesFake
      ensures Valid() && !sharesFake
      ensures devMode ==>
                var n := NewLocalItem(ins, nowMillis, createdIso, updatedIso);
                && data == Some(n) && error == None
                && fakeItems == [n] + old(fakeItems)
                && myItems == (if old(sharesFake) then [n, n] + old(myItems) else [n] + old(myItems))
      ensures !devMode ==> data == reply.data && error == reply.error && fakeItems == old(fakeItems)
      ensures !devMode ==> myItems == (if reply.data.Some? then [reply.data.value] + old(myItems) else old(myItems))
    {
      if devMode {
        var n := NewLocalItem(ins, nowMillis, createdIso, updatedIso);
        fakeItems := [n] + fakeItems;
        var current := if sharesFake then fakeItems else myItems;
        myItems := [n] + current;
        sharesFake := false;
        data, error := Some(n), None;
      } else {
        if reply.data.Some? {
          myItems := [reply.data.value] + myItems;
        }
        sharesFake := false;
        data, error := reply.data, reply.error;
      }
    }

    /**
     * `updateItem`. In dev mode the first `FAKE_ITEMS` entry with the id is patched
     * in place and every cached item with the id is patched. Otherwise the cache is
     * patched only when the backend reported no error.
     */
    method UpdateItem(id: string, u: ItemUpdate, remoteError: Option<string>) returns (error: Option<string>)
      requires Valid()
      modifies this`fakeItems, this`myItems, this`sharesFake
      ensures Valid()
      ensures devMode ==>
                && error == None && !sharesFake
                && fakeItems == UpdateFirst(old(fakeItems), id, u)
                && myItems == UpdateById(old(myItems), id, u)
      ensures !devMode ==>
                && error == remoteError && fakeItems == old(fakeItems)
                && myItems == (if remoteError.None? then UpdateById(old(myItems), id, u) else old(myItems))
    {
      if devMode {
        var idx := FindIndex(fakeItems, id);
        if idx.Some? {
          fakeItems := fakeItems[idx.value := Merge(fakeItems[idx.value], u)];
        }
        var current := if sharesFake then fakeItems else myItems;
        if sharesFake {
          UpdateAfterUpdateFirst(old(fakeItems), id, u);
        }
        myItems := UpdateById(current, id, u);
        sharesFake := false;
        error := None;
      } else {
        if remoteError.None? {
          myItems := UpdateById(myItems, id, u);
          sharesFake := false;
        }
        error := remoteError;
      }
    }

    /**
     * `deleteItem`. In dev mode the first `FAKE_ITEMS` entry with the id is spliced
     * out in place and every cached item with the id is dropped. Otherwise the cache
     * changes only when the backend reported no error.
     */
    method DeleteItem(id: string, remoteError: Option<string>) returns (error: Option<string>)
      requires Valid()
      modifies this`fakeItems, this`myItems, this`sharesFake
      ensures Valid()
      ensures devMode ==>
                && error == None && !sharesFake
                && fakeItems == RemoveFirst(old(fakeItems), id)
                && myItems == DeleteById(old(myItems), id)
      ensures !devMode ==>
                && error == remoteError && fakeItems == old(fakeItems)
                && myItems == (if remoteError.None? then DeleteById(old(myItems), id) else old(myItems))
    {
      if devMode {
        var idx := FindIndex(fakeItems, id);
        if idx.Some? {
          fakeItems := fakeItems[..idx.value] + fakeItems[idx.value + 1..];
        }
        var current := if sharesFake then fakeItems else myItems;
        if sharesFake {
          DeleteAfterRemoveFirst(old(fakeItems), id);
        }
        myItems := DeleteById(current, id);
        sharesFake := false;
        error := None;
      } else {
        if remoteError.None? {
          myItems := DeleteById(myItems, id);
          sharesFake := false;
        }
        error := remoteError;
      }
    }

    method SetSearchQuery(query: string)
      modifies this`searchQuery
      ensures searchQuery == query
    {
      searchQuery := query;
    }

    method SetSelectedCategory(categoryId: Option<string>)
      modifies this`selectedCategory
      ensures selectedCategory == categoryId
    {
      selectedCategory := categoryId;
    }

    method SetSelectedLabels(labels: seq<string>)
      modifies this`selectedLabels
      ensures selectedLabels == labels
    {
      selectedLabels := labels;
    }

    method SetVisibilityFilter(filter: VisibilityFilter)
      modifies this`visibilityFilter
      ensures visibilityFilter == filter
    {
      visibilityFilter := filter;
    }
  }
}
