/**
 * The menu section: the rows the backend returns for one language, their reshaping into
 * categories and items, the view derived from the component state, and the component
 * state itself with one method per event that updates it.
 */
module Menu {
  import opened Wrappers
  import opened Js

  /** A price as the backend returns it. It is only displayed, never computed with. */
  type Price(==)

  // ---------------------------------------------------------------------------
  // Rows as returned by the backend query

  datatype CategoryTranslationRow = CategoryTranslationRow(name: string)

  datatype ItemTranslationRow = ItemTranslationRow(name: string, description: string)

  datatype ItemRow = ItemRow(
    id: string,
    price: Price,
    imageUrl: Option<string>,
    translations: seq<ItemTranslationRow>)

  datatype CategoryRow = CategoryRow(
    id: string,
    translations: seq<CategoryTranslationRow>,
    items: seq<ItemRow>)

  /**
   * How one fetch settles: the query reports an error or the request rejects (`Failed`),
   * or it returns its data, which may be `null`.
   */
  datatype FetchOutcome = Failed | Returned(data: Option<seq<CategoryRow>>)

  // ---------------------------------------------------------------------------
  // Reshaped menu

  datatype MenuItem = MenuItem(
    id: string,
    categoryId: string,
    price: Price,
    imageUrl: Option<string>,
    name: string,
    description: string)

  datatype Category = Category(id: string, name: string, items: seq<MenuItem>)

  /** Reading `.name` of `translations[0]` when the array is empty throws. */
  datatype ReshapeError = MissingTranslation

  predicate ItemsTranslated(rows: seq<ItemRow>) {
    forall j :: 0 <= j < |rows| ==> |rows[j].translations| > 0
  }

  predicate CategoryTranslated(row: CategoryRow) {
    |row.translations| > 0 && ItemsTranslated(row.items)
  }

  predicate AllTranslated(rows: seq<CategoryRow>) {
    forall i :: 0 <= i < |rows| ==> CategoryTranslated(rows[i])
  }

  /** Every item points back to the category it is nested under. */
  predicate BackReferenced(cats: seq<Category>) {
    forall i, j :: 0 <= i < |cats| && 0 <= j < |cats[i].items| ==> cats[i].items[j].categoryId == cats[i].id
  }

  predicate DistinctIds(cats: seq<Category>) {
    forall i, j :: 0 <= i < j < |cats| ==> cats[i].id != cats[j].id
  }

  /** One item row, nested under the category with id `categoryId`. */
  function ReshapeItem(categoryId: string, row: ItemRow): (r: Result<MenuItem, ReshapeError>)
    ensures r.Success? <==> |row.translations| > 0
    ensures r.Success? ==>
      && r.value.id == row.id
      && r.value.categoryId == categoryId
      && r.value.price == row.price
      && r.value.imageUrl == row.imageUrl
    ensures r.Success? ==>
      r.value.name == row.translations[0].name && r.value.description == row.translations[0].description
  {
    if |row.translations| == 0 then Failure(MissingTranslation)
    else
      var t := row.translations[0];
      Success(MenuItem(row.id, categoryId, row.price, row.imageUrl, t.name, t.description))
  }

  /** The items of one category, in the order returned. */
  function ReshapeItems(categoryId: string, rows: seq<ItemRow>): (r: Result<seq<MenuItem>, ReshapeError>)
    ensures r.Success? <==> ItemsTranslated(rows)
    ensures r.Success? ==> |r.value| == |rows|
    ensures r.Success? ==> forall j :: 0 <= j < |rows| ==> ReshapeItem(categoryId, rows[j]) == Success(r.value[j])
  {
    if rows == [] then Success([])
    else
      match ReshapeItem(categoryId, rows[0])
      case Failure(e) => Failure(e)
      case Success(item) =>
        match ReshapeItems(categoryId, rows[1..])
        case Failure(e) =>
          assert !ItemsTranslated(rows[1..]);
          Failure(e)
        case Success(rest) =>
          assert forall j :: 1 <= j < |rows| ==> rows[j] == rows[1..][j - 1];
          Success([item] + rest)
  }

  /** One category row: its name from translation row 0, its items reshaped. */
  function ReshapeCategory(row: CategoryRow): (r: Result<Category, ReshapeError>)
    ensures r.Success? <==> CategoryTranslated(row)
    ensures r.Success? ==>
      && r.value.id == row.id
      && r.value.name == row.translations[0].name
      && |r.value.items| == |row.items|
    ensures r.Success? ==>
      forall j :: 0 <= j < |row.items| ==> ReshapeItem(row.id, row.items[j]) == Success(r.value.items[j])
  {
    if |row.translations| == 0 then Failure(MissingTranslation)
    else
      match ReshapeItems(row.id, row.items)
      case Failure(e) => Failure(e)
      case Success(items) => Success(Category(row.id, row.translations[0].name, items))
  }

  function ReshapeCategories(rows: seq<CategoryRow>): (r: Result<seq<Category>, ReshapeError>)
    ensures r.Success? <==> AllTranslated(rows)
    ensures r.Success? ==> |r.value| == |rows|
    ensures r.Success? ==> forall i :: 0 <= i < |rows| ==> ReshapeCategory(rows[i]) == Success(r.value[i])
  {
    if rows == [] then Success([])
    else
      match ReshapeCategory(rows[0])
      case Failure(e) => Failure(e)
      case Success(cat) =>
        match ReshapeCategories(rows[1..])
        case Failure(e) =>
          assert !AllTranslated(rows[1..]);
          Failure(e)
        case Success(rest) =>
          assert forall i :: 1 <= i < |rows| ==> rows[i] == rows[1..][i - 1];
          Success([cat] + rest)
  }

  /** The whole reshape: `data?.map(...) || []`, throwing on a missing translation row. */
  function Reshape(data: Option<seq<CategoryRow>>): (r: Result<seq<Category>, ReshapeError>)
    ensures data.None? ==> r == Success([])
    ensures data.Some? ==> (r.Success? <==> AllTranslated(data.value))
  {
    match data
    case None => Success([])
    case Some(rows) => ReshapeCategories(rows)
  }

  /** Reshaping keeps the categories and their items in number and order, names from row 0. */
  lemma ReshapePreservesOrder(rows: seq<CategoryRow>)
    requires Reshape(Some(rows)).Success?
    ensures var cats := Reshape(Some(rows)).value;
      && |cats| == |rows|
      && (forall i :: 0 <= i < |rows| ==>
            && cats[i].id == rows[i].id
            && cats[i].name == rows[i].translations[0].name
            && |cats[i].items| == |rows[i].items|)
      && (forall i, j :: 0 <= i < |rows| && 0 <= j < |rows[i].items| ==>
            && cats[i].items[j].id == rows[i].items[j].id
            && cats[i].items[j].price == rows[i].items[j].price
            && cats[i].items[j].imageUrl == rows[i].items[j].imageUrl
            && cats[i].items[j].name == rows[i].items[j].translations[0].name
            && cats[i].items[j].description == rows[i].items[j].translations[0].description)
  {
  }

  /** Every reshaped item's category id is the id of the category it is nested under. */
  lemma ReshapeBackReferenced(data: Option<seq<CategoryRow>>)
    requires Reshape(data).Success?
    ensures BackReferenced(Reshape(data).value)
  {
  }

  /** The categories a settled fetch delivers, or `None` when it threw anywhere. */
  function Loaded(outcome: FetchOutcome): (r: Option<seq<Category>>)
    ensures outcome.Failed? ==> r.None?
    ensures outcome.Returned? && outcome.data.None? ==> r == Some([])
    ensures outcome.Returned? && outcome.data.Some? ==> (r.Some? <==> AllTranslated(outcome.data.value))
    ensures r.Some? ==> BackReferenced(r.value)
  {
    match outcome
    case Failed => None
    case Returned(data) =>
      match Reshape(data)
      case Failure(_) => None
      case Success(cats) =>
        ReshapeBackReferenced(data);
        Some(cats)
  }

  // ---------------------------------------------------------------------------
  // The view derived from the component state

  /** What the component renders. */
  datatype Branch = Spinner | EmptyNotice | TabbedMenu

  function RenderBranch(loading: bool, categories: seq<Category>): (b: Branch)
    ensures b == Spinner <==> loading
    ensures b == EmptyNotice <==> !loading && categories == []
    ensures b == TabbedMenu <==> !loading && categories != []
  {
    if loading then Spinner
    else if categories == [] then EmptyNotice
    else TabbedMenu
  }

  /** The tab of `c` is highlighted: `activeTab === category.id`. */
  predicate IsHighlighted(activeTab: Option<string>, c: Category) {
    activeTab == Some(c.id)
  }

  /** The category whose items are shown: the first one the active tab names, else the first one. */
  function ActiveCategory(categories: seq<Category>, activeTab: Option<string>): (c: Category)
    requires categories != []
    ensures c in categories
    ensures (exists i :: 0 <= i < |categories| && IsHighlighted(activeTab, categories[i])) ==>
      exists i :: 0 <= i < |categories| && c == categories[i] && IsHighlighted(activeTab, c)
        && forall k :: 0 <= k < i ==> !IsHighlighted(activeTab, categories[k])
    ensures (forall i :: 0 <= i < |categories| ==> !IsHighlighted(activeTab, categories[i])) ==>
      c == categories[0]
  {
    match Find(categories, (cat: Category) => activeTab == Some(cat.id))
    case Some(i) => categories[i]
    case None => categories[0]
  }

  /** The indices of the highlighted tabs. */
  function HighlightedTabs(categories: seq<Category>, activeTab: Option<string>): (s: set<nat>)
    ensures forall i: nat :: i in s <==> i < |categories| && IsHighlighted(activeTab, categories[i])
  {
    set i: nat | i < |categories| && IsHighlighted(activeTab, categories[i])
  }

  /** With distinct ids at most one tab is highlighted, and it is the one whose items are shown. */
  lemma {:induction false} AtMostOneHighlighted(categories: seq<Category>, activeTab: Option<string>)
    requires DistinctIds(categories)
    ensures |HighlightedTabs(categories, activeTab)| <= 1
    ensures forall i :: i in HighlightedTabs(categories, activeTab) ==>
      ActiveCategory(categories, activeTab) == categories[i]
  {
    var s := HighlightedTabs(categories, activeTab);
    if s != {} {
      var i :| i in s;
      assert s == {i} by {
        forall k | k in s ensures k == i {}
      }
      var c := ActiveCategory(categories, activeTab);
      var a :| 0 <= a < |categories| && c == categories[a] && IsHighlighted(activeTab, c);
      assert a in s;
    }
  }

  /** The shown category is highlighted exactly when the active tab names some category. */
  lemma ShownIsHighlightedIff(categories: seq<Category>, activeTab: Option<string>)
    requires categories != []
    ensures IsHighlighted(activeTab, ActiveCategory(categories, activeTab))
        <==> HighlightedTabs(categories, activeTab) != {}
  {
  }

  /** A thumbnail is offered only for an item whose image URL is truthy. */
  predicate HasThumbnail(item: MenuItem) {
    Truthy(item.imageUrl)
  }

  /** `if (formattedCategories.length > 0 && !activeTab) setActiveTab(formattedCategories[0].id)`. */
  function DefaultTab(current: Option<string>, loaded: seq<Category>): (t: Option<string>)
    ensures Truthy(current) || loaded == [] ==> t == current
    ensures !Truthy(current) && loaded != [] ==> t == Some(loaded[0].id)
  {
    if loaded != [] && !Truthy(current) then Some(loaded[0].id) else current
  }

  /** When the tab is defaulted, the first category is both shown and highlighted. */
  lemma DefaultTabShowsFirst(current: Option<string>, loaded: seq<Category>)
    requires loaded != [] && !Truthy(current)
    ensures ActiveCategory(loaded, DefaultTab(current, loaded)) == loaded[0]
    ensures IsHighlighted(DefaultTab(current, loaded), loaded[0])
  {
  }

  // ---------------------------------------------------------------------------
  // Clicks inside the image overlay

  /** Where a click in the overlay lands. The image is part of the content box. */
  datatype OverlayTarget = Backdrop | Content | CloseButton

  /** Handlers a click meets on its way out to the backdrop. */
  datatype Handler = Dismiss | StopPropagation

  function Bubble(target: OverlayTarget): (path: seq<Handler>)
    ensures path != [] && path[|path| - 1] == Dismiss
  {
    match target
    case Backdrop => [Dismiss]
    case Content => [StopPropagation, Dismiss]
    case CloseButton => [Dismiss, StopPropagation, Dismiss]
  }

  /** Some handler dismisses the overlay before propagation is stopped. */
  function Dismissed(path: seq<Handler>): (d: bool)
    ensures d <==> exists k :: 0 <= k < |path| && path[k] == Dismiss
                              && (forall m :: 0 <= m < k ==> path[m] != StopPropagation)
  {
    path != [] && path[0] == Dismiss
  }

  /** The backdrop and the close button dismiss the overlay; a click on its content does not. */
  lemma OverlayDismissal(target: OverlayTarget)
    ensures Dismissed(Bubble(target)) <==> target != Content
  {
  }

  // ---------------------------------------------------------------------------
  // The component state and its event handlers

  class MenuComponent {
    var categories: seq<Category>
    var loading: bool
    var activeTab: Option<string>
    var selectedImage: Option<string>

    /**
     * Loading is only ever the initial state; once categories are shown a tab id is recorded,
     * and the loaded items point back to their categories.
     */
    predicate Valid()
      reads this
    {
      && (loading ==> categories == [] && activeTab.None? && selectedImage.None?)
      && (categories != [] ==> activeTab.Some?)
      && BackReferenced(categories)
    }

    function Rendered(): (b: Branch)
      reads this
    {
      RenderBranch(loading, categories)
    }

    /** The overlay is shown: only in the tabbed view, and only for a truthy image. */
    predicate OverlayShown()
      reads this
      ensures OverlayShown() <==> !loading && categories != [] && Truthy(selectedImage)
    {
      Rendered() == TabbedMenu && Truthy(selectedImage)
    }

    constructor ()
      ensures Valid()
      ensures categories == [] && loading && activeTab.None? && selectedImage.None?
      ensures Rendered() == Spinner
    {
      categories := [];
      loading := true;
      activeTab := None;
      selectedImage := None;
    }

    /**
     * A fetch settles: success, query error or network failure, or a reshape that throws.
     * The fetch effect depends on the active tab, so defaulting it starts another fetch.
     */
    method FetchSettled(outcome: FetchOutcome) returns (refetch: bool)
      requires Valid()
      modifies this
      ensures Valid()
      ensures !loading
      ensures selectedImage == old(selectedImage)
      ensures Loaded(outcome).None? ==> categories == old(categories) && activeTab == old(activeTab)
      ensures Loaded(outcome).Some? ==>
        categories == Loaded(outcome).value && activeTab == DefaultTab(old(activeTab), categories)
      ensures Loaded(outcome).None? && old(loading) ==> Rendered() == EmptyNotice
      ensures refetch <==> activeTab != old(activeTab)
      ensures refetch ==> Loaded(outcome).Some? && Loaded(outcome).value != [] && !Truthy(old(activeTab))
    {
      var previous := activeTab;
      var loaded := Loaded(outcome);
      if loaded.Some? {
        categories := loaded.value;
        if |loaded.value| > 0 && !Truthy(activeTab) {
          activeTab := Some(loaded.value[0].id);
        }
      }
      loading := false;
      refetch := activeTab != previous;
    }

    /**
     * Click on the tab at index `i`. The fetch effect depends on the active tab, so the
     * click triggers a new fetch exactly when the active tab changes.
     */
    method SelectTab(i: nat) returns (refetch: bool)
      requires Valid() && !loading && i < |categories|
      modifies this
      ensures Valid()
      ensures categories == old(categories) && loading == old(loading) && selectedImage == old(selectedImage)
      ensures activeTab == Some(categories[i].id)
      ensures refetch <==> activeTab != old(activeTab)
      ensures IsHighlighted(activeTab, categories[i])
      ensures ActiveCategory(categories, activeTab).id == categories[i].id
      ensures DistinctIds(categories) ==> ActiveCategory(categories, activeTab) == categories[i]
    {
      var previous := activeTab;
      activeTab := Some(categories[i].id);
      refetch := activeTab != previous;
    }

    /** Click on the thumbnail of item `j` of the shown category. */
    method OpenImage(j: nat)
      requires Valid() && Rendered() == TabbedMenu
      requires j < |ActiveCategory(categories, activeTab).items|
      requires HasThumbnail(ActiveCategory(categories, activeTab).items[j])
      modifies this
      ensures Valid()
      ensures categories == old(categories) && loading == old(loading) && activeTab == old(activeTab)
      ensures selectedImage == ActiveCategory(categories, activeTab).items[j].imageUrl
      ensures OverlayShown()
    {
      selectedImage := ActiveCategory(categories, activeTab).items[j].imageUrl;
    }

    /** A click inside the shown overlay. */
    method OverlayClick(target: OverlayTarget)
      requires Valid() && OverlayShown()
      modifies this
      ensures Valid()
      ensures selectedImage == if Dismissed(Bubble(target)) then None else old(selectedImage)
      ensures categories == old(categories) && loading == old(loading) && activeTab == old(activeTab)
      ensures OverlayShown() <==> target == Content
    {
      OverlayDismissal(target);
      if Dismissed(Bubble(target)) {
        selectedImage := None;
      }
    }
  }

  /** What a caller can conclude from the handler contracts alone. */
  method Scenarios(price: Price)
  {
    // A failed first fetch ends loading with nothing loaded: the empty notice, not the spinner.
    var m := new MenuComponent();
    var refetch := m.FetchSettled(Failed);
    assert m.Rendered() == EmptyNotice && !refetch;

    // One category with one item that has no image: its tab is active and highlighted.
    var item := ItemRow("i1", price, None, [ItemTranslationRow("Feijoada", "Black bean stew")]);
    var row := CategoryRow("c1", [CategoryTranslationRow("Mains")], [item]);
    // Defaulting the tab changes an effect dependency, so a second fetch starts.
    refetch := m.FetchSettled(Returned(Some([row])));
    assert m.Rendered() == TabbedMenu;
    assert m.activeTab == Some("c1") && refetch;
    var shown := ActiveCategory(m.categories, m.activeTab);
    assert shown.name == "Mains" && |shown.items| == 1;
    assert shown.items[0].name == "Feijoada" && !HasThumbnail(shown.items[0]);

    // An item row without a translation makes the reshape throw: nothing changes but loading.
    var bare := CategoryRow("c2", [CategoryTranslationRow("Desserts")], [item.(translations := [])]);
    refetch := m.FetchSettled(Returned(Some([bare])));
    assert m.categories[0].id == "c1" && !refetch;
  }
}
