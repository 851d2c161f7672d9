/** The menu screen: a catalogue of main categories, each with
    subcategories of items; a cart the diner adds items to; a
    case-insensitive search over every item; and the scroll handler that
    marks the subcategory whose section sits under the tab bar. The
    catalogue is a parameter here, and the measured positions of the
    sections are inputs of the scroll handler. */
module Menu {
  import opened Common
  import opened Text

  datatype MenuItem = MenuItem(id: string, name: string, description: string, price: real, image: string)

  datatype SubCategory = SubCategory(id: string, nameKey: string, fallbackName: string, items: seq<MenuItem>)

  datatype MenuCategory = MenuCategory(
    id: string,
    titleKey: string,
    fallbackTitle: string,
    image: string,
    subCategories: seq<SubCategory>)

  /** A cart line: the item as it was first added, and how many. */
  datatype CartLine = CartLine(item: MenuItem, quantity: int)

  /* ---------------------------------------------------------------- cart */

  predicate HasId(cart: seq<CartLine>, id: string) {
    exists i :: 0 <= i < |cart| && cart[i].item.id == id
  }

  /** No two lines of the cart are for the same item id. */
  predicate UniqueIds(cart: seq<CartLine>) {
    forall i, j :: 0 <= i < j < |cart| ==> cart[i].item.id != cart[j].item.id
  }

  /** The `map` of `addToCart` for an id already in the cart: every line for
      that id gets one more, every other line stays as it is. */
  function IncrementId(cart: seq<CartLine>, id: string): (r: seq<CartLine>)
    ensures |r| == |cart|
    ensures forall i :: 0 <= i < |r| ==>
              r[i].item == cart[i].item &&
              r[i].quantity == (if cart[i].item.id == id then cart[i].quantity + 1 else cart[i].quantity)
  {
    if cart == [] then []
    else
      var line := cart[0];
      [if line.item.id == id then line.(quantity := line.quantity + 1) else line] + IncrementId(cart[1..], id)
  }

  /** `addToCart(item)`: one more of a line already holding the item's id,
      or a new line with quantity 1 at the end. */
  function WithItemAdded(cart: seq<CartLine>, item: MenuItem): (r: seq<CartLine>)
    ensures HasId(r, item.id)
    ensures HasId(cart, item.id) ==> r == IncrementId(cart, item.id)
    ensures !HasId(cart, item.id) ==> r == cart + [CartLine(item, 1)]
  {
    if HasId(cart, item.id) then
      IncrementKeepsId(cart, item.id);
      IncrementId(cart, item.id)
    else
      var r := cart + [CartLine(item, 1)];
      assert r[|cart|].item.id == item.id;
      r
  }

  lemma IncrementKeepsId(cart: seq<CartLine>, id: string)
    requires HasId(cart, id)
    ensures HasId(IncrementId(cart, id), id)
  {
    var k :| 0 <= k < |cart| && cart[k].item.id == id;
    assert IncrementId(cart, id)[k].item.id == id;
  }

  /** With unique ids, adding an item already in the cart raises that one
      line by one and leaves every other line as it was. */
  lemma AddExistingBumpsOneLine(cart: seq<CartLine>, item: MenuItem, k: nat)
    requires UniqueIds(cart) && k < |cart| && cart[k].item.id == item.id
    ensures WithItemAdded(cart, item) == cart[k := cart[k].(quantity := cart[k].quantity + 1)]
  {
    var r := WithItemAdded(cart, item);
    var expected := cart[k := cart[k].(quantity := cart[k].quantity + 1)];
    assert |r| == |expected|;
    forall i | 0 <= i < |r| ensures r[i] == expected[i] {
      if i != k {
        assert cart[i].item.id != item.id;
      }
    }
  }

  /** Adding to the cart keeps the item ids unique. */
  lemma AddKeepsIdsUnique(cart: seq<CartLine>, item: MenuItem)
    requires UniqueIds(cart)
    ensures UniqueIds(WithItemAdded(cart, item))
  {
    var r := WithItemAdded(cart, item);
    if !HasId(cart, item.id) {
      forall i, j | 0 <= i < j < |r| ensures r[i].item.id != r[j].item.id {
        if j == |cart| {
          assert r[i] == cart[i];
        }
      }
    }
  }

  /** `getTotalItems`: the summed quantities. */
  function TotalItems(cart: seq<CartLine>): int {
    if cart == [] then 0 else cart[0].quantity + TotalItems(cart[1..])
  }

  /** What one line costs: its price times its quantity. */
  function LineTotal(line: CartLine): real {
    line.item.price * line.quantity as real
  }

  /** `getTotalPrice`: the summed price times quantity. */
  function TotalPrice(cart: seq<CartLine>): real {
    if cart == [] then 0.0 else LineTotal(cart[0]) + TotalPrice(cart[1..])
  }

  /** Both totals of a cart with one line replaced move by that line's
      change alone. */
  lemma {:induction false} TotalsAfterUpdate(cart: seq<CartLine>, k: nat, line: CartLine)
    requires k < |cart|
    ensures TotalItems(cart[k := line]) == TotalItems(cart) - cart[k].quantity + line.quantity
    ensures TotalPrice(cart[k := line]) == TotalPrice(cart) - LineTotal(cart[k]) + LineTotal(line)
  {
    var updated := cart[k := line];
    if k == 0 {
      assert updated[1..] == cart[1..];
    } else {
      assert updated[1..] == cart[1..][k - 1 := line];
      TotalsAfterUpdate(cart[1..], k - 1, line);
    }
  }

  /** Both totals of a cart with a line appended grow by that line. */
  lemma {:induction false} TotalsAfterAppend(cart: seq<CartLine>, line: CartLine)
    ensures TotalItems(cart + [line]) == TotalItems(cart) + line.quantity
    ensures TotalPrice(cart + [line]) == TotalPrice(cart) + LineTotal(line)
  {
    if cart == [] {
      assert [line][1..] == [];
      assert cart + [line] == [line];
    } else {
      assert (cart + [line])[1..] == cart[1..] + [line];
      TotalsAfterAppend(cart[1..], line);
    }
  }

  /** Each `addToCart` adds exactly one to the item count and the item's
      price to the total price, provided the cart's ids are unique and a
      line for the item's id carries the item's price. */
  lemma AddRaisesTotals(cart: seq<CartLine>, item: MenuItem)
    requires UniqueIds(cart)
    requires forall i :: 0 <= i < |cart| && cart[i].item.id == item.id ==> cart[i].item.price == item.price
    ensures TotalItems(WithItemAdded(cart, item)) == TotalItems(cart) + 1
    ensures TotalPrice(WithItemAdded(cart, item)) == TotalPrice(cart) + item.price
  {
    if HasId(cart, item.id) {
      var k :| 0 <= k < |cart| && cart[k].item.id == item.id;
      AddExistingRaisesTotals(cart, item, k);
    } else {
      TotalsAfterAppend(cart, CartLine(item, 1));
      assert LineTotal(CartLine(item, 1)) == item.price;
    }
  }

  lemma AddExistingRaisesTotals(cart: seq<CartLine>, item: MenuItem, k: nat)
    requires UniqueIds(cart) && k < |cart| && cart[k].item.id == item.id && cart[k].item.price == item.price
    ensures TotalItems(WithItemAdded(cart, item)) == TotalItems(cart) + 1
    ensures TotalPrice(WithItemAdded(cart, item)) == TotalPrice(cart) + item.price
  {
    var line := CartLine(cart[k].item, cart[k].quantity + 1);
    assert cart[k].(quantity := cart[k].quantity + 1) == line;
    AddExistingBumpsOneLine(cart, item, k);
    TotalsAfterUpdate(cart, k, line);
    OneMore(cart[k], line);
    ShiftBy(TotalPrice(cart), TotalPrice(cart[k := line]), LineTotal(cart[k]), LineTotal(line), item.price);
  }

  lemma ShiftBy(total: real, updated: real, before: real, after: real, step: real)
    requires updated == total - before + after && after == before + step
    ensures updated == total + step
  {
  }

  lemma OneMore(base: CartLine, line: CartLine)
    requires line.item == base.item && line.quantity == base.quantity + 1
    ensures LineTotal(line) == LineTotal(base) + base.item.price
  {
  }

  /* -------------------------------------------------------------- search */

  /** An item of the flattened catalogue, with the fallback title of its
      main category. */
  datatype SearchEntry = SearchEntry(item: MenuItem, mainCategoryName: string)

  function EntriesOf(items: seq<MenuItem>, title: string): (r: seq<SearchEntry>)
    ensures |r| == |items|
    ensures forall i :: 0 <= i < |r| ==> r[i] == SearchEntry(items[i], title)
  {
    seq(|items|, i requires 0 <= i < |items| => SearchEntry(items[i], title))
  }

  function SubCategoryEntries(subs: seq<SubCategory>, title: string): seq<SearchEntry> {
    if subs == [] then [] else EntriesOf(subs[0].items, title) + SubCategoryEntries(subs[1..], title)
  }

  /** `allItems`: every item of every subcategory of every category, in
      catalogue order. */
  function AllItems(categories: seq<MenuCategory>): seq<SearchEntry> {
    if categories == [] then []
    else SubCategoryEntries(categories[0].subCategories, categories[0].fallbackTitle) + AllItems(categories[1..])
  }

  /** The item at position `k` of subcategory `j` of category `i`. */
  predicate ListedAt(categories: seq<MenuCategory>, e: SearchEntry, i: int, j: int, k: int) {
    && 0 <= i < |categories|
    && 0 <= j < |categories[i].subCategories|
    && 0 <= k < |categories[i].subCategories[j].items|
    && e == SearchEntry(categories[i].subCategories[j].items[k], categories[i].fallbackTitle)
  }

  lemma {:induction false} SubCategoryEntriesMembership(subs: seq<SubCategory>, title: string, e: SearchEntry)
    ensures e in SubCategoryEntries(subs, title) <==>
            exists j, k :: 0 <= j < |subs| && 0 <= k < |subs[j].items| && e == SearchEntry(subs[j].items[k], title)
  {
    if subs != [] {
      SubCategoryEntriesMembership(subs[1..], title, e);
      var here := EntriesOf(subs[0].items, title);
      if e in here {
        var k :| 0 <= k < |here| && here[k] == e;
        assert 0 <= k < |subs[0].items| && e == SearchEntry(subs[0].items[k], title);
      }
      if j, k :| 0 <= j < |subs| && 0 <= k < |subs[j].items| && e == SearchEntry(subs[j].items[k], title) {
        if j == 0 {
          assert here[k] == e;
        } else {
          assert subs[1..][j - 1] == subs[j];
        }
      }
      if j, k :| 0 <= j < |subs[1..]| && 0 <= k < |subs[1..][j].items| && e == SearchEntry(subs[1..][j].items[k], title) {
        assert subs[j + 1] == subs[1..][j];
      }
    }
  }

  /** An entry is in `allItems` exactly when the catalogue lists its item
      in a subcategory of a category with that title. */
  lemma {:induction false} AllItemsMembership(categories: seq<MenuCategory>, e: SearchEntry)
    ensures e in AllItems(categories) <==> exists i, j, k :: ListedAt(categories, e, i, j, k)
  {
    if categories != [] {
      var c := categories[0];
      AllItemsMembership(categories[1..], e);
      SubCategoryEntriesMembership(c.subCategories, c.fallbackTitle, e);
      if e in SubCategoryEntries(c.subCategories, c.fallbackTitle) {
        var j, k :| 0 <= j < |c.subCategories| && 0 <= k < |c.subCategories[j].items|
                    && e == SearchEntry(c.subCategories[j].items[k], c.fallbackTitle);
        assert ListedAt(categories, e, 0, j, k);
      }
      if i, j, k :| ListedAt(categories, e, i, j, k) {
        if i > 0 {
          assert ListedAt(categories[1..], e, i - 1, j, k);
        }
      }
      if i, j, k :| ListedAt(categories[1..], e, i, j, k) {
        assert ListedAt(categories, e, i + 1, j, k);
      }
    }
  }

  /** The catalogue is flattened in order: the items of the categories of
      `a + b` are those of `a` followed by those of `b`. */
  lemma {:induction false} AllItemsAppend(a: seq<MenuCategory>, b: seq<MenuCategory>)
    ensures AllItems(a + b) == AllItems(a) + AllItems(b)
  {
    if a == [] {
      assert a + b == b;
    } else {
      assert (a + b)[0] == a[0] && (a + b)[1..] == a[1..] + b;
      AllItemsAppend(a[1..], b);
    }
  }

  /** The search test of an item: its lowercased name or description
      contains the lowercased query, taken as typed (not trimmed). */
  predicate Matches(item: MenuItem, query: string) {
    Contains(Lower(item.name), Lower(query)) || Contains(Lower(item.description), Lower(query))
  }

  /** The `filter` over the flattened catalogue: the matching entries, in
      order. */
  function FilterMatches(entries: seq<SearchEntry>, query: string): (r: seq<SearchEntry>)
    ensures |r| <= |entries|
    ensures forall e :: e in r <==> e in entries && Matches(e.item, query)
  {
    if entries == [] then []
    else if Matches(entries[0].item, query) then [entries[0]] + FilterMatches(entries[1..], query)
    else FilterMatches(entries[1..], query)
  }

  /** The filter keeps catalogue order and repeats: filtering `a + b` gives
      the matches of `a` followed by those of `b`. */
  lemma {:induction false} FilterMatchesAppend(a: seq<SearchEntry>, b: seq<SearchEntry>, query: string)
    ensures FilterMatches(a + b, query) == FilterMatches(a, query) + FilterMatches(b, query)
  {
    if a == [] {
      assert a + b == b;
    } else {
      assert (a + b)[0] == a[0] && (a + b)[1..] == a[1..] + b;
      FilterMatchesAppend(a[1..], b, query);
    }
  }

  /** `isSearching`: the query holds a character that is not whitespace. */
  function IsSearching(query: string): (r: bool)
    ensures r <==> exists i :: 0 <= i < |query| && !IsWhitespace(query[i])
  {
    TrimEmptyIffBlank(query);
    |Trim(query)| > 0
  }

  /** `searchResults`: nothing for an empty or blank query; otherwise
      exactly the catalogue entries whose item matches it. */
  function SearchResults(categories: seq<MenuCategory>, query: string): (r: seq<SearchEntry>)
    ensures !IsSearching(query) ==> r == []
    ensures IsSearching(query) ==> r == FilterMatches(AllItems(categories), query)
    ensures IsSearching(query) ==>
              forall e :: e in r <==> (exists i, j, k :: ListedAt(categories, e, i, j, k)) && Matches(e.item, query)
  {
    if Trim(query) != [] then
      var r := FilterMatches(AllItems(categories), query);
      assert forall e :: e in r <==> (exists i, j, k :: ListedAt(categories, e, i, j, k)) && Matches(e.item, query) by {
        forall e ensures e in r <==> (exists i, j, k :: ListedAt(categories, e, i, j, k)) && Matches(e.item, query) {
          AllItemsMembership(categories, e);
        }
      }
      r
    else []
  }

  /** The search ignores letter case: two queries that differ only in the
      case of their letters give the same results. */
  lemma SearchIgnoresCase(categories: seq<MenuCategory>, q1: string, q2: string)
    requires SameUpToCase(q1, q2)
    ensures SearchResults(categories, q1) == SearchResults(categories, q2)
  {
    SameUpToCaseLower(q1, q2);
    FilterSameMatches(AllItems(categories), q1, q2);
    SameUpToCaseSearching(q1, q2);
  }

  /** A query is blank exactly when a query differing only in letter case
      is: letters are not whitespace. */
  lemma SameUpToCaseSearching(q1: string, q2: string)
    requires SameUpToCase(q1, q2)
    ensures IsSearching(q1) == IsSearching(q2)
  {
    SameUpToCaseWhitespace(q1, q2);
  }

  /** Queries that match the same items filter alike. */
  lemma {:induction false} FilterSameMatches(entries: seq<SearchEntry>, q1: string, q2: string)
    requires forall item: MenuItem :: Matches(item, q1) == Matches(item, q2)
    ensures FilterMatches(entries, q1) == FilterMatches(entries, q2)
  {
    if entries != [] {
      FilterSameMatches(entries[1..], q1, q2);
    }
  }

  /** A search finds every listed item whose name contains the query as
      typed, whatever the letter case of the query. */
  lemma SearchFindsName(categories: seq<MenuCategory>, query: string, i: int, j: int, k: int)
    requires IsSearching(query)
    requires 0 <= i < |categories| && 0 <= j < |categories[i].subCategories|
    requires 0 <= k < |categories[i].subCategories[j].items|
    requires Contains(categories[i].subCategories[j].items[k].name, query)
    ensures SearchEntry(categories[i].subCategories[j].items[k], categories[i].fallbackTitle)
            in SearchResults(categories, query)
  {
    var e := SearchEntry(categories[i].subCategories[j].items[k], categories[i].fallbackTitle);
    assert ListedAt(categories, e, i, j, k);
    LowerKeepsContains(e.item.name, query);
  }

  /* ---------------------------------------------------------- scroll spy */

  /** A subcategory of the flattened catalogue with the id of its main
      category. */
  datatype SubCategoryEntry = SubCategoryEntry(sub: SubCategory, mainCategoryId: string)

  function SubCategoriesOf(c: MenuCategory): (r: seq<SubCategoryEntry>)
    ensures |r| == |c.subCategories|
    ensures forall j :: 0 <= j < |r| ==> r[j] == SubCategoryEntry(c.subCategories[j], c.id)
  {
    seq(|c.subCategories|, j requires 0 <= j < |c.subCategories| => SubCategoryEntry(c.subCategories[j], c.id))
  }

  /** `allSubCategories`: every subcategory, in catalogue order, each with
      the id of the category it belongs to. */
  function AllSubCategories(categories: seq<MenuCategory>): (r: seq<SubCategoryEntry>)
    ensures forall e :: e in r ==> exists i :: 0 <= i < |categories| && e.mainCategoryId == categories[i].id
  {
    if categories == [] then []
    else
      var rest := AllSubCategories(categories[1..]);
      assert forall e :: e in rest ==> exists i :: 0 <= i < |categories| && e.mainCategoryId == categories[i].id by {
        forall e | e in rest ensures exists i :: 0 <= i < |categories| && e.mainCategoryId == categories[i].id {
          var i :| 0 <= i < |categories[1..]| && e.mainCategoryId == categories[1..][i].id;
          assert categories[i + 1] == categories[1..][i];
        }
      }
      SubCategoriesOf(categories[0]) + rest
  }

  /** Subcategory `j` of category `i`, tagged with that category's id. */
  predicate SubListedAt(categories: seq<MenuCategory>, e: SubCategoryEntry, i: int, j: int) {
    && 0 <= i < |categories|
    && 0 <= j < |categories[i].subCategories|
    && e == SubCategoryEntry(categories[i].subCategories[j], categories[i].id)
  }

  /** An entry is in `allSubCategories` exactly when it is a subcategory of
      some category, tagged with the id of that category. */
  lemma {:induction false} AllSubCategoriesMembership(categories: seq<MenuCategory>, e: SubCategoryEntry)
    ensures e in AllSubCategories(categories) <==> exists i, j :: SubListedAt(categories, e, i, j)
  {
    if categories != [] {
      var c := categories[0];
      AllSubCategoriesMembership(categories[1..], e);
      var here := SubCategoriesOf(c);
      if e in here {
        var j :| 0 <= j < |here| && here[j] == e;
        assert SubListedAt(categories, e, 0, j);
      }
      if i, j :| SubListedAt(categories, e, i, j) {
        if i == 0 {
          assert here[j] == e;
        } else {
          assert SubListedAt(categories[1..], e, i - 1, j);
        }
      }
      if i, j :| SubListedAt(categories[1..], e, i, j) {
        assert SubListedAt(categories, e, i + 1, j);
      }
    }
  }

  /** The subcategories are flattened in catalogue order: those of `a + b`
      are those of `a` followed by those of `b`. */
  lemma {:induction false} AllSubCategoriesAppend(a: seq<MenuCategory>, b: seq<MenuCategory>)
    ensures AllSubCategories(a + b) == AllSubCategories(a) + AllSubCategories(b)
  {
    if a == [] {
      assert a + b == b;
    } else {
      assert (a + b)[0] == a[0] && (a + b)[1..] == a[1..] + b;
      AllSubCategoriesAppend(a[1..], b);
    }
  }

  /** The measured section of a subcategory: its top relative to the top of
      the scroll container, and its height. */
  datatype Section = Section(top: real, height: real)

  /** The section reaches across the line 100 pixels below the top of the
      container. */
  predicate UnderTabs(s: Section) {
    s.top <= 100.0 && s.top + s.height > 100.0
  }

  /** The subcategory at `i` has a mounted section that is under the tabs. */
  predicate VisibleAt(subs: seq<SubCategoryEntry>, sections: map<string, Section>, i: int)
    requires 0 <= i < |subs|
  {
    subs[i].sub.id in sections && UnderTabs(sections[subs[i].sub.id])
  }

  /** The `for` loop of the scroll handler: the first subcategory, in order,
      whose section is mounted and under the tabs; subcategories without a
      mounted section are skipped. */
  method FindVisibleSection(subs: seq<SubCategoryEntry>, sections: map<string, Section>) returns (found: Option<nat>)
    ensures found.Some? ==> found.value < |subs| && VisibleAt(subs, sections, found.value)
    ensures found.Some? ==> forall j :: 0 <= j < found.value ==> !VisibleAt(subs, sections, j)
    ensures found.None? ==> forall j :: 0 <= j < |subs| ==> !VisibleAt(subs, sections, j)
  {
    var i := 0;
    while i < |subs|
      invariant 0 <= i <= |subs|
      invariant forall j :: 0 <= j < i ==> !VisibleAt(subs, sections, j)
    {
      var id := subs[i].sub.id;
      if id in sections {
        var section := sections[id];
        if section.top <= 100.0 && section.top + section.height > 100.0 {
          return Some(i);
        }
      }
      i := i + 1;
    }
    return None;
  }

  /* -------------------------------------------------------------- screen */

  /** `menuCategories.find(c => c.id === id)`, as a position: the first
      category from `from` on with that id, or none. */
  function FindCategory(categories: seq<MenuCategory>, id: string, from: nat): (r: Option<nat>)
    requires from <= |categories|
    ensures r.Some? ==> from <= r.value < |categories| && categories[r.value].id == id
    ensures r.Some? ==> forall j :: from <= j < r.value ==> categories[j].id != id
    ensures r.None? ==> forall j :: from <= j < |categories| ==> categories[j].id != id
    decreases |categories| - from
  {
    if from == |categories| then None
    else if categories[from].id == id then Some(from)
    else FindCategory(categories, id, from + 1)
  }

  /** The screen's state: the catalogue, the chosen main category and
      subcategory tab (none before the diner picks one), the cart and the
      search text. */
  class MenuScreen {
    const categories: seq<MenuCategory>
    var selectedCategory: Option<string>
    var activeSubCategory: Option<string>
    var cart: seq<CartLine>
    var searchQuery: string

    ghost predicate Valid()
      reads this
    {
      UniqueIds(cart)
    }

    constructor (categories: seq<MenuCategory>)
      ensures Valid() && this.categories == categories
      ensures selectedCategory.None? && activeSubCategory.None? && cart == [] && searchQuery == []
    {
      this.categories := categories;
      selectedCategory := None;
      activeSubCategory := None;
      cart := [];
      searchQuery := [];
    }

    /** `addToCart(item)`. */
    method AddToCart(item: MenuItem)
      requires Valid()
      modifies this`cart
      ensures Valid() && cart == WithItemAdded(old(cart), item)
    {
      AddKeepsIdsUnique(cart, item);
      if exists i :: 0 <= i < |cart| && cart[i].item.id == item.id {
        cart := IncrementId(cart, item.id);
      } else {
        cart := cart + [CartLine(item, 1)];
      }
    }

    /** A category button of the start face: that category is chosen. */
    method SelectCategory(id: string)
      modifies this`selectedCategory
      ensures selectedCategory == Some(id)
    {
      selectedCategory := Some(id);
    }

    /** The effect run when the menu opens: with `skipCategorySelection`
        and no category chosen yet, the food category is chosen; otherwise
        the choice is kept. */
    method Open(skipCategorySelection: bool)
      modifies this`selectedCategory
      ensures skipCategorySelection && old(selectedCategory).None? ==> selectedCategory == Some("food")
      ensures !(skipCategorySelection && old(selectedCategory).None?) ==> selectedCategory == old(selectedCategory)
    {
      if skipCategorySelection && selectedCategory.None? {
        selectedCategory := Some("food");
      }
    }

    /** `handleClose`: both the chosen category and the active tab are
        cleared; the cart and the search text are kept. */
    method Close()
      modifies this`selectedCategory, this`activeSubCategory
      ensures selectedCategory.None? && activeSubCategory.None?
    {
      selectedCategory := None;
      activeSubCategory := None;
    }

    /** The effect that picks the first tab: once a category is chosen and
        no tab is active, the first subcategory of the first category with
        that id becomes active, if it has any; otherwise nothing changes. */
    method SetInitialSubCategory()
      modifies this`activeSubCategory
      ensures old(selectedCategory).Some? && old(activeSubCategory).None?
              && FindCategory(categories, selectedCategory.value, 0).Some?
              && |categories[FindCategory(categories, selectedCategory.value, 0).value].subCategories| > 0
              ==> activeSubCategory
                  == Some(categories[FindCategory(categories, selectedCategory.value, 0).value].subCategories[0].id)
      ensures !(old(selectedCategory).Some? && old(activeSubCategory).None?
                && FindCategory(categories, selectedCategory.value, 0).Some?
                && |categories[FindCategory(categories, selectedCategory.value, 0).value].subCategories| > 0)
              ==> activeSubCategory == old(activeSubCategory)
    {
      if selectedCategory.Some? && activeSubCategory.None? {
        var found := FindCategory(categories, selectedCategory.value, 0);
        if found.Some? && |categories[found.value].subCategories| > 0 {
          activeSubCategory := Some(categories[found.value].subCategories[0].id);
        }
      }
    }

    /** The search box. */
    method SetSearchQuery(query: string)
      modifies this`searchQuery
      ensures searchQuery == query
    {
      searchQuery := query;
    }

    /** `searchResults` for the current query: the catalogue entries that
        match it, none while the query is blank. */
    function Results(): (r: seq<SearchEntry>)
      reads this
      ensures !IsSearching(searchQuery) ==> r == []
      ensures forall e :: e in r ==> e in AllItems(categories) && Matches(e.item, searchQuery)
    {
      SearchResults(categories, searchQuery)
    }

    /** The scroll handler, attached only while a main category is chosen:
        the first subcategory whose section is under the tabs becomes the
        active tab, and its main category becomes the chosen one if it was
        not; with no such section nothing changes. */
    method HandleScroll(sections: map<string, Section>)
      modifies this`activeSubCategory, this`selectedCategory
      ensures old(selectedCategory).None? ==>
                activeSubCategory == old(activeSubCategory) && selectedCategory == old(selectedCategory)
      ensures old(selectedCategory).Some? ==>
                var subs := AllSubCategories(categories);
                if exists i :: 0 <= i < |subs| && VisibleAt(subs, sections, i)
                then exists i :: 0 <= i < |subs| && VisibleAt(subs, sections, i)
                       && (forall j :: 0 <= j < i ==> !VisibleAt(subs, sections, j))
                       && activeSubCategory == Some(subs[i].sub.id)
                       && selectedCategory == Some(subs[i].mainCategoryId)
                else activeSubCategory == old(activeSubCategory) && selectedCategory == old(selectedCategory)
    {
      if selectedCategory.None? {
        return;
      }
      var subs := AllSubCategories(categories);
      var found := FindVisibleSection(subs, sections);
      if found.Some? {
        var entry := subs[found.value];
        activeSubCategory := Some(entry.sub.id);
        if Some(entry.mainCategoryId) != selectedCategory {
          selectedCategory := Some(entry.mainCategoryId);
        }
      }
    }
  }
}
