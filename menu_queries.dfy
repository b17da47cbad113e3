/**
 * The read handlers of the menu controller: lookups by id or name, the
 * full listings, the by-parent filters and the item search. Each is a
 * function of the store's current state.
 */
module MenuQueries {
  import opened Wrappers
  import opened Text
  import opened ObjectIds
  import opened CategoryModel
  import opened SubcategoryModel
  import opened ItemModel
  import opened CatalogStore
  import opened Failures

  /** An item as serialised, with the `totalAmount` virtual included. */
  datatype ItemView = ItemView(id: ObjectId, item: Item, totalAmount: int)

  /** A subcategory with `populate("items")`. */
  datatype SubcategoryView = SubcategoryView(id: ObjectId, subcategory: Subcategory, items: seq<ItemView>)

  /** A category with `populate("subcategories")` and `populate("items")`. */
  datatype CategoryView = CategoryView(id: ObjectId, category: Category, subcategories: seq<Doc<Subcategory>>, items: seq<ItemView>)

  /** Items as read: each carries a total freshly derived from its own amounts. */
  function ViewItems(docs: seq<Doc<Item>>): (r: seq<ItemView>)
    ensures |r| == |docs|
    ensures forall k :: 0 <= k < |r| ==>
      r[k].id == docs[k].id && r[k].item == docs[k].record && r[k].totalAmount == r[k].item.baseAmount - r[k].item.discount
  {
    seq(|docs|, k requires 0 <= k < |docs| => ItemView(docs[k].id, docs[k].record, TotalAmount(docs[k].record)))
  }

  function ItemViewIds(vs: seq<ItemView>): (r: seq<ObjectId>)
    ensures |r| == |vs| && forall k :: 0 <= k < |vs| ==> r[k] == vs[k].id
  {
    seq(|vs|, k requires 0 <= k < |vs| => vs[k].id)
  }

  function SubcategoryViewIds(vs: seq<SubcategoryView>): (r: seq<ObjectId>)
    ensures |r| == |vs| && forall k :: 0 <= k < |vs| ==> r[k] == vs[k].id
  {
    seq(|vs|, k requires 0 <= k < |vs| => vs[k].id)
  }

  function CategoryViewIds(vs: seq<CategoryView>): (r: seq<ObjectId>)
    ensures |r| == |vs| && forall k :: 0 <= k < |vs| ==> r[k] == vs[k].id
  {
    seq(|vs|, k requires 0 <= k < |vs| => vs[k].id)
  }

  function ViewSubcategory(s: Store, d: Doc<Subcategory>): SubcategoryView {
    SubcategoryView(d.id, d.record, ViewItems(Populate(d.record.items, s.items)))
  }

  function ViewSubcategories(s: Store, docs: seq<Doc<Subcategory>>): (r: seq<SubcategoryView>)
    ensures |r| == |docs| && forall k :: 0 <= k < |r| ==> r[k] == ViewSubcategory(s, docs[k])
  {
    seq(|docs|, k requires 0 <= k < |docs| => ViewSubcategory(s, docs[k]))
  }

  function ViewCategory(s: Store, d: Doc<Category>): CategoryView {
    CategoryView(d.id, d.record, Populate(d.record.subcategories, s.subcategories), ViewItems(Populate(d.record.items, s.items)))
  }

  // ---- Lookup by id or name ----

  function CategoryName(c: Category): string { c.name }
  function SubcategoryName(s: Subcategory): string { s.name }
  function ItemName(it: Item): string { it.name }

  /** Position `k` of the natural order holds a document named `name`. */
  predicate NamedAt<R>(order: seq<ObjectId>, m: map<ObjectId, R>, nameOf: R -> string, name: string, k: int) {
    0 <= k < |order| && order[k] in m && nameOf(m[order[k]]) == name
  }

  /** `findOne({ name })` from position `from` on: the first position holding a document with that name. */
  function FirstNamed<R>(order: seq<ObjectId>, m: map<ObjectId, R>, nameOf: R -> string, name: string, from: nat): (r: Option<nat>)
    requires from <= |order|
    ensures r.Some? ==> from <= r.value && NamedAt(order, m, nameOf, name, r.value)
    ensures r.Some? ==> forall j :: from <= j < r.value ==> !NamedAt(order, m, nameOf, name, j)
    ensures r.None? ==> forall j :: from <= j < |order| ==> !NamedAt(order, m, nameOf, name, j)
    decreases |order| - from
  {
    if from == |order| then None
    else if NamedAt(order, m, nameOf, name, from) then Some(from)
    else FirstNamed(order, m, nameOf, name, from + 1)
  }

  /**
   * The lookup rule shared by the three `*ByIdOrName` handlers: a token
   * that is a well-formed id is looked up by id only, with no fallback;
   * any other token is matched exactly against the names.
   */
  function ResolveIdOrName<R>(order: seq<ObjectId>, m: map<ObjectId, R>, nameOf: R -> string, token: string): (r: Option<ObjectId>)
    ensures r.Some? ==> r.value in m
    ensures IsObjectIdText(token) ==>
      (r.Some? <==> ParseObjectId(token).value in m) && (r.Some? ==> r.value == ParseObjectId(token).value)
    ensures !IsObjectIdText(token) ==>
      (r.Some? <==> exists k :: NamedAt(order, m, nameOf, token, k)) && (r.Some? ==> nameOf(m[r.value]) == token)
  {
    match ParseObjectId(token)
    case Some(id) => if id in m then Some(id) else None
    case None =>
      match FirstNamed(order, m, nameOf, token, 0)
      case Some(k) => Some(order[k])
      case None => None
  }

  /** `findOne({ name })` on the categories finds something exactly when the name is taken. */
  lemma NameTakenIffFound(s: Store, n: string)
    requires forall id :: id in s.categories ==> id in s.categoryOrder
    ensures NameTaken(s, n) <==> FirstNamed(s.categoryOrder, s.categories, CategoryName, n, 0).Some?
  {
    if NameTaken(s, n) {
      var id :| id in s.categories && s.categories[id].name == n;
      var k :| 0 <= k < |s.categoryOrder| && s.categoryOrder[k] == id;
      assert NamedAt(s.categoryOrder, s.categories, CategoryName, n, k);
    }
  }

  /** With unique names, the first holder of a name is its only holder. */
  lemma NameHolderUnique(s: Store, self: ObjectId, n: string)
    requires forall id :: id in s.categories ==> id in s.categoryOrder
    requires forall a, b :: a in s.categories && b in s.categories && s.categories[a].name == s.categories[b].name ==> a == b
    ensures NameTakenByOther(s, self, n) <==>
      var holder := FirstNamed(s.categoryOrder, s.categories, CategoryName, n, 0);
      holder.Some? && s.categoryOrder[holder.value] != self
  {
    NameTakenIffFound(s, n);
  }

  /** getCategoryByIdOrName. */
  function FindCategory(s: Store, token: string): (r: Result<CategoryView, Failure>)
    ensures r.Err? ==> r.error == NotFound
    ensures r.Ok? ==> r.value.id in s.categories && r.value.category == s.categories[r.value.id]
    ensures IsObjectIdText(token) ==>
      (r.Ok? <==> ParseObjectId(token).value in s.categories) && (r.Ok? ==> r.value.id == ParseObjectId(token).value)
    ensures !IsObjectIdText(token) ==>
      (r.Ok? <==> exists k :: NamedAt(s.categoryOrder, s.categories, CategoryName, token, k))
      && (r.Ok? ==> r.value.category.name == token)
  {
    match ResolveIdOrName(s.categoryOrder, s.categories, CategoryName, token)
    case Some(id) => Ok(ViewCategory(s, Doc(id, s.categories[id])))
    case None => Err(NotFound)
  }

  /** getSubcategoryByIdOrName. */
  function FindSubcategory(s: Store, token: string): (r: Result<SubcategoryView, Failure>)
    ensures r.Err? ==> r.error == NotFound
    ensures r.Ok? ==> r.value.id in s.subcategories && r.value.subcategory == s.subcategories[r.value.id]
    ensures IsObjectIdText(token) ==>
      (r.Ok? <==> ParseObjectId(token).value in s.subcategories) && (r.Ok? ==> r.value.id == ParseObjectId(token).value)
    ensures !IsObjectIdText(token) ==>
      (r.Ok? <==> exists k :: NamedAt(s.subcategoryOrder, s.subcategories, SubcategoryName, token, k))
      && (r.Ok? ==> r.value.subcategory.name == token)
  {
    match ResolveIdOrName(s.subcategoryOrder, s.subcategories, SubcategoryName, token)
    case Some(id) => Ok(ViewSubcategory(s, Doc(id, s.subcategories[id])))
    case None => Err(NotFound)
  }

  /** getItemByIdOrName. */
  function FindItem(s: Store, token: string): (r: Result<ItemView, Failure>)
    ensures r.Err? ==> r.error == NotFound
    ensures r.Ok? ==> r.value.id in s.items && r.value.item == s.items[r.value.id]
    ensures r.Ok? ==> r.value.totalAmount == r.value.item.baseAmount - r.value.item.discount
    ensures IsObjectIdText(token) ==>
      (r.Ok? <==> ParseObjectId(token).value in s.items) && (r.Ok? ==> r.value.id == ParseObjectId(token).value)
    ensures !IsObjectIdText(token) ==>
      (r.Ok? <==> exists k :: NamedAt(s.itemOrder, s.items, ItemName, token, k))
      && (r.Ok? ==> r.value.item.name == token)
  {
    match ResolveIdOrName(s.itemOrder, s.items, ItemName, token)
    case Some(id) => Ok(ViewItems([Doc(id, s.items[id])])[0])
    case None => Err(NotFound)
  }

  // ---- Full listings ----

  /** getAllCategories: every category in natural order, children populated. */
  function AllCategories(s: Store): (r: seq<CategoryView>)
    ensures forall k :: 0 <= k < |r| ==> r[k].id in s.categories && r[k] == ViewCategory(s, Doc(r[k].id, s.categories[r[k].id]))
    ensures (forall id :: id in s.categoryOrder ==> id in s.categories) ==> CategoryViewIds(r) == s.categoryOrder
  {
    var docs := Populate(s.categoryOrder, s.categories);
    seq(|docs|, k requires 0 <= k < |docs| => ViewCategory(s, docs[k]))
  }

  /** getAllSubcategories: every subcategory in natural order, items populated. */
  function AllSubcategories(s: Store): (r: seq<SubcategoryView>)
    ensures forall k :: 0 <= k < |r| ==> r[k].id in s.subcategories && r[k] == ViewSubcategory(s, Doc(r[k].id, s.subcategories[r[k].id]))
    ensures (forall id :: id in s.subcategoryOrder ==> id in s.subcategories) ==> SubcategoryViewIds(r) == s.subcategoryOrder
  {
    ViewSubcategories(s, Populate(s.subcategoryOrder, s.subcategories))
  }

  /** getAllItems: every item in natural order with its total. */
  function AllItems(s: Store): (r: seq<ItemView>)
    ensures forall k :: 0 <= k < |r| ==> r[k].id in s.items && r[k].item == s.items[r[k].id]
    ensures forall k :: 0 <= k < |r| ==> r[k].totalAmount == r[k].item.baseAmount - r[k].item.discount
    ensures (forall id :: id in s.itemOrder ==> id in s.items) ==> ItemViewIds(r) == s.itemOrder
  {
    ViewItems(Populate(s.itemOrder, s.items))
  }

  // ---- Filters by parent: an empty result is a success ----

  /** getSubcategoriesByCategoryId. */
  function SubcategoriesByCategory(s: Store, token: string): (r: Result<seq<SubcategoryView>, Failure>)
    ensures r.Err? <==> !IsObjectIdText(token)
    ensures r.Err? ==> r.error == CastFailed
    ensures r.Ok? ==> forall id :: id in SubcategoryViewIds(r.value) <==>
      id in s.subcategoryOrder && id in s.subcategories && s.subcategories[id].category == ParseObjectId(token).value
    ensures r.Ok? ==> forall k :: 0 <= k < |r.value| ==>
      r.value[k].id in s.subcategories && r.value[k] == ViewSubcategory(s, Doc(r.value[k].id, s.subcategories[r.value[k].id]))
  {
    match ParseObjectId(token)
    case None => Err(CastFailed)
    case Some(c) =>
      var ids := Children(s.subcategoryOrder, s.subcategories, SubcategoryParent, c);
      var r := ViewSubcategories(s, Populate(ids, s.subcategories));
      assert SubcategoryViewIds(r) == DocIds(Populate(ids, s.subcategories)) == ids;
      Ok(r)
  }

  /** getItemsByCategoryId. */
  function ItemsByCategory(s: Store, token: string): (r: Result<seq<ItemView>, Failure>)
    ensures r.Err? <==> !IsObjectIdText(token)
    ensures r.Err? ==> r.error == CastFailed
    ensures r.Ok? ==> forall id :: id in ItemViewIds(r.value) <==>
      id in s.itemOrder && id in s.items && s.items[id].category == Some(ParseObjectId(token).value)
    ensures r.Ok? ==> forall k :: 0 <= k < |r.value| ==>
      r.value[k].id in s.items && r.value[k].item == s.items[r.value[k].id]
      && r.value[k].totalAmount == r.value[k].item.baseAmount - r.value[k].item.discount
  {
    match ParseObjectId(token)
    case None => Err(CastFailed)
    case Some(c) =>
      var ids := Children(s.itemOrder, s.items, ItemCategory, c);
      var r := ViewItems(Populate(ids, s.items));
      assert ItemViewIds(r) == DocIds(Populate(ids, s.items)) == ids;
      Ok(r)
  }

  /** getItemsBySubcategoryId. */
  function ItemsBySubcategory(s: Store, token: string): (r: Result<seq<ItemView>, Failure>)
    ensures r.Err? <==> !IsObjectIdText(token)
    ensures r.Err? ==> r.error == CastFailed
    ensures r.Ok? ==> forall id :: id in ItemViewIds(r.value) <==>
      id in s.itemOrder && id in s.items && s.items[id].subcategory == Some(ParseObjectId(token).value)
    ensures r.Ok? ==> forall k :: 0 <= k < |r.value| ==>
      r.value[k].id in s.items && r.value[k].item == s.items[r.value[k].id]
      && r.value[k].totalAmount == r.value[k].item.baseAmount - r.value[k].item.discount
  {
    match ParseObjectId(token)
    case None => Err(CastFailed)
    case Some(c) =>
      var ids := Children(s.itemOrder, s.items, ItemSubcategory, c);
      var r := ViewItems(Populate(ids, s.items));
      assert ItemViewIds(r) == DocIds(Populate(ids, s.items)) == ids;
      Ok(r)
  }

  // ---- Search: an empty result is a failure ----

  /** The ids, in natural order, of the items whose name contains `term` ignoring case. */
  function Matching(order: seq<ObjectId>, items: map<ObjectId, Item>, term: string): (r: seq<ObjectId>)
    ensures forall x :: x in r <==> x in order && x in items && ContainsIgnoreCase(items[x].name, term)
    decreases |order|
  {
    if order == [] then []
    else
      var last := order[|order| - 1];
      var init := order[..|order| - 1];
      assert forall x :: x in order <==> x in init || x == last;
      Matching(init, items, term) + (if last in items && ContainsIgnoreCase(items[last].name, term) then [last] else [])
  }

  /** searchItemByName. */
  function SearchItems(s: Store, term: Option<string>): (r: Result<seq<ItemView>, Failure>)
    ensures (term.None? || term.value == "") ==> r == Err(MissingQuery)
    ensures term.Some? && term.value != "" ==>
      (r.Err? <==> forall id :: id in s.itemOrder && id in s.items ==> !ContainsIgnoreCase(s.items[id].name, term.value))
    ensures term.Some? && term.value != "" && r.Err? ==> r.error == NotFound
    ensures r.Ok? ==> r.value != [] && forall id :: id in ItemViewIds(r.value) <==>
      id in s.itemOrder && id in s.items && ContainsIgnoreCase(s.items[id].name, term.value)
    ensures r.Ok? ==> forall k :: 0 <= k < |r.value| ==>
      r.value[k].id in s.items && r.value[k].item == s.items[r.value[k].id]
      && r.value[k].totalAmount == r.value[k].item.baseAmount - r.value[k].item.discount
  {
    if term.None? || term.value == "" then Err(MissingQuery)
    else
      var ids := Matching(s.itemOrder, s.items, term.value);
      if ids == [] then Err(NotFound)
      else
        var r := ViewItems(Populate(ids, s.items));
        assert ItemViewIds(r) == DocIds(Populate(ids, s.items)) == ids;
        assert ids[0] in ids;
        Ok(r)
  }
}
