/**
 * The backing store of the menu catalog: three collections keyed by
 * ObjectId, each with its natural (insertion) order, and the supply of
 * fresh ids. `Consistent` is the invariant every controller operation
 * keeps; the store transitions below are what the operations do to it.
 */
module CatalogStore {
  import opened Wrappers
  import opened ObjectIds
  import opened Schema
  import opened CategoryModel
  import opened SubcategoryModel
  import opened ItemModel

  /** A document as returned by a query: its id and its stored record. */
  datatype Doc<R> = Doc(id: ObjectId, record: R)

  datatype Store = Store(
    categories: map<ObjectId, Category>,
    categoryOrder: seq<ObjectId>,
    subcategories: map<ObjectId, Subcategory>,
    subcategoryOrder: seq<ObjectId>,
    items: map<ObjectId, Item>,
    itemOrder: seq<ObjectId>,
    nextId: ObjectId)

  const EmptyStore: Store := Store(map[], [], map[], [], map[], [], 0)

  // The three parent references a child list indexes.
  function SubcategoryParent(s: Subcategory): Option<ObjectId> { Some(s.category) }
  function ItemCategory(it: Item): Option<ObjectId> { it.category }
  function ItemSubcategory(it: Item): Option<ObjectId> { it.subcategory }

  /**
   * `find({ <parent>: p })`: the ids, in natural order, of the documents
   * whose parent reference is `p`.
   */
  function Children<R>(order: seq<ObjectId>, m: map<ObjectId, R>, parentOf: R -> Option<ObjectId>, p: ObjectId): (r: seq<ObjectId>)
    ensures forall x :: x in r <==> x in order && x in m && parentOf(m[x]) == Some(p)
    decreases |order|
  {
    if order == [] then []
    else
      var last := order[|order| - 1];
      var init := order[..|order| - 1];
      assert forall x :: x in order <==> x in init || x == last;
      Children(init, m, parentOf, p) + (if last in m && parentOf(m[last]) == Some(p) then [last] else [])
  }

  lemma ChildrenAppend<R>(order: seq<ObjectId>, m: map<ObjectId, R>, parentOf: R -> Option<ObjectId>, p: ObjectId, n: ObjectId)
    ensures Children(order + [n], m, parentOf, p)
         == Children(order, m, parentOf, p) + (if n in m && parentOf(m[n]) == Some(p) then [n] else [])
  {
    assert (order + [n])[..|order|] == order;
  }

  /** The filter only looks at the parent references of the documents in `order`. */
  lemma {:induction false} ChildrenFrame<R>(order: seq<ObjectId>, m: map<ObjectId, R>, m': map<ObjectId, R>,
                                           parentOf: R -> Option<ObjectId>, p: ObjectId)
    requires forall id :: id in order ==> (id in m <==> id in m') && (id in m ==> parentOf(m[id]) == parentOf(m'[id]))
    ensures Children(order, m, parentOf, p) == Children(order, m', parentOf, p)
    decreases |order|
  {
    if order != [] {
      var init := order[..|order| - 1];
      assert forall id :: id in init ==> id in order;
      ChildrenFrame(init, m, m', parentOf, p);
    }
  }

  /** A parent no document refers to has no children. */
  lemma {:induction false} ChildrenOfNonParent<R>(order: seq<ObjectId>, m: map<ObjectId, R>, parentOf: R -> Option<ObjectId>, p: ObjectId)
    requires forall id :: id in m ==> parentOf(m[id]) != Some(p)
    ensures Children(order, m, parentOf, p) == []
    decreases |order|
  {
    if order != [] {
      ChildrenOfNonParent(order[..|order| - 1], m, parentOf, p);
    }
  }

  function DocIds<R>(docs: seq<Doc<R>>): (r: seq<ObjectId>)
    ensures |r| == |docs| && forall k :: 0 <= k < |docs| ==> r[k] == docs[k].id
  {
    seq(|docs|, k requires 0 <= k < |docs| => docs[k].id)
  }

  /**
   * `populate`: the documents the ids refer to, in the order of `ids`;
   * an id with no document is dropped.
   */
  function Populate<R>(ids: seq<ObjectId>, m: map<ObjectId, R>): (r: seq<Doc<R>>)
    ensures |r| <= |ids|
    ensures forall k :: 0 <= k < |r| ==> r[k].id in ids && r[k].id in m && r[k].record == m[r[k].id]
    ensures (forall id :: id in ids ==> id in m) ==> DocIds(r) == ids
    decreases |ids|
  {
    if ids == [] then []
    else
      var rest := Populate(ids[1..], m);
      assert forall id :: id in ids[1..] ==> id in ids;
      if ids[0] in m then
        var r := [Doc(ids[0], m[ids[0]])] + rest;
        assert (forall id :: id in ids ==> id in m) ==> DocIds(r) == [ids[0]] + DocIds(rest);
        r
      else rest
  }

  ghost predicate NoDup(s: seq<ObjectId>) {
    forall i, j :: 0 <= i < j < |s| ==> s[i] != s[j]
  }

  /** `order` lists the keys of `m` once each, and every key is below the next fresh id. */
  ghost predicate Indexes<R>(order: seq<ObjectId>, m: map<ObjectId, R>, next: ObjectId) {
    && NoDup(order)
    && (forall id :: id in order <==> id in m)
    && (forall id :: id in m ==> id < next)
  }

  ghost predicate CategoriesOk(s: Store) {
    && (forall id :: id in s.categories ==> CategoryOk(s.categories[id]))
    && (forall a, b :: a in s.categories && b in s.categories && s.categories[a].name == s.categories[b].name ==> a == b)
  }

  ghost predicate SubcategoriesOk(s: Store) {
    forall id :: id in s.subcategories ==> SubcategoryOk(s.subcategories[id]) && s.subcategories[id].category in s.categories
  }

  ghost predicate ItemsOk(s: Store) {
    forall id :: id in s.items ==>
      && ItemOk(s.items[id])
      && (s.items[id].category.Some? ==> s.items[id].category.value in s.categories)
      && (s.items[id].subcategory.Some? ==> s.items[id].subcategory.value in s.subcategories)
  }

  /**
   * Every child list equals the natural-order filter of the children by
   * their parent reference: the list and the references agree both ways.
   */
  ghost predicate Linked(s: Store) {
    && (forall c :: c in s.categories ==>
          && s.categories[c].subcategories == Children(s.subcategoryOrder, s.subcategories, SubcategoryParent, c)
          && s.categories[c].items == Children(s.itemOrder, s.items, ItemCategory, c))
    && (forall sc :: sc in s.subcategories ==>
          s.subcategories[sc].items == Children(s.itemOrder, s.items, ItemSubcategory, sc))
  }

  ghost predicate Consistent(s: Store) {
    && Indexes(s.categoryOrder, s.categories, s.nextId)
    && Indexes(s.subcategoryOrder, s.subcategories, s.nextId)
    && Indexes(s.itemOrder, s.items, s.nextId)
    && CategoriesOk(s)
    && SubcategoriesOk(s)
    && ItemsOk(s)
    && Linked(s)
  }

  lemma EmptyStoreConsistent()
    ensures Consistent(EmptyStore)
  {
  }

  /** Some category already has the name `n`. */
  ghost predicate NameTaken(s: Store, n: string) {
    exists id :: id in s.categories && s.categories[id].name == n
  }

  /** Some category other than `self` has the name `n`. */
  ghost predicate NameTakenByOther(s: Store, self: ObjectId, n: string) {
    exists id :: id in s.categories && id != self && s.categories[id].name == n
  }

  // ---- Store transitions ----

  /**
   * `category.save()` of a new category: it is stored under the next
   * fresh id, which goes to the end of the natural order; every other
   * category and both other collections are untouched.
   */
  function AddCategory(s: Store, c: Category): (r: Store)
    ensures r.categories.Keys == s.categories.Keys + {s.nextId} && r.categories[s.nextId] == c
    ensures forall k :: k in s.categories && k != s.nextId ==> r.categories[k] == s.categories[k]
    ensures r.categoryOrder == s.categoryOrder + [s.nextId] && r.nextId > s.nextId
    ensures r.subcategories == s.subcategories && r.items == s.items
  {
    s.(categories := s.categories[s.nextId := c],
       categoryOrder := s.categoryOrder + [s.nextId],
       nextId := s.nextId + 1)
  }

  /**
   * The committed transaction of createSubcategory: the new document under
   * the fresh id, and that id appended to its parent's `subcategories`;
   * no other category and no item changes.
   */
  function AddSubcategory(s: Store, sc: Subcategory): (r: Store)
    requires sc.category in s.categories
    ensures r.subcategories.Keys == s.subcategories.Keys + {s.nextId} && r.subcategories[s.nextId] == sc
    ensures r.subcategoryOrder == s.subcategoryOrder + [s.nextId] && r.nextId > s.nextId
    ensures r.categories.Keys == s.categories.Keys
    ensures r.categories[sc.category] == s.categories[sc.category].(subcategories := s.categories[sc.category].subcategories + [s.nextId])
    ensures forall k :: k in s.categories && k != sc.category ==> r.categories[k] == s.categories[k]
    ensures r.items == s.items
  {
    var id := s.nextId;
    var parent := s.categories[sc.category];
    s.(subcategories := s.subcategories[id := sc],
       subcategoryOrder := s.subcategoryOrder + [id],
       categories := s.categories[sc.category := parent.(subcategories := parent.subcategories + [id])],
       nextId := id + 1)
  }

  /**
   * item.save() inside the createItem session, before the parent is
   * looked up: the item is stored under the fresh id and no parent is touched.
   */
  function SaveItem(s: Store, it: Item): (r: Store)
    ensures r.items.Keys == s.items.Keys + {s.nextId} && r.items[s.nextId] == it
    ensures r.itemOrder == s.itemOrder + [s.nextId] && r.nextId > s.nextId
    ensures r.categories == s.categories && r.subcategories == s.subcategories
  {
    s.(items := s.items[s.nextId := it], itemOrder := s.itemOrder + [s.nextId], nextId := s.nextId + 1)
  }

  /**
   * The committed transaction of createItem: the saved item, and its id
   * appended to the `items` list of its one parent; the other collection
   * of parents is untouched.
   */
  function AddItem(s: Store, it: Item): (r: Store)
    requires it.category.Some? ==> it.category.value in s.categories
    requires it.category.None? ==> it.subcategory.Some? && it.subcategory.value in s.subcategories
    ensures r.items.Keys == s.items.Keys + {s.nextId} && r.items[s.nextId] == it
    ensures r.itemOrder == s.itemOrder + [s.nextId] && r.nextId > s.nextId
    ensures it.category.Some? ==>
      && r.categories.Keys == s.categories.Keys
      && r.categories[it.category.value].items == s.categories[it.category.value].items + [s.nextId]
      && r.subcategories == s.subcategories
    ensures it.category.None? ==>
      && r.subcategories.Keys == s.subcategories.Keys
      && r.subcategories[it.subcategory.value].items == s.subcategories[it.subcategory.value].items + [s.nextId]
      && r.categories == s.categories
  {
    var id := s.nextId;
    var s1 := SaveItem(s, it);
    if it.category.Some? then
      var parent := s.categories[it.category.value];
      s1.(categories := s.categories[it.category.value := parent.(items := parent.items + [id])])
    else
      var parent := s.subcategories[it.subcategory.value];
      s1.(subcategories := s.subcategories[it.subcategory.value := parent.(items := parent.items + [id])])
  }

  /** `findByIdAndUpdate` on a category: the one record under `id` becomes `c`; nothing else changes. */
  function WithCategory(s: Store, id: ObjectId, c: Category): (r: Store)
    ensures r.categories.Keys == s.categories.Keys + {id} && r.categories[id] == c
    ensures forall k :: k in s.categories && k != id ==> r.categories[k] == s.categories[k]
    ensures r.categoryOrder == s.categoryOrder && r.nextId == s.nextId
    ensures r.subcategories == s.subcategories && r.items == s.items
  {
    s.(categories := s.categories[id := c])
  }

  /** `findByIdAndUpdate` on a subcategory: the one record under `id` becomes `sc`; nothing else changes. */
  function WithSubcategory(s: Store, id: ObjectId, sc: Subcategory): (r: Store)
    ensures r.subcategories.Keys == s.subcategories.Keys + {id} && r.subcategories[id] == sc
    ensures forall k :: k in s.subcategories && k != id ==> r.subcategories[k] == s.subcategories[k]
    ensures r.subcategoryOrder == s.subcategoryOrder && r.nextId == s.nextId
    ensures r.categories == s.categories && r.items == s.items
  {
    s.(subcategories := s.subcategories[id := sc])
  }

  /** `findByIdAndUpdate` on an item: the one record under `id` becomes `it`; nothing else changes. */
  function WithItem(s: Store, id: ObjectId, it: Item): (r: Store)
    ensures r.items.Keys == s.items.Keys + {id} && r.items[id] == it
    ensures forall k :: k in s.items && k != id ==> r.items[k] == s.items[k]
    ensures r.itemOrder == s.itemOrder && r.nextId == s.nextId
    ensures r.categories == s.categories && r.subcategories == s.subcategories
  {
    s.(items := s.items[id := it])
  }

  // ---- Each transition keeps the store consistent ----

  lemma AppendFresh(order: seq<ObjectId>, n: ObjectId)
    requires NoDup(order) && n !in order
    ensures NoDup(order + [n])
  {
  }

  /** Inserting a document under the next fresh id keeps the index of its collection. */
  lemma IndexesInsert<R>(order: seq<ObjectId>, m: map<ObjectId, R>, next: ObjectId, v: R)
    requires Indexes(order, m, next)
    ensures Indexes(order + [next], m[next := v], next + 1)
  {
    AppendFresh(order, next);
  }

  /** Spending a fresh id on another collection keeps this one's index. */
  lemma IndexesSkip<R>(order: seq<ObjectId>, m: map<ObjectId, R>, next: ObjectId)
    requires Indexes(order, m, next)
    ensures Indexes(order, m, next + 1)
  {
  }

  /** Replacing a stored document keeps the index of its collection. */
  lemma IndexesReplace<R>(order: seq<ObjectId>, m: map<ObjectId, R>, next: ObjectId, id: ObjectId, v: R)
    requires Indexes(order, m, next) && id in m
    ensures Indexes(order, m[id := v], next)
  {
  }

  lemma AddCategoryRecordsOk(s: Store, c: Category)
    requires CategoriesOk(s) && SubcategoriesOk(s) && ItemsOk(s)
    requires forall id :: id in s.categories ==> id < s.nextId
    requires CategoryOk(c) && !NameTaken(s, c.name)
    ensures CategoriesOk(AddCategory(s, c))
    ensures SubcategoriesOk(AddCategory(s, c))
    ensures ItemsOk(AddCategory(s, c))
  {
  }

  lemma AddCategoryLinked(s: Store, c: Category)
    requires forall id :: id in s.subcategories ==> id < s.nextId
    requires forall id :: id in s.items ==> id < s.nextId
    requires SubcategoriesOk(s) && ItemsOk(s) && Linked(s)
    requires s.nextId !in s.categories
    requires c.subcategories == [] && c.items == []
    ensures Linked(AddCategory(s, c))
  {
    var s' := AddCategory(s, c);
    var n := s.nextId;
    ChildrenOfNonParent(s.subcategoryOrder, s.subcategories, SubcategoryParent, n);
    ChildrenOfNonParent(s.itemOrder, s.items, ItemCategory, n);
    assert s'.subcategories == s.subcategories && s'.items == s.items;
    forall k | k in s'.categories
      ensures s'.categories[k].subcategories == Children(s'.subcategoryOrder, s'.subcategories, SubcategoryParent, k)
      ensures s'.categories[k].items == Children(s'.itemOrder, s'.items, ItemCategory, k)
    {
      if k != n {
        assert s'.categories[k] == s.categories[k];
      }
    }
  }

  lemma AddCategoryKeepsConsistent(s: Store, c: Category)
    requires Consistent(s)
    requires CategoryOk(c) && c.subcategories == [] && c.items == []
    requires !NameTaken(s, c.name)
    ensures Consistent(AddCategory(s, c))
  {
    IndexesInsert(s.categoryOrder, s.categories, s.nextId, c);
    IndexesSkip(s.subcategoryOrder, s.subcategories, s.nextId);
    IndexesSkip(s.itemOrder, s.items, s.nextId);
    AddCategoryRecordsOk(s, c);
    AddCategoryLinked(s, c);
  }

  /** One category's `subcategories` list after createSubcategory still matches the filter. */
  lemma AddSubcategoryListed(s: Store, sc: Subcategory, k: ObjectId)
    requires forall id :: id in s.subcategoryOrder ==> id in s.subcategories
    requires forall id :: id in s.subcategories ==> id < s.nextId
    requires sc.category in s.categories && k in s.categories
    requires s.categories[k].subcategories == Children(s.subcategoryOrder, s.subcategories, SubcategoryParent, k)
    ensures var s' := AddSubcategory(s, sc);
      s'.categories[k].subcategories == Children(s'.subcategoryOrder, s'.subcategories, SubcategoryParent, k)
  {
    var s' := AddSubcategory(s, sc);
    var n := s.nextId;
    ChildrenAppend(s.subcategoryOrder, s'.subcategories, SubcategoryParent, k, n);
    ChildrenFrame(s.subcategoryOrder, s.subcategories, s'.subcategories, SubcategoryParent, k);
  }

  /** One subcategory's `items` list after createSubcategory still matches the filter. */
  lemma AddSubcategoryItemsListed(s: Store, sc: Subcategory, q: ObjectId)
    requires sc.category in s.categories && sc.items == []
    requires forall id :: id in s.items ==> s.items[id].subcategory != Some(s.nextId)
    requires q in s.subcategories ==> s.subcategories[q].items == Children(s.itemOrder, s.items, ItemSubcategory, q)
    requires q in AddSubcategory(s, sc).subcategories
    ensures var s' := AddSubcategory(s, sc);
      s'.subcategories[q].items == Children(s'.itemOrder, s'.items, ItemSubcategory, q)
  {
    if q == s.nextId {
      ChildrenOfNonParent(s.itemOrder, s.items, ItemSubcategory, q);
    }
  }

  lemma AddSubcategoryLinked(s: Store, sc: Subcategory)
    requires Indexes(s.subcategoryOrder, s.subcategories, s.nextId)
    requires ItemsOk(s) && Linked(s)
    requires sc.category in s.categories && sc.items == []
    ensures Linked(AddSubcategory(s, sc))
  {
    var s' := AddSubcategory(s, sc);
    forall k | k in s'.categories
      ensures s'.categories[k].subcategories == Children(s'.subcategoryOrder, s'.subcategories, SubcategoryParent, k)
      ensures s'.categories[k].items == Children(s'.itemOrder, s'.items, ItemCategory, k)
    {
      AddSubcategoryListed(s, sc, k);
    }
    assert forall id :: id in s.items ==> s.items[id].subcategory != Some(s.nextId);
    forall q | q in s'.subcategories
      ensures s'.subcategories[q].items == Children(s'.itemOrder, s'.items, ItemSubcategory, q)
    {
      AddSubcategoryItemsListed(s, sc, q);
    }
  }

  lemma AddSubcategoryRecordsOk(s: Store, sc: Subcategory)
    requires CategoriesOk(s) && SubcategoriesOk(s) && ItemsOk(s)
    requires SubcategoryOk(sc) && sc.category in s.categories
    ensures CategoriesOk(AddSubcategory(s, sc))
    ensures SubcategoriesOk(AddSubcategory(s, sc))
    ensures ItemsOk(AddSubcategory(s, sc))
  {
    var s' := AddSubcategory(s, sc);
    var p := sc.category;
    assert s'.categories == s.categories[p := s.categories[p].(subcategories := s.categories[p].subcategories + [s.nextId])];
    assert s'.categories.Keys == s.categories.Keys;
    assert forall k :: k in s.categories ==> s'.categories[k].name == s.categories[k].name;
    assert s'.items == s.items;
  }

  lemma AddSubcategoryKeepsConsistent(s: Store, sc: Subcategory)
    requires Consistent(s)
    requires SubcategoryOk(sc) && sc.category in s.categories && sc.items == []
    ensures Consistent(AddSubcategory(s, sc))
  {
    IndexesSkip(s.categoryOrder, s.categories, s.nextId);
    IndexesInsert(s.subcategoryOrder, s.subcategories, s.nextId, sc);
    IndexesSkip(s.itemOrder, s.items, s.nextId);
    AddSubcategoryLinked(s, sc);
    AddSubcategoryRecordsOk(s, sc);
  }

  /** Inserting a fresh document adds it at the end of its parent's children and nowhere else. */
  lemma ChildrenInsert<R>(order: seq<ObjectId>, m: map<ObjectId, R>, parentOf: R -> Option<ObjectId>, p: ObjectId, n: ObjectId, v: R)
    requires n !in order
    ensures Children(order + [n], m[n := v], parentOf, p)
         == Children(order, m, parentOf, p) + (if parentOf(v) == Some(p) then [n] else [])
  {
    ChildrenAppend(order, m[n := v], parentOf, p, n);
    ChildrenFrame(order, m, m[n := v], parentOf, p);
  }

  lemma AddItemLinkedUnderCategory(s: Store, it: Item)
    requires s.nextId !in s.itemOrder
    requires Linked(s)
    requires it.category.Some? && it.category.value in s.categories && it.subcategory.None?
    ensures Linked(AddItem(s, it))
  {
    var s' := AddItem(s, it);
    var n := s.nextId;
    assert s'.subcategories == s.subcategories && s'.subcategoryOrder == s.subcategoryOrder;
    assert s'.items == s.items[n := it] && s'.itemOrder == s.itemOrder + [n];
    forall k | k in s'.categories
      ensures s'.categories[k].subcategories == Children(s'.subcategoryOrder, s'.subcategories, SubcategoryParent, k)
      ensures s'.categories[k].items == Children(s'.itemOrder, s'.items, ItemCategory, k)
    {
      ChildrenInsert(s.itemOrder, s.items, ItemCategory, k, n, it);
    }
    forall k | k in s'.subcategories
      ensures s'.subcategories[k].items == Children(s'.itemOrder, s'.items, ItemSubcategory, k)
    {
      ChildrenInsert(s.itemOrder, s.items, ItemSubcategory, k, n, it);
    }
  }

  lemma AddItemLinkedUnderSubcategory(s: Store, it: Item)
    requires s.nextId !in s.itemOrder
    requires Linked(s)
    requires it.category.None? && it.subcategory.Some? && it.subcategory.value in s.subcategories
    ensures Linked(AddItem(s, it))
  {
    var s' := AddItem(s, it);
    var n := s.nextId;
    assert s'.categories == s.categories;
    assert s'.items == s.items[n := it] && s'.itemOrder == s.itemOrder + [n];
    forall k | k in s'.categories
      ensures s'.categories[k].subcategories == Children(s'.subcategoryOrder, s'.subcategories, SubcategoryParent, k)
      ensures s'.categories[k].items == Children(s'.itemOrder, s'.items, ItemCategory, k)
    {
      ChildrenFrame(s.subcategoryOrder, s.subcategories, s'.subcategories, SubcategoryParent, k);
      ChildrenInsert(s.itemOrder, s.items, ItemCategory, k, n, it);
    }
    forall k | k in s'.subcategories
      ensures s'.subcategories[k].items == Children(s'.itemOrder, s'.items, ItemSubcategory, k)
    {
      ChildrenInsert(s.itemOrder, s.items, ItemSubcategory, k, n, it);
    }
  }

  /** createItem changes no name, no category key and no subcategory parent. */
  lemma AddItemShape(s: Store, it: Item)
    requires it.category.Some? ==> it.category.value in s.categories
    requires it.category.None? ==> it.subcategory.Some? && it.subcategory.value in s.subcategories
    ensures AddItem(s, it).items == s.items[s.nextId := it]
    ensures AddItem(s, it).categories.Keys == s.categories.Keys
    ensures AddItem(s, it).subcategories.Keys == s.subcategories.Keys
    ensures forall k :: k in s.categories ==> AddItem(s, it).categories[k].name == s.categories[k].name
    ensures forall k :: k in s.subcategories ==>
      AddItem(s, it).subcategories[k].name == s.subcategories[k].name && AddItem(s, it).subcategories[k].category == s.subcategories[k].category
  {
    var s' := AddItem(s, it);
    if it.category.Some? {
      var p := it.category.value;
      assert s'.categories == s.categories[p := s.categories[p].(items := s.categories[p].items + [s.nextId])];
      assert s'.subcategories == s.subcategories;
    } else {
      var p := it.subcategory.value;
      assert s'.categories == s.categories;
      assert s'.subcategories == s.subcategories[p := s.subcategories[p].(items := s.subcategories[p].items + [s.nextId])];
    }
  }

  lemma AddItemRecordsOk(s: Store, it: Item)
    requires CategoriesOk(s) && SubcategoriesOk(s) && ItemsOk(s)
    requires ItemOk(it)
    requires it.category.Some? ==> it.category.value in s.categories
    requires it.subcategory.Some? ==> it.subcategory.value in s.subcategories
    ensures CategoriesOk(AddItem(s, it))
    ensures SubcategoriesOk(AddItem(s, it))
    ensures ItemsOk(AddItem(s, it))
  {
    var s' := AddItem(s, it);
    AddItemShape(s, it);
    forall k | k in s'.items
      ensures ItemOk(s'.items[k])
      ensures s'.items[k].category.Some? ==> s'.items[k].category.value in s'.categories
      ensures s'.items[k].subcategory.Some? ==> s'.items[k].subcategory.value in s'.subcategories
    {
      if k != s.nextId {
        assert s'.items[k] == s.items[k];
      }
    }
  }

  lemma AddItemKeepsConsistent(s: Store, it: Item)
    requires Consistent(s)
    requires ItemOk(it)
    requires it.category.Some? ==> it.category.value in s.categories
    requires it.subcategory.Some? ==> it.subcategory.value in s.subcategories
    ensures Consistent(AddItem(s, it))
  {
    IndexesSkip(s.categoryOrder, s.categories, s.nextId);
    IndexesSkip(s.subcategoryOrder, s.subcategories, s.nextId);
    IndexesInsert(s.itemOrder, s.items, s.nextId, it);
    if it.category.Some? {
      AddItemLinkedUnderCategory(s, it);
    } else {
      AddItemLinkedUnderSubcategory(s, it);
    }
    AddItemRecordsOk(s, it);
  }

  lemma WithCategoryRecordsOk(s: Store, id: ObjectId, c: Category)
    requires CategoriesOk(s) && SubcategoriesOk(s) && ItemsOk(s) && id in s.categories
    requires CategoryOk(c) && !NameTakenByOther(s, id, c.name)
    ensures CategoriesOk(WithCategory(s, id, c))
    ensures SubcategoriesOk(WithCategory(s, id, c))
    ensures ItemsOk(WithCategory(s, id, c))
  {
  }

  lemma WithCategoryLinked(s: Store, id: ObjectId, c: Category)
    requires Linked(s) && id in s.categories
    requires c.subcategories == s.categories[id].subcategories && c.items == s.categories[id].items
    ensures Linked(WithCategory(s, id, c))
  {
  }

  lemma WithCategoryKeepsConsistent(s: Store, id: ObjectId, c: Category)
    requires Consistent(s) && id in s.categories
    requires CategoryOk(c) && !NameTakenByOther(s, id, c.name)
    requires c.subcategories == s.categories[id].subcategories && c.items == s.categories[id].items
    ensures Consistent(WithCategory(s, id, c))
  {
    IndexesReplace(s.categoryOrder, s.categories, s.nextId, id, c);
    WithCategoryRecordsOk(s, id, c);
    WithCategoryLinked(s, id, c);
  }

  lemma WithSubcategoryLinked(s: Store, id: ObjectId, sc: Subcategory)
    requires Linked(s) && id in s.subcategories
    requires sc.category == s.subcategories[id].category && sc.items == s.subcategories[id].items
    ensures Linked(WithSubcategory(s, id, sc))
  {
    var s' := WithSubcategory(s, id, sc);
    forall k | k in s'.categories
      ensures s'.categories[k].subcategories == Children(s'.subcategoryOrder, s'.subcategories, SubcategoryParent, k)
    {
      ChildrenFrame(s.subcategoryOrder, s.subcategories, s'.subcategories, SubcategoryParent, k);
    }
  }

  lemma WithSubcategoryRecordsOk(s: Store, id: ObjectId, sc: Subcategory)
    requires CategoriesOk(s) && SubcategoriesOk(s) && ItemsOk(s) && id in s.subcategories
    requires SubcategoryOk(sc) && sc.category == s.subcategories[id].category
    ensures CategoriesOk(WithSubcategory(s, id, sc))
    ensures SubcategoriesOk(WithSubcategory(s, id, sc))
    ensures ItemsOk(WithSubcategory(s, id, sc))
  {
  }

  lemma WithSubcategoryKeepsConsistent(s: Store, id: ObjectId, sc: Subcategory)
    requires Consistent(s) && id in s.subcategories
    requires SubcategoryOk(sc)
    requires sc.category == s.subcategories[id].category && sc.items == s.subcategories[id].items
    ensures Consistent(WithSubcategory(s, id, sc))
  {
    IndexesReplace(s.subcategoryOrder, s.subcategories, s.nextId, id, sc);
    WithSubcategoryRecordsOk(s, id, sc);
    WithSubcategoryLinked(s, id, sc);
  }

  lemma WithItemLinked(s: Store, id: ObjectId, it: Item)
    requires Linked(s) && id in s.items
    requires it.category == s.items[id].category && it.subcategory == s.items[id].subcategory
    ensures Linked(WithItem(s, id, it))
  {
    var s' := WithItem(s, id, it);
    forall k | k in s'.categories
      ensures s'.categories[k].items == Children(s'.itemOrder, s'.items, ItemCategory, k)
    {
      ChildrenFrame(s.itemOrder, s.items, s'.items, ItemCategory, k);
    }
    forall k | k in s'.subcategories
      ensures s'.subcategories[k].items == Children(s'.itemOrder, s'.items, ItemSubcategory, k)
    {
      ChildrenFrame(s.itemOrder, s.items, s'.items, ItemSubcategory, k);
    }
  }

  lemma WithItemRecordsOk(s: Store, id: ObjectId, it: Item)
    requires CategoriesOk(s) && SubcategoriesOk(s) && ItemsOk(s) && id in s.items
    requires ItemOk(it) && it.category == s.items[id].category && it.subcategory == s.items[id].subcategory
    ensures CategoriesOk(WithItem(s, id, it))
    ensures SubcategoriesOk(WithItem(s, id, it))
    ensures ItemsOk(WithItem(s, id, it))
  {
  }

  lemma WithItemKeepsConsistent(s: Store, id: ObjectId, it: Item)
    requires Consistent(s) && id in s.items
    requires ItemOk(it)
    requires it.category == s.items[id].category && it.subcategory == s.items[id].subcategory
    ensures Consistent(WithItem(s, id, it))
  {
    IndexesReplace(s.itemOrder, s.items, s.nextId, id, it);
    WithItemRecordsOk(s, id, it);
    WithItemLinked(s, id, it);
  }
}
