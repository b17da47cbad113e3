/**
 * What a consistent catalog promises its readers: the child lists agree
 * with the parent references, the by-parent filters and the populated
 * lookups return exactly those lists, names and ids resolve to the one
 * document that has them, and the writes change only what they name.
 */
module CatalogProperties {
  import opened Wrappers
  import opened Text
  import opened ObjectIds
  import opened CategoryModel
  import opened SubcategoryModel
  import opened ItemModel
  import opened CatalogStore
  import opened MenuQueries

  // ---- Links ----

  /** Filtering a duplicate-free order yields a duplicate-free list. */
  lemma {:induction false} ChildrenNoDup<R>(order: seq<ObjectId>, m: map<ObjectId, R>, parentOf: R -> Option<ObjectId>, p: ObjectId)
    requires NoDup(order)
    ensures NoDup(Children(order, m, parentOf, p))
    decreases |order|
  {
    if order != [] {
      var last := order[|order| - 1];
      var init := order[..|order| - 1];
      assert NoDup(init) by {
        forall i, j | 0 <= i < j < |init| ensures init[i] != init[j] {
          assert init[i] == order[i] && init[j] == order[j];
        }
      }
      ChildrenNoDup(init, m, parentOf, p);
      if last in m && parentOf(m[last]) == Some(p) {
        assert last !in init by {
          forall k | 0 <= k < |init| ensures init[k] != last {
            assert init[k] == order[k];
          }
        }
        AppendFresh(Children(init, m, parentOf, p), last);
      }
    }
  }

  /** No child id appears twice in any list. */
  lemma ChildListsNoDup(s: Store)
    requires Consistent(s)
    ensures forall c :: c in s.categories ==> NoDup(s.categories[c].subcategories) && NoDup(s.categories[c].items)
    ensures forall q :: q in s.subcategories ==> NoDup(s.subcategories[q].items)
  {
    forall c | c in s.categories
      ensures NoDup(s.categories[c].subcategories) && NoDup(s.categories[c].items)
    {
      ChildrenNoDup(s.subcategoryOrder, s.subcategories, SubcategoryParent, c);
      ChildrenNoDup(s.itemOrder, s.items, ItemCategory, c);
    }
    forall q | q in s.subcategories
      ensures NoDup(s.subcategories[q].items)
    {
      ChildrenNoDup(s.itemOrder, s.items, ItemSubcategory, q);
    }
  }

  /** A subcategory is listed under a category exactly when it names that category as its parent. */
  lemma SubcategoryListedIffParent(s: Store, c: ObjectId, x: ObjectId)
    requires Linked(s) && (forall id :: id in s.subcategories ==> id in s.subcategoryOrder) && c in s.categories
    ensures x in s.categories[c].subcategories <==> x in s.subcategories && s.subcategories[x].category == c
  {
  }

  /**
   * Every item is listed under its one parent and in no other list: not
   * under another category, not under any subcategory when its parent is
   * a category, and the other way round.
   */
  lemma ItemListedUnderItsParentOnly(s: Store, x: ObjectId)
    requires Linked(s) && ItemsOk(s) && x in s.itemOrder && x in s.items
    ensures forall c :: c in s.categories ==> (x in s.categories[c].items <==> s.items[x].category == Some(c))
    ensures forall q :: q in s.subcategories ==> (x in s.subcategories[q].items <==> s.items[x].subcategory == Some(q))
    ensures s.items[x].category.Some? ==>
      && s.items[x].category.value in s.categories
      && x in s.categories[s.items[x].category.value].items
      && forall q :: q in s.subcategories ==> x !in s.subcategories[q].items
    ensures s.items[x].subcategory.Some? ==>
      && s.items[x].subcategory.value in s.subcategories
      && x in s.subcategories[s.items[x].subcategory.value].items
      && forall c :: c in s.categories ==> x !in s.categories[c].items
  {
    assert ItemOk(s.items[x]);
  }

  // ---- Filters by parent ----

  /**
   * getSubcategoriesByCategoryId with any spelling of a stored category's
   * id returns exactly its `subcategories` list, in order.
   */
  lemma SubcategoryFilterIsChildList(s: Store, token: string, c: ObjectId)
    requires Linked(s) && c in s.categories && ParseObjectId(token) == Some(c)
    ensures SubcategoriesByCategory(s, token).Ok?
    ensures SubcategoryViewIds(SubcategoriesByCategory(s, token).value) == s.categories[c].subcategories
  {
    var ids := Children(s.subcategoryOrder, s.subcategories, SubcategoryParent, c);
    assert ids == s.categories[c].subcategories;
    var docs := Populate(ids, s.subcategories);
    assert DocIds(docs) == ids;
    assert SubcategoryViewIds(ViewSubcategories(s, docs)) == DocIds(docs);
  }

  /** getItemsByCategoryId with any spelling of a stored category's id returns exactly its `items` list, in order. */
  lemma ItemFilterByCategoryIsChildList(s: Store, token: string, c: ObjectId)
    requires Linked(s) && c in s.categories && ParseObjectId(token) == Some(c)
    ensures ItemsByCategory(s, token).Ok?
    ensures ItemViewIds(ItemsByCategory(s, token).value) == s.categories[c].items
  {
    var ids := Children(s.itemOrder, s.items, ItemCategory, c);
    assert ids == s.categories[c].items;
    var docs := Populate(ids, s.items);
    assert DocIds(docs) == ids;
    assert ItemViewIds(ViewItems(docs)) == DocIds(docs);
  }

  /** getItemsBySubcategoryId with any spelling of a stored subcategory's id returns exactly its `items` list, in order. */
  lemma ItemFilterBySubcategoryIsChildList(s: Store, token: string, q: ObjectId)
    requires Linked(s) && q in s.subcategories && ParseObjectId(token) == Some(q)
    ensures ItemsBySubcategory(s, token).Ok?
    ensures ItemViewIds(ItemsBySubcategory(s, token).value) == s.subcategories[q].items
  {
    var ids := Children(s.itemOrder, s.items, ItemSubcategory, q);
    assert ids == s.subcategories[q].items;
    var docs := Populate(ids, s.items);
    assert DocIds(docs) == ids;
    assert ItemViewIds(ViewItems(docs)) == DocIds(docs);
  }

  // ---- Lookups ----

  /** Every stored document is found by the text form of its id. */
  lemma StoredIdIsFound(s: Store, id: ObjectId)
    requires id < Pow16(IdDigits)
    ensures id in s.categories ==> FindCategory(s, IdText(id)).Ok? && FindCategory(s, IdText(id)).value.id == id
    ensures id in s.subcategories ==> FindSubcategory(s, IdText(id)).Ok? && FindSubcategory(s, IdText(id)).value.id == id
    ensures id in s.items ==> FindItem(s, IdText(id)).Ok? && FindItem(s, IdText(id)).value.id == id
  {
    IdTextRoundTrip(id);
  }

  /**
   * Category names are unique, so a name lookup succeeds exactly when the
   * name is taken and returns the one category that holds it.
   */
  lemma CategoryNameLookupUnique(s: Store, token: string)
    requires Consistent(s) && !IsObjectIdText(token)
    ensures FindCategory(s, token).Ok? <==> NameTaken(s, token)
    ensures FindCategory(s, token).Ok? ==>
      forall id :: id in s.categories && s.categories[id].name == token ==> id == FindCategory(s, token).value.id
  {
    NameTakenIffFound(s, token);
  }

  /**
   * A found category comes with all its children: the populated lists
   * hold every id of its child lists, in order, and each child points
   * back at the category.
   */
  lemma FoundCategoryHasAllChildren(s: Store, token: string)
    requires Linked(s) && FindCategory(s, token).Ok?
    ensures var v := FindCategory(s, token).value;
      && DocIds(v.subcategories) == v.category.subcategories
      && (forall k :: 0 <= k < |v.subcategories| ==> v.subcategories[k].record.category == v.id)
    ensures var v := FindCategory(s, token).value;
      && ItemViewIds(v.items) == v.category.items
      && (forall k :: 0 <= k < |v.items| ==> v.items[k].item.category == Some(v.id))
  {
    var v := FindCategory(s, token).value;
    var docs := Populate(v.category.items, s.items);
    assert ItemViewIds(ViewItems(docs)) == DocIds(docs);
  }

  /** A found subcategory comes with all its items, in order, each pointing back at it. */
  lemma FoundSubcategoryHasAllItems(s: Store, token: string)
    requires Linked(s) && FindSubcategory(s, token).Ok?
    ensures var v := FindSubcategory(s, token).value;
      && ItemViewIds(v.items) == v.subcategory.items
      && (forall k :: 0 <= k < |v.items| ==> v.items[k].item.subcategory == Some(v.id))
  {
    var v := FindSubcategory(s, token).value;
    var docs := Populate(v.subcategory.items, s.items);
    assert ItemViewIds(ViewItems(docs)) == DocIds(docs);
  }

  // ---- Search ----

  lemma {:induction false} MatchingIgnoresTermCase(order: seq<ObjectId>, items: map<ObjectId, Item>, term: string)
    ensures Matching(order, items, term) == Matching(order, items, Lower(term))
    decreases |order|
  {
    if order != [] {
      var last := order[|order| - 1];
      MatchingIgnoresTermCase(order[..|order| - 1], items, term);
      if last in items {
        ContainsIgnoresTermCase(items[last].name, term);
      }
    }
  }

  /** The search does not depend on the case of the term. */
  lemma SearchIgnoresTermCase(s: Store, term: string)
    ensures SearchItems(s, Some(term)) == SearchItems(s, Some(Lower(term)))
  {
    MatchingIgnoresTermCase(s.itemOrder, s.items, term);
  }

  // ---- What the writes leave alone ----

  /**
   * createSubcategory changes one category, its parent, and only by
   * appending the new id to its `subcategories`; the new id was unused.
   */
  lemma AddSubcategoryAppendsToParent(s: Store, sc: Subcategory)
    requires Consistent(s) && sc.category in s.categories
    ensures var s' := AddSubcategory(s, sc);
      && s.nextId !in s.subcategories && s'.subcategories == s.subcategories[s.nextId := sc]
      && s'.categories.Keys == s.categories.Keys
      && s'.categories[sc.category] == s.categories[sc.category].(subcategories := s.categories[sc.category].subcategories + [s.nextId])
      && (forall c :: c in s.categories && c != sc.category ==> s'.categories[c] == s.categories[c])
      && s'.items == s.items
  {
  }

  /**
   * createItem appends the new id to the `items` list of exactly its one
   * parent; every other category and subcategory is unchanged.
   */
  lemma AddItemAppendsToOneParent(s: Store, it: Item)
    requires HasOneParent(it)
    requires it.category.Some? ==> it.category.value in s.categories
    requires it.subcategory.Some? ==> it.subcategory.value in s.subcategories
    ensures var s' := AddItem(s, it);
      && s'.items == s.items[s.nextId := it]
      && s'.categories.Keys == s.categories.Keys && s'.subcategories.Keys == s.subcategories.Keys
      && (forall c :: c in s.categories ==>
            s'.categories[c] == s.categories[c].(items := s.categories[c].items + (if it.category == Some(c) then [s.nextId] else [])))
      && (forall q :: q in s.subcategories ==>
            s'.subcategories[q] == s.subcategories[q].(items := s.subcategories[q].items + (if it.subcategory == Some(q) then [s.nextId] else [])))
  {
    var s' := AddItem(s, it);
    var n := s.nextId;
    if it.category.Some? {
      var p := it.category.value;
      assert it.subcategory.None?;
      assert s'.categories == s.categories[p := s.categories[p].(items := s.categories[p].items + [n])];
      assert s'.subcategories == s.subcategories;
    } else {
      var p := it.subcategory.value;
      assert s'.subcategories == s.subcategories[p := s.subcategories[p].(items := s.subcategories[p].items + [n])];
      assert s'.categories == s.categories;
    }
  }

  /**
   * editCategory changes one record and no link: every child list stays
   * as it was, and the subcategories keep the tax values they inherited.
   */
  lemma EditCategoryKeepsLinks(s: Store, id: ObjectId, p: CategoryPatch)
    requires id in s.categories && CategoryPatchViolation(p).None?
    ensures var s' := WithCategory(s, id, PatchCategory(s.categories[id], p));
      && s'.categories.Keys == s.categories.Keys
      && (forall c :: c in s.categories ==>
            s'.categories[c].subcategories == s.categories[c].subcategories && s'.categories[c].items == s.categories[c].items)
      && (forall c :: c in s.categories && c != id ==> s'.categories[c] == s.categories[c])
      && s'.subcategories == s.subcategories && s'.items == s.items
  {
  }

  /** editSubcategory keeps every parent reference and every child list. */
  lemma EditSubcategoryKeepsLinks(s: Store, id: ObjectId, p: SubcategoryPatch)
    requires id in s.subcategories && SubcategoryPatchViolation(p).None?
    ensures var s' := WithSubcategory(s, id, PatchSubcategory(s.subcategories[id], p));
      && s'.subcategories.Keys == s.subcategories.Keys
      && (forall q :: q in s.subcategories ==>
            s'.subcategories[q].category == s.subcategories[q].category && s'.subcategories[q].items == s.subcategories[q].items)
      && (forall q :: q in s.subcategories && q != id ==> s'.subcategories[q] == s.subcategories[q])
      && s'.categories == s.categories && s'.items == s.items
  {
  }

  /** editItem keeps every parent reference and every child list. */
  lemma EditItemKeepsLinks(s: Store, id: ObjectId, p: ItemPatch)
    requires id in s.items && ItemPatchViolation(p).None?
    ensures var s' := WithItem(s, id, PatchItem(s.items[id], p));
      && s'.items.Keys == s.items.Keys
      && (forall x :: x in s.items ==>
            s'.items[x].category == s.items[x].category && s'.items[x].subcategory == s.items[x].subcategory)
      && (forall x :: x in s.items && x != id ==> s'.items[x] == s.items[x])
      && s'.categories == s.categories && s'.subcategories == s.subcategories
  {
  }
}
