/**
 * A walk-through of the catalog: a taxed category, a subcategory
 * that inherits its tax settings, an item under it whose total is read
 * back, and the two searches. Each request is one step from a known
 * store to the next.
 */
module MenuScenario {
  import opened Wrappers
  import opened Text
  import opened ObjectIds
  import opened CategoryModel
  import opened SubcategoryModel
  import opened ItemModel
  import opened CatalogStore
  import opened Failures
  import opened MenuQueries
  import opened MenuController

  const Beverages: Category := Category("Beverages", None, None, true, 5, NoTax, [], [])
  const HotDrinks: Subcategory := Subcategory("Hot Drinks", None, None, true, 5, 0, [])
  const Latte: Item := Item("Latte", None, None, false, 0, 120, 20, None, Some(1))

  /** After POST /api/category { name: "Beverages", taxApplicability: true, tax: 5 }. */
  const AfterCategory: Store := Store(map[0 := Beverages], [0], map[], [], map[], [], 1)

  /** After POST /api/category/<0>/subcategory { name: "Hot Drinks" }. */
  const AfterSubcategory: Store :=
    Store(map[0 := Beverages.(subcategories := [1])], [0], map[1 := HotDrinks], [1], map[], [], 2)

  /** After POST /api/item { name: "Latte", baseAmount: 120, discount: 20, subcategoryId: <1> }. */
  const AfterItem: Store :=
    Store(map[0 := Beverages.(subcategories := [1])], [0], map[1 := HotDrinks.(items := [2])], [1], map[2 := Latte], [2], 3)

  /** The category request validates to `Beverages`, and committing it gives `AfterCategory`. */
  lemma CategoryStep()
    ensures NewCategory(CategoryFields("Beverages", None, None, Some(true), Some(5), None)) == Ok(Beverages)
    ensures !NameTaken(EmptyStore, "Beverages")
    ensures AddCategory(EmptyStore, Beverages) == AfterCategory
  {
    assert !IsJsSpace("Beverages"[0]);
    TrimKeepsTrimmed("Beverages");
  }

  /**
   * With both tax fields omitted, the subcategory requested under
   * category 0 takes `true` and 5 from Beverages.
   */
  lemma SubcategoryStep()
    ensures SubcategoryFromRequest(SubcategoryFields("Hot Drinks", None, None, None, None), 0, AfterCategory.categories[0])
         == Ok(HotDrinks)
    ensures AddSubcategory(AfterCategory, HotDrinks) == AfterSubcategory
  {
    assert !IsJsSpace("Hot Drinks"[0]);
    TrimKeepsTrimmed("Hot Drinks");
    assert AfterCategory.categories[0].subcategories + [2 - 1] == [1];
  }

  /** The item request names subcategory 1 by any token for it and validates to `Latte`. */
  lemma ItemStep(subcategoryId: string)
    requires ParseObjectId(subcategoryId) == Some(1)
    ensures NewItem(ItemFields("Latte", None, None, None, None, Some(120), Some(20), None, Some(subcategoryId))) == Ok(Latte)
  {
    var f := ItemFields("Latte", None, None, None, None, Some(120), Some(20), None, Some(subcategoryId));
    assert !IsJsSpace("Latte"[0]);
    TrimKeepsTrimmed("Latte");
    assert CastRef(f.subcategoryId) == Some(1) && CastRef(f.categoryId) == None;
    assert NewItem(f).Ok?;
  }

  /** Committing the item links it under Hot Drinks and nowhere else. */
  lemma ItemCommitStep()
    ensures AddItem(AfterSubcategory, Latte) == AfterItem
  {
    assert AfterSubcategory.subcategories[1].items + [3 - 1] == [2];
  }

  /** Reading the item back by name gives a total of 100. */
  lemma ReadTotal()
    ensures FindItem(AfterItem, "Latte").Ok? && FindItem(AfterItem, "Latte").value.totalAmount == 100
  {
    assert NamedAt(AfterItem.itemOrder, AfterItem.items, ItemName, "Latte", 0);
  }

  /** Searching "latte" finds the item. */
  lemma SearchLatte()
    ensures SearchItems(AfterItem, Some("latte")).Ok?
  {
    assert Lower("Latte") == "latte";
    assert IsPrefixOf(Lower("latte"), Lower("Latte"));
    assert ContainsIgnoreCase(AfterItem.items[2].name, "latte");
  }

  /** Searching "zzz" matches nothing and fails with NotFound rather than an empty list. */
  lemma SearchZzz()
    ensures SearchItems(AfterItem, Some("zzz")) == Err(NotFound)
  {
    assert Lower("Latte") == "latte" && Lower("zzz") == "zzz";
    assert !Occurs("zzz", "latte") by {
      assert "latte"[1..] == "atte" && "atte"[1..] == "tte" && "tte"[1..] == "te";
      assert !Occurs("zzz", "te");
      assert "tte"[..3][0] != 'z' && "atte"[..3][0] != 'z' && "latte"[..3][0] != 'z';
      assert !IsPrefixOf("zzz", "tte") && !IsPrefixOf("zzz", "atte") && !IsPrefixOf("zzz", "latte");
    }
    assert !ContainsIgnoreCase(AfterItem.items[2].name, "zzz");
  }
}
