/**
 * The write handlers of the menu controller (controllers/menuController.js)
 * as methods on a `Catalog` object that owns the three collections. The
 * read handlers are the functions of `MenuQueries` applied to `State()`.
 */
module MenuController {
  import opened Wrappers
  import opened Text
  import opened ObjectIds
  import opened Schema
  import opened CategoryModel
  import opened SubcategoryModel
  import opened ItemModel
  import opened CatalogStore
  import opened Failures
  import opened MenuQueries

  /**
   * The record createSubcategory builds: an omitted `taxApplicability` or
   * `tax` is copied from the parent category at this moment; a supplied
   * value, `false` and `0` included, is kept.
   */
  function SubcategoryFromRequest(f: SubcategoryFields, parentId: ObjectId, parent: Category): (r: Result<Subcategory, Violation>)
    ensures r.Ok? <==> !AllSpace(f.name)
    ensures r.Err? ==> r.error == NameRequired
    ensures r.Ok? ==> r.value.category == parentId && r.value.items == [] && SubcategoryOk(r.value)
    ensures r.Ok? ==> r.value.taxApplicability == (if f.taxApplicability.None? then parent.taxApplicability else f.taxApplicability.value)
    ensures r.Ok? ==> r.value.tax == (if f.tax.None? then parent.tax else f.tax.value)
    ensures r.Ok? ==> r.value.name == Trim(f.name) && r.value.image == f.image && r.value.description == f.description
  {
    var taxApplicability := f.taxApplicability.GetOr(parent.taxApplicability);
    var tax := f.tax.GetOr(parent.tax);
    NewSubcategory(f.name, f.image, f.description, taxApplicability, tax, parentId)
  }

  class Catalog {
    var categories: map<ObjectId, Category>
    var categoryOrder: seq<ObjectId>
    var subcategories: map<ObjectId, Subcategory>
    var subcategoryOrder: seq<ObjectId>
    var items: map<ObjectId, Item>
    var itemOrder: seq<ObjectId>
    var nextId: ObjectId

    /** The collections as one value, the argument of every read handler. */
    function State(): Store
      reads this
    {
      Store(categories, categoryOrder, subcategories, subcategoryOrder, items, itemOrder, nextId)
    }

    ghost predicate Valid()
      reads this
    {
      Consistent(State())
    }

    constructor ()
      ensures Valid() && State() == EmptyStore
    {
      categories, categoryOrder := map[], [];
      subcategories, subcategoryOrder := map[], [];
      items, itemOrder := map[], [];
      nextId := 0;
      EmptyStoreConsistent();
    }

    /** abortTransaction: every collection goes back to the snapshot taken when the session started. */
    method Abort(snapshot: Store)
      modifies this
      ensures State() == snapshot
    {
      categories, categoryOrder := snapshot.categories, snapshot.categoryOrder;
      subcategories, subcategoryOrder := snapshot.subcategories, snapshot.subcategoryOrder;
      items, itemOrder := snapshot.items, snapshot.itemOrder;
      nextId := snapshot.nextId;
    }

    /** new Category(c).save(): the document gets the next id and joins the collection. */
    method InsertCategory(c: Category) returns (id: ObjectId)
      modifies this
      ensures id == old(nextId)
      ensures State() == AddCategory(old(State()), c)
    {
      id := nextId;
      categories := categories[id := c];
      categoryOrder := categoryOrder + [id];
      nextId := id + 1;
    }

    /** subcategory.save(), then category.subcategories.push(id) and category.save(). */
    method InsertSubcategory(sc: Subcategory) returns (id: ObjectId)
      requires sc.category in categories
      modifies this
      ensures id == old(nextId)
      ensures State() == AddSubcategory(old(State()), sc)
    {
      id := nextId;
      subcategories := subcategories[id := sc];
      subcategoryOrder := subcategoryOrder + [id];
      nextId := id + 1;
      var parent := categories[sc.category];
      categories := categories[sc.category := parent.(subcategories := parent.subcategories + [id])];
    }

    /** item.save() inside the session. */
    method SaveItemDocument(it: Item) returns (id: ObjectId)
      modifies this
      ensures id == old(nextId)
      ensures State() == SaveItem(old(State()), it)
    {
      id := nextId;
      items := items[id := it];
      itemOrder := itemOrder + [id];
      nextId := id + 1;
    }

    /** parent.items.push(id) and parent.save() for the one parent the saved item names. */
    method LinkItem(ghost snapshot: Store, id: ObjectId, it: Item)
      requires it.category.Some? ==> it.category.value in snapshot.categories
      requires it.category.None? ==> it.subcategory.Some? && it.subcategory.value in snapshot.subcategories
      requires id == snapshot.nextId && State() == SaveItem(snapshot, it)
      modifies this
      ensures State() == AddItem(snapshot, it)
    {
      if it.category.Some? {
        var parent := categories[it.category.value];
        categories := categories[it.category.value := parent.(items := parent.items + [id])];
      } else {
        var parent := subcategories[it.subcategory.value];
        subcategories := subcategories[it.subcategory.value := parent.(items := parent.items + [id])];
      }
    }

    /** findByIdAndUpdate of a stored document: the record under `id` is replaced. */
    method ReplaceCategory(id: ObjectId, c: Category)
      modifies this
      ensures State() == WithCategory(old(State()), id, c)
    {
      categories := categories[id := c];
    }

    method ReplaceSubcategory(id: ObjectId, sc: Subcategory)
      modifies this
      ensures State() == WithSubcategory(old(State()), id, sc)
    {
      subcategories := subcategories[id := sc];
    }

    method ReplaceItem(id: ObjectId, it: Item)
      modifies this
      ensures State() == WithItem(old(State()), id, it)
    {
      items := items[id := it];
    }

    /** createCategory. */
    method CreateCategory(f: CategoryFields) returns (r: Result<Doc<Category>, Failure>)
      requires Valid()
      modifies this
      ensures Valid()
      ensures r.Err? ==> State() == old(State())
      ensures NameTaken(old(State()), f.name) ==> r == Err(AlreadyExists)
      ensures !NameTaken(old(State()), f.name) && NewCategory(f).Err? ==> r == Err(Invalid(NewCategory(f).error))
      ensures !NameTaken(old(State()), f.name) && NewCategory(f).Ok? && NameTaken(old(State()), NewCategory(f).value.name)
              ==> r == Err(DuplicateKey)
      ensures !NameTaken(old(State()), f.name) && NewCategory(f).Ok? && !NameTaken(old(State()), NewCategory(f).value.name)
              ==> r.Ok?
      ensures r.Ok? ==> NewCategory(f).Ok? && r.value == Doc(old(nextId), NewCategory(f).value)
      ensures r.Ok? ==> State() == AddCategory(old(State()), r.value.record)
    {
      // Category.findOne({ name })
      NameTakenIffFound(State(), f.name);
      if FirstNamed(categoryOrder, categories, CategoryName, f.name, 0).Some? {
        return Err(AlreadyExists);
      }
      // save(): validation, then the unique index on the trimmed name
      var built := NewCategory(f);
      if built.Err? {
        return Err(Invalid(built.error));
      }
      var c := built.value;
      NameTakenIffFound(State(), c.name);
      if FirstNamed(categoryOrder, categories, CategoryName, c.name, 0).Some? {
        return Err(DuplicateKey);
      }
      AddCategoryKeepsConsistent(State(), c);
      var id := InsertCategory(c);
      r := Ok(Doc(id, c));
    }

    /** createSubcategory. */
    method CreateSubcategory(categoryId: string, f: SubcategoryFields) returns (r: Result<Doc<Subcategory>, Failure>)
      requires Valid()
      modifies this
      ensures Valid()
      ensures r.Err? ==> State() == old(State())
      ensures !IsObjectIdText(categoryId) ==> r == Err(CastFailed)
      ensures IsObjectIdText(categoryId) && ParseObjectId(categoryId).value !in old(categories) ==> r == Err(NotFound)
      ensures IsObjectIdText(categoryId) && ParseObjectId(categoryId).value in old(categories) ==>
        var cid := ParseObjectId(categoryId).value;
        var built := SubcategoryFromRequest(f, cid, old(categories)[cid]);
        (built.Err? ==> r == Err(Invalid(built.error))) && (built.Ok? ==> r.Ok?)
      ensures r.Ok? ==>
        && IsObjectIdText(categoryId) && ParseObjectId(categoryId).value in old(categories)
        && var cid := ParseObjectId(categoryId).value;
           r.value == Doc(old(nextId), SubcategoryFromRequest(f, cid, old(categories)[cid]).value)
      ensures r.Ok? ==> r.value.record.category in old(categories) && State() == AddSubcategory(old(State()), r.value.record)
    {
      // Category.findById(categoryId).session(session)
      var parsed := ParseObjectId(categoryId);
      if parsed.None? {
        return Err(CastFailed);
      }
      var cid := parsed.value;
      if cid !in categories {
        return Err(NotFound);
      }
      var built := SubcategoryFromRequest(f, cid, categories[cid]);
      if built.Err? {
        // the save fails validation; the transaction aborts before any write
        return Err(Invalid(built.error));
      }
      var sc := built.value;
      AddSubcategoryKeepsConsistent(State(), sc);
      // commitTransaction() after both saves
      var id := InsertSubcategory(sc);
      r := Ok(Doc(id, sc));
    }

    /** createItem. */
    method CreateItem(f: ItemFields) returns (r: Result<Doc<Item>, Failure>)
      requires Valid()
      modifies this
      ensures Valid()
      ensures r.Err? ==> State() == old(State())
      ensures NewItem(f).Err? ==> r == Err(Invalid(NewItem(f).error))
      ensures NewItem(f).Ok? ==>
        var it := NewItem(f).value;
        var parentMissing := (it.category.Some? && it.category.value !in old(categories))
                             || (it.subcategory.Some? && it.subcategory.value !in old(subcategories));
        (parentMissing ==> r == Err(ParentNotFound)) && (!parentMissing ==> r.Ok?)
      ensures r.Ok? ==> NewItem(f).Ok? && r.value == Doc(old(nextId), NewItem(f).value)
      ensures r.Ok? ==>
        && (r.value.record.category.Some? ==> r.value.record.category.value in old(categories))
        && (r.value.record.category.None? ==> r.value.record.subcategory.Some? && r.value.record.subcategory.value in old(subcategories))
        && State() == AddItem(old(State()), r.value.record)
    {
      var built := NewItem(f);
      if built.Err? {
        return Err(Invalid(built.error));
      }
      var it := built.value;
      var snapshot := State();
      var id := SaveItemDocument(it);
      // Category.findById / Subcategory.findById of the one parent
      var parentMissing := if it.category.Some? then it.category.value !in snapshot.categories
                           else it.subcategory.value !in snapshot.subcategories;
      if parentMissing {
        // throw "Parent ... not found"; abortTransaction()
        Abort(snapshot);
        return Err(ParentNotFound);
      }
      AddItemKeepsConsistent(snapshot, it);
      LinkItem(snapshot, id, it);
      // commitTransaction()
      r := Ok(Doc(id, it));
    }

    /** editCategory: `findByIdAndUpdate` with update validators and the unique name index. */
    method EditCategory(idToken: string, p: CategoryPatch) returns (r: Result<Doc<Category>, Failure>)
      requires Valid()
      modifies this
      ensures Valid()
      ensures r.Err? ==> State() == old(State())
      ensures !IsObjectIdText(idToken) ==> r == Err(CastFailed)
      ensures IsObjectIdText(idToken) && CategoryPatchViolation(p).Some? ==> r == Err(Invalid(CategoryPatchViolation(p).value))
      ensures IsObjectIdText(idToken) && CategoryPatchViolation(p).None? ==>
        var id := ParseObjectId(idToken).value;
        if id !in old(categories) then r == Err(NotFound)
        else
          var c := PatchCategory(old(categories)[id], p);
          if NameTakenByOther(old(State()), id, c.name) then r == Err(DuplicateKey)
          else r == Ok(Doc(id, c)) && State() == WithCategory(old(State()), id, c)
    {
      var parsed := ParseObjectId(idToken);
      if parsed.None? {
        return Err(CastFailed);
      }
      var violation := CategoryPatchViolation(p);
      if violation.Some? {
        return Err(Invalid(violation.value));
      }
      var id := parsed.value;
      if id !in categories {
        return Err(NotFound);
      }
      var c := PatchCategory(categories[id], p);
      NameHolderUnique(State(), id, c.name);
      var holder := FirstNamed(categoryOrder, categories, CategoryName, c.name, 0);
      if holder.Some? && categoryOrder[holder.value] != id {
        return Err(DuplicateKey);
      }
      WithCategoryKeepsConsistent(State(), id, c);
      ReplaceCategory(id, c);
      r := Ok(Doc(id, c));
    }

    /** editSubcategory. */
    method EditSubcategory(idToken: string, p: SubcategoryPatch) returns (r: Result<Doc<Subcategory>, Failure>)
      requires Valid()
      modifies this
      ensures Valid()
      ensures r.Err? ==> State() == old(State())
      ensures !IsObjectIdText(idToken) ==> r == Err(CastFailed)
      ensures IsObjectIdText(idToken) && SubcategoryPatchViolation(p).Some? ==> r == Err(Invalid(SubcategoryPatchViolation(p).value))
      ensures IsObjectIdText(idToken) && SubcategoryPatchViolation(p).None? ==>
        var id := ParseObjectId(idToken).value;
        if id !in old(subcategories) then r == Err(NotFound)
        else
          var sc := PatchSubcategory(old(subcategories)[id], p);
          r == Ok(Doc(id, sc)) && State() == WithSubcategory(old(State()), id, sc)
    {
      var parsed := ParseObjectId(idToken);
      if parsed.None? {
        return Err(CastFailed);
      }
      var violation := SubcategoryPatchViolation(p);
      if violation.Some? {
        return Err(Invalid(violation.value));
      }
      var id := parsed.value;
      if id !in subcategories {
        return Err(NotFound);
      }
      var sc := PatchSubcategory(subcategories[id], p);
      WithSubcategoryKeepsConsistent(State(), id, sc);
      ReplaceSubcategory(id, sc);
      r := Ok(Doc(id, sc));
    }

    /** editItem. */
    method EditItem(idToken: string, p: ItemPatch) returns (r: Result<Doc<Item>, Failure>)
      requires Valid()
      modifies this
      ensures Valid()
      ensures r.Err? ==> State() == old(State())
      ensures !IsObjectIdText(idToken) ==> r == Err(CastFailed)
      ensures IsObjectIdText(idToken) && ItemPatchViolation(p).Some? ==> r == Err(Invalid(ItemPatchViolation(p).value))
      ensures IsObjectIdText(idToken) && ItemPatchViolation(p).None? ==>
        var id := ParseObjectId(idToken).value;
        if id !in old(items) then r == Err(NotFound)
        else
          var it := PatchItem(old(items)[id], p);
          r == Ok(Doc(id, it)) && State() == WithItem(old(State()), id, it)
    {
      var parsed := ParseObjectId(idToken);
      if parsed.None? {
        return Err(CastFailed);
      }
      var violation := ItemPatchViolation(p);
      if violation.Some? {
        return Err(Invalid(violation.value));
      }
      var id := parsed.value;
      if id !in items {
        return Err(NotFound);
      }
      var it := PatchItem(items[id], p);
      WithItemKeepsConsistent(State(), id, it);
      ReplaceItem(id, it);
      r := Ok(Doc(id, it));
    }
  }
}
