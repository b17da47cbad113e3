# Menu catalog: a verified model of its consistency rules

The system is a small menu service. It stores a three-level catalog (Category → Subcategory → Item) in three MongoDB collections and exposes create, read, edit and search handlers.

Each subcategory points at its category. Each item points at exactly one parent, a category or a subcategory. Each parent also keeps the ids of its children in an ordered list (`subcategories`, `items`). The handlers must keep the two directions in sync.

This project models the following and proves what they promise:
- the handlers of `controllers/menuController.js`;
- the three Mongoose schemas in `models/`:
  - defaults and the `trim` setter;
  - the `required` and `min` validators and the `taxType` enum;
  - the unique category name;
  - the item's exactly-one-parent hook;
  - the `totalAmount` virtual.

How the model is built:
- **Store.** The backing store is a value `CatalogStore.Store` holding:
  - three maps from id to record;
  - the natural (insertion) order of each collection;
  - the next fresh id.
- **Invariant.** `CatalogStore.Consistent` holds of every state the handlers can reach:
  - names are stored trimmed and non-empty;
  - category names are unique;
  - every parent reference resolves;
  - every item has one parent;
  - every child list equals the natural-order list of the documents whose parent reference names that parent.
- **Write handlers.** `MenuController.Catalog` is a class with the same fields, and its methods are the write handlers:
  - Each create writes step by step, as the handler does: it saves the document, pushes the new id onto the parent's list, and commits.
  - `createItem` saves the item before it looks up the parent. When the parent is missing, the model restores the session's snapshot (`Abort`).
  - Every method states its whole new state as a store transition (`AddCategory`, `AddSubcategory`, `AddItem`, `WithCategory`, …). One lemma per transition proves that it preserves `Consistent`.
- **Read handlers.** These are the functions of `MenuQueries`, applied to `Catalog.State()`.
- **Properties.** `CatalogProperties` holds what a consistent store promises its readers.
- **Scenario.** `MenuScenario` walks through one catalog (Beverages, Hot Drinks, Latte) request by request, including a search that matches and one that does not.

Modelling choices:
- **ObjectIds.** An ObjectId is a natural number handed out by a counter.
  - A request token is a well-formed id (`mongoose.Types.ObjectId.isValid`) exactly when it is 24 hexadecimal digits, in either case.
  - Casting such a token gives its value. Ids are written back as 24 lower-case digits (`IdText`), and `ParseObjectId` inverts that.
- **Request bodies** are records. Every field except `name` is an `Option`, and `None` is a key the client left out. `name` is a plain string, so an omitted name is modelled as the empty string (see Left out).
- **Failures** are a single datatype, `Failures.Failure`:
  - `AlreadyExists`: the `findOne` guard of createCategory;
  - `DuplicateKey`: the unique index;
  - `NotFound`;
  - `ParentNotFound`: the throw inside createItem;
  - `CastFailed`: a Mongoose CastError;
  - `MissingQuery`;
  - `Invalid(v)`: a validation error.
- **Mongoose semantics** modelled explicitly:
  - `findByIdAndUpdate` drops the keys the body left undefined, so an edit is a partial patch.
  - Update validators run only on the paths given, before the document is looked up.
  - Assigning a malformed id to an ObjectId path leaves that path unset, and validation then reports a cast error.

Behaviour of the code that the model keeps as written:
- **`tax` has no minimum in any schema**, so the model accepts any `tax`, negative values included.
- **createItem saves the item before it looks up the parent** (menuController.js:126-138), and aborts the session when the parent is missing. Nothing is stored and the error is "parent not found".
- **Name filters are compared with the raw request value.** This is a modelling assumption; it is not established about Mongoose. It affects five places:
  - the duplicate-name guard of createCategory (menuController.js:18);
  - the name branches of the three id-or-name lookups (menuController.js:190, 255, 340);
  - the unique index, which compares the stored, trimmed name.

  In the model, a name that equals an existing one only after trimming passes the guard and is rejected by the unique index (`DuplicateKey`). See Left out for what this assumption leaves out.
- **The by-parent filters succeed on an empty result**, because an array is never falsy in JavaScript. The search instead fails with NotFound on an empty result.

## Model

| member | source | states |
|---|---|---|
| Text.Trim | models/category.js:5-10 | the `trim` setter: the result has no white space at either end, and it sits in the input with only white space around it |
| Text.TrimIdempotent | models/item.js:5-9 | trimming a stored name again changes nothing |
| Text.TrimEmptyIffAllSpace | models/subcategory.js:5-9 | trimming leaves the empty string exactly when the input is all white space, which is when `required` fails |
| Text.OccursIff | controllers/menuController.js:458-460 | the substring test finds `p` in `s` exactly when some position of `s` starts a copy of `p` |
| Text.ContainsIgnoresTermCase | controllers/menuController.js:459 | with the `i` option, the case of the search term does not change whether a name matches |
| ObjectIds.ParseObjectId | controllers/menuController.js:184 | a token casts to an id exactly when it is a well-formed id (24 hex digits); the value fits in 96 bits |
| ObjectIds.IdTextRoundTrip | controllers/menuController.js:184-185 | the text form of every id is well formed and casts back to that id |
| Schema.RequiredName | models/item.js:5-9 | a `name` path accepts a value exactly when it is not all white space, and stores it trimmed and non-empty |
| CategoryModel.ParseTaxType | models/category.js:27-31 | the enum validator accepts exactly "Percentage", "Fixed" and "None", and the accepted value's name is the input |
| CategoryModel.TaxTypeRoundTrip | models/category.js:27-31 | every enum value's name is accepted as that value |
| CategoryModel.TaxTypeOrDefault | models/category.js:27-31 | an omitted `taxType` is stored as "None"; a given one is stored as written |
| CategoryModel.NewCategory | models/category.js:5-45 | a new category validates exactly when its name is not blank and its `taxType` is in the enum. Stored values: the trimmed name, `taxApplicability` default false, `tax` default 0, `taxType` default "None", both child lists empty. A blank name gives NameRequired and a bad enum value TaxTypeNotInEnum |
| CategoryModel.CategoryPatchViolation | controllers/menuController.js:366-370 | the update validators reject a patch exactly when it gives a blank name or a `taxType` outside the enum |
| CategoryModel.PatchCategory | controllers/menuController.js:366-370 | each field given replaces the stored one (names trimmed); each field left out keeps its value; both child lists are unchanged; a valid category stays valid |
| SubcategoryModel.NewSubcategory | models/subcategory.js:5-40 | a new subcategory validates exactly when its name is not blank. It stores the trimmed name, the given tax fields and parent, and an empty item list |
| SubcategoryModel.SubcategoryPatchViolation | controllers/menuController.js:391-395 | the update validators reject a patch exactly when it gives a blank name |
| SubcategoryModel.PatchSubcategory | controllers/menuController.js:391-395 | the given fields replace the stored ones; the parent reference and the item list are unchanged |
| ItemModel.ParentViolation | models/item.js:66-74 | the hook passes exactly when one parent is set; both set gives BothParents and neither gives NoParent |
| ItemModel.CastRef | models/item.js:37-46 | an ObjectId path is set exactly when a well-formed token was given |
| ItemModel.NewItem | models/item.js:5-74 | a new item validates exactly when all of these hold: one parent token is given, no token is malformed, the name is not blank, `baseAmount` is given and at least 0, and `discount` (default 0) is at least 0. Stored values: `taxApplicability` default false, `tax` default 0, the parent paths as cast. The result has exactly one parent |
| ItemModel.ItemPatchViolation | controllers/menuController.js:425-429 | the update validators reject a patch exactly when it gives a blank name or a negative `baseAmount` or `discount` |
| ItemModel.PatchItem | controllers/menuController.js:414-429 | the given fields replace the stored ones; both parent paths are unchanged; a valid item stays valid |
| ItemModel.TotalAfterPatch | controllers/menuController.js:434 | after an edit, the total read back is the new base amount minus the new discount |
| CatalogStore.Children | controllers/menuController.js:227-229 | `find({ parent })` lists exactly the stored documents of the order whose parent reference is `p` |
| CatalogStore.ChildrenFrame | controllers/menuController.js:293 | the filter depends only on the documents' parent references |
| CatalogStore.Populate | controllers/menuController.js:164-166 | `populate` returns stored documents only, each with its stored record; when every id resolves, their ids are the list given, in order |
| ItemModel.TotalAmount | models/item.js:59-61 | The total is negative exactly when the discount exceeds the base amount, since no validator relates the two. With a non-negative discount the total never exceeds the base amount, and with no discount it equals it |
| CatalogStore.AddCategory | controllers/menuController.js:32 | `save()` stores the category under the fresh id, at the end of the natural order. Every other category is unchanged, and the subcategories and items are untouched |
| CatalogStore.AddSubcategory | controllers/menuController.js:73-77 | the subcategory is stored under the fresh id, at the end of the order; its parent's record changes only by the id appended to `subcategories`; every other category and all items are unchanged |
| CatalogStore.SaveItem | controllers/menuController.js:126 | the item is stored under the fresh id, at the end of the order, and no category or subcategory is touched yet |
| CatalogStore.AddItem | controllers/menuController.js:126-141 | the item is stored under the fresh id. The new id is appended to the `items` list of its one parent, and the other parent collection is untouched |
| CatalogStore.WithCategory | controllers/menuController.js:366-370 | `findByIdAndUpdate` replaces the one category under the id; every other category, the order, the id supply and the other collections are unchanged |
| CatalogStore.WithSubcategory | controllers/menuController.js:391-395 | `findByIdAndUpdate` replaces the one subcategory under the id; everything else is unchanged |
| CatalogStore.WithItem | controllers/menuController.js:425-429 | `findByIdAndUpdate` replaces the one item under the id; everything else is unchanged |
| CatalogStore.EmptyStoreConsistent | models/category.js:50 | the catalog before any request, with three empty collections, satisfies the invariant |
| CatalogStore.AddCategoryKeepsConsistent | controllers/menuController.js:23-32 | saving a valid, new-named category with empty lists under a fresh id keeps the invariant |
| CatalogStore.AddSubcategoryKeepsConsistent | controllers/menuController.js:64-79 | saving a subcategory under an existing category and pushing its id onto that category's list keeps the invariant |
| CatalogStore.AddItemKeepsConsistent | controllers/menuController.js:126-143 | saving a valid item and pushing its id onto its one existing parent's list keeps the invariant |
| CatalogStore.WithCategoryKeepsConsistent | controllers/menuController.js:366-370 | replacing a category by a valid record with the same child lists and a name no other category holds keeps the invariant |
| CatalogStore.WithSubcategoryKeepsConsistent | controllers/menuController.js:391-395 | replacing a subcategory by a valid record with the same parent and items keeps the invariant |
| CatalogStore.WithItemKeepsConsistent | controllers/menuController.js:425-429 | replacing an item by a valid record with the same parents keeps the invariant |
| MenuQueries.ViewItems | models/item.js:59-61 | every item read carries `totalAmount` equal to its base amount minus its discount, computed on read |
| MenuQueries.FirstNamed | controllers/menuController.js:190 | `findOne({ name })` returns the first position, in natural order, whose document has exactly that name, or none when no document has it |
| MenuQueries.ResolveIdOrName | controllers/menuController.js:184-193 | a well-formed token is looked up by id only: found exactly when that id is stored, with no fallback to names. Any other token finds a document exactly when one has that exact name |
| MenuQueries.NameTakenIffFound | controllers/menuController.js:18-21 | the duplicate-name guard finds a category exactly when some category has the name |
| MenuQueries.NameHolderUnique | models/category.js:5-10 | with unique names, another category holds a name exactly when the first holder found is not the one being edited |
| MenuQueries.FindCategory | controllers/menuController.js:178-203 | getCategoryByIdOrName follows the id-or-name rule; a result is the stored category under its id; otherwise NotFound |
| MenuQueries.FindSubcategory | controllers/menuController.js:247-268 | getSubcategoryByIdOrName follows the id-or-name rule; otherwise NotFound |
| MenuQueries.FindItem | controllers/menuController.js:332-351 | getItemByIdOrName follows the id-or-name rule; the item carries its derived total; otherwise NotFound |
| MenuQueries.AllCategories | controllers/menuController.js:161-171 | getAllCategories returns one view per id in the natural order. Each view is that stored category with its children populated |
| MenuQueries.AllSubcategories | controllers/menuController.js:210-217 | getAllSubcategories returns one view per id in the natural order. Each view is that stored subcategory with its items populated |
| MenuQueries.AllItems | controllers/menuController.js:275-283 | getAllItems returns one view per id in the natural order. Each view is that stored item with its derived total |
| MenuQueries.SubcategoriesByCategory | controllers/menuController.js:224-240 | a malformed id is a cast failure; otherwise the result succeeds, possibly empty, and holds exactly the subcategories whose `category` is the id |
| MenuQueries.ItemsByCategory | controllers/menuController.js:290-304 | a malformed id is a cast failure; otherwise the result succeeds, possibly empty, and holds exactly the items whose `category` is the id, each with its total |
| MenuQueries.ItemsBySubcategory | controllers/menuController.js:311-325 | a malformed id is a cast failure; otherwise the result succeeds, possibly empty, and holds exactly the items whose `subcategory` is the id |
| MenuQueries.Matching | controllers/menuController.js:458-460 | the search filter keeps exactly the stored items whose name contains the term, ignoring case |
| MenuQueries.SearchItems | controllers/menuController.js:448-472 | an absent or empty term fails with MissingQuery. Otherwise the search fails with NotFound exactly when no item matches, and a success is non-empty and holds exactly the matching items |
| CatalogProperties.ChildrenNoDup | models/category.js:33-45 | filtering a duplicate-free order gives a duplicate-free list |
| CatalogProperties.ChildListsNoDup | models/subcategory.js:35-40 | in a consistent catalog, no child list holds an id twice |
| CatalogProperties.SubcategoryListedIffParent | controllers/menuController.js:70-77 | a subcategory is in a category's `subcategories` exactly when its `category` names that category |
| CatalogProperties.ItemListedUnderItsParentOnly | controllers/menuController.js:128-141 | an item is in a parent's `items` exactly when it names that parent; it is listed under its one parent and in no other list |
| CatalogProperties.SubcategoryFilterIsChildList | controllers/menuController.js:227-229 | for a stored category, getSubcategoriesByCategoryId returns exactly its `subcategories` list, in order |
| CatalogProperties.ItemFilterByCategoryIsChildList | controllers/menuController.js:293 | for a stored category, getItemsByCategoryId returns exactly its `items` list, in order |
| CatalogProperties.ItemFilterBySubcategoryIsChildList | controllers/menuController.js:314 | for a stored subcategory, getItemsBySubcategoryId returns exactly its `items` list, in order |
| CatalogProperties.StoredIdIsFound | controllers/menuController.js:184-187 | every stored category, subcategory and item is found by the text form of its id |
| CatalogProperties.CategoryNameLookupUnique | controllers/menuController.js:190 | a category name lookup succeeds exactly when the name is taken, and returns the only category with that name |
| CatalogProperties.FoundCategoryHasAllChildren | controllers/menuController.js:185-192 | a found category's populated lists hold every id of its child lists, in order, and each child points back at it |
| CatalogProperties.FoundSubcategoryHasAllItems | controllers/menuController.js:253-257 | a found subcategory's populated items are its whole `items` list, in order, each pointing back at it |
| CatalogProperties.MatchingIgnoresTermCase | controllers/menuController.js:459 | the search filter gives the same items for a term and for its lower-cased form |
| CatalogProperties.SearchIgnoresTermCase | controllers/menuController.js:452-466 | the whole search outcome is the same for a term and for its lower-cased form |
| CatalogProperties.AddSubcategoryAppendsToParent | controllers/menuController.js:73-77 | createSubcategory stores the record under an unused id. It appends that id at the end of exactly the parent's `subcategories`, changes no other field of the parent, and leaves the other categories and all items as they were |
| CatalogProperties.AddItemAppendsToOneParent | controllers/menuController.js:129-141 | createItem stores the item under the fresh id and appends it to exactly its one parent's `items`; every other category and subcategory is unchanged |
| CatalogProperties.EditCategoryKeepsLinks | controllers/menuController.js:366-370 | editCategory changes one record; every child list stays; the subcategories keep the tax values they inherited |
| CatalogProperties.EditSubcategoryKeepsLinks | controllers/menuController.js:391-395 | editSubcategory keeps every parent reference and every child list |
| CatalogProperties.EditItemKeepsLinks | controllers/menuController.js:414-429 | editItem keeps every item's parent references and every child list |
| MenuController.SubcategoryFromRequest | controllers/menuController.js:56-71 | an omitted `taxApplicability` or `tax` is copied from the parent category; a given one, `false` and `0` included, is kept; the parent is the requested category |
| MenuController.Catalog.constructor | models/category.js:50 | a new catalog is empty and consistent |
| MenuController.Catalog.Abort | controllers/menuController.js:147-148 | aborting restores every collection to the session's snapshot |
| MenuController.Catalog.InsertCategory | controllers/menuController.js:32 | `save()` puts the category under the next fresh id at the end of the natural order |
| MenuController.Catalog.InsertSubcategory | controllers/menuController.js:73-77 | the subcategory is saved under the fresh id and that id is pushed onto its parent's list |
| MenuController.Catalog.SaveItemDocument | controllers/menuController.js:126 | the item is saved under the fresh id, before any parent is touched |
| MenuController.Catalog.LinkItem | controllers/menuController.js:129-141 | the saved item's id is pushed onto the `items` list of its one parent |
| MenuController.Catalog.ReplaceCategory | controllers/menuController.js:366-370 | the category record under the id is replaced |
| MenuController.Catalog.ReplaceSubcategory | controllers/menuController.js:391-395 | the subcategory record under the id is replaced |
| MenuController.Catalog.ReplaceItem | controllers/menuController.js:425-429 | the item record under the id is replaced |
| MenuController.Catalog.CreateCategory | controllers/menuController.js:13-37 | A name already held, compared as sent, fails with AlreadyExists. Then validation failures fail with Invalid, and a trimmed name already held fails with DuplicateKey. Otherwise the category is created with the next id. Every failure leaves the catalog unchanged, and the invariant holds throughout |
| MenuController.Catalog.CreateSubcategory | controllers/menuController.js:44-88 | A malformed category id fails with CastFailed, and an unknown one with NotFound. A blank name fails with Invalid. Otherwise the inherited-tax record is created and linked under its category. Every failure leaves the catalog unchanged |
| MenuController.Catalog.CreateItem | controllers/menuController.js:95-152 | A validation failure fails with Invalid. A missing parent aborts with ParentNotFound and leaves the catalog unchanged. Otherwise the item is created and linked under its one parent |
| MenuController.Catalog.EditCategory | controllers/menuController.js:360-379 | the checks run in this order: a malformed id, then an invalid patch, then an unknown id (NotFound), then a name another category holds (DuplicateKey); otherwise that one record is patched and its child lists kept |
| MenuController.Catalog.EditSubcategory | controllers/menuController.js:386-404 | a malformed id, then an invalid patch, then an unknown id; otherwise that one record is patched, parent and items kept |
| MenuController.Catalog.EditItem | controllers/menuController.js:411-439 | a malformed id, then an invalid patch, then an unknown id; otherwise that one record is patched, parents kept |
| MenuScenario.CategoryStep | controllers/menuController.js:13-32 | "Beverages" with tax 5 validates, is not yet taken, and is stored with empty child lists |
| MenuScenario.SubcategoryStep | controllers/menuController.js:51-77 | "Hot Drinks" with both tax fields omitted inherits `true` and 5, and its id is appended to Beverages' list |
| MenuScenario.ItemStep | controllers/menuController.js:114-126 | "Latte" (120, discount 20, under Hot Drinks) validates with the subcategory as its only parent |
| MenuScenario.ItemCommitStep | controllers/menuController.js:134-141 | committing Latte appends its id to Hot Drinks' `items` |
| MenuScenario.ReadTotal | models/item.js:59-61 | Latte is found by name with a total of 100 |
| MenuScenario.SearchLatte | controllers/menuController.js:458-468 | searching "latte" finds Latte |
| MenuScenario.SearchZzz | controllers/menuController.js:462-466 | searching "zzz" fails with NotFound, not an empty list |

## Left out

- HTTP routing, status codes, JSON bodies and the Express bootstrap (routes/menuRoutes.js, index.js) are not part of this model. The route order that sends `/item/search` before `/item/:idOrName` is transport only.
- Sessions and transactions are modelled only by their outcome. A commit keeps every write of the handler; an abort, or an error before any write, leaves the catalog unchanged. Transaction isolation and concurrent requests are not modelled, since the model is sequential.
- createSubcategory returns "Category not found" without ending its session. No data changes, so only the session leak is missing from the model.
- The item validation hook calls its callback again after reporting either parent error. The model takes the first reported error as the outcome.
- `taxApplicability`, `tax`, `baseAmount` and `discount` are JavaScript numbers. They are modelled as unbounded integers: floating point, `NaN`, and strings sent where numbers are expected are not modelled.
- A JSON `null` sent for a field is not modelled. Request fields are either given or left out.
- The search term is interpreted as a MongoDB regular expression. The model treats it as a literal substring with ASCII-only case folding: regular-expression metacharacters and Unicode case folding are not modelled.
- `mongoose.Types.ObjectId.isValid` is modelled as "24 hexadecimal digits". It also accepts 12-character strings and ObjectId instances, and those are not modelled.
- Ids are an unbounded counter. It never wraps and does not encode a timestamp or process bytes.
- ObjectIds.IdTextRoundTrip: it requires the id to fit in 96 bits (24 hex digits), the range of a real ObjectId. The counter itself is unbounded.
- CatalogProperties.StoredIdIsFound: it requires the id to fit in 96 bits (24 hex digits), because that is what its text form can express. The counter itself is unbounded.
- Query filters are compared with the raw request value. Mongoose's string casting for queries may run the path's `trim` setter on an equality filter on `name`. If it does, the model differs from the source in four places:
  - createCategory's `findOne({ name })` guard (menuController.js:18): a name with spaces around an existing one gives AlreadyExists in the source, but DuplicateKey in the model;
  - getCategoryByIdOrName (menuController.js:190);
  - getSubcategoryByIdOrName (menuController.js:255);
  - getItemByIdOrName (menuController.js:340).

  In the three lookups, a padded token such as `"Beverages "` finds the document in the source, but the model returns NotFound. Whether the setter also applies to the `$regex` term of the search is not modelled either.
- `timestamps` (`createdAt` and `updatedAt`) are not modelled.
- A by-parent filter given a well-formed id that names no parent returns an empty success, like the source. The model states this as part of its exact-match contract rather than as a separate lemma.
- An omitted `name` is modelled as the empty string. It fails `required` with NameRequired, as an omitted name does. createCategory's guard query with an undefined name, `findOne({ name: undefined })` at menuController.js:18, is not modelled. The model treats it as a guard that finds nothing.
- Mongoose's `validate()` collects every failing path into one ValidationError. The model reports only the first failure:
  - for a new item (NewItem), in this order: the parent hook, then the parent-id cast, name, baseAmount, discount;
  - for a new category (NewCategory): name, then taxType;
  - for an edit patch (CategoryPatchViolation, ItemPatchViolation), in the same field order.

  Which paths fail together is not modelled. Whether a request fails, and the first error reported, are modelled.
