/** The Item schema (models/item.js): fields, the placement hook and the derived total. */
module ItemModel {
  import opened Wrappers
  import opened Text
  import opened ObjectIds
  import opened Schema

  /**
   * A stored item. There is no `totalAmount` field: the total is the
   * virtual `TotalAmount`, computed whenever an item is read.
   */
  datatype Item = Item(
    name: string,
    image: Option<string>,
    description: Option<string>,
    taxApplicability: bool,
    tax: int,
    baseAmount: int,
    discount: int,
    category: Option<ObjectId>,
    subcategory: Option<ObjectId>)

  /**
   * The `totalAmount` virtual getter. No validator relates the two amounts,
   * so the total is negative exactly when the discount exceeds the base
   * amount, and a valid item's total never exceeds its base amount.
   */
  function TotalAmount(it: Item): (r: int)
    ensures r < 0 <==> it.discount > it.baseAmount
    ensures it.discount >= 0 ==> r <= it.baseAmount
    ensures it.discount == 0 ==> r == it.baseAmount
  {
    it.baseAmount - it.discount
  }

  /** The `pre("validate")` hook on the two parent paths. */
  function ParentViolation(category: Option<ObjectId>, subcategory: Option<ObjectId>): (r: Option<Violation>)
    ensures r.None? <==> category.Some? != subcategory.Some?
    ensures r == Some(BothParents) <==> category.Some? && subcategory.Some?
    ensures r == Some(NoParent) <==> category.None? && subcategory.None?
  {
    if category.Some? && subcategory.Some? then Some(BothParents)
    else if category.None? && subcategory.None? then Some(NoParent)
    else None
  }

  predicate HasOneParent(it: Item) {
    it.category.Some? != it.subcategory.Some?
  }

  predicate ItemOk(it: Item) {
    StoredName(it.name) && it.baseAmount >= 0 && it.discount >= 0 && HasOneParent(it)
  }

  /** The body of a create request; the parent ids are raw tokens. */
  datatype ItemFields = ItemFields(
    name: string,
    image: Option<string>,
    description: Option<string>,
    taxApplicability: Option<bool>,
    tax: Option<int>,
    baseAmount: Option<int>,
    discount: Option<int>,
    categoryId: Option<string>,
    subcategoryId: Option<string>)

  /** The body of an edit request; the parent paths cannot be named. */
  datatype ItemPatch = ItemPatch(
    name: Option<string>,
    image: Option<string>,
    description: Option<string>,
    taxApplicability: Option<bool>,
    tax: Option<int>,
    baseAmount: Option<int>,
    discount: Option<int>)

  /** Assigning a token to an ObjectId path: a token that does not cast leaves the path unset. */
  function CastRef(token: Option<string>): (r: Option<ObjectId>)
    ensures r.Some? <==> token.Some? && IsObjectIdText(token.value)
  {
    if token.Some? then ParseObjectId(token.value) else None
  }

  predicate CastFails(token: Option<string>) {
    token.Some? && !IsObjectIdText(token.value)
  }

  /**
   * `new Item({...})` followed by validation: the placement hook first,
   * then the path validators. A successful result has exactly one parent.
   */
  function NewItem(f: ItemFields): (r: Result<Item, Violation>)
    ensures r.Ok? <==>
      && (f.categoryId.Some? != f.subcategoryId.Some?)
      && !CastFails(f.categoryId) && !CastFails(f.subcategoryId)
      && !AllSpace(f.name)
      && f.baseAmount.Some? && f.baseAmount.value >= 0
      && f.discount.GetOr(0) >= 0
    ensures f.categoryId.None? && f.subcategoryId.None? ==> r == Err(NoParent)
    ensures !CastFails(f.categoryId) && !CastFails(f.subcategoryId) && f.categoryId.Some? && f.subcategoryId.Some?
            ==> r == Err(BothParents)
    ensures r.Ok? ==> ItemOk(r.value)
    ensures r.Ok? ==> r.value.category == CastRef(f.categoryId) && r.value.subcategory == CastRef(f.subcategoryId)
    ensures r.Ok? ==> r.value.name == Trim(f.name) && r.value.image == f.image && r.value.description == f.description
    ensures r.Ok? ==> r.value.taxApplicability == f.taxApplicability.GetOr(false) && r.value.tax == f.tax.GetOr(0)
    ensures r.Ok? ==> r.value.baseAmount == f.baseAmount.value && r.value.discount == f.discount.GetOr(0)
  {
    var category := CastRef(f.categoryId);
    var subcategory := CastRef(f.subcategoryId);
    match ParentViolation(category, subcategory)
    case Some(v) => Err(v)
    case None =>
      if CastFails(f.categoryId) || CastFails(f.subcategoryId) then Err(ParentIdCast)
      else
        match RequiredName(f.name)
        case Err(v) => Err(v)
        case Ok(name) =>
          if f.baseAmount.None? then Err(BaseAmountRequired)
          else if f.baseAmount.value < 0 then Err(BaseAmountBelowMin)
          else if f.discount.GetOr(0) < 0 then Err(DiscountBelowMin)
          else Ok(Item(name, f.image, f.description, f.taxApplicability.GetOr(false), f.tax.GetOr(0),
                       f.baseAmount.value, f.discount.GetOr(0), category, subcategory))
  }

  /** The update validators on the given paths. */
  function ItemPatchViolation(p: ItemPatch): (r: Option<Violation>)
    ensures r.None? <==> (p.name.Some? ==> !AllSpace(p.name.value))
                         && p.baseAmount.GetOr(0) >= 0 && p.discount.GetOr(0) >= 0
  {
    if p.name.Some? && RequiredName(p.name.value).Err? then Some(NameRequired)
    else if p.baseAmount.GetOr(0) < 0 then Some(BaseAmountBelowMin)
    else if p.discount.GetOr(0) < 0 then Some(DiscountBelowMin)
    else None
  }

  /** The record after a valid edit: both parent paths are untouched. */
  function PatchItem(it: Item, p: ItemPatch): (r: Item)
    requires ItemPatchViolation(p).None?
    ensures r.category == it.category && r.subcategory == it.subcategory
    ensures r.name == (if p.name.Some? then Trim(p.name.value) else it.name)
    ensures r.image == (if p.image.Some? then p.image else it.image)
    ensures r.description == (if p.description.Some? then p.description else it.description)
    ensures r.taxApplicability == p.taxApplicability.GetOr(it.taxApplicability) && r.tax == p.tax.GetOr(it.tax)
    ensures r.baseAmount == p.baseAmount.GetOr(it.baseAmount) && r.discount == p.discount.GetOr(it.discount)
    ensures ItemOk(it) ==> ItemOk(r)
  {
    var name := if p.name.Some? then RequiredName(p.name.value).value else it.name;
    it.(name := name,
        image := if p.image.Some? then p.image else it.image,
        description := if p.description.Some? then p.description else it.description,
        taxApplicability := p.taxApplicability.GetOr(it.taxApplicability),
        tax := p.tax.GetOr(it.tax),
        baseAmount := p.baseAmount.GetOr(it.baseAmount),
        discount := p.discount.GetOr(it.discount))
  }

  /** After an edit, the total read back is recomputed from the new amounts. */
  lemma TotalAfterPatch(it: Item, p: ItemPatch)
    requires ItemPatchViolation(p).None?
    ensures TotalAmount(PatchItem(it, p)) == p.baseAmount.GetOr(it.baseAmount) - p.discount.GetOr(it.discount)
  {
  }
}
