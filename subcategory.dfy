/** The Subcategory schema (models/subcategory.js). */
module SubcategoryModel {
  import opened Wrappers
  import opened Text
  import opened ObjectIds
  import opened Schema

  /**
   * A stored subcategory. `taxApplicability` and `tax` are required, so
   * they always hold definite values; `category` is the required parent.
   */
  datatype Subcategory = Subcategory(
    name: string,
    image: Option<string>,
    description: Option<string>,
    taxApplicability: bool,
    tax: int,
    category: ObjectId,
    items: seq<ObjectId>)

  predicate SubcategoryOk(s: Subcategory) {
    StoredName(s.name)
  }

  /** The body of a create request; an omitted field is `None`. */
  datatype SubcategoryFields = SubcategoryFields(
    name: string,
    image: Option<string>,
    description: Option<string>,
    taxApplicability: Option<bool>,
    tax: Option<int>)

  /** The body of an edit request; there is no way to name the parent. */
  datatype SubcategoryPatch = SubcategoryPatch(
    name: Option<string>,
    image: Option<string>,
    description: Option<string>,
    taxApplicability: Option<bool>,
    tax: Option<int>)

  /**
   * `new Subcategory({...})` followed by validation, once the tax fields
   * have definite values: the name is trimmed and must not be blank, and
   * the item list starts empty.
   */
  function NewSubcategory(name: string, image: Option<string>, description: Option<string>,
                          taxApplicability: bool, tax: int, category: ObjectId): (r: Result<Subcategory, Violation>)
    ensures r.Ok? <==> !AllSpace(name)
    ensures r.Err? ==> r.error == NameRequired
    ensures r.Ok? ==> SubcategoryOk(r.value) && r.value.name == Trim(name) && r.value.items == []
    ensures r.Ok? ==> r.value.category == category && r.value.taxApplicability == taxApplicability && r.value.tax == tax
    ensures r.Ok? ==> r.value.image == image && r.value.description == description
  {
    match RequiredName(name)
    case Err(v) => Err(v)
    case Ok(n) => Ok(Subcategory(n, image, description, taxApplicability, tax, category, []))
  }

  function SubcategoryPatchViolation(p: SubcategoryPatch): (r: Option<Violation>)
    ensures r.None? <==> (p.name.Some? ==> !AllSpace(p.name.value))
  {
    if p.name.Some? && RequiredName(p.name.value).Err? then Some(NameRequired) else None
  }

  /** The record after a valid edit: the parent and the item list are untouched. */
  function PatchSubcategory(s: Subcategory, p: SubcategoryPatch): (r: Subcategory)
    requires SubcategoryPatchViolation(p).None?
    ensures r.category == s.category && r.items == s.items
    ensures r.name == (if p.name.Some? then Trim(p.name.value) else s.name)
    ensures r.image == (if p.image.Some? then p.image else s.image)
    ensures r.description == (if p.description.Some? then p.description else s.description)
    ensures r.taxApplicability == p.taxApplicability.GetOr(s.taxApplicability) && r.tax == p.tax.GetOr(s.tax)
    ensures SubcategoryOk(s) ==> SubcategoryOk(r)
  {
    var name := if p.name.Some? then RequiredName(p.name.value).value else s.name;
    s.(name := name,
       image := if p.image.Some? then p.image else s.image,
       description := if p.description.Some? then p.description else s.description,
       taxApplicability := p.taxApplicability.GetOr(s.taxApplicability),
       tax := p.tax.GetOr(s.tax))
  }
}
