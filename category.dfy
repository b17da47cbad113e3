/** The Category schema (models/category.js). */
module CategoryModel {
  import opened Wrappers
  import opened Text
  import opened ObjectIds
  import opened Schema

  /** The `taxType` enum; `NoTax` is the enum value spelled "None". */
  datatype TaxType = Percentage | Fixed | NoTax

  function TaxTypeName(t: TaxType): string {
    match t
    case Percentage => "Percentage"
    case Fixed => "Fixed"
    case NoTax => "None"
  }

  /** The enum validator: exactly the three names are accepted. */
  function ParseTaxType(s: string): (r: Option<TaxType>)
    ensures r.Some? <==> s == "Percentage" || s == "Fixed" || s == "None"
    ensures r.Some? ==> TaxTypeName(r.value) == s
  {
    if s == "Percentage" then Some(Percentage)
    else if s == "Fixed" then Some(Fixed)
    else if s == "None" then Some(NoTax)
    else None
  }

  /** Every enum value's name is accepted and denotes that value. */
  lemma TaxTypeRoundTrip(t: TaxType)
    ensures ParseTaxType(TaxTypeName(t)) == Some(t)
  {
  }

  /** A stored category; `subcategories` and `items` are its child-id lists. */
  datatype Category = Category(
    name: string,
    image: Option<string>,
    description: Option<string>,
    taxApplicability: bool,
    tax: int,
    taxType: TaxType,
    subcategories: seq<ObjectId>,
    items: seq<ObjectId>)

  predicate CategoryOk(c: Category) {
    StoredName(c.name)
  }

  /** The body of a create request; an omitted field is `None`. */
  datatype CategoryFields = CategoryFields(
    name: string,
    image: Option<string>,
    description: Option<string>,
    taxApplicability: Option<bool>,
    tax: Option<int>,
    taxType: Option<string>)

  /** The body of an edit request; only the fields given are changed. */
  datatype CategoryPatch = CategoryPatch(
    name: Option<string>,
    image: Option<string>,
    description: Option<string>,
    taxApplicability: Option<bool>,
    tax: Option<int>,
    taxType: Option<string>)

  predicate TaxTypeAccepted(t: Option<string>) {
    t.None? || ParseTaxType(t.value).Some?
  }

  /** The stored `taxType` of an accepted request value; an omitted one takes the default "None". */
  function TaxTypeOrDefault(t: Option<string>): (r: TaxType)
    requires TaxTypeAccepted(t)
    ensures TaxTypeName(r) == t.GetOr("None")
  {
    if t.Some? then ParseTaxType(t.value).value else NoTax
  }

  /**
   * `new Category({...})` followed by validation: defaults filled in,
   * the name trimmed, the enum checked, both child lists empty.
   */
  function NewCategory(f: CategoryFields): (r: Result<Category, Violation>)
    ensures r.Ok? <==> !AllSpace(f.name) && TaxTypeAccepted(f.taxType)
    ensures AllSpace(f.name) ==> r == Err(NameRequired)
    ensures !AllSpace(f.name) && !TaxTypeAccepted(f.taxType) ==> r == Err(TaxTypeNotInEnum)
    ensures r.Ok? ==> CategoryOk(r.value) && r.value.name == Trim(f.name)
    ensures r.Ok? ==> r.value.image == f.image && r.value.description == f.description
    ensures r.Ok? ==> r.value.taxApplicability == f.taxApplicability.GetOr(false) && r.value.tax == f.tax.GetOr(0)
    ensures r.Ok? ==> TaxTypeName(r.value.taxType) == f.taxType.GetOr("None")
    ensures r.Ok? ==> r.value.subcategories == [] && r.value.items == []
  {
    match RequiredName(f.name)
    case Err(v) => Err(v)
    case Ok(name) =>
      if !TaxTypeAccepted(f.taxType) then Err(TaxTypeNotInEnum)
      else
        Ok(Category(name, f.image, f.description, f.taxApplicability.GetOr(false), f.tax.GetOr(0),
                    TaxTypeOrDefault(f.taxType), [], []))
  }

  /** The update validators, which run on the given paths only. */
  function CategoryPatchViolation(p: CategoryPatch): (r: Option<Violation>)
    ensures r.None? <==> (p.name.Some? ==> !AllSpace(p.name.value)) && TaxTypeAccepted(p.taxType)
  {
    if p.name.Some? && RequiredName(p.name.value).Err? then Some(NameRequired)
    else if !TaxTypeAccepted(p.taxType) then Some(TaxTypeNotInEnum)
    else None
  }

  /**
   * The record after `findByIdAndUpdate` with a valid patch: the given
   * fields replace the stored ones and the child lists stay as they are.
   */
  function PatchCategory(c: Category, p: CategoryPatch): (r: Category)
    requires CategoryPatchViolation(p).None?
    ensures r.subcategories == c.subcategories && r.items == c.items
    ensures r.name == (if p.name.Some? then Trim(p.name.value) else c.name)
    ensures r.image == (if p.image.Some? then p.image else c.image)
    ensures r.description == (if p.description.Some? then p.description else c.description)
    ensures r.taxApplicability == p.taxApplicability.GetOr(c.taxApplicability) && r.tax == p.tax.GetOr(c.tax)
    ensures p.taxType.Some? ==> TaxTypeName(r.taxType) == p.taxType.value
    ensures p.taxType.None? ==> r.taxType == c.taxType
    ensures CategoryOk(c) ==> CategoryOk(r)
  {
    var name := if p.name.Some? then RequiredName(p.name.value).value else c.name;
    var taxType := if p.taxType.Some? then ParseTaxType(p.taxType.value).value else c.taxType;
    c.(name := name,
       image := if p.image.Some? then p.image else c.image,
       description := if p.description.Some? then p.description else c.description,
       taxApplicability := p.taxApplicability.GetOr(c.taxApplicability),
       tax := p.tax.GetOr(c.tax),
       taxType := taxType)
  }
}
