/** What the three Mongoose schemas share: their validation failures and the `name` path rule. */
module Schema {
  import opened Wrappers
  import opened Text

  /** A schema validation failure, one per rule the schemas and the item hook enforce. */
  datatype Violation =
    | NameRequired        // `name` missing or blank after trimming
    | TaxTypeNotInEnum    // `taxType` outside Percentage / Fixed / None
    | BaseAmountRequired  // item without `baseAmount`
    | BaseAmountBelowMin  // `baseAmount` below its `min: 0`
    | DiscountBelowMin    // `discount` below its `min: 0`
    | BothParents         // item hook: both a category and a subcategory
    | NoParent            // item hook: neither a category nor a subcategory
    | ParentIdCast        // item parent id that does not cast to an ObjectId

  /** A stored `name`: non-empty and already trimmed. */
  predicate StoredName(n: string) {
    n != [] && Trimmed(n)
  }

  /** The `name: { type: String, required: true, trim: true }` path of every schema. */
  function RequiredName(raw: string): (r: Result<string, Violation>)
    ensures r.Ok? <==> !AllSpace(raw)
    ensures r.Ok? ==> r.value == Trim(raw) && StoredName(r.value)
    ensures r.Err? ==> r.error == NameRequired
  {
    TrimEmptyIffAllSpace(raw);
    var t := Trim(raw);
    if t == [] then Err(NameRequired) else Ok(t)
  }
}
