/** What the form screens share: the five product fields and the
    `handleInputChange` handler's treatment of the error map. */
module Forms {

  /** The fields of a product form, in the order the validators check them. */
  datatype ProductField = Name | Description | Price | Category | ImageUrl

  const ProductFields: seq<ProductField> := [Name, Description, Price, Category, ImageUrl]

  lemma AllFieldsListed(f: ProductField)
    ensures f in ProductFields
  {
    match f
    case Name => case Description => case Price => case Category => case ImageUrl =>
  }

  /** `if (errors[field]) setErrors(prev => ({ ...prev, [field]: '' }))`:
      a non-empty message for the edited field is blanked; the key stays and
      every other entry is kept. */
  function ClearedError<F>(errors: map<F, string>, f: F): (r: map<F, string>)
    ensures r.Keys == errors.Keys
    ensures f in r ==> r[f] == ""
    ensures forall g :: g in errors && g != f ==> r[g] == errors[g]
  {
    if f in errors && errors[f] != "" then errors[f := ""] else errors
  }
}
