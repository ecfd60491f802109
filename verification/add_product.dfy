/** The mobile "Add Product" admin screen (android/app/admin/add-product.tsx):
    five required text fields with a numeric price, the canned AI rewrite of
    the description, and the save guard. */
module AddProduct {
  import opened Text
  import opened Forms

  function RequiredMessage(f: ProductField): string {
    match f
    case Name => "Product name is required"
    case Description => "Description is required"
    case Price => "Price is required"
    case Category => "Category is required"
    case ImageUrl => "Image URL is required"
  }

  const InvalidPriceMessage := "Price must be a valid number"

  predicate Complete(form: map<ProductField, string>) {
    forall f :: f in ProductFields ==> f in form
  }

  /** The `newErrors` map of `validateForm`: "required" for a blank field,
      and for a non-blank price that `Number` cannot read, the numeric-price
      message in place of the "required" one. */
  function FieldErrors(form: map<ProductField, string>): map<ProductField, string>
    requires Complete(form)
  {
    map f | f in ProductFields && (IsBlank(form[f]) || (f == Price && IsNaN(form[f]))) ::
      if f == Price && !IsBlank(form[f]) then InvalidPriceMessage else RequiredMessage(f)
  }

  lemma FieldErrorsAt(form: map<ProductField, string>, f: ProductField)
    requires Complete(form)
    ensures f != Price ==> (f in FieldErrors(form) <==> IsBlank(form[f]))
    ensures f != Price && f in FieldErrors(form) ==> FieldErrors(form)[f] == RequiredMessage(f)
    ensures Price in FieldErrors(form) <==> IsBlank(form[Price]) || IsNaN(form[Price])
    ensures IsBlank(form[Price]) ==> FieldErrors(form)[Price] == "Price is required"
    ensures !IsBlank(form[Price]) && IsNaN(form[Price]) ==> FieldErrors(form)[Price] == InvalidPriceMessage
  {
    AllFieldsListed(f);
  }

  /** No field is blank and the price reads as a number. */
  predicate Acceptable(form: map<ProductField, string>)
    requires Complete(form)
  {
    (forall f :: f in ProductFields ==> !IsBlank(form[f])) && !IsNaN(form[Price])
  }

  /** The form is accepted exactly when no field is blank and the price reads
      as a number. */
  lemma NoErrorsIffFilledAndNumeric(form: map<ProductField, string>)
    requires Complete(form)
    ensures |FieldErrors(form)| == 0 <==> Acceptable(form)
  {
    var errors := FieldErrors(form);
    if |errors| != 0 {
      var f :| f in errors;
    } else {
      forall f | f in ProductFields
        ensures !IsBlank(form[f])
      {
        assert f !in errors;
      }
      assert Price !in errors;
    }
  }

  const EnhancedPrefix := "Enhanced with AI: "
  const EnhancedSuffix :=
    "\n\nThis product offers exceptional quality and value. Our AI analysis suggests highlighting the following benefits:\n\n"
    + "\U{2022} Premium materials and craftsmanship\n"
    + "\U{2022} Innovative design features\n"
    + "\U{2022} Excellent customer satisfaction ratings\n"
    + "\U{2022} Competitive pricing in the market\n"
    + "\U{2022} Reliable performance and durability"

  /** `enhancedDescription`: the original between a fixed prefix and a fixed
      suffix. */
  function EnhancedText(description: string): string {
    EnhancedPrefix + description + EnhancedSuffix
  }

  /** The original text survives intact between the prefix and the suffix,
      so it can always be read back. */
  lemma EnhancedTextParts(description: string)
    ensures |EnhancedText(description)| == |EnhancedPrefix| + |description| + |EnhancedSuffix|
    ensures EnhancedText(description)[..|EnhancedPrefix|] == EnhancedPrefix
    ensures EnhancedText(description)[|EnhancedPrefix|..|EnhancedPrefix| + |description|] == description
    ensures EnhancedText(description)[|EnhancedPrefix| + |description|..] == EnhancedSuffix
  {
    var r := EnhancedText(description);
    assert r[..|EnhancedPrefix|] == EnhancedPrefix;
    assert r[|EnhancedPrefix|..|EnhancedPrefix| + |description|] == description;
  }

  /** Distinct descriptions are rewritten to distinct texts. */
  lemma EnhancedTextInjective(a: string, b: string)
    requires EnhancedText(a) == EnhancedText(b)
    ensures a == b
  {
    EnhancedTextParts(a);
    EnhancedTextParts(b);
  }

  class AddProductScreen {
    var form: map<ProductField, string>
    var errors: map<ProductField, string>
    var isEnhancing: bool
    var isLoading: bool

    ghost predicate Valid()
      reads this
    {
      Complete(form)
    }

    constructor ()
      ensures Valid()
      ensures form == map f | f in ProductFields :: ""
      ensures errors == map[] && !isEnhancing && !isLoading
    {
      form := map f | f in ProductFields :: "";
      errors := map[];
      isEnhancing := false;
      isLoading := false;
    }

    method HandleInputChange(field: ProductField, value: string)
      requires Valid()
      modifies this
      ensures Valid()
      ensures form == old(form)[field := value]
      ensures errors == ClearedError(old(errors), field)
      ensures isEnhancing == old(isEnhancing) && isLoading == old(isLoading)
    {
      form := form[field := value];
      errors := ClearedError(errors, field);
    }

    method ValidateForm() returns (ok: bool)
      requires Valid()
      modifies this`errors
      ensures errors == FieldErrors(form)
      ensures ok <==> Acceptable(form)
    {
      errors := FieldErrors(form);
      ok := |errors| == 0;
      NoErrorsIffFilledAndNumeric(form);
    }

    /** `enhanceDescriptionWithAI`, with the two-second wait taken as
        immediate; `failed` says whether the awaited call threw. */
    method EnhanceDescriptionWithAI(failed: bool) returns (enhanced: bool)
      requires Valid()
      modifies this
      ensures Valid()
      ensures IsBlank(old(form)[Description]) ==>
        !enhanced && form == old(form) && isEnhancing == old(isEnhancing)
      ensures !IsBlank(old(form)[Description]) ==> !isEnhancing
      ensures enhanced <==> !IsBlank(old(form)[Description]) && !failed
      ensures enhanced ==> form == old(form)[Description := EnhancedText(old(form)[Description])]
      ensures !enhanced ==> form == old(form)
      ensures errors == old(errors) && isLoading == old(isLoading)
    {
      if IsBlank(form[Description]) {
        return false;
      }
      isEnhancing := true;
      if failed {
        enhanced := false;
      } else {
        var text := EnhancedText(form[Description]);
        form := form[Description := text];
        enhanced := true;
      }
      isEnhancing := false;
    }

    /** `handleSaveProduct`: an invalid form returns before the loading flag
        is set; a valid one starts the simulated save. */
    method HandleSaveProduct() returns (started: bool)
      requires Valid()
      modifies this`errors, this`isLoading
      ensures Valid() && form == old(form)
      ensures errors == FieldErrors(form)
      ensures started <==> Acceptable(form)
      ensures isLoading == (started || old(isLoading))
      ensures isEnhancing == old(isEnhancing)
    {
      started := ValidateForm();
      if started {
        isLoading := true;
      }
    }

    /** The save timer's callback. */
    method SaveTimerFired()
      modifies this`isLoading
      ensures !isLoading
    {
      isLoading := false;
    }
  }
}
