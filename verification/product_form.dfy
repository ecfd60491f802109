/** The web "new product" form (web/src/components/product-form.tsx): its
    client-side zod schema, and the AI suggestion cycle of enhancing the
    description, then using or dismissing the suggestion. */
module ProductForm {
  import opened Wrappers
  import opened Text
  import opened Forms
  import opened ProductActions

  /** The one message `productFormSchema` reports for field `f`, if any. */
  function FormFieldError(v: RawProduct, f: ProductField): Option<string> {
    match f
    case Name => if Utf16Length(v.name) < 2 then Some("Name must be at least 2 characters.") else None
    case Description =>
      if Utf16Length(v.description) < 10 then Some("Description must be at least 10 characters.") else None
    case Price =>
      (match ParseNumber(v.price)
       case None => Some(NotANumberMessage)
       case Some(p) => if p <= 0.0 then Some("Price must be a positive number.") else None)
    case Category => if Utf16Length(v.category) < 2 then Some("Category must be at least 2 characters.") else None
    case ImageUrl => if IsUrl(v.imageUrl) then None else Some("Please enter a valid URL.")
  }

  /** The form's error state after validation: a message per failing field. */
  function FormErrors(v: RawProduct): map<ProductField, string> {
    map f | f in ProductFields && FormFieldError(v, f).Some? :: FormFieldError(v, f).value
  }

  lemma FormErrorsAt(v: RawProduct, f: ProductField)
    ensures f in FormErrors(v) <==> FormFieldError(v, f).Some?
    ensures f in FormErrors(v) ==> FormErrors(v)[f] == FormFieldError(v, f).value
  {
    AllFieldsListed(f);
  }

  /** What `productFormSchema` demands: a name and a category of at least two
      characters, a description of at least ten, a price that reads as a
      number above zero, and a URL. */
  predicate FormAccepts(v: RawProduct) {
    Utf16Length(v.name) >= 2 && Utf16Length(v.description) >= 10 && Utf16Length(v.category) >= 2 &&
    IsUrl(v.imageUrl) &&
    ParseNumber(v.price).Some? && ParseNumber(v.price).value > 0.0
  }

  /** The form submits exactly when its schema reports no error. */
  lemma FormErrorsEmptyIffAccepted(v: RawProduct)
    ensures FormErrors(v) == map[] <==> FormAccepts(v)
  {
    if FormAccepts(v) {
      FormAcceptedHasNoErrors(v);
    } else {
      FormRejectedHasAnError(v);
    }
  }

  lemma FormAcceptedHasNoErrors(v: RawProduct)
    requires FormAccepts(v)
    ensures FormErrors(v) == map[]
  {
    forall f ensures FormFieldError(v, f).None? {
      match f
      case Name => case Description => case Category => case ImageUrl =>
      case Price => assert ParseNumber(v.price).value > 0.0;
    }
    assert FormErrors(v).Keys == {};
  }

  lemma FormRejectedHasAnError(v: RawProduct)
    requires !FormAccepts(v)
    ensures FormErrors(v) != map[]
  {
    if Utf16Length(v.name) < 2 {
      FormErrorsAt(v, Name);
    } else if Utf16Length(v.description) < 10 {
      FormErrorsAt(v, Description);
    } else if Utf16Length(v.category) < 2 {
      FormErrorsAt(v, Category);
    } else if !IsUrl(v.imageUrl) {
      FormErrorsAt(v, ImageUrl);
    } else {
      assert FormFieldError(v, Price).Some?;
      FormErrorsAt(v, Price);
    }
  }

  /** `defaultValues`; the numeric default price 0 is the string "0". */
  const DefaultValues := RawProduct("", "", "0", "", "")

  /** The untouched form fails on every field. */
  lemma DefaultValuesFailEveryField()
    ensures FormErrors(DefaultValues).Keys == {Name, Description, Price, Category, ImageUrl}
    ensures FormErrors(DefaultValues)[Price] == "Price must be a positive number."
  {
    DefaultFieldErrors();
    EveryFieldFails(DefaultValues);
    FormErrorsAt(DefaultValues, Price);
  }

  lemma EveryFieldFails(v: RawProduct)
    requires forall f :: FormFieldError(v, f).Some?
    ensures FormErrors(v).Keys == {Name, Description, Price, Category, ImageUrl}
  {
    forall f ensures f in FormErrors(v) {
      FormErrorsAt(v, f);
    }
    var all := {Name, Description, Price, Category, ImageUrl};
    forall f ensures f in all {
      match f
      case Name => case Description => case Price => case Category => case ImageUrl =>
    }
    assert FormErrors(v).Keys == all;
  }

  lemma DefaultFieldErrors()
    ensures forall f :: FormFieldError(DefaultValues, f).Some?
    ensures FormFieldError(DefaultValues, Price) == Some("Price must be a positive number.")
  {
    DefaultPriceError();
    forall f ensures FormFieldError(DefaultValues, f).Some? {
      match f
      case Name => case Description => case Category => case Price =>
      case ImageUrl => DefaultUrlError();
    }
  }

  lemma DefaultPriceError()
    ensures FormFieldError(DefaultValues, Price) == Some("Price must be a positive number.")
  {
    DigitStringIsNumber("0");
    assert ParseNumber(DefaultValues.price) == Some(0.0);
  }

  lemma DefaultUrlError()
    ensures FormFieldError(DefaultValues, ImageUrl).Some?
  {
    EmptyIsNotUrl();
  }

  /** Every check of the form schema is at least as strict as the server's,
      except the price floor: a form the client accepts with a price of at
      least 0.01 is accepted by the server. */
  lemma FormAcceptsImpliesServerAccepts(v: RawProduct)
    requires FormAccepts(v) && ParseNumber(v.price).value >= MinPrice
    ensures SchemaAccepts(v)
  {
  }

  /** The client schema accepts any positive price, the server schema only
      prices from 0.01: a price that reads as 0.005 (the string "0.005", by
      `TinyPriceReads`) passes the first and fails the second. */
  lemma TinyPricePassesFormOnly(v: RawProduct)
    requires Utf16Length(v.name) >= 2 && Utf16Length(v.description) >= 10 && Utf16Length(v.category) >= 2 && IsUrl(v.imageUrl)
    requires ParseNumber(v.price) == Some(0.005)
    ensures FormAccepts(v) && !SchemaAccepts(v)
    ensures SchemaErrors(v).Keys == {Price}
    ensures SchemaErrors(v)[Price] == "Price must be positive"
  {
    forall f ensures SchemaFieldError(v, f).Some? <==> f == Price {
      match f
      case Name => case Description => case Category => case ImageUrl =>
      case Price => assert SchemaFieldError(v, Price) == Some("Price must be positive");
    }
    OnlyPriceFails(v);
  }

  /** The price "0.005" reads as 0.005. */
  lemma TinyPriceReads()
    ensures ParseNumber("0.005") == Some(0.005)
  {
    var s := "0.005";
    DigitIsNotWhitespace(s[0]);
    DigitIsNotWhitespace(s[4]);
    assert Trim(s) == s;
    assert DigitSpan(s) == 1;
    assert s[1..] == ".005" && s[1..][1..] == "005";
    assert DigitSpan("005") == 3;
    assert s[..1] == "0" && "005"[..3] == "005" && "005"[3..] == "";
    assert ScanMantissa(s) == ("0", "005", "");
    assert DigitsValue("0") == 0;
    assert DigitsValue("00") == 0 by { assert "00"[..1] == "0"; }
    assert DigitsValue("005") == 5 by { assert "005"[..2] == "00"; }
  }

  /** The form's own state: the field values, the enhancing flag and the
      pending suggestion. */
  class ProductFormState {
    var values: RawProduct
    var isEnhancing: bool
    var enhancedResult: Option<EnhanceOutput>

    constructor ()
      ensures values == DefaultValues && !isEnhancing && enhancedResult.None?
    {
      values := DefaultValues;
      isEnhancing := false;
      enhancedResult := None;
    }

    /** Typing into the input `register` binds to field `f`. */
    method EditField(f: ProductField, value: string)
      modifies this`values
      ensures values == WithField(old(values), f, value)
    {
      values := WithField(values, f, value);
    }

    /** `handleEnhanceDescription`; `outcome` is what the enhancer call
        produced, passed through `enhanceDescriptionAction`. */
    method HandleEnhanceDescription(outcome: Result<EnhanceOutput, string>) returns (called: bool)
      modifies this`isEnhancing, this`enhancedResult
      ensures called <==> Utf16Length(values.description) >= 10
      ensures !called ==> isEnhancing == old(isEnhancing) && enhancedResult == old(enhancedResult)
      ensures called ==> !isEnhancing
      ensures called && outcome.Success? ==> enhancedResult == Some(outcome.value)
      ensures called && outcome.Failure? ==> enhancedResult.None?
    {
      var description := values.description;
      if description == "" || Utf16Length(description) < 10 {
        return false;
      }
      isEnhancing := true;
      enhancedResult := None;
      var result := EnhanceDescriptionAction(outcome);
      if result.success && result.data.Some? {
        enhancedResult := result.data;
      }
      isEnhancing := false;
      called := true;
    }

    /** "Use Suggestion", shown only while a suggestion is pending. */
    method UseSuggestion()
      requires enhancedResult.Some?
      modifies this`values, this`enhancedResult
      ensures values == old(values).(description := old(enhancedResult).value.enhancedDescription)
      ensures enhancedResult.None?
    {
      values := values.(description := enhancedResult.value.enhancedDescription);
      enhancedResult := None;
    }

    /** "Dismiss": the suggestion goes, the description stays. */
    method Dismiss()
      modifies this`enhancedResult
      ensures enhancedResult.None?
    {
      enhancedResult := None;
    }
  }
}
