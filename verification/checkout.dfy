/** The mobile checkout screen (android/app/checkout.tsx): eleven required
    shipping and payment fields, an error map rebuilt on every validation, and
    an order that, once the form is complete, empties the cart. */
module Checkout {
  import opened Text
  import opened Forms

  datatype Field =
    | FirstName | LastName | Email | Phone | Address | City | State | ZipCode
    | CardNumber | ExpiryDate | Cvv

  const Fields: seq<Field> :=
    [FirstName, LastName, Email, Phone, Address, City, State, ZipCode, CardNumber, ExpiryDate, Cvv]

  function RequiredMessage(f: Field): string {
    match f
    case FirstName => "First name is required"
    case LastName => "Last name is required"
    case Email => "Email is required"
    case Phone => "Phone is required"
    case Address => "Address is required"
    case City => "City is required"
    case State => "State is required"
    case ZipCode => "ZIP code is required"
    case CardNumber => "Card number is required"
    case ExpiryDate => "Expiry date is required"
    case Cvv => "CVV is required"
  }

  /** Every field of the form has a value. */
  predicate Complete(form: map<Field, string>) {
    forall f :: f in Fields ==> f in form
  }

  lemma AllFieldsListed(f: Field)
    ensures f in Fields
  {
    match f
    case FirstName => case LastName => case Email => case Phone => case Address =>
    case City => case State => case ZipCode => case CardNumber => case ExpiryDate =>
    case Cvv =>
  }

  /** The `newErrors` map of `validateForm`: one entry per field that is
      blank after trimming. */
  function FieldErrors(form: map<Field, string>): map<Field, string>
    requires Complete(form)
  {
    map f | f in Fields && IsBlank(form[f]) :: RequiredMessage(f)
  }

  /** The form passes exactly when every field holds a character other than
      whitespace; nothing else (card number format, expiry, CVV length) is
      looked at. */
  lemma ValidIffEveryFieldHasText(form: map<Field, string>)
    requires Complete(form)
    ensures |FieldErrors(form)| == 0 <==>
      forall f :: f in Fields ==> exists i :: 0 <= i < |form[f]| && !IsWhitespace(form[f][i])
  {
    var errors := FieldErrors(form);
    if |errors| == 0 {
      forall f | f in Fields
        ensures exists i :: 0 <= i < |form[f]| && !IsWhitespace(form[f][i])
      {
        assert f !in errors;
        BlankIffAllWhitespace(form[f]);
      }
    } else {
      var f :| f in errors;
      BlankIffAllWhitespace(form[f]);
    }
  }

  /** The error map is empty exactly when no field is blank. */
  lemma NoErrorsIffNoBlankField(form: map<Field, string>)
    requires Complete(form)
    ensures |FieldErrors(form)| == 0 <==> forall f :: f in Fields ==> !IsBlank(form[f])
  {
    var errors := FieldErrors(form);
    if |errors| != 0 {
      var f :| f in errors;
    } else {
      forall f | f in Fields
        ensures !IsBlank(form[f])
      {
        assert f !in errors;
      }
    }
  }

  /** An error is reported for a field exactly when it is blank, with that
      field's message. */
  lemma ErrorsNameBlankFields(form: map<Field, string>, f: Field)
    requires Complete(form)
    ensures f in FieldErrors(form) <==> IsBlank(form[f])
    ensures f in FieldErrors(form) ==> FieldErrors(form)[f] == RequiredMessage(f)
  {
    AllFieldsListed(f);
  }

  class CheckoutScreen {
    var form: map<Field, string>
    var errors: map<Field, string>
    /** Number of items in the cart; the screen only ever empties it. */
    var cartCount: nat

    ghost predicate Valid()
      reads this
    {
      Complete(form)
    }

    constructor (itemsInCart: nat)
      ensures Valid()
      ensures form == map f | f in Fields :: ""
      ensures errors == map[] && cartCount == itemsInCart
    {
      form := map f | f in Fields :: "";
      errors := map[];
      cartCount := itemsInCart;
    }

    method HandleInputChange(field: Field, value: string)
      requires Valid()
      modifies this
      ensures Valid()
      ensures form == old(form)[field := value]
      ensures errors == ClearedError(old(errors), field)
      ensures cartCount == old(cartCount)
    {
      form := form[field := value];
      errors := ClearedError(errors, field);
    }

    /** Replaces the whole error map by the blank-field errors. */
    method ValidateForm() returns (ok: bool)
      requires Valid()
      modifies this`errors
      ensures errors == FieldErrors(form)
      ensures ok <==> forall f :: f in Fields ==> !IsBlank(form[f])
    {
      errors := FieldErrors(form);
      ok := |errors| == 0;
      NoErrorsIffNoBlankField(form);
    }

    method HandlePlaceOrder() returns (placed: bool)
      requires Valid()
      modifies this
      ensures Valid() && form == old(form)
      ensures errors == FieldErrors(form)
      ensures placed <==> forall f :: f in Fields ==> !IsBlank(form[f])
      ensures placed ==> cartCount == 0
      ensures !placed ==> cartCount == old(cartCount)
    {
      placed := ValidateForm();
      if !placed {
        return;
      }
      cartCount := 0;
    }
  }
}
