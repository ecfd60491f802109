/** The web store's server actions (web/src/lib/actions.ts): the zod
    `productSchema` that a submitted product must satisfy, `addProductAction`,
    which puts a valid product at the front of the shared in-memory catalog,
    and `enhanceDescriptionAction`, which wraps the description enhancer. */
module ProductActions {
  import opened Wrappers
  import opened Text
  import opened Forms
  import opened Catalog

  /** The five form entries of a submitted product, as the strings the
      `FormData` carries. */
  datatype RawProduct = RawProduct(
    name: string,
    description: string,
    price: string,
    category: string,
    imageUrl: string)

  function FieldValue(raw: RawProduct, f: ProductField): string {
    match f
    case Name => raw.name
    case Description => raw.description
    case Price => raw.price
    case Category => raw.category
    case ImageUrl => raw.imageUrl
  }

  /** `raw` with the entry for `f` replaced. */
  function WithField(raw: RawProduct, f: ProductField, value: string): (r: RawProduct)
    ensures FieldValue(r, f) == value
    ensures forall g :: g != f ==> FieldValue(r, g) == FieldValue(raw, g)
  {
    match f
    case Name => raw.(name := value)
    case Description => raw.(description := value)
    case Price => raw.(price := value)
    case Category => raw.(category := value)
    case ImageUrl => raw.(imageUrl := value)
  }

  /** The message zod gives when `z.coerce.number()` produces NaN. */
  const NotANumberMessage := "Expected number, received nan"
  const MinPrice: real := 0.01

  /** The one message `productSchema` reports for field `f`, if any. */
  function SchemaFieldError(raw: RawProduct, f: ProductField): Option<string> {
    match f
    case Name => if |raw.name| < 1 then Some("Name is required") else None
    case Description => if |raw.description| < 1 then Some("Description is required") else None
    case Price =>
      (match ParseNumber(raw.price)
       case None => Some(NotANumberMessage)
       case Some(v) => if v < MinPrice then Some("Price must be positive") else None)
    case Category => if |raw.category| < 1 then Some("Category is required") else None
    case ImageUrl => if IsUrl(raw.imageUrl) then None else Some("Must be a valid URL")
  }

  /** `error.flatten().fieldErrors`: a message for each failing field. */
  function SchemaErrors(raw: RawProduct): map<ProductField, string> {
    map f | f in ProductFields && SchemaFieldError(raw, f).Some? :: SchemaFieldError(raw, f).value
  }

  lemma SchemaErrorsAt(raw: RawProduct, f: ProductField)
    ensures f in SchemaErrors(raw) <==> SchemaFieldError(raw, f).Some?
    ensures f in SchemaErrors(raw) ==> SchemaErrors(raw)[f] == SchemaFieldError(raw, f).value
  {
    AllFieldsListed(f);
  }

  /** What `productSchema` demands, field by field: non-empty name,
      description and category, a price that reads as a number of at least
      0.01, and a URL. */
  predicate SchemaAccepts(raw: RawProduct) {
    |raw.name| >= 1 && |raw.description| >= 1 && |raw.category| >= 1 &&
    IsUrl(raw.imageUrl) &&
    ParseNumber(raw.price).Some? && ParseNumber(raw.price).value >= MinPrice
  }

  /** The error map is empty exactly when the schema accepts the product. */
  lemma SchemaErrorsEmptyIffAccepted(raw: RawProduct)
    ensures SchemaErrors(raw) == map[] <==> SchemaAccepts(raw)
  {
    if SchemaAccepts(raw) {
      AcceptedHasNoErrors(raw);
    } else {
      RejectedHasAnError(raw);
    }
  }

  lemma AcceptedHasNoErrors(raw: RawProduct)
    requires SchemaAccepts(raw)
    ensures SchemaErrors(raw) == map[]
  {
    forall f ensures SchemaFieldError(raw, f).None? {
      match f
      case Name => case Description => case Category => case ImageUrl =>
      case Price => assert ParseNumber(raw.price).value >= MinPrice;
    }
    assert SchemaErrors(raw).Keys == {};
  }

  lemma RejectedHasAnError(raw: RawProduct)
    requires !SchemaAccepts(raw)
    ensures SchemaErrors(raw) != map[]
  {
    if |raw.name| < 1 {
      SchemaErrorsAt(raw, Name);
    } else if |raw.description| < 1 {
      SchemaErrorsAt(raw, Description);
    } else if |raw.category| < 1 {
      SchemaErrorsAt(raw, Category);
    } else if !IsUrl(raw.imageUrl) {
      SchemaErrorsAt(raw, ImageUrl);
    } else {
      assert SchemaFieldError(raw, Price).Some?;
      SchemaErrorsAt(raw, Price);
    }
  }

  /** A text field is reported exactly when it is empty, the image URL
      exactly when it is not a URL. */
  lemma SchemaTextErrors(raw: RawProduct)
    ensures Name in SchemaErrors(raw) <==> raw.name == ""
    ensures Description in SchemaErrors(raw) <==> raw.description == ""
    ensures Category in SchemaErrors(raw) <==> raw.category == ""
    ensures ImageUrl in SchemaErrors(raw) <==> !IsUrl(raw.imageUrl)
  {
    SchemaErrorsAt(raw, Name);
    SchemaErrorsAt(raw, Description);
    SchemaErrorsAt(raw, Category);
    SchemaErrorsAt(raw, ImageUrl);
  }

  /** The price is reported exactly when it is not a number or is below
      0.01, with a message that says which. */
  lemma SchemaPriceErrors(raw: RawProduct)
    ensures Price in SchemaErrors(raw) <==>
      ParseNumber(raw.price).None? || ParseNumber(raw.price).value < MinPrice
    ensures ParseNumber(raw.price).None? ==> SchemaErrors(raw)[Price] == NotANumberMessage
    ensures ParseNumber(raw.price).Some? && ParseNumber(raw.price).value < MinPrice ==>
      SchemaErrors(raw)[Price] == "Price must be positive"
  {
    SchemaErrorsAt(raw, Price);
    match ParseNumber(raw.price)
    case None =>
      assert SchemaFieldError(raw, Price) == Some(NotANumberMessage);
    case Some(v) =>
      assert SchemaFieldError(raw, Price) == if v < MinPrice then Some("Price must be positive") else None;
  }

  /** A product whose one failing server check is the price has only the
      price in its error map. */
  lemma OnlyPriceFails(raw: RawProduct)
    requires forall f :: SchemaFieldError(raw, f).Some? <==> f == Price
    ensures SchemaErrors(raw).Keys == {Price}
    ensures SchemaErrors(raw)[Price] == SchemaFieldError(raw, Price).value
  {
    forall f ensures f in SchemaErrors(raw) <==> f == Price {
      SchemaErrorsAt(raw, f);
    }
    assert SchemaErrors(raw).Keys == {Price};
    SchemaErrorsAt(raw, Price);
  }

  /** `Number('')` is 0, so an empty price is refused as not positive rather
      than as missing. */
  lemma EmptyPriceIsNotPositive(raw: RawProduct)
    requires raw.price == ""
    ensures SchemaErrors(raw)[Price] == "Price must be positive"
  {
  }

  /** The fields of `validatedFields.data`. */
  datatype ProductData = ProductData(
    name: string,
    description: string,
    price: real,
    category: string,
    imageUrl: string)

  /** `productSchema.safeParse`: the coerced data, or the field errors. */
  function SafeParse(raw: RawProduct): (r: Result<ProductData, map<ProductField, string>>)
    ensures r.Success? <==> SchemaAccepts(raw)
    ensures r.Failure? ==> r.error == SchemaErrors(raw) && r.error != map[]
    ensures r.Success? ==>
      r.value.name == raw.name && r.value.description == raw.description &&
      r.value.category == raw.category && r.value.imageUrl == raw.imageUrl &&
      ParseNumber(raw.price) == Some(r.value.price) && r.value.price >= MinPrice
  {
    SchemaErrorsEmptyIffAccepted(raw);
    if SchemaErrors(raw) == map[] then
      Success(ProductData(raw.name, raw.description, ParseNumber(raw.price).value, raw.category, raw.imageUrl))
    else Failure(SchemaErrors(raw))
  }

  /** `{ id: uuidv4(), ...validatedFields.data }`; the source gives the new
      product no `inStock` entry, read here as not in stock. */
  function NewProduct(data: ProductData, id: string): (p: Product)
    ensures p.id == id && !p.inStock
    ensures ProductData(p.name, p.description, p.price, p.category, p.imageUrl) == data
  {
    Product(id, data.name, data.description, data.price, data.category, data.imageUrl, false)
  }

  /** What `addProductAction` returns: `{ success: true }` or `{ errors }`. */
  datatype AddResult = Added | Invalid(errors: map<ProductField, string>)

  /** The module-level `products` array that the action updates in place. */
  class ProductStore {
    var products: seq<Product>

    constructor (initial: seq<Product>)
      ensures products == initial
    {
      products := initial;
    }

    /** `addProductAction`; `freshId` is the value `uuidv4()` returns. */
    method AddProductAction(raw: RawProduct, freshId: string) returns (result: AddResult)
      modifies this
      ensures !SchemaAccepts(raw) ==>
        result == Invalid(SchemaErrors(raw)) && result.errors != map[] && products == old(products)
      ensures SchemaAccepts(raw) ==> result == Added
      ensures SchemaAccepts(raw) ==>
        |products| == |old(products)| + 1 && products[1..] == old(products) &&
        products[0] == NewProduct(SafeParse(raw).value, freshId)
    {
      var validated := SafeParse(raw);
      if validated.Failure? {
        return Invalid(validated.error);
      }
      var newProduct := NewProduct(validated.value, freshId);
      products := [newProduct] + products;
      result := Added;
    }
  }

  /** `EnhanceProductDescriptionOutput` of the description enhancer. */
  datatype EnhanceOutput = EnhanceOutput(enhancedDescription: string, feedback: string)

  /** The object `enhanceDescriptionAction` returns. */
  datatype EnhanceResponse = EnhanceResponse(success: bool, data: Option<EnhanceOutput>, error: Option<string>)

  const EnhanceFailedMessage := "Failed to enhance description."

  /** `enhanceDescriptionAction`; `outcome` is what the awaited enhancer
      call produced: its output, or the message of what it threw. */
  function EnhanceDescriptionAction(outcome: Result<EnhanceOutput, string>): (r: EnhanceResponse)
    ensures r.success <==> outcome.Success?
    ensures outcome.Success? ==> r.data == Some(outcome.value) && r.error.None?
    ensures outcome.Failure? ==> r.data.None? && r.error == Some(EnhanceFailedMessage)
  {
    match outcome
    case Success(out) => EnhanceResponse(true, Some(out), None)
    case Failure(_) => EnhanceResponse(false, None, Some(EnhanceFailedMessage))
  }
}
