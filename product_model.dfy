/**
 * The product schema: required fields, the defaults of `sku`, `description`
 * and `image`, and the `trim` setter on the string fields.
 */
module ProductModel {
  import opened Wrappers
  import opened JsStrings

  /** The `_id` of the owning user document. */
  type UserRef = nat

  /**
   * A JavaScript number. Only whether a numeric field is present matters to
   * the schema; no arithmetic is done on it.
   */
  type Number = real

  /** The `image` object: its keys and their string values. */
  type Image = map<string, string>

  const DefaultSku: string := "sku-00"
  const DefaultDescription: string := "Product Description"

  /** The fields handed to `Product.create`; None is `undefined`. */
  datatype ProductInput = ProductInput(
    user: Option<UserRef>,
    name: Option<string>,
    sku: Option<string>,
    category: Option<string>,
    backroomQuantity: Option<Number>,
    shelfQuantity: Option<Number>,
    price: Option<Number>,
    description: Option<string>,
    image: Option<Image>)

  /** A stored product document. */
  datatype Product = Product(
    user: UserRef,
    name: string,
    sku: string,
    category: string,
    backroomQuantity: Number,
    shelfQuantity: Number,
    price: Number,
    description: string,
    image: Image)

  /** One failing `required` validator. */
  datatype Violation =
    | UserRequired
    | NameRequired
    | SkuRequired
    | CategoryRequired
    | BackroomQuantityRequired
    | ShelfQuantityRequired
    | PriceRequired
    | DescriptionRequired

  /**
   * The value a trimmed string path takes: its default when `undefined`,
   * otherwise the given string through `trim`. (Mongoose passes a default
   * through the setter too; both defaults are already trimmed, see
   * DefaultsTrimmed.)
   */
  function StringPath(v: Option<string>, default: string): string {
    if v.None? then default else Trim(v.value)
  }

  /** Both defaults come out of `trim` unchanged. */
  lemma DefaultsTrimmed()
    ensures Trim(DefaultSku) == DefaultSku && Trim(DefaultDescription) == DefaultDescription
  {
    assert IsTrimmed(DefaultSku) by {
      assert !IsWhitespace(DefaultSku[0]) && !IsWhitespace(DefaultSku[|DefaultSku| - 1]);
    }
    assert IsTrimmed(DefaultDescription) by {
      assert !IsWhitespace(DefaultDescription[0]);
      assert !IsWhitespace(DefaultDescription[|DefaultDescription| - 1]);
    }
    TrimOfTrimmed(DefaultSku);
    TrimOfTrimmed(DefaultDescription);
  }

  /**
   * A string path is missing to `required` when its value is empty: it was
   * given as all white space, or it was `undefined` and has no default.
   */
  function MissingString(v: Option<string>, default: string): (m: bool)
    ensures m <==> (v.None? && default == "") || (v.Some? && AllWhitespace(v.value))
  {
    StringPath(v, default) == ""
  }

  const AllViolations: set<Violation> :=
    {UserRequired, NameRequired, SkuRequired, CategoryRequired,
     BackroomQuantityRequired, ShelfQuantityRequired, PriceRequired, DescriptionRequired}

  /** Whether the `required` validator of one path fails on `input`. */
  predicate Fails(input: ProductInput, x: Violation) {
    match x
    case UserRequired => input.user.None?
    case NameRequired => MissingString(input.name, "")
    case SkuRequired => MissingString(input.sku, DefaultSku)
    case CategoryRequired => MissingString(input.category, "")
    case BackroomQuantityRequired => input.backroomQuantity.None?
    case ShelfQuantityRequired => input.shelfQuantity.None?
    case PriceRequired => input.price.None?
    case DescriptionRequired => MissingString(input.description, DefaultDescription)
  }

  /**
   * The `required` validators that fail. A given string that is all white
   * space is missing; an `undefined` sku or description never is, because
   * its default is not.
   */
  function Violations(input: ProductInput): (v: set<Violation>)
    ensures UserRequired in v <==> input.user.None?
    ensures NameRequired in v <==> input.name.None? || AllWhitespace(input.name.value)
    ensures SkuRequired in v <==> input.sku.Some? && AllWhitespace(input.sku.value)
    ensures CategoryRequired in v <==> input.category.None? || AllWhitespace(input.category.value)
    ensures BackroomQuantityRequired in v <==> input.backroomQuantity.None?
    ensures ShelfQuantityRequired in v <==> input.shelfQuantity.None?
    ensures PriceRequired in v <==> input.price.None?
    ensures DescriptionRequired in v <==> input.description.Some? && AllWhitespace(input.description.value)
  {
    set x | x in AllViolations && Fails(input, x)
  }

  /** What every stored product satisfies: its four string fields are trimmed and not empty. */
  ghost predicate Stored(p: Product) {
    && p.name != "" && IsTrimmed(p.name)
    && p.sku != "" && IsTrimmed(p.sku)
    && p.category != "" && IsTrimmed(p.category)
    && p.description != "" && IsTrimmed(p.description)
  }

  /**
   * `Product.create(input)`: the document with defaults applied and strings
   * trimmed when no required field is missing, otherwise the failing validators.
   */
  function Create(input: ProductInput): (r: Result<Product, set<Violation>>)
    ensures r.Failure? <==> Violations(input) != {}
    ensures r.Failure? ==> r == Failure(Violations(input))
    ensures r.Success? ==> Stored(r.value)
    ensures r.Success? ==>
      && r.value.user == input.user.value
      && r.value.name == Trim(input.name.value)
      && r.value.sku == (if input.sku.None? then DefaultSku else Trim(input.sku.value))
      && r.value.category == Trim(input.category.value)
      && r.value.backroomQuantity == input.backroomQuantity.value
      && r.value.shelfQuantity == input.shelfQuantity.value
      && r.value.price == input.price.value
      && r.value.description == (if input.description.None? then DefaultDescription else Trim(input.description.value))
      && r.value.image == (if input.image.None? then map[] else input.image.value)
  {
    var v := Violations(input);
    if v != {} then Failure(v)
    else
      assert NameRequired !in v && SkuRequired !in v;
      assert CategoryRequired !in v && DescriptionRequired !in v;
      assert IsTrimmed(DefaultSku) && IsTrimmed(DefaultDescription) by { DefaultsTrimmed(); }
      Success(Product(
        input.user.value,
        StringPath(input.name, ""),
        StringPath(input.sku, DefaultSku),
        StringPath(input.category, ""),
        input.backroomQuantity.value,
        input.shelfQuantity.value,
        input.price.value,
        StringPath(input.description, DefaultDescription),
        input.image.GetOr(map[])))
  }

  /** The fields of a stored product, as they would be handed back to `Product.create`. */
  function InputOf(p: Product): ProductInput {
    ProductInput(Some(p.user), Some(p.name), Some(p.sku), Some(p.category),
                 Some(p.backroomQuantity), Some(p.shelfQuantity), Some(p.price),
                 Some(p.description), Some(p.image))
  }

  /** Creating a product again from a stored product's own fields yields that same product. */
  lemma {:induction false} CreateOfStored(p: Product)
    requires Stored(p)
    ensures Create(InputOf(p)) == Success(p)
  {
    TrimOfTrimmed(p.name);
    TrimOfTrimmed(p.sku);
    TrimOfTrimmed(p.category);
    TrimOfTrimmed(p.description);
    assert Violations(InputOf(p)) == {};
  }

  /** Creation is idempotent: feeding a created product back in changes nothing. */
  lemma CreateIdempotent(input: ProductInput)
    requires Create(input).Success?
    ensures Create(InputOf(Create(input).value)) == Create(input)
  {
    CreateOfStored(Create(input).value);
  }
}
