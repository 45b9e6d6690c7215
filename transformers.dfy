/** Conversion between the back end's records and the front end's (`transformers.ts`):
    field renaming, the empty-description and null convention, identifiers sent only when
    non-zero, and prices in integer cents on the back end and dollars on the front end.
    Prices are exact reals here, so the conversions carry no rounding error. */
module Transformers {
  import opened Wrappers
  import opened Catalogue

  /** A product as the back end sends it; `price` is in cents. */
  datatype BackendProduct = BackendProduct(
    id: int,
    name: string,
    description: Option<string>,
    price: int,
    categoryId: Option<int>)

  /** A category as the back end sends it. */
  datatype BackendCategory = BackendCategory(
    id: int,
    name: string,
    description: Option<string>,
    parentId: Option<int>)

  /** `Partial<BackendProduct>` as sent to the back end; an absent or `null` field is `None`. */
  datatype BackendProductPatch = BackendProductPatch(
    id: Option<int>,
    name: Option<string>,
    description: Option<string>,
    price: Option<int>,
    categoryId: Option<int>)

  /** `Partial<BackendCategory>` as sent to the back end. */
  datatype BackendCategoryPatch = BackendCategoryPatch(
    id: Option<int>,
    name: Option<string>,
    description: Option<string>,
    parentId: Option<int>)

  /** `Math.round`: the nearest integer, halves rounded up. */
  function Round(x: real): (n: int)
    ensures n as real - 0.5 <= x < n as real + 0.5
  {
    (x + 0.5).Floor
  }

  /** Cents to dollars. */
  function Dollars(cents: int): (d: real)
    ensures d * 100.0 == cents as real
  {
    cents as real / 100.0
  }

  /** Dollars to cents (`Math.round(price * 100)`). */
  function Cents(dollars: real): (c: int)
    ensures c as real - 0.5 <= dollars * 100.0 < c as real + 0.5
  {
    Round(dollars * 100.0)
  }

  /** A back-end product for display (`transformProduct`): renamed fields, a missing
      description as "", the price in dollars, and the stamps set to the two clock readings
      `created` and `updated` (the source reads the clock once per stamp). */
  function TransformProduct(b: BackendProduct, created: Timestamp, updated: Timestamp): (p: Product)
    ensures p.productId == b.id && p.productName == b.name
    ensures p.description == (if b.description.Some? then b.description.value else "")
    ensures p.price * 100.0 == b.price as real
    ensures p.createdAt == created && p.updatedAt == updated
  {
    Product(b.id, b.name, TextOr(b.description, ""), Dollars(b.price), created, updated)
  }

  /** A product form's data for the back end (`transformProductToBackend`): the identifier
      only when non-zero, an empty description as `null`, a missing or zero price left out
      and any other price in cents, a missing or zero category as `null`. */
  function TransformProductToBackend(p: ProductPatch): (b: BackendProductPatch)
    ensures b.id.Some? <==> p.productId.Some? && p.productId.value != 0
    ensures b.id.Some? ==> b.id == p.productId
    ensures b.name == p.productName
    ensures b.description.Some? <==> p.description.Some? && p.description.value != ""
    ensures b.description.Some? ==> b.description == p.description
    ensures b.price.Some? <==> p.price.Some? && p.price.value != 0.0
    ensures b.price.Some? ==> b.price.value == Cents(p.price.value)
    ensures b.categoryId.Some? <==> p.categoryId.Some? && p.categoryId.value != 0
    ensures b.categoryId.Some? ==> b.categoryId == p.categoryId
  {
    var price := if p.price.Some? && p.price.value != 0.0 then Some(Cents(p.price.value)) else None;
    var b := BackendProductPatch(None, p.productName, TextOrNull(p.description), price, NumberOrNull(p.categoryId));
    if p.productId.Some? && p.productId.value != 0 then b.(id := p.productId) else b
  }

  /** A back-end category for display (`transformCategory`). */
  function TransformCategory(b: BackendCategory): (c: Category)
    ensures c.categoryId == b.id && c.categoryName == b.name && c.parentCategoryId == b.parentId
    ensures c.description == (if b.description.Some? then b.description.value else "")
  {
    Category(b.id, b.name, TextOr(b.description, ""), b.parentId)
  }

  /** A category form's data for the back end (`transformCategoryToBackend`): the
      identifier only when non-zero, an empty description as `null`, the parent as given. */
  function TransformCategoryToBackend(c: CategoryPatch): (b: BackendCategoryPatch)
    ensures b.id.Some? <==> c.categoryId.Some? && c.categoryId.value != 0
    ensures b.id.Some? ==> b.id == c.categoryId
    ensures b.name == c.categoryName && b.parentId == c.parentCategoryId
    ensures b.description.Some? <==> c.description.Some? && c.description.value != ""
    ensures b.description.Some? ==> b.description == c.description
  {
    var b := BackendCategoryPatch(None, c.categoryName, TextOrNull(c.description), c.parentCategoryId);
    if c.categoryId.Some? && c.categoryId.value != 0 then b.(id := c.categoryId) else b
  }

  /** Every field of a product, as the product form sends it, with its category. */
  function ProductAsPatch(p: Product, categoryId: Option<int>): ProductPatch {
    ProductPatch(Some(p.productId), Some(p.productName), Some(p.description), Some(p.price), categoryId)
  }

  /** Every field of a category, as the category form sends it. */
  function CategoryAsPatch(c: Category): CategoryPatch {
    CategoryPatch(Some(c.categoryId), Some(c.categoryName), Some(c.description), c.parentCategoryId)
  }

  /** A back-end category with the fields of a complete patch. */
  function CategoryFromPatch(b: BackendCategoryPatch): BackendCategory
    requires b.id.Some? && b.name.Some?
  {
    BackendCategory(b.id.value, b.name.value, b.description, b.parentId)
  }

  /** Cents to dollars and back returns the original cents. */
  lemma CentsRoundTrip(cents: int)
    ensures Cents(Dollars(cents)) == cents
  {
    assert Dollars(cents) * 100.0 == cents as real;
  }

  /** A price with at most two decimals (a whole number `c` of cents) survives dollars to
      cents and back: `Math.round` finds exactly `c`. */
  lemma DollarsRoundTrip(d: real, c: int)
    requires d * 100.0 == c as real
    ensures Cents(d) == c
    ensures Dollars(Cents(d)) == d
  {
    var n := Cents(d);
    assert n as real - 0.5 <= c as real < n as real + 0.5;
    assert n - 1 < c < n + 1;
  }

  /** A back-end product shown and sent back keeps its identifier (when non-zero), name,
      price (when non-zero) and category (when non-zero); its description comes back
      unchanged except that "" becomes `null`. */
  lemma ProductRoundTrip(b: BackendProduct, created: Timestamp, updated: Timestamp)
    ensures var r := TransformProductToBackend(ProductAsPatch(TransformProduct(b, created, updated), b.categoryId));
      && r.id == (if b.id != 0 then Some(b.id) else None)
      && r.name == Some(b.name)
      && r.description == (if b.description == Some("") then None else b.description)
      && r.price == (if b.price != 0 then Some(b.price) else None)
      && r.categoryId == (if b.categoryId == Some(0) then None else b.categoryId)
  {
    CentsRoundTrip(b.price);
  }

  /** A back-end category shown and sent back keeps its identifier (when non-zero), name and
      parent; its description comes back unchanged except that "" becomes `null`. */
  lemma CategoryRoundTripFromBackend(b: BackendCategory)
    ensures TransformCategoryToBackend(CategoryAsPatch(TransformCategory(b))) ==
      BackendCategoryPatch(if b.id != 0 then Some(b.id) else None, Some(b.name),
        if b.description == Some("") then None else b.description, b.parentId)
  {
  }

  /** A category with a non-zero identifier sent to the back end and shown again is
      unchanged. */
  lemma CategoryRoundTripFromFrontend(c: Category)
    requires c.categoryId != 0
    ensures TransformCategory(CategoryFromPatch(TransformCategoryToBackend(CategoryAsPatch(c)))) == c
  {
  }

  /** Every back-end product for display, in order (`transformProducts`); `clock(k)` gives
      the two clock readings taken while the `k`-th product is converted. */
  function TransformProducts(bs: seq<BackendProduct>, clock: int -> (Timestamp, Timestamp)): (ps: seq<Product>)
    ensures |ps| == |bs|
    ensures forall k :: 0 <= k < |bs| ==> ps[k] == TransformProduct(bs[k], clock(k).0, clock(k).1)
  {
    TransformProductsFrom(bs, clock, 0)
  }

  /** The conversion of `bs` when its first product is the `start`-th converted. */
  function TransformProductsFrom(bs: seq<BackendProduct>, clock: int -> (Timestamp, Timestamp), start: int): (ps: seq<Product>)
    ensures |ps| == |bs|
    ensures forall k :: 0 <= k < |bs| ==> ps[k] == TransformProduct(bs[k], clock(start + k).0, clock(start + k).1)
  {
    if bs == [] then []
    else
      var rest := TransformProductsFrom(bs[1..], clock, start + 1);
      assert forall k :: 1 <= k < |bs| ==> rest[k - 1] == TransformProduct(bs[k], clock(start + k).0, clock(start + k).1);
      [TransformProduct(bs[0], clock(start).0, clock(start).1)] + rest
  }

  /** Every back-end category for display, in order (`transformCategories`). */
  function TransformCategories(bs: seq<BackendCategory>): (cs: seq<Category>)
    ensures |cs| == |bs|
    ensures forall k :: 0 <= k < |bs| ==> cs[k] == TransformCategory(bs[k])
  {
    if bs == [] then [] else [TransformCategory(bs[0])] + TransformCategories(bs[1..])
  }
}
