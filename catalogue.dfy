/** The records of the catalogue front end (products, categories, cart entries) and the
    partial records the admin forms send, with JavaScript's `||` defaults on them. */
module Catalogue {
  import opened Wrappers

  /** An ISO time stamp. The seed data stamps products a number of days before the data
      module is loaded; every other stamp is the clock reading `new Date().toISOString()`. */
  datatype Timestamp = DaysBeforeLoad(days: nat) | Stamp(iso: string)

  /** A product as the front end shows it; `price` is in dollars. */
  datatype Product = Product(
    productId: int,
    productName: string,
    description: string,
    price: real,
    createdAt: Timestamp,
    updatedAt: Timestamp)

  /** A category; a parent of `None` makes it top-level. */
  datatype Category = Category(
    categoryId: int,
    categoryName: string,
    description: string,
    parentCategoryId: Option<int>)

  /** One line of the cart. */
  datatype CartItem = CartItem(product: Product, quantity: int)

  /** `Partial<Product>`, widened with the optional `category_id` the product form sends;
      an absent field is `None`. */
  datatype ProductPatch = ProductPatch(
    productId: Option<int>,
    productName: Option<string>,
    description: Option<string>,
    price: Option<real>,
    categoryId: Option<int>)

  /** `Partial<Category>`; an absent or `null` field is `None`. */
  datatype CategoryPatch = CategoryPatch(
    categoryId: Option<int>,
    categoryName: Option<string>,
    description: Option<string>,
    parentCategoryId: Option<int>)

  /** No two products share an identifier. */
  ghost predicate UniqueProductIds(ps: seq<Product>) {
    forall i, j :: 0 <= i < j < |ps| ==> ps[i].productId != ps[j].productId
  }

  /** No two categories share an identifier. */
  ghost predicate UniqueCategoryIds(cats: seq<Category>) {
    forall i, j :: 0 <= i < j < |cats| ==> cats[i].categoryId != cats[j].categoryId
  }

  /** The identifiers of `ps`, in list order (`ps.map(p => p.product_id)`). */
  function ProductIds(ps: seq<Product>): (ids: seq<int>)
    ensures |ids| == |ps|
    ensures forall k :: 0 <= k < |ps| ==> ids[k] == ps[k].productId
  {
    if ps == [] then [] else [ps[0].productId] + ProductIds(ps[1..])
  }

  /** The identifiers of `cats`, in list order (`cats.map(c => c.category_id)`). */
  function CategoryIds(cats: seq<Category>): (ids: seq<int>)
    ensures |ids| == |cats|
    ensures forall k :: 0 <= k < |cats| ==> ids[k] == cats[k].categoryId
  {
    if cats == [] then [] else [cats[0].categoryId] + CategoryIds(cats[1..])
  }

  /** JavaScript's `n || null` on an optional number: 0 is falsy and becomes `null`. */
  function NumberOrNull(n: Option<int>): (r: Option<int>)
    ensures r.Some? <==> n.Some? && n.value != 0
    ensures r.Some? ==> r == n
  {
    if n.Some? && n.value != 0 then n else None
  }

  /** JavaScript's `s || fallback` on an optional string: the empty string is falsy. */
  function TextOr(s: Option<string>, fallback: string): (r: string)
    ensures s.Some? && s.value != "" ==> r == s.value
    ensures s.None? || s.value == "" ==> r == fallback
  {
    if s.Some? && s.value != "" then s.value else fallback
  }

  /** JavaScript's `s || null` on an optional string. */
  function TextOrNull(s: Option<string>): (r: Option<string>)
    ensures r.Some? <==> s.Some? && s.value != ""
    ensures r.Some? ==> r == s
  {
    if s.Some? && s.value != "" then s else None
  }
}
