/** The in-memory product list, its category assignment and its queries (`mockProducts.ts`). */
module MockProducts {
  import opened Wrappers
  import opened Seqs
  import opened Catalogue

  /** Products numbered consecutively from `first`. */
  ghost predicate NumberedFrom(ps: seq<Product>, first: int) {
    forall k :: 0 <= k < |ps| ==> ps[k].productId == first + k
  }

  /** One line of the seed list: everything but the identifier, which is the line's position plus one. */
  datatype SeedRow = SeedRow(name: string, description: string, price: real, createdDaysAgo: nat, updatedDaysAgo: nat)

  /** The seed list, line by line, in list order. */
  function SeedRowAt(k: nat): SeedRow
    requires k < 60
  {
    match k
      // Electronics: smartphones
      case 0 => SeedRow("iPhone 15 Pro", "Latest Apple smartphone with A17 Pro chip and titanium design", 999.99, 30, 0)
      case 1 => SeedRow("Samsung Galaxy S24", "Flagship Android phone with AI features and 200MP camera", 899.99, 25, 1)
      case 2 => SeedRow("Google Pixel 8", "Pure Android experience with amazing computational photography", 699.99, 20, 2)
      case 3 => SeedRow("OnePlus 12", "Fast charging flagship killer with Snapdragon 8 Gen 3", 799.99, 15, 5)
      // Electronics: laptops
      case 4 => SeedRow("MacBook Pro 16\"", "Powerful laptop with M3 Max chip for professionals", 2499.99, 40, 0)
      case 5 => SeedRow("Dell XPS 15", "Premium Windows laptop with OLED display", 1799.99, 35, 3)
      case 6 => SeedRow("ThinkPad X1 Carbon", "Business laptop with legendary keyboard", 1599.99, 30, 7)
      case 7 => SeedRow("ASUS ROG Zephyrus", "Gaming laptop with RTX 4080 and 240Hz display", 2299.99, 28, 10)
      // Electronics: tablets
      case 8 => SeedRow("iPad Pro 12.9\"", "Professional tablet with M2 chip and ProMotion display", 1099.99, 50, 1)
      case 9 => SeedRow("Samsung Galaxy Tab S9", "Android tablet with S Pen included", 799.99, 45, 4)
      case 10 => SeedRow("Microsoft Surface Pro 9", "2-in-1 tablet that replaces your laptop", 999.99, 42, 14)
      // Electronics: audio
      case 11 => SeedRow("Sony WH-1000XM5", "Industry-leading noise cancelling headphones", 399.99, 60, 0)
      case 12 => SeedRow("AirPods Pro 2", "Apple wireless earbuds with spatial audio", 249.99, 55, 2)
      case 13 => SeedRow("Bose QuietComfort Ultra", "Premium noise cancelling headphones", 429.99, 52, 6)
      case 14 => SeedRow("JBL Flip 6", "Portable waterproof Bluetooth speaker", 129.99, 48, 21)
      // Clothing: men's
      case 15 => SeedRow("Men's Denim Jacket", "Classic blue denim jacket with vintage wash", 89.99, 70, 1)
      case 16 => SeedRow("Men's Casual Shirt", "Cotton blend button-down shirt", 49.99, 65, 3)
      case 17 => SeedRow("Men's Chino Pants", "Slim fit chino pants in khaki", 59.99, 62, 8)
      case 18 => SeedRow("Men's Winter Coat", "Waterproof insulated winter jacket", 149.99, 58, 15)
      // Clothing: women's
      case 19 => SeedRow("Women's Summer Dress", "Floral print midi dress, perfect for summer", 79.99, 75, 0)
      case 20 => SeedRow("Women's Yoga Pants", "High-waist leggings with moisture wicking", 45.99, 72, 2)
      case 21 => SeedRow("Women's Blazer", "Professional blazer for office wear", 119.99, 68, 9)
      case 22 => SeedRow("Women's Cardigan", "Cozy knit cardigan sweater", 65.99, 64, 22)
      // Clothing: shoes
      case 23 => SeedRow("Running Shoes", "Lightweight running shoes with cushioned sole", 119.99, 80, 1)
      case 24 => SeedRow("Leather Boots", "Premium leather ankle boots", 159.99, 77, 4)
      case 25 => SeedRow("Canvas Sneakers", "Classic white canvas sneakers", 59.99, 74, 11)
      case 26 => SeedRow("Hiking Boots", "Waterproof hiking boots with ankle support", 139.99, 71, 28)
      // Clothing: accessories
      case 27 => SeedRow("Leather Wallet", "Genuine leather bifold wallet", 39.99, 85, 0)
      case 28 => SeedRow("Designer Sunglasses", "Polarized UV protection sunglasses", 149.99, 82, 5)
      case 29 => SeedRow("Silk Scarf", "Elegant silk scarf with floral pattern", 45.99, 79, 12)
      case 30 => SeedRow("Leather Belt", "Classic leather belt with metal buckle", 34.99, 76, 30)
      // Home & Garden: furniture
      case 31 => SeedRow("Modern Sofa", "3-seater fabric sofa in gray", 799.99, 90, 1)
      case 32 => SeedRow("Dining Table Set", "Oak dining table with 6 chairs", 1299.99, 87, 3)
      case 33 => SeedRow("Office Chair", "Ergonomic office chair with lumbar support", 299.99, 84, 13)
      case 34 => SeedRow("Bookshelf", "5-tier wooden bookshelf", 159.99, 81, 35)
      // Home & Garden: kitchen
      case 35 => SeedRow("Coffee Maker", "Programmable drip coffee maker", 79.99, 95, 0)
      case 36 => SeedRow("Blender", "High-speed blender for smoothies", 129.99, 92, 6)
      case 37 => SeedRow("Knife Set", "15-piece stainless steel knife set", 89.99, 89, 16)
      case 38 => SeedRow("Cookware Set", "Non-stick 10-piece cookware set", 199.99, 86, 40)
      // Home & Garden: decor
      case 39 => SeedRow("Wall Art Canvas", "Abstract art canvas print 24x36\"", 69.99, 100, 2)
      case 40 => SeedRow("Table Lamp", "Modern LED table lamp with USB port", 49.99, 97, 7)
      case 41 => SeedRow("Throw Pillows", "Set of 4 decorative throw pillows", 39.99, 94, 18)
      case 42 => SeedRow("Area Rug", "Modern geometric area rug 5x7 ft", 149.99, 91, 45)
      // Home & Garden: garden
      case 43 => SeedRow("Garden Tool Set", "7-piece stainless steel garden tools", 59.99, 105, 1)
      case 44 => SeedRow("Lawn Mower", "Electric push lawn mower", 299.99, 102, 8)
      case 45 => SeedRow("Garden Hose", "50ft expandable garden hose", 34.99, 99, 20)
      case 46 => SeedRow("Plant Pots Set", "Set of 5 ceramic plant pots", 44.99, 96, 50)
      // Sports & Outdoors: fitness
      case 47 => SeedRow("Yoga Mat", "Non-slip eco-friendly yoga mat", 29.99, 110, 0)
      case 48 => SeedRow("Dumbbell Set", "Adjustable dumbbell set 5-50 lbs", 299.99, 107, 4)
      case 49 => SeedRow("Resistance Bands", "Set of 5 resistance bands with handles", 24.99, 104, 10)
      case 50 => SeedRow("Exercise Bike", "Stationary exercise bike with digital display", 399.99, 101, 25)
      // Sports & Outdoors: camping
      case 51 => SeedRow("Camping Tent", "4-person waterproof camping tent", 149.99, 115, 3)
      case 52 => SeedRow("Sleeping Bag", "Cold weather sleeping bag rated to 0°F", 79.99, 112, 9)
      case 53 => SeedRow("Hiking Backpack", "50L hiking backpack with rain cover", 89.99, 109, 24)
      case 54 => SeedRow("Portable Stove", "Camping stove with fuel canisters", 44.99, 106, 60)
      // Books & Media
      case 55 => SeedRow("The Great Novel", "Bestselling fiction novel of the year", 24.99, 120, 1)
      case 56 => SeedRow("Cookbook: Healthy Meals", "100 easy and healthy recipes", 29.99, 117, 5)
      case 57 => SeedRow("Mystery Thriller", "Page-turning mystery thriller", 19.99, 114, 14)
      case 58 => SeedRow("Science Fiction Epic", "Award-winning sci-fi adventure", 27.99, 111, 70)
      case _ => SeedRow("Photography Guide", "Complete guide to digital photography", 34.99, 108, 2)
  }

  /** The seed product at position `k`, identifier `k + 1`. */
  function SeedProduct(k: nat): (p: Product)
    requires k < 60
    ensures p.productId == k + 1
  {
    var row := SeedRowAt(k);
    Product(k + 1, row.name, row.description, row.price, DaysBeforeLoad(row.createdDaysAgo), DaysBeforeLoad(row.updatedDaysAgo))
  }

  /** The seed products, all sixty, numbered 1 to 60 in list order; prices are in dollars and
      every stamp is a number of days before the data module was loaded. */
  function SeedProducts(): (ps: seq<Product>)
    ensures |ps| == 60 && NumberedFrom(ps, 1)
  {
    seq(60, k requires 0 <= k < 60 => SeedProduct(k))
  }

  /** Product identifier to the categories it is listed under (many-to-many). */
  function ProductCategoryMap(): (m: map<int, seq<int>>)
    ensures forall id :: id in m <==> 1 <= id <= 60
    ensures forall id | id in m ::
      && |m[id]| == 2 && 1 <= m[id][0] <= 5
      && 10 * m[id][0] + 1 <= m[id][1] <= 10 * m[id][0] + 4
  {
    map id | 1 <= id <= 60 :: SeedCategoriesOf(id)
  }

  /**
   * The entry of seed product `id` in the category map: a top-level category
   * followed by one of its subcategories (identifier `10 * top + j`, `j` in 1..4).
   */
  function SeedCategoriesOf(id: int): (cs: seq<int>)
    requires 1 <= id <= 60
    ensures |cs| == 2 && 1 <= cs[0] <= 5
    ensures 10 * cs[0] + 1 <= cs[1] <= 10 * cs[0] + 4
  {
    if id <= 30 then SeedCategoriesLow(id) else SeedCategoriesHigh(id)
  }

  function SeedCategoriesLow(id: int): (cs: seq<int>)
    requires 1 <= id <= 30
    ensures |cs| == 2 && 1 <= cs[0] <= 5
    ensures 10 * cs[0] + 1 <= cs[1] <= 10 * cs[0] + 4
  {
    match id
      case 1 => [1, 11]
      case 2 => [1, 11]
      case 3 => [1, 11]
      case 4 => [1, 11]
      case 5 => [1, 12]
      case 6 => [1, 12]
      case 7 => [1, 12]
      case 8 => [1, 12]
      case 9 => [1, 13]
      case 10 => [1, 13]
      case 11 => [1, 13]
      case 12 => [1, 14]
      case 13 => [1, 14]
      case 14 => [1, 14]
      case 15 => [1, 14]
      case 16 => [2, 21]
      case 17 => [2, 21]
      case 18 => [2, 21]
      case 19 => [2, 21]
      case 20 => [2, 22]
      case 21 => [2, 22]
      case 22 => [2, 22]
      case 23 => [2, 22]
      case 24 => [2, 23]
      case 25 => [2, 23]
      case 26 => [2, 23]
      case 27 => [2, 23]
      case 28 => [2, 24]
      case 29 => [2, 24]
      case 30 => [2, 24]
      case _ => assert false; []
  }

  function SeedCategoriesHigh(id: int): (cs: seq<int>)
    requires 31 <= id <= 60
    ensures |cs| == 2 && 1 <= cs[0] <= 5
    ensures 10 * cs[0] + 1 <= cs[1] <= 10 * cs[0] + 4
  {
    match id
      case 31 => [2, 24]
      case 32 => [3, 31]
      case 33 => [3, 31]
      case 34 => [3, 31]
      case 35 => [3, 31]
      case 36 => [3, 32]
      case 37 => [3, 32]
      case 38 => [3, 32]
      case 39 => [3, 32]
      case 40 => [3, 33]
      case 41 => [3, 33]
      case 42 => [3, 33]
      case 43 => [3, 33]
      case 44 => [3, 34]
      case 45 => [3, 34]
      case 46 => [3, 34]
      case 47 => [3, 34]
      case 48 => [4, 41]
      case 49 => [4, 41]
      case 50 => [4, 41]
      case 51 => [4, 41]
      case 52 => [4, 42]
      case 53 => [4, 42]
      case 54 => [4, 42]
      case 55 => [4, 42]
      case 56 => [5, 51]
      case 57 => [5, 52]
      case 58 => [5, 51]
      case 59 => [5, 51]
      case 60 => [5, 52]
      case _ => assert false; []
  }

  /** Position of the first product with identifier `id`, or -1 (`findIndex`). */
  function ProductIndex(ps: seq<Product>, id: int): (r: int)
    ensures -1 <= r < |ps|
    ensures r == -1 <==> forall k :: 0 <= k < |ps| ==> ps[k].productId != id
    ensures r >= 0 ==> ps[r].productId == id && forall k :: 0 <= k < r ==> ps[k].productId != id
  {
    if ps == [] then -1
    else if ps[0].productId == id then 0
    else
      var r := ProductIndex(ps[1..], id);
      assert forall k :: 1 <= k < |ps| ==> ps[k] == ps[1..][k - 1];
      if r == -1 then -1 else r + 1
  }

  /** The first product with identifier `id`, if any (`find`). */
  function ProductById(ps: seq<Product>, id: int): (r: Option<Product>)
    ensures r.None? <==> forall k :: 0 <= k < |ps| ==> ps[k].productId != id
    ensures r.Some? ==> r.value.productId == id && r.value in ps
    ensures r.Some? ==> exists i :: 0 <= i < |ps| && ps[i] == r.value &&
                          forall k :: 0 <= k < i ==> ps[k].productId != id
  {
    var i := ProductIndex(ps, id);
    if i < 0 then None else Some(ps[i])
  }

  /** The products listed under `categoryId`, in catalogue order; a product missing from
      the map is never listed. */
  function ProductsByCategory(ps: seq<Product>, categoryMap: map<int, seq<int>>, categoryId: int): (r: seq<Product>)
    ensures forall p :: p in r <==> p in ps && p.productId in categoryMap && categoryId in categoryMap[p.productId]
    ensures forall p ::
              multiset(r)[p] == if p.productId in categoryMap && categoryId in categoryMap[p.productId] then multiset(ps)[p] else 0
    ensures IsSubsequence(r, ps)
  {
    Filter(ps, (p: Product) => p.productId in categoryMap && categoryId in categoryMap[p.productId])
  }

  /** ASCII lower-casing of one character. */
  function LowerChar(c: char): char {
    if 'A' <= c <= 'Z' then (c as int - 'A' as int + 'a' as int) as char else c
  }

  /** ASCII lower-casing of a string (`toLowerCase` restricted to ASCII letters). */
  function Lower(s: string): (r: string)
    ensures |r| == |s|
    ensures forall i :: 0 <= i < |s| ==> r[i] == LowerChar(s[i])
  {
    if s == [] then [] else [LowerChar(s[0])] + Lower(s[1..])
  }

  /** Lower-casing twice is lower-casing once. */
  lemma LowerIdempotent(s: string)
    ensures Lower(Lower(s)) == Lower(s)
  {
    assert forall i :: 0 <= i < |s| ==> LowerChar(LowerChar(s[i])) == LowerChar(s[i]);
  }

  /** `sub` occurs in `s` starting at position `i`. */
  ghost predicate OccursAt(s: string, sub: string, i: int) {
    0 <= i <= |s| - |sub| && s[i..i + |sub|] == sub
  }

  /** `sub` occurs in `s` at some position (`s.includes(sub)`). */
  function Contains(s: string, sub: string): (r: bool)
    ensures r <==> exists i :: OccursAt(s, sub, i)
    decreases |s|
  {
    if |sub| > |s| then false
    else if s[..|sub|] == sub then assert OccursAt(s, sub, 0); true
    else
      var r := Contains(s[1..], sub);
      assert forall i :: OccursAt(s[1..], sub, i) ==> OccursAt(s, sub, i + 1);
      assert forall i :: OccursAt(s, sub, i) ==> OccursAt(s[1..], sub, i - 1) by {
        forall i | OccursAt(s, sub, i) ensures OccursAt(s[1..], sub, i - 1) {
          assert i != 0;
          assert s[1..][i - 1..i - 1 + |sub|] == s[i..i + |sub|];
        }
      }
      r
  }

  /** The product's lower-cased name or description contains `lowerQuery`. */
  predicate MatchesQuery(p: Product, lowerQuery: string) {
    Contains(Lower(p.productName), lowerQuery) || Contains(Lower(p.description), lowerQuery)
  }

  /** The products whose name or description contains `query`, ignoring ASCII case, in
      catalogue order. */
  function SearchProductsByQuery(ps: seq<Product>, query: string): (r: seq<Product>)
    ensures forall p :: p in r <==>
      p in ps && (Contains(Lower(p.productName), Lower(query)) || Contains(Lower(p.description), Lower(query)))
    ensures forall p :: multiset(r)[p] == if MatchesQuery(p, Lower(query)) then multiset(ps)[p] else 0
    ensures IsSubsequence(r, ps)
  {
    var lowerQuery := Lower(query);
    Filter(ps, (p: Product) => MatchesQuery(p, lowerQuery))
  }

  /** The empty query matches every product. */
  lemma SearchEmptyQueryReturnsAll(ps: seq<Product>)
    ensures SearchProductsByQuery(ps, "") == ps
  {
    forall i | 0 <= i < |ps| ensures MatchesQuery(ps[i], Lower("")) {
      assert OccursAt(Lower(ps[i].productName), "", 0);
    }
    FilterKeepsAll(ps, (p: Product) => MatchesQuery(p, Lower("")));
  }

  /** Searching is insensitive to the case of the query. */
  lemma SearchIgnoresQueryCase(ps: seq<Product>, query: string)
    ensures SearchProductsByQuery(ps, Lower(query)) == SearchProductsByQuery(ps, query)
  {
    LowerIdempotent(query);
  }

  function Min(a: int, b: int): int { if a < b then a else b }

  /** Position of the first product on page `page` (counting from 1). */
  function PageStart(page: int, perPage: nat): (start: nat)
    requires page >= 1
    ensures start == (page - 1) * perPage
  {
    var pagesBefore: nat := page - 1;
    pagesBefore * perPage
  }

  /** Where `slice` starts or stops for the argument `i` on a list of length `len`: a
      negative argument counts back from the end, and both are clipped to the list. */
  function SliceIndex(i: int, len: nat): (j: nat)
    ensures j <= len
    ensures i >= 0 ==> j == Min(i, len)
    ensures i < 0 ==> j == (if len + i > 0 then len + i else 0)
  {
    if i < 0 then (if len + i > 0 then len + i else 0) else Min(i, len)
  }

  /** Page `page` (counting from 1) of `perPage` products (`getPaginatedProducts`): the
      slice from `(page - 1) * perPage` to `page * perPage`. For a page of 1 or more this is
      that range clipped to the list. */
  function PaginatedProducts(ps: seq<Product>, page: int, perPage: int := 12): (r: seq<Product>)
    ensures |r| <= |ps|
    ensures page >= 1 && perPage >= 0 ==>
      r == ps[Min(PageStart(page, perPage), |ps|)..Min(PageStart(page, perPage) + perPage, |ps|)]
  {
    var start := (page - 1) * perPage;
    var end := start + perPage;
    var lo := SliceIndex(start, |ps|);
    var hi := SliceIndex(end, |ps|);
    if lo < hi then ps[lo..hi] else []
  }

  /** A page of 1 or more holds at most `perPage` products: those from position
      `(page - 1) * perPage` on, as many as the list still has. */
  lemma PageContents(ps: seq<Product>, page: int, perPage: int)
    requires page >= 1 && perPage >= 0
    ensures var r := PaginatedProducts(ps, page, perPage);
      && |r| <= perPage
      && |r| == (if PageStart(page, perPage) >= |ps| then 0 else Min(perPage, |ps| - PageStart(page, perPage)))
      && forall k :: 0 <= k < |r| ==> r[k] == ps[PageStart(page, perPage) + k]
  {
  }

  /** Page 0 is empty: its slice ends at position 0. */
  lemma PageZeroIsEmpty(ps: seq<Product>, perPage: int)
    requires perPage >= 0
    ensures PaginatedProducts(ps, 0, perPage) == []
  {
    assert SliceIndex(-perPage + perPage, |ps|) == 0;
  }

  /** A negative page counts back from the end of the list, as `slice` does with negative
      arguments: page -1 of twelve is the 13th- to 24th-last products. */
  lemma NegativePageCountsFromEnd(ps: seq<Product>, page: int, perPage: int)
    requires page < 0 && perPage > 0 && |ps| >= (1 - page) * perPage
    ensures PaginatedProducts(ps, page, perPage) == ps[|ps| + (page - 1) * perPage..|ps| + page * perPage]
  {
    assert (page - 1) * perPage + perPage == page * perPage;
    assert page * perPage < 0;
    assert (page - 1) * perPage < page * perPage;
  }

  /** Pages 1 to `n`, one after the other. */
  ghost function PagesUpTo(ps: seq<Product>, n: nat, perPage: nat): seq<Product> {
    if n == 0 then [] else PagesUpTo(ps, n - 1, perPage) + PaginatedProducts(ps, n, perPage)
  }

  /** A page of 1 or more is the range `[(page - 1) * perPage, page * perPage)` clipped to the list. */
  lemma PageIsClippedRange(ps: seq<Product>, page: int, perPage: nat)
    requires page >= 1
    ensures PageStart(page + 1, perPage) == PageStart(page, perPage) + perPage
    ensures PaginatedProducts(ps, page, perPage) ==
      ps[Min(PageStart(page, perPage), |ps|)..Min(PageStart(page + 1, perPage), |ps|)]
  {
    assert (page - 1) * perPage + perPage == page * perPage;
  }

  /** Successive pages partition the list: pages 1 to `n` are exactly its first
      `n * perPage` products, so pages up to ⌈|ps| / perPage⌉ cover it without overlap. */
  lemma {:induction false} PagesPartition(ps: seq<Product>, n: nat, perPage: nat)
    ensures PagesUpTo(ps, n, perPage) == ps[..Min(PageStart(n + 1, perPage), |ps|)]
  {
    if n > 0 {
      PagesPartition(ps, n - 1, perPage);
      PageIsClippedRange(ps, n, perPage);
      PrefixThenRange(ps, Min(PageStart(n, perPage), |ps|), Min(PageStart(n + 1, perPage), |ps|));
    }
  }

  /** A prefix followed by the range after it is the longer prefix. */
  lemma PrefixThenRange<T>(s: seq<T>, a: int, b: int)
    requires 0 <= a <= b <= |s|
    ensures s[..a] + s[a..b] == s[..b]
  {
  }

  /** Consecutively numbered products have pairwise distinct identifiers. */
  lemma NumberedUnique(ps: seq<Product>, first: int)
    requires NumberedFrom(ps, first)
    ensures UniqueProductIds(ps)
  {
  }

  /** The seed product identifiers are pairwise distinct. */
  lemma SeedProductIdsUnique()
    ensures UniqueProductIds(SeedProducts())
  {
    NumberedUnique(SeedProducts(), 1);
  }
}
