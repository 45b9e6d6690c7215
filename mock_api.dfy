/** The mock back end (`mockApi.ts`): the catalogue held in two mutable lists, its queries,
    the category page with its breadcrumb trail, the mock admin login, and create, update
    and delete on both lists. The simulated network delay is not modelled. */
module MockApi {
  import opened Wrappers
  import opened Seqs
  import opened Catalogue
  import opened CategoryTree
  import opened MockCategories
  import opened MockProducts
  import CategoryForm

  /** The category page: the category's products, its direct subcategories, and its
      ancestors, top-level first. */
  datatype CategoryResponse = CategoryResponse(
    products: seq<Product>,
    subCategories: seq<Category>,
    parentCategories: seq<Category>)

  /** The category the breadcrumb walk steps to from `c`: the first category carrying
      `c`'s parent identifier, or none when `c` is top-level or its parent is missing. */
  function ParentOf(cats: seq<Category>, c: Category): (r: Option<Category>)
    ensures r.Some? ==> c.parentCategoryId == Some(r.value.categoryId) && r.value in cats
    ensures r.None? <==> (c.parentCategoryId.None? ||
      forall k :: 0 <= k < |cats| ==> cats[k].categoryId != c.parentCategoryId.value)
  {
    match c.parentCategoryId
    case None => None
    case Some(p) => CategoryById(cats, p)
  }

  /** `chain` is the breadcrumb of `c`: its last element is the parent of `c`, each element
      is the parent of the next, and the first element has no parent to step to. */
  ghost predicate IsBreadcrumb(cats: seq<Category>, c: Category, chain: seq<Category>) {
    && (chain == [] ==> ParentOf(cats, c).None?)
    && (chain != [] ==>
          && ParentOf(cats, chain[0]).None?
          && ParentOf(cats, c) == Some(chain[|chain| - 1])
          && forall j :: 0 <= j < |chain| - 1 ==> ParentOf(cats, chain[j + 1]) == Some(chain[j]))
  }

  /** A category has at most one breadcrumb: the walk is determined by the list. */
  lemma {:induction false} BreadcrumbUnique(cats: seq<Category>, c: Category, a: seq<Category>, b: seq<Category>)
    requires IsBreadcrumb(cats, c, a) && IsBreadcrumb(cats, c, b)
    ensures a == b
    decreases |a| + |b|
  {
    if a != [] && b != [] {
      var a', b' := a[..|a| - 1], b[..|b| - 1];
      assert a[|a| - 1] == b[|b| - 1];
      var p := a[|a| - 1];
      assert IsBreadcrumb(cats, p, a') by {
        if a' != [] {
          assert ParentOf(cats, a[|a| - 1]) == Some(a[|a| - 2]);
        }
      }
      assert IsBreadcrumb(cats, p, b') by {
        if b' != [] {
          assert ParentOf(cats, b[|b| - 1]) == Some(b[|b| - 2]);
        }
      }
      BreadcrumbUnique(cats, p, a', b');
    }
  }

  /** Every category on the breadcrumb of a listed category is one of its ancestors. */
  lemma {:induction false} BreadcrumbAreAncestors(cats: seq<Category>, c: Category, chain: seq<Category>)
    requires c in cats
    requires IsBreadcrumb(cats, c, chain)
    ensures forall j :: 0 <= j < |chain| ==> chain[j] in cats && IsDescendant(cats, chain[j].categoryId, c.categoryId)
    decreases |chain|
  {
    if chain != [] {
      var p := chain[|chain| - 1];
      var rest := chain[..|chain| - 1];
      var k :| 0 <= k < |cats| && cats[k] == c;
      assert HasChild(cats, p.categoryId, c.categoryId);
      assert DescendantWithin(cats, p.categoryId, c.categoryId, 0);
      assert IsBreadcrumb(cats, p, rest) by {
        if rest != [] {
          assert ParentOf(cats, chain[|chain| - 1]) == Some(chain[|chain| - 2]);
        }
      }
      BreadcrumbAreAncestors(cats, p, rest);
      forall j | 0 <= j < |rest|
        ensures IsDescendant(cats, rest[j].categoryId, c.categoryId)
      {
        var n: nat :| DescendantWithin(cats, rest[j].categoryId, p.categoryId, n);
        DescendantExtend(cats, rest[j].categoryId, p.categoryId, c.categoryId, n);
      }
    }
  }

  /** In an acyclic hierarchy the breadcrumb of a listed category never contains it. */
  lemma BreadcrumbExcludesSelf(cats: seq<Category>, c: Category, chain: seq<Category>)
    requires Acyclic(cats) && c in cats
    requires IsBreadcrumb(cats, c, chain)
    ensures forall j :: 0 <= j < |chain| ==> chain[j].categoryId != c.categoryId
  {
    BreadcrumbAreAncestors(cats, c, chain);
    AcyclicHasNoSelfDescendant(cats, c.categoryId);
  }

  /** The mock admin login: only `admin` / `admin` is accepted, and the session token ends
      with the clock reading `stamp`. */
  function AdminLogin(username: string, password: string, stamp: string): (r: Result<string>)
    ensures r.Ok? <==> username == "admin" && password == "admin"
    ensures r.Ok? ==> r.value == "mock-session-token-" + stamp
    ensures r.Err? ==> r.error == "Invalid credentials"
  {
    if username == "admin" && password == "admin" then Ok("mock-session-token-" + stamp)
    else Err("Invalid credentials")
  }

  /** `product.price || 0`: an absent or zero price becomes 0. */
  function PriceOrZero(price: Option<real>): (r: real)
    ensures price.Some? ==> r == price.value
    ensures price.None? ==> r == 0.0
  {
    match price
    case Some(p) => p
    case None => 0.0
  }

  /** The product `createProduct` builds from a draft: the given fields, or the defaults
      "New Product", "" and 0, with the two clock readings `created` and `updated` (the
      source reads the clock once per stamp). */
  function NewProduct(id: int, draft: ProductPatch, created: Timestamp, updated: Timestamp): (p: Product)
    ensures p.productId == id
    ensures p.productName == (if draft.productName.Some? && draft.productName.value != "" then draft.productName.value else "New Product")
    ensures p.description == (if draft.description.Some? && draft.description.value != "" then draft.description.value else "")
    ensures p.price == (if draft.price.Some? then draft.price.value else 0.0)
    ensures p.createdAt == created && p.updatedAt == updated
  {
    Product(id, TextOr(draft.productName, "New Product"), TextOr(draft.description, ""), PriceOrZero(draft.price), created, updated)
  }

  /** The category `createCategory` builds from a draft: the given fields, or the defaults
      "New Category" and "", and a parent that is `None` when absent or 0. */
  function NewCategory(id: int, draft: CategoryPatch): (c: Category)
    ensures c.categoryId == id
    ensures c.categoryName == (if draft.categoryName.Some? && draft.categoryName.value != "" then draft.categoryName.value else "New Category")
    ensures c.description == (if draft.description.Some? && draft.description.value != "" then draft.description.value else "")
    ensures c.parentCategoryId.Some? <==> draft.parentCategoryId.Some? && draft.parentCategoryId.value != 0
    ensures c.parentCategoryId.Some? ==> c.parentCategoryId == draft.parentCategoryId
  {
    Category(id, TextOr(draft.categoryName, "New Category"), TextOr(draft.description, ""), NumberOrNull(draft.parentCategoryId))
  }

  /** The identifier `Math.max(...ids, 0) + 1` is positive and above every identifier in
      use, so it is fresh. */
  lemma NextIdIsFresh(ids: seq<int>)
    ensures MaxOrZero(ids) + 1 >= 1
    ensures forall k :: 0 <= k < |ids| ==> ids[k] < MaxOrZero(ids) + 1
    ensures MaxOrZero(ids) + 1 !in ids
  {
  }

  /** Appending a product whose identifier is above all others keeps identifiers distinct. */
  lemma AppendFreshProductKeepsUnique(ps: seq<Product>, p: Product)
    requires UniqueProductIds(ps)
    requires forall k :: 0 <= k < |ps| ==> ps[k].productId < p.productId
    ensures UniqueProductIds(ps + [p])
  {
  }

  /** Removing one category keeps the hierarchy acyclic: the same rank still works. */
  lemma RemoveCategoryKeepsAcyclic(cats: seq<Category>, i: int)
    requires Acyclic(cats) && 0 <= i < |cats|
    ensures Acyclic(cats[..i] + cats[i + 1..])
  {
    var rank :| RankedBy(cats, rank);
    var rest := cats[..i] + cats[i + 1..];
    forall k | 0 <= k < |rest|
      ensures rest[k] == cats[if k < i then k else k + 1]
    {
    }
    assert RankedBy(rest, rank);
  }

  /** Appending a category that no listed category names as its parent keeps the
      hierarchy acyclic: the new category ranks below everything else. */
  lemma AppendUnreferencedCategoryKeepsAcyclic(cats: seq<Category>, c: Category)
    requires Acyclic(cats)
    requires forall k :: 0 <= k < |cats| ==> cats[k].parentCategoryId != Some(c.categoryId)
    requires c.parentCategoryId != Some(c.categoryId)
    ensures Acyclic(cats + [c])
  {
    var rank :| RankedBy(cats, rank);
    var extra := if c.parentCategoryId.Some? then {c.categoryId, c.parentCategoryId.value} else {c.categoryId};
    var rank' := map x | x in rank.Keys + extra ::
      if x == c.categoryId then 0 as nat else (if x in rank then rank[x] else 0) + 1;
    var cats' := cats + [c];
    forall k | 0 <= k < |cats'|
      ensures cats'[k].categoryId in rank'
      ensures cats'[k].parentCategoryId.Some? ==>
        && cats'[k].parentCategoryId.value in rank'
        && rank'[cats'[k].parentCategoryId.value] > rank'[cats'[k].categoryId]
    {
      if k < |cats| {
        assert cats'[k] == cats[k];
      }
    }
    assert RankedBy(cats', rank');
  }

  /** Every parent reference names a listed category. */
  ghost predicate ParentsListed(cats: seq<Category>) {
    forall k :: 0 <= k < |cats| && cats[k].parentCategoryId.Some? ==>
      exists j :: 0 <= j < |cats| && cats[j].categoryId == cats[k].parentCategoryId.value
  }

  /** The seed's parents are all listed. */
  lemma SeedParentsListed()
    ensures ParentsListed(SeedCategories())
  {
    var cats := SeedCategories();
    SeedIsTwoLevelForest();
    assert IsTwoLevelForest(cats);
  }

  /** Every seed product is listed under a seed subcategory and under that subcategory's
      top-level parent, so a top-level category's page also shows its children's products. */
  lemma SeedProductsFollowHierarchy()
    ensures forall id | id in ProductCategoryMap() ::
      var cs := ProductCategoryMap()[id];
      && (exists k :: 0 <= k < |SeedCategories()| && SeedCategories()[k].categoryId == cs[0]
                      && SeedCategories()[k].parentCategoryId.None?)
      && (exists k :: 0 <= k < |SeedCategories()| && SeedCategories()[k].categoryId == cs[1]
                      && SeedCategories()[k].parentCategoryId == Some(cs[0]))
  {
    var m := ProductCategoryMap();
    forall id | id in m
      ensures exists k :: 0 <= k < |SeedCategories()| && SeedCategories()[k].categoryId == m[id][0]
                          && SeedCategories()[k].parentCategoryId.None?
      ensures exists k :: 0 <= k < |SeedCategories()| && SeedCategories()[k].categoryId == m[id][1]
                          && SeedCategories()[k].parentCategoryId == Some(m[id][0])
    {
      SeedSubcategoryOf(m[id][0], m[id][1]);
    }
  }

  /** Seed category `10t + j` (j in 1..4) is a child of top-level seed category `t`. */
  lemma SeedSubcategoryOf(t: int, c: int)
    requires 1 <= t <= 5 && 10 * t + 1 <= c <= 10 * t + 4
    ensures exists k :: 0 <= k < |SeedCategories()| && SeedCategories()[k].categoryId == t
                        && SeedCategories()[k].parentCategoryId.None?
    ensures exists k :: 0 <= k < |SeedCategories()| && SeedCategories()[k].categoryId == c
                        && SeedCategories()[k].parentCategoryId == Some(t)
  {
    var top := 5 * (t - 1);
    var sub := top + (c - 10 * t);
    assert top / 5 == t - 1 && top % 5 == 0;
    assert sub / 5 == t - 1 && sub % 5 == c - 10 * t;
    SeedAt(top);
    SeedAt(sub);
  }

  /** Replacing a category by one with the same identifier whose parent is `None` or an
      offered parent choice keeps the hierarchy acyclic (the form's guard). */
  lemma UpdateWithAvailableParentKeepsAcyclic(cats: seq<Category>, i: int, c: Category)
    requires Acyclic(cats) && 0 <= i < |cats| && c.categoryId == cats[i].categoryId
    requires c.parentCategoryId.None? ||
      (c.parentCategoryId.value != c.categoryId && !IsDescendant(cats, c.categoryId, c.parentCategoryId.value))
    ensures Acyclic(cats[i := c])
  {
    var reparented := cats[i := cats[i].(parentCategoryId := c.parentCategoryId)];
    CategoryForm.ReparentingToAvailableParentKeepsAcyclic(cats, i, c.parentCategoryId);
    var rank :| RankedBy(reparented, rank);
    var updated := cats[i := c];
    forall k | 0 <= k < |updated|
      ensures updated[k].categoryId in rank
      ensures updated[k].parentCategoryId.Some? ==>
        && updated[k].parentCategoryId.value in rank
        && rank[updated[k].parentCategoryId.value] > rank[updated[k].categoryId]
    {
      assert updated[k].categoryId == reparented[k].categoryId;
      assert updated[k].parentCategoryId == reparented[k].parentCategoryId;
    }
    assert RankedBy(updated, rank);
  }

  /** The store's invariant on the category list: distinct identifiers, no cycle, no
      dangling parent reference. */
  ghost predicate WellFormedCategories(cats: seq<Category>) {
    UniqueCategoryIds(cats) && Acyclic(cats) && ParentsListed(cats)
  }

  /** Removing a category that no category names as its parent keeps the category list
      well formed. */
  lemma RemoveChildlessKeepsWellFormed(cats: seq<Category>, i: int)
    requires WellFormedCategories(cats) && 0 <= i < |cats|
    requires forall k :: 0 <= k < |cats| ==> cats[k].parentCategoryId != Some(cats[i].categoryId)
    ensures WellFormedCategories(cats[..i] + cats[i + 1..])
  {
    var rest := cats[..i] + cats[i + 1..];
    forall k | 0 <= k < |rest|
      ensures rest[k] == cats[if k < i then k else k + 1]
    {
    }
    RemoveCategoryKeepsAcyclic(cats, i);
    forall k | 0 <= k < |rest| && rest[k].parentCategoryId.Some?
      ensures exists j :: 0 <= j < |rest| && rest[j].categoryId == rest[k].parentCategoryId.value
    {
      var k0 := if k < i then k else k + 1;
      var j0 :| 0 <= j0 < |cats| && cats[j0].categoryId == cats[k0].parentCategoryId.value;
      assert j0 != i;
      var j := if j0 < i then j0 else j0 - 1;
      assert rest[j] == cats[j0];
    }
  }

  /** Appending a category whose identifier is above all others and whose parent is `None`
      or a listed category keeps the category list well formed. */
  lemma AppendFreshKeepsWellFormed(cats: seq<Category>, c: Category)
    requires WellFormedCategories(cats)
    requires forall k :: 0 <= k < |cats| ==> cats[k].categoryId < c.categoryId
    requires c.parentCategoryId.Some? ==> exists j :: 0 <= j < |cats| && cats[j].categoryId == c.parentCategoryId.value
    ensures WellFormedCategories(cats + [c])
  {
    forall k | 0 <= k < |cats|
      ensures cats[k].parentCategoryId != Some(c.categoryId)
    {
      if cats[k].parentCategoryId.Some? {
        var j :| 0 <= j < |cats| && cats[j].categoryId == cats[k].parentCategoryId.value;
      }
    }
    AppendUnreferencedCategoryKeepsAcyclic(cats, c);
    var cats' := cats + [c];
    forall k | 0 <= k < |cats'| && cats'[k].parentCategoryId.Some?
      ensures exists j :: 0 <= j < |cats'| && cats'[j].categoryId == cats'[k].parentCategoryId.value
    {
      if k < |cats| {
        var j :| 0 <= j < |cats| && cats[j].categoryId == cats[k].parentCategoryId.value;
        assert cats'[j] == cats[j];
      } else {
        var j :| 0 <= j < |cats| && cats[j].categoryId == c.parentCategoryId.value;
        assert cats'[j] == cats[j];
      }
    }
  }

  /** The breadcrumb walk of `getCategory`: from `category`, climb to the parent while there
      is one and it is listed, prepending each parent. It ends because the hierarchy has no
      cycle, and the result never contains `category`'s own identifier. */
  method Breadcrumb(cats: seq<Category>, category: Category) returns (chain: seq<Category>)
    requires Acyclic(cats) && category in cats
    ensures IsBreadcrumb(cats, category, chain)
    ensures forall j :: 0 <= j < |chain| ==> chain[j] in cats && chain[j].categoryId != category.categoryId
  {
    chain := [];
    var current := category;
    ghost var rank :| RankedBy(cats, rank);
    ghost var bound := MaxRank(cats, rank);
    while current.parentCategoryId.Some?
      invariant current in cats
      invariant chain == [] ==> current == category
      invariant chain != [] ==>
        && current == chain[0]
        && ParentOf(cats, category) == Some(chain[|chain| - 1])
        && forall j :: 0 <= j < |chain| - 1 ==> ParentOf(cats, chain[j + 1]) == Some(chain[j])
      decreases bound - rank[current.categoryId]
    {
      var parent := CategoryById(cats, current.parentCategoryId.value);
      if parent.None? {
        break;
      }
      chain := [parent.value] + chain;
      current := parent.value;
    }
    BreadcrumbAreAncestors(cats, category, chain);
    BreadcrumbExcludesSelf(cats, category, chain);
  }

  /** The catalogue store: the product and category lists the mock API reads and changes. */
  class CatalogueStore {
    var products: seq<Product>
    var categories: seq<Category>

    /** Identifiers are distinct in both lists, and the hierarchy has no cycle and no
        dangling parent reference. Every operation below keeps this. */
    ghost predicate Valid()
      reads this
    {
      && UniqueProductIds(products)
      && WellFormedCategories(categories)
    }

    /** The store starts with the seed lists. */
    constructor ()
      ensures products == SeedProducts() && categories == SeedCategories()
      ensures Valid()
    {
      products := SeedProducts();
      categories := SeedCategories();
      SeedProductIdsUnique();
      SeedIdsUnique();
      SeedAcyclic();
      SeedParentsListed();
    }

    /** Page `page` of twelve products (`getProducts`, default page 1). */
    method GetProducts(page: int := 1) returns (r: seq<Product>)
      ensures r == PaginatedProducts(products, page, 12)
      ensures page >= 1 ==>
        && |r| == (if (page - 1) * 12 >= |products| then 0 else Min(12, |products| - (page - 1) * 12))
        && forall k :: 0 <= k < |r| ==> r[k] == products[(page - 1) * 12 + k]
      ensures page == 0 ==> r == []
    {
      r := PaginatedProducts(products, page, 12);
      if page >= 1 {
        PageContents(products, page, 12);
      } else if page == 0 {
        PageZeroIsEmpty(products, 12);
      }
    }

    /** The products matching `query` (`searchProducts`). */
    method SearchProducts(query: string) returns (r: seq<Product>)
      ensures r == SearchProductsByQuery(products, query)
      ensures forall p :: p in r <==> p in products && MatchesQuery(p, Lower(query))
      ensures forall p :: multiset(r)[p] == if MatchesQuery(p, Lower(query)) then multiset(products)[p] else 0
      ensures IsSubsequence(r, products)
    {
      r := SearchProductsByQuery(products, query);
    }

    /** The product with identifier `id` (`getProduct`), or "Product not found". */
    method GetProduct(id: int) returns (r: Result<Product>)
      ensures r.Err? <==> forall k :: 0 <= k < |products| ==> products[k].productId != id
      ensures r.Err? ==> r.error == "Product not found"
      ensures r.Ok? ==> r.value.productId == id && r.value in products
      ensures r.Ok? ==> Some(r.value) == ProductById(products, id)
    {
      var found := ProductById(products, id);
      if found.None? {
        return Err("Product not found");
      }
      r := Ok(found.value);
    }

    /** The top-level categories (`getCategories`). */
    method GetCategories() returns (r: seq<Category>)
      ensures r == ParentCategories(categories)
      ensures forall c :: c in r <==> c in categories && c.parentCategoryId.None?
      ensures forall c :: multiset(r)[c] == if c.parentCategoryId.None? then multiset(categories)[c] else 0
      ensures IsSubsequence(r, categories)
    {
      r := ParentCategories(categories);
    }

    /** The category page for `id` (`getCategory`), or "Category not found". The breadcrumb
        walk climbs parent references until a top-level category or a missing parent; it
        ends because the hierarchy has no cycle. */
    method GetCategory(id: int) returns (r: Result<CategoryResponse>)
      requires Acyclic(categories)
      ensures r.Err? <==> forall k :: 0 <= k < |categories| ==> categories[k].categoryId != id
      ensures r.Err? ==> r.error == "Category not found"
      ensures r.Ok? ==> r.value.products == ProductsByCategory(products, ProductCategoryMap(), id)
      ensures r.Ok? ==> r.value.subCategories == SubCategories(categories, id)
      ensures r.Ok? ==> forall c :: c in r.value.subCategories <==> c in categories && c.parentCategoryId == Some(id)
      ensures r.Ok? ==> (CategoryById(categories, id).Some? &&
        IsBreadcrumb(categories, CategoryById(categories, id).value, r.value.parentCategories))
      ensures r.Ok? ==> forall j :: 0 <= j < |r.value.parentCategories| ==> r.value.parentCategories[j].categoryId != id
    {
      var category := CategoryById(categories, id);
      if category.None? {
        return Err("Category not found");
      }
      var categoryProducts := ProductsByCategory(products, ProductCategoryMap(), id);
      var subCategories := SubCategories(categories, id);
      var chain := Breadcrumb(categories, category.value);
      r := Ok(CategoryResponse(categoryProducts, subCategories, chain));
    }

    /** Adds a product built from `draft` under the identifier one above the largest in use
        (`createProduct`); `created` and `updated` are the two clock readings. */
    method CreateProduct(draft: ProductPatch, created: Timestamp, updated: Timestamp) returns (p: Product)
      modifies this
      ensures p == NewProduct(MaxOrZero(ProductIds(old(products))) + 1, draft, created, updated)
      ensures forall k :: 0 <= k < |old(products)| ==> old(products)[k].productId < p.productId
      ensures products == old(products) + [p]
      ensures categories == old(categories)
      ensures old(Valid()) ==> Valid()
    {
      var ids := ProductIds(products);
      var newId := MaxOrZero(ids) + 1;
      p := NewProduct(newId, draft, created, updated);
      NextIdIsFresh(ids);
      if Valid() {
        AppendFreshProductKeepsUnique(products, p);
      }
      products := products + [p];
    }

    /** Replaces the first product with the same identifier by `product`, stamped `now`
        (`updateProduct`), or fails with "Product not found" and changes nothing. */
    method UpdateProduct(product: Product, now: Timestamp) returns (r: Result<Product>)
      modifies this
      ensures r.Err? <==> forall k :: 0 <= k < |old(products)| ==> old(products)[k].productId != product.productId
      ensures r.Err? ==> r.error == "Product not found" && products == old(products)
      ensures r.Ok? ==> (r.value == product.(updatedAt := now) &&
        products == old(products)[ProductIndex(old(products), product.productId) := r.value])
      ensures |products| == |old(products)| && categories == old(categories)
      ensures old(Valid()) ==> Valid()
    {
      var index := ProductIndex(products, product.productId);
      if index == -1 {
        return Err("Product not found");
      }
      var updated := product.(updatedAt := now);
      products := products[index := updated];
      r := Ok(updated);
    }

    /** Removes the first product with identifier `id` (`deleteProduct`), or fails with
        "Product not found" and changes nothing. */
    method DeleteProduct(id: int) returns (o: Outcome)
      modifies this
      ensures o.Fail? <==> forall k :: 0 <= k < |old(products)| ==> old(products)[k].productId != id
      ensures o.Fail? ==> o.error == "Product not found" && products == old(products)
      ensures o.Pass? ==>
        var i := ProductIndex(old(products), id);
        products == old(products)[..i] + old(products)[i + 1..]
      ensures categories == old(categories)
      ensures old(Valid()) ==> Valid()
    {
      var index := ProductIndex(products, id);
      if index == -1 {
        return Fail("Product not found");
      }
      ghost var before := products;
      products := products[..index] + products[index + 1..];
      forall k | 0 <= k < |products|
        ensures products[k] == before[if k < index then k else k + 1]
      {
      }
      o := Pass;
    }

    /** Adds a category built from `draft` under the identifier one above the largest in use
        (`createCategory`). */
    method CreateCategory(draft: CategoryPatch) returns (c: Category)
      modifies this
      ensures c == NewCategory(MaxOrZero(CategoryIds(old(categories))) + 1, draft)
      ensures forall k :: 0 <= k < |old(categories)| ==> old(categories)[k].categoryId < c.categoryId
      ensures categories == old(categories) + [c]
      ensures products == old(products)
      ensures old(Valid()) && (c.parentCategoryId.Some? ==> c.parentCategoryId.value in CategoryIds(old(categories))) ==> Valid()
    {
      var ids := CategoryIds(categories);
      var newId := MaxOrZero(ids) + 1;
      c := NewCategory(newId, draft);
      NextIdIsFresh(ids);
      if Valid() && (c.parentCategoryId.Some? ==> c.parentCategoryId.value in ids) {
        if c.parentCategoryId.Some? {
          var j :| 0 <= j < |ids| && ids[j] == c.parentCategoryId.value;
          assert categories[j].categoryId == c.parentCategoryId.value;
        }
        AppendFreshKeepsWellFormed(categories, c);
      }
      categories := categories + [c];
    }

    /** Replaces the first category with the same identifier by `category` without any
        check on the hierarchy (`updateCategory`), or fails with "Category not found" and
        changes nothing. */
    method UpdateCategory(category: Category) returns (r: Result<Category>)
      modifies this
      ensures r.Err? <==> forall k :: 0 <= k < |old(categories)| ==> old(categories)[k].categoryId != category.categoryId
      ensures r.Err? ==> r.error == "Category not found" && categories == old(categories)
      ensures r.Ok? ==> (r.value == category &&
        categories == old(categories)[CategoryIndex(old(categories), category.categoryId) := category])
      ensures products == old(products)
    {
      var index := CategoryIndex(categories, category.categoryId);
      if index == -1 {
        return Err("Category not found");
      }
      categories := categories[index := category];
      r := Ok(category);
    }

    /** Removes the first category with identifier `id` (`deleteCategory`); fails with
        "Category not found" when there is none and with "Cannot delete category with
        subcategories" when some category names `id` as its parent, changing nothing. */
    method DeleteCategory(id: int) returns (o: Outcome)
      modifies this
      ensures o.Fail? <==>
        (forall k :: 0 <= k < |old(categories)| ==> old(categories)[k].categoryId != id) ||
        (exists k :: 0 <= k < |old(categories)| && old(categories)[k].parentCategoryId == Some(id))
      ensures o.Fail? ==> categories == old(categories)
      ensures o.Fail? && (forall k :: 0 <= k < |old(categories)| ==> old(categories)[k].categoryId != id) ==>
        o.error == "Category not found"
      ensures o.Fail? && (exists k :: 0 <= k < |old(categories)| && old(categories)[k].categoryId == id) ==>
        o.error == "Cannot delete category with subcategories"
      ensures o.Pass? ==>
        var i := CategoryIndex(old(categories), id);
        categories == old(categories)[..i] + old(categories)[i + 1..]
      ensures products == old(products)
      ensures old(Valid()) ==> Valid()
    {
      var index := CategoryIndex(categories, id);
      if index == -1 {
        return Fail("Category not found");
      }
      var hasSubcategories := exists k :: 0 <= k < |categories| && categories[k].parentCategoryId == Some(id);
      if hasSubcategories {
        return Fail("Cannot delete category with subcategories");
      }
      if Valid() {
        RemoveChildlessKeepsWellFormed(categories, index);
      }
      categories := categories[..index] + categories[index + 1..];
      o := Pass;
    }
  }
}
