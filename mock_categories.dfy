/** The in-memory category list and its queries (`mockCategories.ts`). */
module MockCategories {
  import opened Wrappers
  import opened Seqs
  import opened Catalogue
  import opened CategoryTree

  /** The seed hierarchy, position by position: five top-level categories, each followed by
      its four subcategories. */
  function SeedCategoryAt(k: nat): Category
    requires k < 25
  {
    match k
    case 0 => Category(1, "Electronics", "Electronic devices and gadgets", None)
    case 1 => Category(11, "Smartphones", "Mobile phones and accessories", Some(1))
    case 2 => Category(12, "Laptops", "Portable computers", Some(1))
    case 3 => Category(13, "Tablets", "Tablet devices", Some(1))
    case 4 => Category(14, "Audio", "Headphones, speakers, and audio equipment", Some(1))
    case 5 => Category(2, "Clothing", "Fashion and apparel", None)
    case 6 => Category(21, "Men's Clothing", "Clothing for men", Some(2))
    case 7 => Category(22, "Women's Clothing", "Clothing for women", Some(2))
    case 8 => Category(23, "Shoes", "Footwear for all", Some(2))
    case 9 => Category(24, "Accessories", "Fashion accessories", Some(2))
    case 10 => Category(3, "Home & Garden", "Home improvement and garden supplies", None)
    case 11 => Category(31, "Furniture", "Home furniture", Some(3))
    case 12 => Category(32, "Kitchen", "Kitchen appliances and tools", Some(3))
    case 13 => Category(33, "Decor", "Home decoration items", Some(3))
    case 14 => Category(34, "Garden", "Garden tools and supplies", Some(3))
    case 15 => Category(4, "Sports & Outdoors", "Sports equipment and outdoor gear", None)
    case 16 => Category(41, "Fitness", "Fitness equipment", Some(4))
    case 17 => Category(42, "Camping", "Camping and hiking gear", Some(4))
    case 18 => Category(43, "Team Sports", "Equipment for team sports", Some(4))
    case 19 => Category(44, "Water Sports", "Water sports equipment", Some(4))
    case 20 => Category(5, "Books & Media", "Books, movies, and music", None)
    case 21 => Category(51, "Fiction", "Fiction books", Some(5))
    case 22 => Category(52, "Non-Fiction", "Non-fiction books", Some(5))
    case 23 => Category(53, "Movies", "Movies and TV shows", Some(5))
    case _ => Category(54, "Music", "Music albums and instruments", Some(5))
  }

  /** The seed list. */
  function SeedCategories(): (cats: seq<Category>)
    ensures |cats| == 25
  {
    seq(25, k requires 0 <= k < 25 => SeedCategoryAt(k))
  }

  /** Position of the first category with identifier `id`, or -1 (`findIndex`). */
  function CategoryIndex(cats: seq<Category>, id: int): (r: int)
    ensures -1 <= r < |cats|
    ensures r == -1 <==> forall k :: 0 <= k < |cats| ==> cats[k].categoryId != id
    ensures r >= 0 ==> cats[r].categoryId == id && forall k :: 0 <= k < r ==> cats[k].categoryId != id
  {
    if cats == [] then -1
    else if cats[0].categoryId == id then 0
    else
      var r := CategoryIndex(cats[1..], id);
      assert forall k :: 1 <= k < |cats| ==> cats[k] == cats[1..][k - 1];
      if r == -1 then -1 else r + 1
  }

  /** The first category with identifier `id`, if any (`find`). */
  function CategoryById(cats: seq<Category>, id: int): (r: Option<Category>)
    ensures r.None? <==> forall k :: 0 <= k < |cats| ==> cats[k].categoryId != id
    ensures r.Some? ==> r.value.categoryId == id && r.value in cats
    ensures r.Some? ==> exists i :: 0 <= i < |cats| && cats[i] == r.value &&
                          forall k :: 0 <= k < i ==> cats[k].categoryId != id
  {
    var i := CategoryIndex(cats, id);
    if i < 0 then None else Some(cats[i])
  }

  /** The top-level categories, in list order. */
  function ParentCategories(cats: seq<Category>): (r: seq<Category>)
    ensures forall c :: c in r <==> c in cats && c.parentCategoryId.None?
    ensures forall c :: multiset(r)[c] == if c.parentCategoryId.None? then multiset(cats)[c] else 0
    ensures IsSubsequence(r, cats)
  {
    Filter(cats, (c: Category) => c.parentCategoryId.None?)
  }

  /** The direct children of `parentId`, in list order. */
  function SubCategories(cats: seq<Category>, parentId: int): (r: seq<Category>)
    ensures forall c :: c in r <==> c in cats && c.parentCategoryId == Some(parentId)
    ensures forall c :: multiset(r)[c] == if c.parentCategoryId == Some(parentId) then multiset(cats)[c] else 0
    ensures IsSubsequence(r, cats)
  {
    Filter(cats, (c: Category) => c.parentCategoryId == Some(parentId))
  }

  /** Identifier of the seed category at position `k`: top-level category `t` sits at
      position 5(t - 1), followed by its children 10t + 1 .. 10t + 4. */
  function SeedId(k: nat): int {
    if k % 5 == 0 then k / 5 + 1 else 10 * (k / 5 + 1) + k % 5
  }

  /** The identifier and parent of each seed category, position by position. */
  lemma SeedAt(k: nat)
    requires k < |SeedCategories()|
    ensures SeedCategories()[k].categoryId == SeedId(k)
    ensures SeedCategories()[k].parentCategoryId == if k % 5 == 0 then None else Some(k / 5 + 1)
  {
    match k
    case 0 => case 1 => case 2 => case 3 => case 4 =>
    case 5 => case 6 => case 7 => case 8 => case 9 =>
    case 10 => case 11 => case 12 => case 13 => case 14 =>
    case 15 => case 16 => case 17 => case 18 => case 19 =>
    case 20 => case 21 => case 22 => case 23 => case 24 =>
  }

  /** The seed identifiers are pairwise distinct. */
  lemma SeedIdsUnique()
    ensures UniqueCategoryIds(SeedCategories())
  {
    var cats := SeedCategories();
    forall i, j | 0 <= i < j < |cats| ensures cats[i].categoryId != cats[j].categoryId {
      SeedAt(i);
      SeedAt(j);
    }
  }

  /** Every parent in the seed is an existing top-level category, so the seed is a forest of depth two. */
  lemma SeedIsTwoLevelForest()
    ensures IsTwoLevelForest(SeedCategories())
  {
    var cats := SeedCategories();
    forall k | 0 <= k < |cats| && cats[k].parentCategoryId.Some?
      ensures exists t :: 0 <= t < |cats| && cats[t].categoryId == cats[k].parentCategoryId.value && cats[t].parentCategoryId.None?
    {
      var t := k / 5 * 5;
      SeedAt(k);
      SeedAt(t);
      assert t % 5 == 0 && t / 5 == k / 5;
      assert cats[t].categoryId == cats[k].parentCategoryId.value;
    }
  }

  /** Every parent reference names an existing top-level category. */
  ghost predicate IsTwoLevelForest(cats: seq<Category>) {
    forall k :: 0 <= k < |cats| && cats[k].parentCategoryId.Some? ==>
      exists t :: 0 <= t < |cats| &&
        cats[t].categoryId == cats[k].parentCategoryId.value && cats[t].parentCategoryId.None?
  }

  /** A forest of depth two with distinct identifiers has no cycle: its top-level
      categories rank 1 and their children 0. */
  lemma TwoLevelForestAcyclic(cats: seq<Category>)
    requires UniqueCategoryIds(cats)
    requires IsTwoLevelForest(cats)
    ensures Acyclic(cats)
  {
    var ids := set k | 0 <= k < |cats| :: cats[k].categoryId;
    var tops := set k | 0 <= k < |cats| && cats[k].parentCategoryId.None? :: cats[k].categoryId;
    var rank := map id | id in ids :: if id in tops then 1 as nat else 0;
    forall k | 0 <= k < |cats|
      ensures cats[k].categoryId in rank
      ensures cats[k].parentCategoryId.Some? ==>
        cats[k].parentCategoryId.value in rank && rank[cats[k].parentCategoryId.value] > rank[cats[k].categoryId]
    {
      if cats[k].parentCategoryId.Some? {
        var t :| 0 <= t < |cats| && cats[t].categoryId == cats[k].parentCategoryId.value && cats[t].parentCategoryId.None?;
        assert cats[t].categoryId in tops;
        forall u | 0 <= u < |cats| && cats[u].parentCategoryId.None?
          ensures cats[u].categoryId != cats[k].categoryId
        {
          assert u != k;
        }
      }
    }
    assert RankedBy(cats, rank);
  }

  /** The seed hierarchy has no cycle. */
  lemma SeedAcyclic()
    ensures Acyclic(SeedCategories())
  {
    SeedIdsUnique();
    SeedIsTwoLevelForest();
    TwoLevelForestAcyclic(SeedCategories());
  }
}
