/** The category hierarchy induced by the parent references of a category list: child
    links, descendants, and acyclicity witnessed by a height rank. */
module CategoryTree {
  import opened Wrappers
  import opened Catalogue

  /** Some category in `cats` has identifier `child` and names `parent` as its parent. */
  ghost predicate HasChild(cats: seq<Category>, parent: int, child: int) {
    exists k :: 0 <= k < |cats| && cats[k].parentCategoryId == Some(parent) && cats[k].categoryId == child
  }

  /** `x` is reached from `a` by following between 1 and `n` + 1 child links. */
  ghost predicate DescendantWithin(cats: seq<Category>, a: int, x: int, n: nat)
    decreases n
  {
    HasChild(cats, a, x) || (n > 0 && exists y :: HasChild(cats, a, y) && DescendantWithin(cats, y, x, n - 1))
  }

  /** `x` is a (strict, transitive) descendant of `a`. */
  ghost predicate IsDescendant(cats: seq<Category>, a: int, x: int) {
    exists n: nat :: DescendantWithin(cats, a, x, n)
  }

  /** `rank` is a height function for the hierarchy: every category's identifier, and every
      identifier named as a parent, is ranked, and a parent ranks strictly above its child. */
  ghost predicate RankedBy(cats: seq<Category>, rank: map<int, nat>) {
    forall k :: 0 <= k < |cats| ==>
      && cats[k].categoryId in rank
      && (cats[k].parentCategoryId.Some? ==>
            && cats[k].parentCategoryId.value in rank
            && rank[cats[k].parentCategoryId.value] > rank[cats[k].categoryId])
  }

  /** The parent references form no cycle: some height function exists. */
  ghost predicate Acyclic(cats: seq<Category>) {
    exists rank :: RankedBy(cats, rank)
  }

  /** An upper bound of the ranks of all categories in `cats`. */
  ghost function MaxRank(cats: seq<Category>, rank: map<int, nat>): (m: nat)
    requires forall k :: 0 <= k < |cats| ==> cats[k].categoryId in rank
    ensures forall k :: 0 <= k < |cats| ==> rank[cats[k].categoryId] <= m
  {
    if cats == [] then 0
    else
      var rest := MaxRank(cats[1..], rank);
      assert forall k :: 1 <= k < |cats| ==> cats[k] == cats[1..][k - 1];
      if rank[cats[0].categoryId] > rest then rank[cats[0].categoryId] else rest
  }

  /** A descendant reached in at most `n` + 1 links, followed by one more child link, is a
      descendant reached in at most `n` + 2 links. */
  lemma {:induction false} DescendantExtend(cats: seq<Category>, a: int, y: int, x: int, n: nat)
    requires DescendantWithin(cats, a, y, n)
    requires HasChild(cats, y, x)
    ensures DescendantWithin(cats, a, x, n + 1)
    decreases n
  {
    if HasChild(cats, a, y) {
      assert DescendantWithin(cats, y, x, n);
    } else {
      var z :| HasChild(cats, a, z) && DescendantWithin(cats, z, y, n - 1);
      DescendantExtend(cats, z, y, x, n - 1);
    }
  }

  /** One unfolding of the descendant relation: the descendants of `a` are its children and
      the descendants of its children. */
  lemma DescendantUnfold(cats: seq<Category>, a: int, x: int)
    ensures IsDescendant(cats, a, x) <==>
      exists k :: 0 <= k < |cats| && cats[k].parentCategoryId == Some(a) &&
        (x == cats[k].categoryId || IsDescendant(cats, cats[k].categoryId, x))
  {
    if IsDescendant(cats, a, x) {
      var n: nat :| DescendantWithin(cats, a, x, n);
      if !HasChild(cats, a, x) {
        var y :| HasChild(cats, a, y) && DescendantWithin(cats, y, x, n - 1);
        var k :| 0 <= k < |cats| && cats[k].parentCategoryId == Some(a) && cats[k].categoryId == y;
        assert IsDescendant(cats, cats[k].categoryId, x);
      }
    }
    if exists k :: 0 <= k < |cats| && cats[k].parentCategoryId == Some(a) &&
        (x == cats[k].categoryId || IsDescendant(cats, cats[k].categoryId, x)) {
      var k :| 0 <= k < |cats| && cats[k].parentCategoryId == Some(a) &&
        (x == cats[k].categoryId || IsDescendant(cats, cats[k].categoryId, x));
      if x == cats[k].categoryId {
        assert DescendantWithin(cats, a, x, 0);
      } else {
        var n: nat :| DescendantWithin(cats, cats[k].categoryId, x, n);
        assert HasChild(cats, a, cats[k].categoryId);
        assert DescendantWithin(cats, a, x, n + 1);
      }
    }
  }

  /** Along child links the rank strictly decreases. */
  lemma {:induction false} DescendantRanksLower(cats: seq<Category>, rank: map<int, nat>, a: int, x: int, n: nat)
    requires RankedBy(cats, rank)
    requires DescendantWithin(cats, a, x, n)
    ensures a in rank && x in rank && rank[x] < rank[a]
    decreases n
  {
    if !HasChild(cats, a, x) {
      var y :| HasChild(cats, a, y) && DescendantWithin(cats, y, x, n - 1);
      DescendantRanksLower(cats, rank, y, x, n - 1);
    }
  }

  /** In an acyclic hierarchy no category is its own ancestor. */
  lemma AcyclicHasNoSelfDescendant(cats: seq<Category>, x: int)
    requires Acyclic(cats)
    ensures !IsDescendant(cats, x, x)
  {
    if IsDescendant(cats, x, x) {
      var rank :| RankedBy(cats, rank);
      var n: nat :| DescendantWithin(cats, x, x, n);
      DescendantRanksLower(cats, rank, x, x, n);
    }
  }
}
