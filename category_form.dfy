/** The category editor's logic (`CategoryForm.tsx`): the descendants of a category, the
    parent choices it offers, validation, and the record it submits. */
module CategoryForm {
  import opened Wrappers
  import opened Seqs
  import opened Catalogue
  import opened CategoryTree
  import opened MockCategories

  /** Every identifier reachable from `id` through child links (`getDescendants`): for each
      direct child in list order, the child followed by the child's own descendants. The
      recursion ends because a child ranks strictly below its parent. */
  method GetDescendants(cats: seq<Category>, id: int, ghost rank: map<int, nat>) returns (ds: seq<int>)
    requires RankedBy(cats, rank)
    ensures forall x :: x in ds <==> IsDescendant(cats, id, x)
    decreases if id in rank then rank[id] + 1 else 0
  {
    ds := [];
    var children := SubCategories(cats, id);
    for i := 0 to |children|
      invariant forall x :: x in ds <==> ReachedThrough(cats, children, i, x)
    {
      var child := children[i];
      assert child in cats;
      var sub := GetDescendants(cats, child.categoryId, rank);
      ghost var prev := ds;
      ds := ds + [child.categoryId] + sub;
      forall x
        ensures x in ds <==> ReachedThrough(cats, children, i + 1, x)
      {
        assert x in ds <==> x in prev || x == child.categoryId || x in sub;
        ReachedThroughNext(cats, children, i, x);
      }
    }
    DescendantsThroughChildren(cats, id, children);
  }

  /** `x` is one of the first `n` children or a descendant of one. */
  ghost predicate ReachedThrough(cats: seq<Category>, children: seq<Category>, n: int, x: int)
    requires 0 <= n <= |children|
  {
    exists j :: 0 <= j < n && (x == children[j].categoryId || IsDescendant(cats, children[j].categoryId, x))
  }

  /** Taking one more child in. */
  lemma ReachedThroughNext(cats: seq<Category>, children: seq<Category>, n: int, x: int)
    requires 0 <= n < |children|
    ensures ReachedThrough(cats, children, n + 1, x) <==>
      ReachedThrough(cats, children, n, x) || x == children[n].categoryId || IsDescendant(cats, children[n].categoryId, x)
  {
    if ReachedThrough(cats, children, n + 1, x) {
      var j :| 0 <= j < n + 1 && (x == children[j].categoryId || IsDescendant(cats, children[j].categoryId, x));
      if j < n {
        assert ReachedThrough(cats, children, n, x);
      }
    }
  }

  /** The descendants of `id` are its children and their descendants. */
  lemma DescendantsThroughChildren(cats: seq<Category>, id: int, children: seq<Category>)
    requires children == SubCategories(cats, id)
    ensures forall x :: IsDescendant(cats, id, x) <==> ReachedThrough(cats, children, |children|, x)
  {
    forall x
      ensures IsDescendant(cats, id, x) ==> ReachedThrough(cats, children, |children|, x)
    {
      DescendantUnfold(cats, id, x);
      if IsDescendant(cats, id, x) {
        var k :| 0 <= k < |cats| && cats[k].parentCategoryId == Some(id) &&
          (x == cats[k].categoryId || IsDescendant(cats, cats[k].categoryId, x));
        assert cats[k] in children;
        var j :| 0 <= j < |children| && children[j] == cats[k];
        assert x == children[j].categoryId || IsDescendant(cats, children[j].categoryId, x);
      }
    }
    forall x | ReachedThrough(cats, children, |children|, x)
      ensures IsDescendant(cats, id, x)
    {
      var j :| 0 <= j < |children| && (x == children[j].categoryId || IsDescendant(cats, children[j].categoryId, x));
      DescendantUnfold(cats, id, x);
      assert children[j] in cats;
    }
  }

  /** The parent choices, given the descendants of the category being edited
      (`availableParents`): every category when creating; when editing, every category
      other than the edited one and its descendants, in list order. */
  function AvailableParents(cats: seq<Category>, editing: Option<Category>, descendants: seq<int>): (r: seq<Category>)
    ensures editing.None? ==> r == cats
    ensures editing.Some? ==> forall c :: c in r <==>
      c in cats && c.categoryId != editing.value.categoryId && c.categoryId !in descendants
    ensures editing.Some? ==>
      forall c :: multiset(r)[c] ==
        if c.categoryId != editing.value.categoryId && c.categoryId !in descendants then multiset(cats)[c] else 0
    ensures IsSubsequence(r, cats)
  {
    match editing
    case None =>
      FilterKeepsAll(cats, (c: Category) => true);
      Filter(cats, (c: Category) => true)
    case Some(category) =>
      Filter(cats, (c: Category) => c.categoryId != category.categoryId && c.categoryId !in descendants)
  }

  /** The parent choices the form offers: every category when creating; when editing, every
      category that is neither the edited one nor one of its descendants. Collecting the
      descendants ends only on an acyclic hierarchy. */
  method AvailableParentsFor(cats: seq<Category>, editing: Option<Category>) returns (r: seq<Category>)
    requires editing.Some? ==> Acyclic(cats)
    ensures editing.None? ==> r == cats
    ensures editing.Some? ==> forall c :: c in r <==>
      c in cats && c.categoryId != editing.value.categoryId && !IsDescendant(cats, editing.value.categoryId, c.categoryId)
    ensures editing.Some? ==>
      forall c :: multiset(r)[c] ==
        if c.categoryId != editing.value.categoryId && !IsDescendant(cats, editing.value.categoryId, c.categoryId)
        then multiset(cats)[c] else 0
    ensures IsSubsequence(r, cats)
  {
    var descendants := [];
    if editing.Some? {
      ghost var rank :| RankedBy(cats, rank);
      descendants := GetDescendants(cats, editing.value.categoryId, rank);
    }
    r := AvailableParents(cats, editing, descendants);
  }

  /** Re-parenting category `i` under `None` or under an offered choice (neither itself nor
      one of its descendants) keeps the hierarchy acyclic: every category outside the
      subtree of `i` is lifted above the whole subtree. */
  lemma ReparentingToAvailableParentKeepsAcyclic(cats: seq<Category>, i: int, q: Option<int>)
    requires Acyclic(cats)
    requires 0 <= i < |cats|
    requires q.None? || (q.value != cats[i].categoryId && !IsDescendant(cats, cats[i].categoryId, q.value))
    ensures Acyclic(cats[i := cats[i].(parentCategoryId := q)])
  {
    var rank :| RankedBy(cats, rank);
    var e := cats[i].categoryId;
    var cats' := cats[i := cats[i].(parentCategoryId := q)];
    var lift := rank[e] + 1;
    var keys := if q.Some? then rank.Keys + {q.value} else rank.Keys;
    var rank' := map x | x in keys ::
      if x == e || IsDescendant(cats, e, x) then rank[x]
      else (if x in rank then rank[x] else 0) + lift;
    forall x | IsDescendant(cats, e, x)
      ensures x in rank && rank[x] < rank[e]
    {
      var n: nat :| DescendantWithin(cats, e, x, n);
      DescendantRanksLower(cats, rank, e, x, n);
    }
    forall k | 0 <= k < |cats'|
      ensures cats'[k].categoryId in rank'
      ensures cats'[k].parentCategoryId.Some? ==>
        && cats'[k].parentCategoryId.value in rank'
        && rank'[cats'[k].parentCategoryId.value] > rank'[cats'[k].categoryId]
    {
      var c := cats'[k].categoryId;
      if k == i {
        if q.Some? {
          assert rank'[c] == rank[e];
        }
      } else if cats[k].parentCategoryId.Some? {
        var p := cats[k].parentCategoryId.value;
        assert HasChild(cats, p, c);
        if !(c == e || IsDescendant(cats, e, c)) && (p == e || IsDescendant(cats, e, p)) {
          if p == e {
            assert DescendantWithin(cats, e, c, 0);
          } else {
            var n: nat :| DescendantWithin(cats, e, p, n);
            DescendantExtend(cats, e, p, c, n);
          }
        }
      }
    }
    assert RankedBy(cats', rank');
  }

  /** Along a path that starts at `e` or below it, a rank of the list in which `e` has been
      re-parented still strictly decreases: the path never steps into `e` itself, so it
      never uses the changed parent reference. */
  lemma {:induction false} PathBelowRanksLower(cats: seq<Category>, i: int, q: Option<int>, rank: map<int, nat>,
                                               a: int, x: int, n: nat)
    requires 0 <= i < |cats|
    requires RankedBy(cats[i := cats[i].(parentCategoryId := q)], rank)
    requires !IsDescendant(cats, cats[i].categoryId, cats[i].categoryId)
    requires a == cats[i].categoryId || IsDescendant(cats, cats[i].categoryId, a)
    requires DescendantWithin(cats, a, x, n)
    ensures a in rank && x in rank && rank[a] > rank[x]
    decreases n
  {
    var e := cats[i].categoryId;
    var cats' := cats[i := cats[i].(parentCategoryId := q)];
    var y := x;
    if !HasChild(cats, a, x) {
      y :| HasChild(cats, a, y) && DescendantWithin(cats, y, x, n - 1);
    }
    var k :| 0 <= k < |cats| && cats[k].parentCategoryId == Some(a) && cats[k].categoryId == y;
    assert IsDescendant(cats, e, y) by {
      if a == e {
        assert DescendantWithin(cats, e, y, 0);
      } else {
        var m: nat :| DescendantWithin(cats, e, a, m);
        DescendantExtend(cats, e, a, y, m);
      }
    }
    assert k != i;
    assert cats'[k] == cats[k];
    if y != x {
      PathBelowRanksLower(cats, i, q, rank, y, x, n - 1);
    }
  }

  /** Conversely, re-parenting category `i` under itself or under one of its descendants
      always creates a cycle: the offered choices are exactly the safe ones. */
  lemma ReparentingUnderSelfOrDescendantCreatesCycle(cats: seq<Category>, i: int, q: int)
    requires Acyclic(cats)
    requires 0 <= i < |cats|
    requires q == cats[i].categoryId || IsDescendant(cats, cats[i].categoryId, q)
    ensures !Acyclic(cats[i := cats[i].(parentCategoryId := Some(q))])
  {
    var e := cats[i].categoryId;
    var cats' := cats[i := cats[i].(parentCategoryId := Some(q))];
    if Acyclic(cats') {
      var rank :| RankedBy(cats', rank);
      assert rank[q] > rank[e] by {
        assert cats'[i].parentCategoryId == Some(q) && cats'[i].categoryId == e;
      }
      if q != e {
        AcyclicHasNoSelfDescendant(cats, e);
        var n: nat :| DescendantWithin(cats, e, q, n);
        PathBelowRanksLower(cats, i, Some(q), rank, e, q, n);
      }
    }
  }

  /** The form's fields. */
  datatype FormData = FormData(categoryName: string, description: string, parentCategoryId: Option<int>)

  /** The characters JavaScript's `trim` removes: white space and line terminators. */
  predicate IsWhiteSpace(c: char) {
    var n := c as int;
    n == 0x09 || n == 0x0A || n == 0x0B || n == 0x0C || n == 0x0D || n == 0x20 || n == 0xA0 ||
    n == 0x1680 || (0x2000 <= n <= 0x200A) || n == 0x2028 || n == 0x2029 || n == 0x202F ||
    n == 0x205F || n == 0x3000 || n == 0xFEFF
  }

  /** Position of the first character of `s` at or after `i` that is not white space, or
      `|s|` when there is none. */
  function TextStart(s: string, i: nat): (j: nat)
    requires i <= |s|
    ensures i <= j <= |s|
    ensures forall k :: i <= k < j ==> IsWhiteSpace(s[k])
    ensures j == |s| || !IsWhiteSpace(s[j])
    decreases |s| - i
  {
    if i < |s| && IsWhiteSpace(s[i]) then TextStart(s, i + 1) else i
  }

  /** Position just past the last character of `s` before `j` that is not white space, or 0
      when there is none. */
  function TextEnd(s: string, j: nat): (e: nat)
    requires j <= |s|
    ensures e <= j
    ensures forall k :: e <= k < j ==> IsWhiteSpace(s[k])
    ensures e == 0 || !IsWhiteSpace(s[e - 1])
  {
    if j > 0 && IsWhiteSpace(s[j - 1]) then TextEnd(s, j - 1) else j
  }

  /** `s` without its leading white space. */
  function TrimStart(s: string): (r: string)
    ensures |r| <= |s| && r == s[|s| - |r|..]
    ensures forall k :: 0 <= k < |s| - |r| ==> IsWhiteSpace(s[k])
    ensures r == [] || !IsWhiteSpace(r[0])
  {
    s[TextStart(s, 0)..]
  }

  /** `s` without its trailing white space. */
  function TrimEnd(s: string): (r: string)
    ensures |r| <= |s| && r == s[..|r|]
    ensures forall k :: |r| <= k < |s| ==> IsWhiteSpace(s[k])
    ensures r == [] || !IsWhiteSpace(r[|r| - 1])
  {
    s[..TextEnd(s, |s|)]
  }

  /** `s` without leading and trailing white space (`trim`). */
  function Trim(s: string): (r: string)
    ensures exists a, b :: TrimmedAt(s, r, a, b)
    ensures r == [] || (!IsWhiteSpace(r[0]) && !IsWhiteSpace(r[|r| - 1]))
  {
    TrimAt(s);
    TrimEnd(TrimStart(s))
  }

  /** `r` is `s[a..b]`, and everything of `s` before `a` and from `b` on is white space. */
  ghost predicate TrimmedAt(s: string, r: string, a: int, b: int) {
    && 0 <= a <= b <= |s| && r == s[a..b]
    && (forall k :: 0 <= k < a ==> IsWhiteSpace(s[k]))
    && (forall k :: b <= k < |s| ==> IsWhiteSpace(s[k]))
  }

  /** Where the trimmed string sits inside `s`. */
  lemma TrimAt(s: string)
    ensures var t := TrimStart(s);
      TrimmedAt(s, TrimEnd(t), |s| - |t|, |s| - |t| + |TrimEnd(t)|)
  {
    var t := TrimStart(s);
    InfixOfSuffix(s, t, TrimEnd(t), IsWhiteSpace);
  }

  /** A prefix `r` of a suffix `t` of `s` is an infix of `s`; what follows `r` in `t` is what
      follows it in `s`. */
  lemma InfixOfSuffix(s: string, t: string, r: string, dropped: char -> bool)
    requires |t| <= |s| && t == s[|s| - |t|..]
    requires |r| <= |t| && r == t[..|r|]
    requires forall k :: |r| <= k < |t| ==> dropped(t[k])
    ensures r == s[|s| - |t|..|s| - |t| + |r|]
    ensures forall k :: |s| - |t| + |r| <= k < |s| ==> dropped(s[k])
  {
    var a := |s| - |t|;
    forall k | a + |r| <= k < |s|
      ensures dropped(s[k])
    {
      assert s[k] == t[k - a];
    }
  }

  /** A string trims to nothing exactly when it is all white space. */
  lemma TrimEmptyIffBlank(s: string)
    ensures Trim(s) == "" <==> forall k :: 0 <= k < |s| ==> IsWhiteSpace(s[k])
  {
    var t := TrimStart(s);
    if Trim(s) == "" {
      assert |t| == 0;
    } else {
      assert t != [];
      assert !IsWhiteSpace(s[|s| - |t|]);
    }
  }

  /** Whether a form would be flagged for the name and for the parent. */
  predicate NameMissing(form: FormData) {
    Trim(form.categoryName) == ""
  }

  predicate OwnParent(form: FormData, editing: Option<Category>) {
    editing.Some? && form.parentCategoryId == Some(editing.value.categoryId)
  }

  /** Field errors of the form (`validate`): a blank name, and, when editing, the category
      chosen as its own parent. The form is valid when there is no error. */
  method Validate(form: FormData, editing: Option<Category>) returns (errors: map<string, string>, valid: bool)
    ensures "category_name" in errors <==> NameMissing(form)
    ensures "category_name" in errors ==> errors["category_name"] == "Category name is required"
    ensures "parent_category_id" in errors <==> OwnParent(form, editing)
    ensures "parent_category_id" in errors ==> errors["parent_category_id"] == "Category cannot be its own parent"
    ensures errors.Keys <= {"category_name", "parent_category_id"}
    ensures valid <==> errors == map[]
    ensures valid <==> !NameMissing(form) && !OwnParent(form, editing)
  {
    errors := map[];
    if Trim(form.categoryName) == "" {
      errors := errors["category_name" := "Category name is required"];
    }
    if editing.Some? && form.parentCategoryId == Some(editing.value.categoryId) {
      errors := errors["parent_category_id" := "Category cannot be its own parent"];
    }
    valid := |errors| == 0;
    if !valid {
      assert "category_name" in errors || "parent_category_id" in errors;
    }
  }

  /** The record handed to the submit callback: the name, description and parent as
      entered, plus the identifier only when editing. */
  function SubmitData(form: FormData, editing: Option<Category>): (data: CategoryPatch)
    ensures data.categoryId.Some? <==> editing.Some?
    ensures editing.Some? ==> data.categoryId == Some(editing.value.categoryId)
    ensures data.categoryName == Some(form.categoryName) && data.description == Some(form.description)
    ensures data.parentCategoryId == form.parentCategoryId
  {
    var data := CategoryPatch(None, Some(form.categoryName), Some(form.description), form.parentCategoryId);
    if editing.Some? then data.(categoryId := Some(editing.value.categoryId)) else data
  }

  /** Submitting the form (`handleSubmit`): nothing is sent when validation fails,
      otherwise the submit data. */
  method HandleSubmit(form: FormData, editing: Option<Category>) returns (sent: Option<CategoryPatch>)
    ensures sent.None? <==> NameMissing(form) || OwnParent(form, editing)
    ensures sent.Some? ==> sent.value == SubmitData(form, editing)
  {
    var errors, valid := Validate(form, editing);
    if !valid {
      return None;
    }
    sent := Some(SubmitData(form, editing));
  }
}
