# Product catalogue front end: a verified model

This project models the logic at the core of the catalogue's React front end in Dafny and
proves properties of it. The modelled parts are:

- the shopping cart (`CartContext.tsx`);
- the in-memory mock back end (`mockApi.ts` over the seed data of `mockProducts.ts` and
  `mockCategories.ts`), with products, a category hierarchy, search, pagination, the
  breadcrumb walk, create, update and delete;
- the category editor (`CategoryForm.tsx`): descendants, the parent choices that prevent
  cycles, validation and the submitted record;
- the back-end/front-end record conversion (`transformers.ts`), with prices in integer cents
  on one side and dollars on the other;
- the cart line and product card helpers (`CartItem.tsx`, `ProductCard.tsx`);
- the admin session (`AdminContext.tsx`).

Each source file has a module of its own:

| file | module | form |
|---|---|---|
| `cart_context.dfy` | `CartContext` | specification functions on `seq<CartItem>` and lemmas, plus the class `Cart` whose methods replace the cart state |
| `mock_api.dfy` | `MockApi` | the class `CatalogueStore` holding the mutable product and category lists; the breadcrumb loop as a method; lemmas on the store invariant |
| `mock_products.dfy` | `MockProducts` | the 60 seed products, the product-to-category map, lookup, search, pagination |
| `mock_categories.dfy` | `MockCategories` | the 25 seed categories and their queries; the seed is a two-level forest, hence acyclic |
| `category_form.dfy` | `CategoryForm` | the recursive descendant collection as a method; the parent choices; validation; trimming |
| `transformers.dfy` | `Transformers` | pure conversion functions and their round trips |
| `cart_item.dfy` | `CartItemView` | the quantity guard, the remove button, the 80-character truncation |
| `product_card.dfy` | `ProductCard` | the "Updated … ago" caption |
| `admin_context.dfy` | `AdminContext` | the class `AdminSession` over browser storage (a map field) |

Some modules are shared. `catalogue.dfy` holds the records, `category_tree.dfy` the child,
descendant and acyclicity notions, `seqs.dfy` order-preserving filtering and
`Math.max(...ids, 0)`, and `wrappers.dfy` the Option and Result types.

A hierarchy is *acyclic* when some rank map gives every category with a listed parent a
rank strictly below its parent's. Two loops use this rank to terminate: the breadcrumb walk
of `getCategory` climbs parents, and `getDescendants` recurses into children. Acyclicity is
also what the editor's parent choices protect. Re-parenting a category under `null` or under
an offered choice keeps the hierarchy acyclic. Re-parenting it under itself or under one of
its descendants always creates a cycle. So the offered choices are exactly the safe ones.

The store's invariant `CatalogueStore.Valid` has three parts:

- product identifiers are distinct;
- category identifiers are distinct;
- the hierarchy is acyclic and has no dangling parent reference.

The constructor establishes it, and every operation except `updateCategory` keeps it. The
source does not check the hierarchy in `updateCategory`. The lemma
`CategoryForm.ReparentingUnderSelfOrDescendantCreatesCycle` shows what an unchecked update
can do.

## Model

| member | source | states |
|---|---|---|
| CartContext.IndexOfProduct | frontend/src/context/CartContext.tsx:35-37 | `findIndex`: -1 exactly when no line has the product, otherwise the first line that has it |
| CartContext.Added | frontend/src/context/CartContext.tsx:32-49 | adding merges into the first line for the product, which keeps its place and product record and gains `quantity`; without such a line a new line is appended |
| CartContext.Removed | frontend/src/context/CartContext.tsx:51-53 | removing keeps exactly the lines of other products, in order, every copy of a line as often as before |
| CartContext.QuantitySet | frontend/src/context/CartContext.tsx:55-66 | a quantity of 0 or less removes the product; otherwise every line for it takes the new quantity and nothing else changes |
| CartContext.SumsOfConcat | frontend/src/context/CartContext.tsx:72-78 | count and total add up over concatenation |
| CartContext.SumsOfUpdate | frontend/src/context/CartContext.tsx:72-78 | replacing one line changes count and total by the difference of the two lines |
| CartContext.AddRaisesCountAndTotal | frontend/src/context/CartContext.tsx:32-49 | adding `quantity` raises the count by `quantity` and the total by `quantity` times the price of the receiving line |
| CartContext.AddRaisesQuantityOf | frontend/src/context/CartContext.tsx:32-49 | adding raises the added product's units by exactly `quantity` and leaves every other product's units unchanged |
| CartContext.RemoveLowersCount | frontend/src/context/CartContext.tsx:51-53 | removing a product lowers the count by exactly its units |
| CartContext.QuantityOfUnique | frontend/src/context/CartContext.tsx:35-37 | with one line per product, the units of a product are those of the line `findIndex` finds |
| CartContext.AddKeepsUnique | frontend/src/context/CartContext.tsx:32-49 | adding keeps one line per product |
| CartContext.RemoveKeepsUnique | frontend/src/context/CartContext.tsx:51-53 | removing keeps one line per product and leaves no line for the removed one |
| CartContext.SetQuantityKeepsUnique | frontend/src/context/CartContext.tsx:55-66 | setting a quantity keeps one line per product |
| CartContext.SubsequenceKeepsUnique | frontend/src/context/CartContext.tsx:51-53 | a filtered cart keeps one line per product |
| CartContext.AddedInPlace | frontend/src/context/CartContext.tsx:39-43 | the updater as written: its new state is `Added`, and for a product already in the cart the previous state is changed to the same lines |
| CartContext.StrictModeAddsTwice | frontend/src/context/CartContext.tsx:39-43 | run twice on the same previous state, the updater as written adds `quantity` twice to the line and to the count |
| CartContext.StrictModeAddExample | frontend/src/context/CartContext.tsx:39-43 | one unit added to a line of one unit leaves three units under double invocation, where `Added` gives two |
| CartContext.Cart.constructor | frontend/src/context/CartContext.tsx:30 | the cart starts empty |
| CartContext.Cart.AddToCart | frontend/src/context/CartContext.tsx:32-49 | the new cart is `Added` of the old one; one line per product is kept |
| CartContext.Cart.RemoveFromCart | frontend/src/context/CartContext.tsx:51-53 | the new cart is `Removed` of the old one; one line per product is kept |
| CartContext.Cart.UpdateQuantity | frontend/src/context/CartContext.tsx:55-66 | the new cart is `QuantitySet` of the old one, through `removeFromCart` for quantities of 0 or less; one line per product is kept |
| CartContext.Cart.ClearCart | frontend/src/context/CartContext.tsx:68-70 | the cart is empty, with count and total 0 |
| CartContext.Cart.GetCartTotal | frontend/src/context/CartContext.tsx:72-74 | the sum of price times quantity over the lines |
| CartContext.Cart.GetCartCount | frontend/src/context/CartContext.tsx:76-78 | the sum of quantities over the lines |
| Seqs.Filter | frontend/src/data/mockCategories.ts:40-46 | `filter` keeps exactly the elements satisfying the predicate, in order, as a subsequence, each as many times as it occurs |
| Catalogue.NumberOrNull | frontend/src/utils/transformers.ts:28 | `n \|\| null`: `null` exactly when the number is absent or 0, otherwise the number |
| Catalogue.TextOr | frontend/src/services/mockApi.ts:112-113 | `s \|\| fallback`: the fallback exactly when the text is absent or empty, otherwise the text |
| Catalogue.TextOrNull | frontend/src/utils/transformers.ts:26 | `s \|\| null`: `null` exactly when the text is absent or empty, otherwise the text |
| Seqs.MaxOrZero | frontend/src/services/mockApi.ts:108 | `Math.max(...ids, 0)`: at least 0, at least every identifier, and 0 or one of them |
| CategoryTree.DescendantUnfold | frontend/src/components/admin/CategoryForm.tsx:94-104 | `x` is a descendant of `a` exactly when it is a child of `a` or a descendant of one |
| CategoryTree.DescendantRanksLower | frontend/src/components/admin/CategoryForm.tsx:94-104 | a descendant ranks strictly below its ancestor |
| CategoryTree.AcyclicHasNoSelfDescendant | frontend/src/components/admin/CategoryForm.tsx:94-104 | in an acyclic hierarchy no category is its own descendant |
| MockCategories.SeedCategories | frontend/src/data/mockCategories.ts:3-38 | the seed has 25 categories |
| MockCategories.SeedAt | frontend/src/data/mockCategories.ts:3-38 | the identifier and parent of each seed category: top-level `t` at position 5(t-1), its children `10t+1`..`10t+4` after it |
| MockCategories.SeedIdsUnique | frontend/src/data/mockCategories.ts:3-38 | the seed identifiers are distinct |
| MockCategories.SeedIsTwoLevelForest | frontend/src/data/mockCategories.ts:3-38 | every seed parent is a listed top-level category |
| MockCategories.TwoLevelForestAcyclic | frontend/src/data/mockCategories.ts:3-38 | a two-level forest with distinct identifiers is acyclic |
| MockCategories.SeedAcyclic | frontend/src/data/mockCategories.ts:3-38 | the seed hierarchy is acyclic |
| MockCategories.CategoryIndex | frontend/src/services/mockApi.ts:171 | `findIndex`: -1 exactly when no category has the identifier, otherwise the first that has it |
| MockCategories.CategoryById | frontend/src/data/mockCategories.ts:48-50 | `find`: none exactly when the identifier is absent, otherwise the first category with it |
| MockCategories.ParentCategories | frontend/src/data/mockCategories.ts:40-42 | exactly the categories without a parent, in order, each as many times as it is listed |
| MockCategories.SubCategories | frontend/src/data/mockCategories.ts:44-46 | exactly the categories whose parent is the given identifier, in order, each as many times as it is listed |
| MockProducts.SeedProduct | frontend/src/data/mockProducts.ts:10-100 | the seed product at position `k` has identifier `k + 1` |
| MockProducts.SeedProducts | frontend/src/data/mockProducts.ts:4-100 | 60 products numbered 1 to 60 in order, stamped a number of days before load |
| MockProducts.NumberedUnique | frontend/src/data/mockProducts.ts:10-100 | consecutively numbered products have distinct identifiers |
| MockProducts.SeedProductIdsUnique | frontend/src/data/mockProducts.ts:10-100 | the seed product identifiers are distinct |
| MockProducts.ProductCategoryMap | frontend/src/data/mockProducts.ts:103-128 | products 1 to 60 are mapped, each to a top-level category `t` in 1..5 and one subcategory `10t+1`..`10t+4` |
| MockProducts.SeedCategoriesOf | frontend/src/data/mockProducts.ts:103-128 | each entry is two identifiers: a top-level category and a subcategory numbered under it |
| MockProducts.ProductIndex | frontend/src/services/mockApi.ts:126 | `findIndex`: -1 exactly when no product has the identifier, otherwise the first that has it |
| MockProducts.ProductById | frontend/src/data/mockProducts.ts:130-132 | `find`: none exactly when the identifier is absent, otherwise the first product with it |
| MockProducts.ProductsByCategory | frontend/src/data/mockProducts.ts:134-140 | exactly the products the map lists under the category, in catalogue order, each as many times as it is listed |
| MockProducts.Lower | frontend/src/data/mockProducts.ts:143 | lower-casing maps each character and keeps the length |
| MockProducts.LowerIdempotent | frontend/src/data/mockProducts.ts:142-149 | lower-casing twice is lower-casing once |
| MockProducts.Contains | frontend/src/data/mockProducts.ts:146-147 | `includes` holds exactly when the substring occurs at some position |
| MockProducts.SearchProductsByQuery | frontend/src/data/mockProducts.ts:142-149 | exactly the products whose lower-cased name or description contains the lower-cased query, in order, each as many times as it is listed |
| MockProducts.SearchEmptyQueryReturnsAll | frontend/src/data/mockProducts.ts:142-149 | the empty query returns every product |
| MockProducts.SearchIgnoresQueryCase | frontend/src/data/mockProducts.ts:142-149 | the result does not depend on the case of the query |
| MockProducts.SliceIndex | frontend/src/data/mockProducts.ts:154 | a `slice` argument clipped to the list, negative ones counted from the end |
| MockProducts.PaginatedProducts | frontend/src/data/mockProducts.ts:151-155 | page `p` of 1 or more is the range `[(p-1)·n, p·n)` clipped to the list, never longer than the list |
| MockProducts.PageContents | frontend/src/data/mockProducts.ts:151-155 | a page of 1 or more holds at most `n` products, the ones from position `(p-1)·n` on, as many as remain |
| MockProducts.PageZeroIsEmpty | frontend/src/data/mockProducts.ts:151-155 | page 0 is empty |
| MockProducts.NegativePageCountsFromEnd | frontend/src/data/mockProducts.ts:151-155 | a negative page is a slice counted back from the end of the list, as `slice` treats negative arguments |
| MockProducts.PageIsClippedRange | frontend/src/data/mockProducts.ts:151-155 | a page of 1 or more is a clipped range, and page `p + 1` starts where page `p` ends |
| MockProducts.PagesPartition | frontend/src/data/mockProducts.ts:151-155 | pages 1 to `n` concatenated are exactly the first `n·perPage` products, so the pages partition the list |
| CategoryForm.GetDescendants | frontend/src/components/admin/CategoryForm.tsx:94-104 | the result holds exactly the descendants of the category; the recursion ends on an acyclic hierarchy |
| CategoryForm.DescendantsThroughChildren | frontend/src/components/admin/CategoryForm.tsx:94-104 | what the loop over direct children collects: the descendants of a category are exactly its children, in `getSubCategories` order, and their descendants |
| CategoryForm.AvailableParents | frontend/src/components/admin/CategoryForm.tsx:107-116 | all categories when creating; when editing, exactly those other than the edited one and not in the descendant list, in order, each as many times as it is listed |
| CategoryForm.AvailableParentsFor | frontend/src/components/admin/CategoryForm.tsx:94-116 | when editing, exactly the categories that are neither the edited one nor one of its descendants, in order, each as many times as it is listed |
| CategoryForm.ReparentingToAvailableParentKeepsAcyclic | frontend/src/components/admin/CategoryForm.tsx:107-116 | re-parenting under `null` or an offered choice keeps the hierarchy acyclic |
| CategoryForm.ReparentingUnderSelfOrDescendantCreatesCycle | frontend/src/components/admin/CategoryForm.tsx:107-116 | re-parenting under the category itself or one of its descendants makes the hierarchy cyclic |
| CategoryForm.TextStart | frontend/src/components/admin/CategoryForm.tsx:54 | the scan for the first character of the name that is not white space: everything skipped is white space, and it stops at such a character or at the end |
| CategoryForm.TextEnd | frontend/src/components/admin/CategoryForm.tsx:54 | the scan back for the last character that is not white space: everything skipped is white space, and it stops just past such a character or at the start |
| CategoryForm.TrimStart | frontend/src/components/admin/CategoryForm.tsx:54 | a suffix whose dropped prefix is all white space and which starts with non-white space |
| CategoryForm.TrimEnd | frontend/src/components/admin/CategoryForm.tsx:54 | a prefix whose dropped suffix is all white space and which ends with non-white space |
| CategoryForm.Trim | frontend/src/components/admin/CategoryForm.tsx:54 | the infix of the name left after dropping an all-white-space prefix and suffix; empty, or starting and ending with non-white space |
| CategoryForm.TrimAt | frontend/src/components/admin/CategoryForm.tsx:54 | trimming drops exactly the leading white space and then the trailing white space |
| CategoryForm.TrimEmptyIffBlank | frontend/src/components/admin/CategoryForm.tsx:54 | a name trims to nothing exactly when it is all white space |
| CategoryForm.Validate | frontend/src/components/admin/CategoryForm.tsx:51-65 | the name error is present with its message exactly when the name is blank; the parent error exactly when, while editing, the chosen parent is the category itself; valid exactly when there is no error |
| CategoryForm.SubmitData | frontend/src/components/admin/CategoryForm.tsx:74-82 | the record carries the entered name, description and parent, and the identifier exactly when editing |
| CategoryForm.HandleSubmit | frontend/src/components/admin/CategoryForm.tsx:67-91 | nothing is sent exactly when validation fails; otherwise the submit record |
| MockApi.ParentOf | frontend/src/services/mockApi.ts:77-79 | the step of the breadcrumb walk: the first category carrying the parent identifier; none exactly when there is no parent or it is not listed |
| MockApi.BreadcrumbUnique | frontend/src/services/mockApi.ts:74-85 | a category has at most one breadcrumb |
| MockApi.BreadcrumbAreAncestors | frontend/src/services/mockApi.ts:74-85 | every breadcrumb entry is a listed ancestor of the category |
| MockApi.BreadcrumbExcludesSelf | frontend/src/services/mockApi.ts:74-85 | on an acyclic hierarchy the breadcrumb never contains the category |
| MockApi.Breadcrumb | frontend/src/services/mockApi.ts:74-85 | the loop ends, its result is the breadcrumb, top-level first, each entry the parent of the next, all listed and none the category itself |
| MockApi.AdminLogin | frontend/src/services/mockApi.ts:95-102 | a token `mock-session-token-` plus the clock reading exactly for `admin`/`admin`; otherwise "Invalid credentials" |
| MockApi.PriceOrZero | frontend/src/services/mockApi.ts:114 | an absent price becomes 0 |
| MockApi.NewProduct | frontend/src/services/mockApi.ts:104-121 | the given identifier, each field or its default ("New Product", "", 0), the creation and update stamps from two clock readings |
| MockApi.NewCategory | frontend/src/services/mockApi.ts:151-166 | the given identifier, each field or its default ("New Category", ""), the parent `null` when absent or 0 |
| MockApi.NextIdIsFresh | frontend/src/services/mockApi.ts:108 | the next identifier is positive and above every identifier in use |
| MockApi.AppendFreshProductKeepsUnique | frontend/src/services/mockApi.ts:104-121 | appending a product with a fresh identifier keeps identifiers distinct |
| MockApi.RemoveCategoryKeepsAcyclic | frontend/src/services/mockApi.ts:180-195 | removing a category keeps the hierarchy acyclic |
| MockApi.AppendUnreferencedCategoryKeepsAcyclic | frontend/src/services/mockApi.ts:151-166 | appending a category that nobody names as parent, and that is not its own parent, keeps the hierarchy acyclic |
| MockApi.SeedParentsListed | frontend/src/data/mockCategories.ts:3-38 | every seed parent reference names a listed category |
| MockApi.SeedProductsFollowHierarchy | frontend/src/data/mockProducts.ts:103-128 | every product is listed under a top-level seed category and under a seed subcategory whose parent is that category |
| MockApi.SeedSubcategoryOf | frontend/src/data/mockCategories.ts:3-38 | seed category `10t+j` (`j` in 1..4) is a child of the top-level seed category `t` |
| MockApi.UpdateWithAvailableParentKeepsAcyclic | frontend/src/services/mockApi.ts:168-178 | an update whose parent is `null` or an offered choice keeps the hierarchy acyclic |
| MockApi.RemoveChildlessKeepsWellFormed | frontend/src/services/mockApi.ts:180-195 | removing a category without subcategories keeps identifiers distinct, the hierarchy acyclic and no parent dangling |
| MockApi.AppendFreshKeepsWellFormed | frontend/src/services/mockApi.ts:151-166 | appending a category with a fresh identifier and a listed or `null` parent keeps the category list well formed |
| MockApi.CatalogueStore.constructor | frontend/src/data/mockProducts.ts:10-100 | the store starts with the seed lists and satisfies its invariant |
| MockApi.CatalogueStore.GetProducts | frontend/src/services/mockApi.ts:23-26 | page `page` of twelve products: for a page of 1 or more, as many as remain from position `(page-1)·12`; page 0 is empty |
| MockApi.CatalogueStore.SearchProducts | frontend/src/services/mockApi.ts:32-35 | exactly the matching products, in order, each as many times as it is listed |
| MockApi.CatalogueStore.GetProduct | frontend/src/services/mockApi.ts:41-48 | "Product not found" exactly when the identifier is absent; otherwise the first listed product with that identifier, as `find` returns it |
| MockApi.CatalogueStore.GetCategories | frontend/src/services/mockApi.ts:54-57 | exactly the top-level categories, in order, each as many times as it is listed |
| MockApi.CatalogueStore.GetCategory | frontend/src/services/mockApi.ts:63-92 | "Category not found" exactly when the identifier is absent; otherwise its products, its direct subcategories exactly as `getSubCategories` lists them, and its breadcrumb, which excludes it |
| MockApi.CatalogueStore.CreateProduct | frontend/src/services/mockApi.ts:104-121 | appends the product built under the next identifier, above all others, with the two clock readings as stamps; the invariant is kept |
| MockApi.CatalogueStore.UpdateProduct | frontend/src/services/mockApi.ts:123-138 | "Product not found" and no change exactly when the identifier is absent; otherwise the first product with it is replaced by the update stamped with the clock; the invariant is kept |
| MockApi.CatalogueStore.DeleteProduct | frontend/src/services/mockApi.ts:140-149 | "Product not found" and no change exactly when absent; otherwise the first product with the identifier is removed; the invariant is kept |
| MockApi.CatalogueStore.CreateCategory | frontend/src/services/mockApi.ts:151-166 | appends the category built under the next identifier; the invariant is kept when the parent is `null` or listed |
| MockApi.CatalogueStore.UpdateCategory | frontend/src/services/mockApi.ts:168-178 | "Category not found" and no change exactly when absent; otherwise the first category with the identifier is replaced, unchecked |
| MockApi.CatalogueStore.DeleteCategory | frontend/src/services/mockApi.ts:180-195 | fails without change exactly when the identifier is absent ("Category not found") or some category names it as parent ("Cannot delete category with subcategories"); otherwise removes it; the invariant is kept |
| Transformers.Round | frontend/src/utils/transformers.ts:27 | `Math.round`: the nearest integer, halves up |
| Transformers.Dollars | frontend/src/utils/transformers.ts:12 | dollars times 100 are the cents |
| Transformers.Cents | frontend/src/utils/transformers.ts:27 | the cents are within half a cent of the dollars times 100 |
| Transformers.TransformProduct | frontend/src/utils/transformers.ts:7-17 | renamed fields, a missing description as "", the price in dollars, the creation and update stamps from two clock readings |
| Transformers.TransformProductToBackend | frontend/src/utils/transformers.ts:23-36 | the identifier exactly when non-zero, the description exactly when non-empty, the price in cents exactly when non-zero, the category exactly when non-zero |
| Transformers.TransformCategory | frontend/src/utils/transformers.ts:41-48 | renamed fields, a missing description as "" |
| Transformers.TransformCategoryToBackend | frontend/src/utils/transformers.ts:53-65 | the identifier exactly when non-zero, the description exactly when non-empty, the parent as given |
| Transformers.DollarsRoundTrip | frontend/src/utils/transformers.ts:12-27 | a dollar amount that is a whole number of cents is sent as those cents and shown again unchanged |
| Transformers.CentsRoundTrip | frontend/src/utils/transformers.ts:12-27 | cents to dollars and back give the same cents |
| Transformers.ProductRoundTrip | frontend/src/utils/transformers.ts:7-36 | a back-end product shown and sent back keeps its fields, except that zero identifiers, prices and categories and empty descriptions are dropped |
| Transformers.CategoryRoundTripFromBackend | frontend/src/utils/transformers.ts:41-65 | a back-end category shown and sent back keeps its fields, except a zero identifier and an empty description |
| Transformers.CategoryRoundTripFromFrontend | frontend/src/utils/transformers.ts:41-65 | a category with a non-zero identifier sent and shown again is unchanged |
| Transformers.TransformProducts | frontend/src/utils/transformers.ts:70-72 | element-wise `transformProduct`, same length, each element with its own clock readings |
| Transformers.TransformCategories | frontend/src/utils/transformers.ts:77-79 | element-wise `transformCategory`, same length |
| CartItemView.QuantityChange | frontend/src/components/CartItem.tsx:18-23 | a change is forwarded exactly for a positive parsed number, with the line's product |
| CartItemView.QuantityChangeKeepsLines | frontend/src/components/CartItem.tsx:18-23 | a forwarded change keeps every line and sets the edited one |
| CartItemView.RemoveDropsLine | frontend/src/components/CartItem.tsx:128 | the remove button passes the line's own product, so it drops the line and every line of that product, keeps the rest, and shortens the cart |
| CartItemView.RemovedShorter | frontend/src/components/CartItem.tsx:128 | removing a product that has a line shortens the cart |
| CartItemView.Truncate | frontend/src/components/CartItem.tsx:102-104 | over 80 characters: the first 80 and "..."; otherwise unchanged |
| ProductCard.DayCount | frontend/src/components/ProductCard.tsx:21 | the floor of elapsed milliseconds over a day |
| ProductCard.AgeOf | frontend/src/components/ProductCard.tsx:23-27 | each bucket exactly on its range of day counts, weeks and months as floors |
| ProductCard.NatToString | frontend/src/components/ProductCard.tsx:25-27 | non-empty decimal digits without a leading zero |
| ProductCard.NatToStringRoundTrip | frontend/src/components/ProductCard.tsx:25-27 | reading the digits back gives the number |
| ProductCard.IntToString | frontend/src/components/ProductCard.tsx:25 | a minus sign before the digits of a negative number |
| ProductCard.Label | frontend/src/components/ProductCard.tsx:23-27 | every caption starts with "Updated " and is at least as long as "Updated today" |
| ProductCard.IntToStringInjective | frontend/src/components/ProductCard.tsx:25-27 | distinct numbers print differently |
| ProductCard.LabelShape | frontend/src/components/ProductCard.tsx:23-27 | "today" and "yesterday" captions differ in length from each other and from the counted ones, and the counted ones differ in the ninth character from the end |
| ProductCard.LabelInjective | frontend/src/components/ProductCard.tsx:23-27 | the caption determines the bucket and its count: different buckets never read the same |
| ProductCard.RelativeTime | frontend/src/components/ProductCard.tsx:17-28 | the caption for each range of whole days |
| ProductCard.FirstTwoDays | frontend/src/components/ProductCard.tsx:17-28 | less than a day reads "Updated today", one to two days "Updated yesterday" |
| AdminContext.AdminSession.constructor | frontend/src/context/AdminContext.tsx:32-33 | signed out with no user |
| AdminContext.AdminSession.RestoreSession | frontend/src/context/AdminContext.tsx:36-44 | signed in as the stored user exactly when both keys are stored non-empty; otherwise unchanged |
| AdminContext.AdminSession.Login | frontend/src/context/AdminContext.tsx:46-64 | on a token both keys are stored and the user is signed in; on an error both keys are removed, the session signed out and the error passed on |
| AdminContext.AdminSession.Logout | frontend/src/context/AdminContext.tsx:66-71 | both keys are removed (the token by `logout` of `api.ts`) and the session is signed out |
| AdminContext.AdminSession.CheckAuth | frontend/src/context/AdminContext.tsx:73-76 | a non-empty token is stored and the session is signed in |

## Left out

- Rendering, hooks, routing, the theme, the dialogs and the pages are not modelled. Only the logic inside the named functions is.
- `api.ts` (the HTTP client) and the Rust back end are not part of this model, apart from the token removal of `logout` in `api.ts`.
- The simulated network delay of `mockApi.ts` is not modelled. Every operation is a single synchronous step, so interleavings of concurrent calls are not modelled either.
- Clock readings are parameters. `new Date().toISOString()` is a `Timestamp` parameter and `Date.now()` a string. `daysAgo(n)` is a stamp "n days before load". The two `new Date()` calls of `createProduct` and `transformProduct` are two readings, and `transformProducts` takes readings per element; nothing relates readings taken at different calls.
- Prices are exact reals. Floating-point rounding, `NaN`, `toFixed` and the float error of `price / 100` are not modelled.
- MockProducts.Lower: lower-cases ASCII letters only, because Unicode case mapping is not modelled.
- CartItemView.Truncate: counts characters, not UTF-16 code units.
- CartItemView.QuantityChange: `parseInt` is an input, with `None` for `NaN`.
- MockProducts.PaginatedProducts: a non-integral or `NaN` page is not modelled, because pages are integers.
- MockApi.CatalogueStore.GetCategory: requires the whole hierarchy to be acyclic. The source's breadcrumb loop diverges only on a cycle reachable by climbing parents from the requested category, so this also leaves out terminating runs on a hierarchy with a cycle elsewhere.
- CategoryForm.GetDescendants: requires a rank map for the whole hierarchy, that is, an acyclic hierarchy. The source's recursion diverges only on a cycle reachable downwards from the category, so this also leaves out terminating runs on a hierarchy with a cycle elsewhere.
- CategoryForm.AvailableParentsFor: requires the whole hierarchy to be acyclic when editing. `getDescendants` diverges only on a cycle reachable downwards from the edited category, so this also leaves out terminating runs on a hierarchy with a cycle elsewhere. It collects descendants once, where the source recomputes them per category, which gives the same list.
- MockApi.CatalogueStore.CreateCategory: keeps the invariant only when the new parent is `null` or listed. The source does not check the parent, so a dangling parent can be stored.
- MockApi.CatalogueStore.UpdateCategory: states no invariant, because the source does not check the hierarchy. Only `UpdateWithAvailableParentKeepsAcyclic` covers updates made through the editor.
- `null` and `undefined` are both `None`. A field present with value `undefined` is not told apart from an absent one.

## Findings

| source | as written | input that shows it | evidently intended | confidence | as-written member | corrected member |
|---|---|---|---|---|---|---|
| frontend/src/context/CartContext.tsx:39-43 | `addToCart`'s state updater copies the list with `[...prevCart]` but then runs `quantity +=` on the shared line object, so it also changes the previous state. The app is wrapped in `<StrictMode>` (`main.tsx`), and React calls updaters twice in development. The second call sees the already-raised line. | A cart holding one unit of a product; `addToCart(product, 1)` | the line holds 2 units and the count rises by 1 | medium, not executed (development builds only) | CartContext.StrictModeAddsTwice | CartContext.AddRaisesQuantityOf |

The as-written updater is `CartContext.AddedInPlace`. `CartContext.StrictModeAddExample`
gives the concrete case: three units where two were meant. The corrected updater is
`CartContext.Added`. It builds a new line and leaves the previous state alone, and
`CartContext.Cart.AddToCart` uses it. `AddRaisesQuantityOf` and `AddRaisesCountAndTotal`
prove that it adds exactly `quantity`.
