/** The product listing page (frontend/src/pages/ProductDisplayPage.js): the
    category buttons, and the filter-then-sort pipeline that decides which
    products are shown and in what order. */
module Catalog {
  import opened Records

  // ---------------------------------------------------------------------------
  // Category buttons: `['all', ...new Set(products.map(p => p.category))]`

  /** Index of the first occurrence of `x` in `s`. */
  function FirstIndex(s: seq<string>, x: string): (i: nat)
    requires x in s
    ensures i < |s| && s[i] == x
    ensures forall j :: 0 <= j < i ==> s[j] != x
  {
    if s[0] == x then 0 else 1 + FirstIndex(s[1..], x)
  }

  /** A prefix of `s` fixes the first occurrences of its own elements, and the
      first occurrence of any other element of `s` lies beyond it. */
  lemma FirstIndexOfPrefix(s: seq<string>, n: nat)
    requires n <= |s|
    ensures forall y :: y in s[..n] ==> FirstIndex(s, y) == FirstIndex(s[..n], y)
    ensures forall y :: y in s && y !in s[..n] ==> FirstIndex(s, y) >= n
  {
    forall y | y in s[..n]
      ensures FirstIndex(s, y) == FirstIndex(s[..n], y)
    {
      var i, j := FirstIndex(s, y), FirstIndex(s[..n], y);
      assert s[j] == y;
      assert i <= j;
      assert s[..n][i] == y;
    }
    forall y | y in s && y !in s[..n]
      ensures FirstIndex(s, y) >= n
    {
      var i := FirstIndex(s, y);
    }
  }

  /** The elements of `s` without repetitions, in order of first appearance
      (what spreading a JavaScript `Set` built from `s` yields). */
  function Distinct(s: seq<string>): (r: seq<string>)
    ensures forall x :: x in r <==> x in s
    ensures forall i, j :: 0 <= i < j < |r| ==> r[i] != r[j]
  {
    if s == [] then []
    else
      var init := s[..|s| - 1];
      var x := s[|s| - 1];
      var d := Distinct(init);
      assert s == init + [x];
      if x in d then d else d + [x]
  }

  /** `r`, whose elements all occur in `s`, lists them in the order of their first appearance in `s`. */
  ghost predicate InFirstSeenOrder(s: seq<string>, r: seq<string>)
    requires forall y :: y in r ==> y in s
  {
    forall i, j :: 0 <= i < j < |r| ==> FirstIndex(s, r[i]) < FirstIndex(s, r[j])
  }

  /** `Distinct` lists the elements in the order of their first appearance. */
  lemma {:induction false} DistinctKeepsFirstSeenOrder(s: seq<string>)
    ensures InFirstSeenOrder(s, Distinct(s))
  {
    if s != [] {
      var init, x := s[..|s| - 1], s[|s| - 1];
      DistinctKeepsFirstSeenOrder(init);
      FirstIndexOfPrefix(s, |s| - 1);
      var d := Distinct(init);
      assert s == init + [x];
      var r := Distinct(s);
      assert r == if x in d then d else d + [x];
      forall i | 0 <= i < |d|
        ensures FirstIndex(s, d[i]) == FirstIndex(init, d[i]) < |s| - 1
      {
        assert d[i] in init;
      }
      forall i, j | 0 <= i < j < |r|
        ensures FirstIndex(s, r[i]) < FirstIndex(s, r[j])
      {
        if j == |d| {
          assert x !in init && r[j] == x;
        } else {
          assert r[i] == d[i] && r[j] == d[j];
          assert FirstIndex(init, d[i]) < FirstIndex(init, d[j]);
        }
      }
    }
  }

  function Categories(products: seq<Product>): (cs: seq<string>)
    ensures |cs| == |products|
    ensures forall i :: 0 <= i < |cs| ==> cs[i] == products[i].category
  {
    seq(|products|, i requires 0 <= i < |products| => products[i].category)
  }

  /** The category buttons: `['all', ...new Set(products.map(p => p.category))]`. */
  function CategoryOptions(products: seq<Product>): (r: seq<string>)
    ensures |r| >= 1 && r[0] == "all"
    ensures forall i :: 1 <= i < |r| ==> r[i] in Categories(products)
  {
    ["all"] + Distinct(Categories(products))
  }

  /** The buttons are "all", then every product category exactly once, in order of first appearance. */
  lemma CategoryOptionsSpec(products: seq<Product>)
    ensures var r := CategoryOptions(products);
      && |r| >= 1 && r[0] == "all"
      && (forall c :: c in r[1..] <==> exists p :: p in products && p.category == c)
      && (forall i :: 1 <= i < |r| ==> r[i] in Categories(products))
      && (forall i, j :: 1 <= i < j < |r| ==> r[i] != r[j])
      && (forall i, j :: 1 <= i < j < |r| ==>
            FirstIndex(Categories(products), r[i]) < FirstIndex(Categories(products), r[j]))
  {
    var cs := Categories(products);
    var d := Distinct(cs);
    DistinctKeepsFirstSeenOrder(cs);
    var r := CategoryOptions(products);
    assert r[1..] == d;
    forall i, j | 1 <= i < j < |r|
      ensures FirstIndex(cs, r[i]) < FirstIndex(cs, r[j])
    {
      assert r[i] == d[i - 1] && r[j] == d[j - 1];
    }
    forall c ensures c in d <==> exists p :: p in products && p.category == c {
      if c in d {
        var i :| 0 <= i < |cs| && cs[i] == c;
        assert products[i] in products;
      }
    }
  }

  // ---------------------------------------------------------------------------
  // Filtering

  /** `products.filter(p => p.category === category)`. */
  function WithCategory(products: seq<Product>, category: string): (r: seq<Product>)
    ensures |r| <= |products|
  {
    if products == [] then []
    else
      var rest := WithCategory(products[1..], category);
      if products[0].category == category then [products[0]] + rest else rest
  }

  /** The filter keeps every product of the category, as often as it occurs, and no other product. */
  lemma {:induction false} WithCategoryKeeps(products: seq<Product>, category: string)
    ensures forall p :: multiset(WithCategory(products, category))[p] ==
                        (if p.category == category then multiset(products)[p] else 0)
  {
    if products != [] {
      WithCategoryKeeps(products[1..], category);
      assert products == [products[0]] + products[1..];
    }
  }

  /** `filter` keeps the input order: filtering a concatenation filters each part. */
  lemma {:induction false} WithCategoryAppend(a: seq<Product>, b: seq<Product>, category: string)
    ensures WithCategory(a + b, category) == WithCategory(a, category) + WithCategory(b, category)
  {
    if a == [] {
      assert a + b == b;
    } else {
      var ab := a + b;
      assert ab[0] == a[0] && ab[1..] == a[1..] + b;
      WithCategoryAppend(a[1..], b, category);
      var head := if a[0].category == category then [a[0]] else [];
      assert WithCategory(ab, category) == head + WithCategory(a[1..] + b, category);
      assert WithCategory(a, category) == head + WithCategory(a[1..], category);
    }
  }

  /** The products kept for the selected category button. */
  function Filtered(products: seq<Product>, selected: string): (r: seq<Product>)
    ensures selected == "all" ==> r == products
    ensures selected != "all" ==> r == WithCategory(products, selected)
    ensures selected != "all" ==> forall p :: p in r <==> p in products && p.category == selected
    ensures multiset(r) <= multiset(products)
  {
    if selected == "all" then products
    else
      WithCategoryKeeps(products, selected);
      WithCategory(products, selected)
  }

  // ---------------------------------------------------------------------------
  // Sorting: the comparator passed to `filtered.sort`

  /** `String.prototype.localeCompare`, taken as the lexicographic order on code points. */
  function LocaleCompare(a: string, b: string): (r: int)
    ensures -1 <= r <= 1
  {
    if a == [] && b == [] then 0
    else if a == [] then -1
    else if b == [] then 1
    else if a[0] < b[0] then -1
    else if a[0] > b[0] then 1
    else LocaleCompare(a[1..], b[1..])
  }

  lemma {:induction false} LocaleCompareFlips(a: string, b: string)
    ensures LocaleCompare(a, b) == -LocaleCompare(b, a)
  {
    if a != [] && b != [] && a[0] == b[0] {
      LocaleCompareFlips(a[1..], b[1..]);
    }
  }

  lemma {:induction false} LocaleCompareZero(a: string, b: string)
    ensures LocaleCompare(a, b) == 0 <==> a == b
  {
    if a != [] && b != [] && a[0] == b[0] {
      LocaleCompareZero(a[1..], b[1..]);
      assert a == [a[0]] + a[1..] && b == [b[0]] + b[1..];
    }
  }

  lemma {:induction false} LocaleCompareTransitive(a: string, b: string, c: string)
    requires LocaleCompare(a, b) <= 0 && LocaleCompare(b, c) <= 0
    ensures LocaleCompare(a, c) <= 0
  {
    if a != [] && b != [] && c != [] && a[0] == b[0] == c[0] {
      LocaleCompareTransitive(a[1..], b[1..], c[1..]);
    }
  }

  /** The cases of the comparator's `switch (sortBy)`. */
  datatype SortKey = PriceLow | PriceHigh | Name | Featured

  /** The case a value of the sort select falls into; every unknown value is the `default` case. */
  function SortKeyOf(sortBy: string): (key: SortKey)
    ensures key == Featured <==> sortBy != "price-low" && sortBy != "price-high" && sortBy != "name"
  {
    if sortBy == "price-low" then PriceLow
    else if sortBy == "price-high" then PriceHigh
    else if sortBy == "name" then Name
    else Featured
  }

  /** The comparator of `filterAndSortProducts`; any unknown key compares every pair as equal. */
  function Compare(key: SortKey, a: Product, b: Product): (r: real)
    ensures key == Featured ==> r == 0.0
    ensures a == b ==> r == 0.0
  {
    LocaleCompareZero(a.name, b.name);
    match key
    case PriceLow => a.price - b.price
    case PriceHigh => b.price - a.price
    case Name => LocaleCompare(a.name, b.name) as real
    case Featured => 0.0
  }

  lemma CompareFlips(key: SortKey, a: Product, b: Product)
    ensures Compare(key, a, b) == -Compare(key, b, a)
  {
    LocaleCompareFlips(a.name, b.name);
  }

  lemma CompareTransitive(key: SortKey, a: Product, b: Product, c: Product)
    requires Compare(key, a, b) <= 0.0 && Compare(key, b, c) <= 0.0
    ensures Compare(key, a, c) <= 0.0
  {
    if key == Name {
      LocaleCompareTransitive(a.name, b.name, c.name);
    }
  }

  /** The comparator ties `a` and `b`: a stable sort keeps them in input order. */
  predicate Tied(key: SortKey, a: Product, b: Product) {
    Compare(key, a, b) == 0.0
  }

  lemma TiedTransitive(key: SortKey, a: Product, b: Product, c: Product)
    requires Tied(key, a, b) && Tied(key, b, c)
    ensures Tied(key, a, c)
  {
    if key == Name {
      LocaleCompareZero(a.name, b.name);
      LocaleCompareZero(b.name, c.name);
      LocaleCompareZero(a.name, c.name);
    }
  }

  ghost predicate Sorted(key: SortKey, s: seq<Product>) {
    forall i, j :: 0 <= i < j < |s| ==> Compare(key, s[i], s[j]) <= 0.0
  }

  /** Inserts `x` before the first element it does not compare greater than. */
  function Insert(key: SortKey, x: Product, s: seq<Product>): (r: seq<Product>)
    ensures |r| == |s| + 1
  {
    if s == [] || Compare(key, x, s[0]) <= 0.0 then [x] + s
    else [s[0]] + Insert(key, x, s[1..])
  }

  lemma {:induction false} InsertPermutes(key: SortKey, x: Product, s: seq<Product>)
    ensures multiset(Insert(key, x, s)) == multiset(s) + multiset{x}
  {
    if s != [] && Compare(key, x, s[0]) > 0.0 {
      InsertPermutes(key, x, s[1..]);
      assert s == [s[0]] + s[1..];
    }
  }

  lemma {:induction false} InsertKeepsSorted(key: SortKey, x: Product, s: seq<Product>)
    requires Sorted(key, s)
    ensures Sorted(key, Insert(key, x, s))
  {
    if s == [] || Compare(key, x, s[0]) <= 0.0 {
      InsertFrontSorted(key, x, s);
    } else {
      assert Sorted(key, s[1..]) by {
        forall i, j | 0 <= i < j < |s[1..]| ensures Compare(key, s[1..][i], s[1..][j]) <= 0.0 {
          assert s[1..][i] == s[i + 1] && s[1..][j] == s[j + 1];
        }
      }
      InsertKeepsSorted(key, x, s[1..]);
      InsertPermutes(key, x, s[1..]);
      InsertBehindSorted(key, x, s, Insert(key, x, s[1..]));
    }
  }

  lemma InsertFrontSorted(key: SortKey, x: Product, s: seq<Product>)
    requires s == [] || Compare(key, x, s[0]) <= 0.0
    ensures Sorted(key, s) ==> Sorted(key, [x] + s)
  {
    if Sorted(key, s) {
      forall i, j | 0 <= i < j < |[x] + s|
        ensures Compare(key, ([x] + s)[i], ([x] + s)[j]) <= 0.0
      {
        if i == 0 && j > 1 {
          CompareTransitive(key, x, s[0], s[j - 1]);
        }
      }
    }
  }

  lemma InsertBehindSorted(key: SortKey, x: Product, s: seq<Product>, rest: seq<Product>)
    requires s != [] && Compare(key, x, s[0]) > 0.0
    requires multiset(rest) == multiset(s[1..]) + multiset{x}
    requires Sorted(key, rest)
    ensures Sorted(key, s) ==> Sorted(key, [s[0]] + rest)
  {
    if Sorted(key, s) {
      CompareFlips(key, x, s[0]);
      forall i, j | 0 <= i < j < |[s[0]] + rest|
        ensures Compare(key, ([s[0]] + rest)[i], ([s[0]] + rest)[j]) <= 0.0
      {
        if i == 0 {
          var y := rest[j - 1];
          assert y in multiset(rest);
          if y != x {
            assert y in multiset(s[1..]);
            var k :| 0 <= k < |s[1..]| && s[1..][k] == y;
            assert s[k + 1] == y;
          }
        }
      }
    }
  }

  /** The order `filtered.sort(comparator)` produces. The sort is stable, so the
      result is the stable insertion sort of the input under the comparator. */
  function SortProducts(key: SortKey, s: seq<Product>): (r: seq<Product>)
    ensures |r| == |s|
  {
    if s == [] then [] else Insert(key, s[0], SortProducts(key, s[1..]))
  }

  /** Sorting only reorders: nothing is added or dropped. */
  lemma {:induction false} SortPermutes(key: SortKey, s: seq<Product>)
    ensures multiset(SortProducts(key, s)) == multiset(s)
  {
    if s != [] {
      SortPermutes(key, s[1..]);
      InsertPermutes(key, s[0], SortProducts(key, s[1..]));
      assert s == [s[0]] + s[1..];
    }
  }

  /** The result is ordered by the comparator. */
  lemma {:induction false} SortSorts(key: SortKey, s: seq<Product>)
    ensures Sorted(key, SortProducts(key, s))
  {
    if s != [] {
      SortSorts(key, s[1..]);
      InsertKeepsSorted(key, s[0], SortProducts(key, s[1..]));
    }
  }

  /** The products tied with `p`, in their order in `s`. */
  function TiedWith(key: SortKey, p: Product, s: seq<Product>): seq<Product> {
    if s == [] then []
    else if Tied(key, p, s[0]) then [s[0]] + TiedWith(key, p, s[1..])
    else TiedWith(key, p, s[1..])
  }

  lemma {:induction false} InsertTied(key: SortKey, p: Product, x: Product, s: seq<Product>)
    ensures TiedWith(key, p, Insert(key, x, s)) ==
      if Tied(key, p, x) then [x] + TiedWith(key, p, s) else TiedWith(key, p, s)
  {
    if s == [] || Compare(key, x, s[0]) <= 0.0 {
    } else {
      InsertTied(key, p, x, s[1..]);
      if Tied(key, p, x) && Tied(key, p, s[0]) {
        CompareFlips(key, p, x);
        TiedTransitive(key, x, p, s[0]);
        assert false;
      }
    }
  }

  /** Stability: products the comparator ties keep their relative input order. */
  lemma {:induction false} SortIsStable(key: SortKey, p: Product, s: seq<Product>)
    ensures TiedWith(key, p, SortProducts(key, s)) == TiedWith(key, p, s)
  {
    if s != [] {
      SortIsStable(key, p, s[1..]);
      InsertTied(key, p, s[0], SortProducts(key, s[1..]));
    }
  }

  /** "price-low" lists prices in non-decreasing order. */
  lemma PriceLowAscending(s: seq<Product>)
    ensures forall i, j :: 0 <= i < j < |s| ==>
      SortProducts(PriceLow, s)[i].price <= SortProducts(PriceLow, s)[j].price
  {
    SortSorts(PriceLow, s);
  }

  /** "price-high" lists prices in non-increasing order. */
  lemma PriceHighDescending(s: seq<Product>)
    ensures forall i, j :: 0 <= i < j < |s| ==>
      SortProducts(PriceHigh, s)[i].price >= SortProducts(PriceHigh, s)[j].price
  {
    SortSorts(PriceHigh, s);
  }

  /** "name" lists names in non-decreasing order under the string comparison. */
  lemma NameAscending(s: seq<Product>)
    ensures forall i, j :: 0 <= i < j < |s| ==>
      LocaleCompare(SortProducts(Name, s)[i].name, SortProducts(Name, s)[j].name) <= 0
  {
    SortSorts(Name, s);
  }

  /** "featured" (and any other key) ties every pair, so the fetched order is kept. */
  lemma {:induction false} FeaturedKeepsOrder(s: seq<Product>)
    ensures SortProducts(Featured, s) == s
  {
    if s != [] {
      FeaturedKeepsOrder(s[1..]);
      assert s == [s[0]] + s[1..];
    }
  }

  /** What the page shows for a product list, a category button and a sort key. */
  function Displayed(products: seq<Product>, selected: string, sortBy: string): (r: seq<Product>)
    ensures |r| <= |products|
  {
    SortProducts(SortKeyOf(sortBy), Filtered(products, selected))
  }

  /** Picking the products tied with `p` commutes with the category filter. */
  lemma {:induction false} TiedWithCategory(key: SortKey, p: Product, s: seq<Product>, category: string)
    ensures TiedWith(key, p, WithCategory(s, category)) == WithCategory(TiedWith(key, p, s), category)
  {
    if s != [] {
      TiedWithCategory(key, p, s[1..], category);
      var rest := WithCategory(s[1..], category);
      if s[0].category == category {
        assert ([s[0]] + rest)[1..] == rest;
        if Tied(key, p, s[0]) {
          assert ([s[0]] + TiedWith(key, p, s[1..]))[1..] == TiedWith(key, p, s[1..]);
        }
      } else if Tied(key, p, s[0]) {
        assert ([s[0]] + TiedWith(key, p, s[1..]))[1..] == TiedWith(key, p, s[1..]);
      }
    }
  }

  /** The shown list holds exactly the selected category's products (all of
      them for "all"), ordered by the comparator; products the comparator ties
      appear in the order they were fetched in, so "featured" shows the selected
      products in fetched order. */
  lemma DisplayedSpec(products: seq<Product>, selected: string, sortBy: string, p: Product)
    ensures var r := Displayed(products, selected, sortBy);
      && multiset(r) == multiset(Filtered(products, selected))
      && Sorted(SortKeyOf(sortBy), r)
      && TiedWith(SortKeyOf(sortBy), p, r) == Filtered(TiedWith(SortKeyOf(sortBy), p, products), selected)
      && (SortKeyOf(sortBy) == Featured ==> r == Filtered(products, selected))
  {
    var key := SortKeyOf(sortBy);
    var f := Filtered(products, selected);
    SortPermutes(key, f);
    SortSorts(key, f);
    SortIsStable(key, p, f);
    if selected != "all" {
      TiedWithCategory(key, p, products, selected);
    }
    if key == Featured {
      FeaturedKeepsOrder(f);
    }
  }

  // ---------------------------------------------------------------------------
  // The page's state

  const LoadFailed := "Failed to load products"

  datatype PageEffect = AddToCart(product: Product) | ToastSuccess(message: string) | ToastError(message: string)

  class ProductDisplayPage {
    var products: seq<Product>
    var filteredProducts: seq<Product>
    var categories: seq<string>
    var selectedCategory: string
    var sortBy: string
    /** Calls made to the cart collaborator and notifications shown, oldest first. */
    var effects: seq<PageEffect>

    /** The shown list is what the filter/sort effect computes from the current state. */
    ghost predicate InSync()
      reads this`filteredProducts, this`products, this`selectedCategory, this`sortBy
    {
      filteredProducts == Displayed(products, selectedCategory, sortBy)
    }

    constructor ()
      ensures InSync()
      ensures products == [] && filteredProducts == [] && categories == []
      ensures selectedCategory == "all" && sortBy == "featured" && effects == []
    {
      products, filteredProducts, categories := [], [], [];
      selectedCategory, sortBy := "all", "featured";
      effects := [];
    }

    /** `filterAndSortProducts`: filters a copy of `products`, sorts the copy, and publishes it. */
    method FilterAndSortProducts()
      modifies this`filteredProducts
      ensures InSync()
    {
      var filtered := products;
      if selectedCategory != "all" {
        filtered := WithCategory(filtered, selectedCategory);
      }
      filtered := SortProducts(SortKeyOf(sortBy), filtered);
      filteredProducts := filtered;
    }

    /** `fetchProducts` with the response of `GET /api/products` (None when the request fails). */
    method FetchProducts(response: Option<seq<Product>>)
      requires InSync()
      modifies this`products, this`categories, this`effects, this`filteredProducts
      ensures InSync()
      ensures response.Some? ==> products == response.value && categories == CategoryOptions(response.value)
      ensures response.Some? ==> effects == old(effects)
      ensures response.None? ==> products == old(products) && categories == old(categories)
      ensures response.None? ==> effects == old(effects) + [ToastError(LoadFailed)]
    {
      match response {
        case Some(data) =>
          ReceiveProducts(data);
        case None =>
          effects := effects + [ToastError(LoadFailed)];
      }
    }

    /** A successful fetch: the products and the category buttons are replaced,
        and the new product list re-runs the `filterAndSortProducts` effect. */
    method ReceiveProducts(data: seq<Product>)
      modifies this`products, this`categories, this`filteredProducts
      ensures InSync()
      ensures products == data && categories == CategoryOptions(data)
    {
      products := data;
      categories := CategoryOptions(data);
      FilterAndSortProducts();
    }

    /** A category button click, followed by the filter/sort effect. */
    method SelectCategory(category: string)
      modifies this
      ensures InSync()
      ensures selectedCategory == category
      ensures products == old(products) && sortBy == old(sortBy) && categories == old(categories) && effects == old(effects)
    {
      selectedCategory := category;
      FilterAndSortProducts();
    }

    /** A choice in the sort select, followed by the filter/sort effect. */
    method SelectSort(key: string)
      modifies this
      ensures InSync()
      ensures sortBy == key
      ensures products == old(products) && selectedCategory == old(selectedCategory) && categories == old(categories) && effects == old(effects)
    {
      sortBy := key;
      FilterAndSortProducts();
    }

    /** `handleAddToCart`: hands the product to the cart collaborator, then notifies. */
    method HandleAddToCart(product: Product)
      modifies this`effects
      ensures effects == old(effects) + [AddToCart(product), ToastSuccess(product.name + " added to cart!")]
    {
      effects := effects + [AddToCart(product)];
      effects := effects + [ToastSuccess(product.name + " added to cart!")];
    }
  }
}
