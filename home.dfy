/**
 * The catalogue view of the home page (pages/Home.tsx): an exact category filter
 * followed by a stable sort of a fresh copy under one of three orderings.
 * `Array.prototype.sort` is required to be stable by section 22.1.3.27 of
 * ECMA-262 (2019 edition); the sort here is a stable insertion sort, and
 * StableSortUnique shows that any stable sort gives the same list.
 */
module Home {
  import opened Types
  import Seqs

  /** The category selector: 'All', or one category. */
  datatype CategoryFilter = All | Only(category: Category)

  // ---------------------------------------------------------------------------
  // Filter
  // ---------------------------------------------------------------------------

  function FilterCategory(products: seq<Product>, selected: CategoryFilter): seq<Product>
  {
    match selected
    case All => products
    case Only(c) => Seqs.Filter(products, (p: Product) => p.category == c)
  }

  /** 'All' keeps every product; a category keeps exactly its products, in order; no match gives []. */
  lemma FilterCategorySpec(products: seq<Product>, selected: CategoryFilter)
    ensures selected == All ==> FilterCategory(products, selected) == products
    ensures selected.Only? ==>
      forall i :: 0 <= i < |FilterCategory(products, selected)| ==>
        FilterCategory(products, selected)[i].category == selected.category
    ensures selected.Only? ==>
      forall i :: 0 <= i < |products| && products[i].category == selected.category ==>
        products[i] in FilterCategory(products, selected)
    ensures selected.Only? && (forall i :: 0 <= i < |products| ==> products[i].category != selected.category) ==>
      FilterCategory(products, selected) == []
    ensures forall a, b :: a + b == products ==>
      FilterCategory(products, selected) == FilterCategory(a, selected) + FilterCategory(b, selected)
  {
    if selected.Only? {
      var keep := (p: Product) => p.category == selected.category;
      forall a, b | a + b == products
        ensures FilterCategory(products, selected) == FilterCategory(a, selected) + FilterCategory(b, selected)
      {
        Seqs.FilterConcat(a, b, keep);
      }
      var r := FilterCategory(products, selected);
      forall i | 0 <= i < |r| ensures r[i].category == selected.category {
        assert keep(r[i]);
      }
      if |r| > 0 {
        assert r[0] in products;
      }
    }
  }

  // ---------------------------------------------------------------------------
  // Sort
  // ---------------------------------------------------------------------------

  /** The comparator the page hands to `sort`, for each ordering. */
  function Compare(option: SortOption, a: Product, b: Product): int
  {
    match option
    case PriceLowHigh => a.price - b.price
    case PriceHighLow => b.price - a.price
    case Newest => (if b.isNew then 1 else 0) - (if a.isNew then 1 else 0)
  }

  /** The integer key each ordering sorts by in ascending order: new products have the smaller key. */
  function SortKey(option: SortOption, p: Product): int
  {
    match option
    case PriceLowHigh => p.price
    case PriceHighLow => -p.price
    case Newest => if p.isNew then 0 else 1
  }

  /** Each comparator is the difference of keys, so sorting by it is sorting by the key. */
  lemma CompareIsKeyDifference(option: SortOption, a: Product, b: Product)
    ensures Compare(option, a, b) == SortKey(option, a) - SortKey(option, b)
  {
  }

  ghost predicate Sorted(option: SortOption, s: seq<Product>)
  {
    forall i, j :: 0 <= i < j < |s| ==> SortKey(option, s[i]) <= SortKey(option, s[j])
  }

  /** The products of `s` whose key is `k`, in their order in `s`. */
  function WithKey(option: SortOption, s: seq<Product>, k: int): seq<Product>
  {
    if s == [] then []
    else (if SortKey(option, s[0]) == k then [s[0]] else []) + WithKey(option, s[1..], k)
  }

  /**
   * What a stable sort promises: `r` is in key order and, for every key, the products with
   * that key appear in `r` in the same order as in `s`.
   */
  ghost predicate IsStableSortOf(option: SortOption, r: seq<Product>, s: seq<Product>)
  {
    Sorted(option, r) && forall k :: WithKey(option, r, k) == WithKey(option, s, k)
  }

  /** Put `x` before the first product whose key is not smaller than its own. */
  function Insert(option: SortOption, x: Product, s: seq<Product>): seq<Product>
  {
    if s == [] then [x]
    else if SortKey(option, x) <= SortKey(option, s[0]) then [x] + s
    else [s[0]] + Insert(option, x, s[1..])
  }

  /** Stable insertion sort: each product goes in front of the sorted rest's products of equal key. */
  function SortProducts(option: SortOption, s: seq<Product>): seq<Product>
  {
    if s == [] then [] else Insert(option, s[0], SortProducts(option, s[1..]))
  }

  lemma {:induction false} InsertMultiset(option: SortOption, x: Product, s: seq<Product>)
    ensures multiset(Insert(option, x, s)) == multiset(s) + multiset{x}
  {
    if s != [] && SortKey(option, x) > SortKey(option, s[0]) {
      InsertMultiset(option, x, s[1..]);
      assert s == [s[0]] + s[1..];
    }
  }

  /** A product no later in key order than any of a sorted list can go in front of it. */
  lemma ConsSorted(option: SortOption, h: Product, rest: seq<Product>)
    requires Sorted(option, rest)
    requires forall j :: 0 <= j < |rest| ==> SortKey(option, h) <= SortKey(option, rest[j])
    ensures Sorted(option, [h] + rest)
  {
    var r := [h] + rest;
    forall i, j | 0 <= i < j < |r| ensures SortKey(option, r[i]) <= SortKey(option, r[j]) {
      assert r[j] == rest[j - 1];
      if i > 0 {
        assert r[i] == rest[i - 1];
      }
    }
  }

  /** Inserting past the head of a sorted list keeps every product at or after the head's key. */
  lemma InsertAbove(option: SortOption, x: Product, s: seq<Product>)
    requires Sorted(option, s) && s != [] && SortKey(option, x) > SortKey(option, s[0])
    ensures forall j :: 0 <= j < |Insert(option, x, s[1..])| ==>
      SortKey(option, s[0]) <= SortKey(option, Insert(option, x, s[1..])[j])
  {
    var tail, rest := s[1..], Insert(option, x, s[1..]);
    InsertMultiset(option, x, tail);
    forall j | 0 <= j < |rest| ensures SortKey(option, s[0]) <= SortKey(option, rest[j]) {
      assert rest[j] in multiset(tail) + multiset{x};
      if rest[j] != x {
        assert rest[j] in tail;
        var m :| 0 <= m < |tail| && tail[m] == rest[j];
        assert tail[m] == s[m + 1];
      }
    }
  }

  lemma {:induction false} InsertSorted(option: SortOption, x: Product, s: seq<Product>)
    requires Sorted(option, s)
    ensures Sorted(option, Insert(option, x, s))
  {
    if s == [] {
    } else if SortKey(option, x) > SortKey(option, s[0]) {
      SortedTail(option, s);
      InsertSorted(option, x, s[1..]);
      InsertAbove(option, x, s);
      ConsSorted(option, s[0], Insert(option, x, s[1..]));
    } else {
      ConsSorted(option, x, s);
    }
  }

  lemma {:induction false} InsertWithKey(option: SortOption, x: Product, s: seq<Product>, k: int)
    ensures WithKey(option, Insert(option, x, s), k)
         == (if SortKey(option, x) == k then [x] else []) + WithKey(option, s, k)
  {
    if s == [] {
    } else if SortKey(option, x) > SortKey(option, s[0]) {
      InsertWithKey(option, x, s[1..], k);
      WithKeyCons(option, s[0], Insert(option, x, s[1..]), k);
      WithKeyCons(option, s[0], s[1..], k);
      assert [s[0]] + s[1..] == s;
    } else {
      WithKeyCons(option, x, s, k);
    }
  }

  /** The products of one key in a list with a product in front. */
  lemma WithKeyCons(option: SortOption, h: Product, t: seq<Product>, k: int)
    ensures WithKey(option, [h] + t, k) == (if SortKey(option, h) == k then [h] else []) + WithKey(option, t, k)
  {
    assert ([h] + t)[1..] == t;
  }

  /** The insertion sort is a stable sort: sorted, and every key's products keep their order. */
  lemma {:induction false} SortProductsIsStable(option: SortOption, s: seq<Product>)
    ensures IsStableSortOf(option, SortProducts(option, s), s)
    ensures multiset(SortProducts(option, s)) == multiset(s)
  {
    if s != [] {
      SortProductsIsStable(option, s[1..]);
      var sorted := SortProducts(option, s[1..]);
      InsertSorted(option, s[0], sorted);
      InsertMultiset(option, s[0], sorted);
      assert s == [s[0]] + s[1..];
      forall k ensures WithKey(option, SortProducts(option, s), k) == WithKey(option, s, k) {
        InsertWithKey(option, s[0], sorted, k);
      }
    }
  }

  lemma WithKeyOfHead(option: SortOption, s: seq<Product>)
    requires s != []
    ensures WithKey(option, s, SortKey(option, s[0])) != []
  {
  }

  /** The first product of a sorted non-empty list has the least key. */
  lemma HeadHasLeastKey(option: SortOption, s: seq<Product>, k: int)
    requires Sorted(option, s) && |s| > 0 && WithKey(option, s, k) != []
    ensures SortKey(option, s[0]) <= k
  {
    var i := WithKeyWitness(option, s, k);
    if i > 0 {
      assert SortKey(option, s[0]) <= SortKey(option, s[i]);
    }
  }

  lemma {:induction false} WithKeyWitness(option: SortOption, s: seq<Product>, k: int) returns (i: nat)
    requires WithKey(option, s, k) != []
    ensures i < |s| && SortKey(option, s[i]) == k
  {
    if SortKey(option, s[0]) == k {
      i := 0;
    } else {
      var j := WithKeyWitness(option, s[1..], k);
      i := j + 1;
    }
  }

  lemma SortedTail(option: SortOption, s: seq<Product>)
    requires Sorted(option, s) && s != []
    ensures Sorted(option, s[1..])
  {
    forall i, j | 0 <= i < j < |s[1..]| ensures SortKey(option, s[1..][i]) <= SortKey(option, s[1..][j]) {
      assert s[1..][i] == s[i + 1] && s[1..][j] == s[j + 1];
    }
  }

  /** Two sorted lists with the same products per key start with the same product. */
  lemma SameHead(option: SortOption, a: seq<Product>, b: seq<Product>)
    requires Sorted(option, a) && Sorted(option, b) && a != [] && b != []
    requires forall k :: WithKey(option, a, k) == WithKey(option, b, k)
    ensures a[0] == b[0]
  {
    var ka, kb := SortKey(option, a[0]), SortKey(option, b[0]);
    WithKeyOfHead(option, a);
    WithKeyOfHead(option, b);
    assert WithKey(option, b, ka) != [];
    assert WithKey(option, a, kb) != [];
    HeadHasLeastKey(option, b, ka);
    HeadHasLeastKey(option, a, kb);
    assert WithKey(option, a, ka)[0] == a[0];
    assert WithKey(option, b, kb)[0] == b[0];
  }

  /** Dropping a common head keeps the per-key lists equal. */
  lemma TailsAgree(option: SortOption, a: seq<Product>, b: seq<Product>)
    requires a != [] && b != [] && a[0] == b[0]
    requires forall k :: WithKey(option, a, k) == WithKey(option, b, k)
    ensures forall k :: WithKey(option, a[1..], k) == WithKey(option, b[1..], k)
  {
    forall k ensures WithKey(option, a[1..], k) == WithKey(option, b[1..], k) {
      if k == SortKey(option, a[0]) {
        assert WithKey(option, a, k) == [a[0]] + WithKey(option, a[1..], k);
        assert WithKey(option, b, k) == [a[0]] + WithKey(option, b[1..], k);
        assert WithKey(option, a[1..], k) == WithKey(option, a, k)[1..];
        assert WithKey(option, b[1..], k) == WithKey(option, b, k)[1..];
      } else {
        assert WithKey(option, a, k) == WithKey(option, a[1..], k);
        assert WithKey(option, b, k) == WithKey(option, b[1..], k);
      }
    }
  }

  /**
   * A stable sort is unique: two sorted lists whose products of each key come in the
   * same order are equal. So every stable sort of the input gives SortProducts' result.
   */
  lemma {:induction false} StableSortUnique(option: SortOption, a: seq<Product>, b: seq<Product>)
    requires Sorted(option, a) && Sorted(option, b)
    requires forall k :: WithKey(option, a, k) == WithKey(option, b, k)
    ensures a == b
  {
    if a == [] || b == [] {
      if a != [] {
        WithKeyOfHead(option, a);
        assert false;
      } else if b != [] {
        WithKeyOfHead(option, b);
        assert false;
      }
    } else {
      SameHead(option, a, b);
      TailsAgree(option, a, b);
      SortedTail(option, a);
      SortedTail(option, b);
      StableSortUnique(option, a[1..], b[1..]);
      assert a == [a[0]] + a[1..] && b == [b[0]] + b[1..];
    }
  }

  /** Any list that is a stable sort of the input is exactly what SortProducts returns. */
  lemma SortProductsIsTheStableSort(option: SortOption, r: seq<Product>, s: seq<Product>)
    requires IsStableSortOf(option, r, s)
    ensures r == SortProducts(option, s)
  {
    SortProductsIsStable(option, s);
    StableSortUnique(option, r, SortProducts(option, s));
  }

  /** Sorting a list already in key order leaves it unchanged; in particular sorting is idempotent. */
  lemma SortProductsIdempotent(option: SortOption, s: seq<Product>)
    ensures SortProducts(option, SortProducts(option, s)) == SortProducts(option, s)
  {
    var once := SortProducts(option, s);
    SortProductsIsStable(option, s);
    SortProductsIsStable(option, once);
    StableSortUnique(option, SortProducts(option, once), once);
  }

  // ---------------------------------------------------------------------------
  // The page's derived list
  // ---------------------------------------------------------------------------

  /** `filteredProducts`: a pure function of catalogue, selected category and ordering. */
  function FilteredProducts(products: seq<Product>, selected: CategoryFilter, option: SortOption): seq<Product>
  {
    SortProducts(option, FilterCategory(products, selected))
  }

  /**
   * The page's list holds the filtered products, each as often as in the filtered list,
   * in a stable order: by rising price, by falling price, or new products first.
   */
  lemma FilteredProductsSpec(products: seq<Product>, selected: CategoryFilter, option: SortOption)
    ensures multiset(FilteredProducts(products, selected, option)) == multiset(FilterCategory(products, selected))
    ensures IsStableSortOf(option, FilteredProducts(products, selected, option), FilterCategory(products, selected))
    ensures option == PriceLowHigh ==>
      forall i, j :: 0 <= i < j < |FilteredProducts(products, selected, option)| ==>
        FilteredProducts(products, selected, option)[i].price <= FilteredProducts(products, selected, option)[j].price
    ensures option == PriceHighLow ==>
      forall i, j :: 0 <= i < j < |FilteredProducts(products, selected, option)| ==>
        FilteredProducts(products, selected, option)[i].price >= FilteredProducts(products, selected, option)[j].price
    ensures option == Newest ==>
      forall i, j :: 0 <= i < j < |FilteredProducts(products, selected, option)| ==>
        (FilteredProducts(products, selected, option)[j].isNew ==> FilteredProducts(products, selected, option)[i].isNew)
  {
    var r := FilteredProducts(products, selected, option);
    SortProductsIsStable(option, FilterCategory(products, selected));
    forall i, j | 0 <= i < j < |r| ensures SortKey(option, r[i]) <= SortKey(option, r[j]) {
    }
  }

  /** Recomputing the list from its own output under the same selection gives it back. */
  lemma FilteredProductsIdempotent(products: seq<Product>, selected: CategoryFilter, option: SortOption)
    ensures FilteredProducts(FilteredProducts(products, selected, option), selected, option)
         == FilteredProducts(products, selected, option)
  {
    var filtered := FilterCategory(products, selected);
    var r := SortProducts(option, filtered);
    SortProductsIsStable(option, filtered);
    if selected.Only? {
      FilterCategorySpec(products, selected);
      forall i | 0 <= i < |r| ensures r[i].category == selected.category {
        assert r[i] in multiset(filtered);
        var m :| 0 <= m < |filtered| && filtered[m] == r[i];
      }
      Seqs.FilterKeepsAll(r, (p: Product) => p.category == selected.category);
    }
    SortProductsIdempotent(option, filtered);
  }

  /** Sorting [500, 100, 300] by rising price gives [100, 300, 500], and by falling price [500, 300, 100]. */
  lemma PriceSortExample(a: Product, b: Product, c: Product)
    requires a.price == 500 && b.price == 100 && c.price == 300
    ensures SortProducts(PriceLowHigh, [a, b, c]) == [b, c, a]
    ensures SortProducts(PriceHighLow, [a, b, c]) == [a, c, b]
  {
    assert [a, b, c][1..] == [b, c] && [b, c][1..] == [c] && [c][1..] == [];
    assert SortProducts(PriceLowHigh, [c]) == [c];
    assert SortProducts(PriceLowHigh, [b, c]) == [b, c];
    assert Insert(PriceLowHigh, a, [c]) == [c, a];
    assert Insert(PriceLowHigh, a, [b, c]) == [b] + Insert(PriceLowHigh, a, [c]);
    assert SortProducts(PriceHighLow, [c]) == [c];
    assert Insert(PriceHighLow, b, [c]) == [c] + Insert(PriceHighLow, b, []);
    assert SortProducts(PriceHighLow, [b, c]) == [c, b];
  }
}
