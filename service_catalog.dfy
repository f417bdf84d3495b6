/**
 * Facet counting over search results and the sanitising of search arguments
 * (jetcart/service/catalog.py).
 */
module ServiceCatalog {
  import opened SeqFacts

  /** The part of a product's dictionary view that facet counting reads. */
  datatype Product = Product(category: string)

  /** A search argument: missing (None), a string, or a dictionary. */
  datatype Value = NoneValue | Text(text: string) | Dict(entries: map<string, string>)

  // ---------------------------------------------------------------------------
  // `compute_facets`

  /** The number of products in `products` that carry category `c`. */
  function CategoryCount(products: seq<Product>, c: string): nat {
    if products == [] then 0
    else CategoryCount(products[..|products| - 1], c) + (if products[|products| - 1].category == c then 1 else 0)
  }

  /** A `Counter` lookup: a missing key counts 0. */
  function Lookup(counts: map<string, nat>, c: string): nat {
    if c in counts then counts[c] else 0
  }

  /** The sum of all counts of a map. */
  ghost function Total(counts: map<string, nat>): nat
    decreases |counts.Keys|
  {
    if counts == map[] then 0
    else
      var k :| k in counts;
      assert |(counts - {k}).Keys| < |counts.Keys| by {
        assert (counts - {k}).Keys == counts.Keys - {k};
      }
      counts[k] + Total(counts - {k})
  }

  /** The total does not depend on which key is taken out first. */
  lemma {:induction false} TotalRemove(counts: map<string, nat>, k: string)
    requires k in counts
    ensures Total(counts) == counts[k] + Total(counts - {k})
    decreases |counts.Keys|
  {
    var j :| j in counts && Total(counts) == counts[j] + Total(counts - {j});
    if j != k {
      var rest := counts - {j} - {k};
      assert (counts - {j}).Keys == counts.Keys - {j};
      assert (counts - {k}).Keys == counts.Keys - {k};
      TotalRemove(counts - {j}, k);
      TotalRemove(counts - {k}, j);
      assert counts - {j} - {k} == counts - {k} - {j};
    }
  }

  /** Raising one count by one raises the total by one. */
  lemma TotalIncrement(counts: map<string, nat>, c: string)
    ensures Total(counts[c := Lookup(counts, c) + 1]) == Total(counts) + 1
  {
    var after := counts[c := Lookup(counts, c) + 1];
    TotalRemove(after, c);
    assert after - {c} == counts - {c};
    if c in counts {
      TotalRemove(counts, c);
    } else {
      assert counts - {c} == counts;
    }
  }

  /**
   * `compute_facets`: counts, per category, the products that carry it. Only
   * categories that occur become keys, and the counts add up to the number of
   * products.
   */
  method ComputeFacets(products: seq<Product>) returns (facets: map<string, nat>)
    ensures forall c :: Lookup(facets, c) == CategoryCount(products, c)
    ensures forall c :: c in facets ==> facets[c] > 0
    ensures Total(facets) == |products|
  {
    facets := map[];
    for i := 0 to |products|
      invariant forall c :: Lookup(facets, c) == CategoryCount(products[..i], c)
      invariant forall c :: c in facets ==> facets[c] > 0
      invariant Total(facets) == i
    {
      var c := products[i].category;
      assert products[..i + 1][..i] == products[..i];
      TotalIncrement(facets, c);
      facets := facets[c := Lookup(facets, c) + 1];
    }
    assert products[..|products|] == products;
  }

  lemma {:induction false} CategoryCountConcat(a: seq<Product>, b: seq<Product>, c: string)
    ensures CategoryCount(a + b, c) == CategoryCount(a, c) + CategoryCount(b, c)
    decreases |b|
  {
    if b == [] {
      assert a + b == a;
    } else {
      assert (a + b)[..|a + b| - 1] == a + b[..|b| - 1];
      CategoryCountConcat(a, b[..|b| - 1], c);
    }
  }

  /** A category on no product counts 0. */
  lemma {:induction false} CategoryCountAbsent(products: seq<Product>, c: string)
    requires forall i :: 0 <= i < |products| ==> products[i].category != c
    ensures CategoryCount(products, c) == 0
  {
    if products != [] {
      CategoryCountAbsent(products[..|products| - 1], c);
    }
  }

  /** The counts do not depend on the order of the products. */
  lemma {:induction false} CategoryCountPermutation(a: seq<Product>, b: seq<Product>, c: string)
    requires multiset(a) == multiset(b)
    ensures CategoryCount(a, c) == CategoryCount(b, c)
    decreases |a|
  {
    if a != [] {
      var x := a[|a| - 1];
      var j := RemoveLast(a, b);
      var pre, post := b[..j], b[j + 1..];
      CategoryCountPermutation(a[..|a| - 1], pre + post, c);
      CategoryCountConcat(pre + [x], post, c);
      CategoryCountConcat(pre, [x], c);
      CategoryCountConcat(pre, post, c);
      assert CategoryCount([x], c) == CategoryCount([], c) + (if x.category == c then 1 else 0);
    }
  }

  /** No products give an empty counter. */
  lemma FacetsOfNoProducts(facets: map<string, nat>)
    requires forall c :: Lookup(facets, c) == CategoryCount([], c)
    requires forall c :: c in facets ==> facets[c] > 0
    ensures facets == map[]
  {
    forall c
      ensures c !in facets
    {
      assert Lookup(facets, c) == CategoryCount([], c) == 0;
    }
    assert facets.Keys == {};
  }

  /** Two facet maps that count the same products, in any order, are equal. */
  lemma FacetsOrderIndependent(a: seq<Product>, b: seq<Product>, fa: map<string, nat>, fb: map<string, nat>)
    requires multiset(a) == multiset(b)
    requires forall c :: Lookup(fa, c) == CategoryCount(a, c)
    requires forall c :: c in fa ==> fa[c] > 0
    requires forall c :: Lookup(fb, c) == CategoryCount(b, c)
    requires forall c :: c in fb ==> fb[c] > 0
    ensures fa == fb
  {
    forall c
      ensures Lookup(fa, c) == Lookup(fb, c)
    {
      CategoryCountPermutation(a, b, c);
    }
    forall c
      ensures c in fa <==> c in fb
    {
      assert Lookup(fa, c) == Lookup(fb, c);
    }
    assert fa.Keys == fb.Keys;
    forall c | c in fa
      ensures fa[c] == fb[c]
    {
      assert Lookup(fa, c) == Lookup(fb, c);
    }
  }

  // ---------------------------------------------------------------------------
  // `sanitize_kwargs`

  /** Python truthiness of a value: None and empty strings or dictionaries are false. */
  predicate Truthy(v: Value) {
    match v
    case NoneValue => false
    case Text(s) => s != []
    case Dict(m) => m != map[]
  }

  /** `dict.get`: None for a missing key. */
  function Get(kwargs: map<string, Value>, key: string): Value {
    if key in kwargs then kwargs[key] else NoneValue
  }

  /** `sanitize_kwargs`: exactly `title` and `filters`; `filters` falls back to `{}` when not truthy. */
  function SanitizeKwargs(kwargs: map<string, Value>): (r: map<string, Value>)
    ensures r.Keys == {"title", "filters"}
    ensures r["title"] == Get(kwargs, "title")
    ensures Truthy(Get(kwargs, "filters")) ==> r["filters"] == kwargs["filters"]
    ensures !Truthy(Get(kwargs, "filters")) ==> r["filters"] == Dict(map[])
  {
    var filters := Get(kwargs, "filters");
    map["title" := Get(kwargs, "title"), "filters" := if Truthy(filters) then filters else Dict(map[])]
  }

  /** Sanitising twice is sanitising once. */
  lemma SanitizeKwargsIdempotent(kwargs: map<string, Value>)
    ensures SanitizeKwargs(SanitizeKwargs(kwargs)) == SanitizeKwargs(kwargs)
  {
  }

  /** Other keys are dropped: the result depends only on `title` and `filters`. */
  lemma SanitizeKwargsDropsOtherKeys(kwargs: map<string, Value>, key: string, v: Value)
    requires key != "title" && key != "filters"
    ensures SanitizeKwargs(kwargs[key := v]) == SanitizeKwargs(kwargs)
  {
  }
}
