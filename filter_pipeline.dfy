/**
  The product filter of components/fashion-agent.tsx: an order-preserving,
  conjunctive test over five dimensions, and the brand and category lists
  derived from the current products.
 */
module FilterPipeline {
  import opened Seqs
  import opened AgentTypes

  /** `wanted.some(w => have.includes(w))`. */
  predicate SharesAny(wanted: seq<string>, have: seq<string>)
  {
    exists i :: 0 <= i < |wanted| && wanted[i] in have
  }

  /** The callback given to `allProducts.filter`, test by test in the source's order. */
  predicate Passes(f: Filters, p: Product)
  {
    if p.price < f.priceRange.0 || p.price > f.priceRange.1 then false
    else if |f.categories| > 0 && p.category !in f.categories then false
    else if |f.brands| > 0 && p.brand !in f.brands then false
    else if |f.colors| > 0 && !SharesAny(f.colors, p.colors) then false
    else if |f.sizes| > 0 && !SharesAny(f.sizes, p.sizes) then false
    else true
  }

  /** The visible products: empty for an empty list, otherwise the filter over it. */
  function ApplyFilters(all: seq<Product>, f: Filters): seq<Product>
  {
    if |all| == 0 then [] else Filter(all, p => Passes(f, p))
  }

  /** A list dimension accepts `value` when it is empty or lists it. */
  predicate MemberOrOpen(dim: seq<string>, value: string)
  {
    |dim| == 0 || value in dim
  }

  /** A list dimension accepts a product's values when it is empty or shares one with them. */
  predicate IntersectsOrOpen(dim: seq<string>, values: seq<string>)
  {
    |dim| == 0 || exists v :: v in dim && v in values
  }

  /** The result keeps the input's order and only ever drops products. */
  lemma FilteredIsSubsequence(all: seq<Product>, f: Filters)
    ensures IsSubsequence(ApplyFilters(all, f), all)
    ensures all == [] ==> ApplyFilters(all, f) == []
  {
    FilterIsSubsequence(all, p => Passes(f, p));
  }

  /**
    A product is visible exactly when it is in the list, its price lies in the
    inclusive range, the category and brand lists are empty or contain its
    value, and the colour and size lists are empty or meet its own lists.
   */
  lemma KeptIff(all: seq<Product>, f: Filters, p: Product)
    ensures p in ApplyFilters(all, f) <==>
      && p in all
      && f.priceRange.0 <= p.price <= f.priceRange.1
      && MemberOrOpen(f.categories, p.category)
      && MemberOrOpen(f.brands, p.brand)
      && IntersectsOrOpen(f.colors, p.colors)
      && IntersectsOrOpen(f.sizes, p.sizes)
  {
    if all != [] {
      FilterMembership(all, q => Passes(f, q), p);
    }
    assert SharesAny(f.colors, p.colors) <==> exists v :: v in f.colors && v in p.colors by {
      if exists v :: v in f.colors && v in p.colors {
        var v :| v in f.colors && v in p.colors;
        var i :| 0 <= i < |f.colors| && f.colors[i] == v;
      }
    }
    assert SharesAny(f.sizes, p.sizes) <==> exists v :: v in f.sizes && v in p.sizes by {
      if exists v :: v in f.sizes && v in p.sizes {
        var v :| v in f.sizes && v in p.sizes;
        var i :| 0 <= i < |f.sizes| && f.sizes[i] == v;
      }
    }
  }

  /** Under the default filters every product priced 0..1000 stays, in order. */
  lemma DefaultKeepsInRange(all: seq<Product>)
    requires forall i :: 0 <= i < |all| ==> 0 <= all[i].price <= 1000
    ensures ApplyFilters(all, DefaultFilters) == all
  {
    if all != [] {
      FilterKeepsAll(all, p => Passes(DefaultFilters, p));
    }
  }

  /** Under the default filters a product is dropped only for a price outside 0..1000. */
  lemma DefaultDropsOnlyByPrice(all: seq<Product>, p: Product)
    requires p in all
    ensures p in ApplyFilters(all, DefaultFilters) <==> 0 <= p.price <= 1000
  {
    KeptIff(all, DefaultFilters, p);
  }

  /** `narrow` constrains a list dimension at least as much as `wide` does. */
  predicate DimensionNarrower(narrow: seq<string>, wide: seq<string>)
  {
    |wide| == 0 || (|narrow| > 0 && forall x :: x in narrow ==> x in wide)
  }

  /**
    `g` is a narrowing of `f`: its price range lies inside `f`'s and each list
    dimension is either unconstrained in `f` or a non-empty subset of `f`'s.
    Moving a dimension from empty to non-empty is such a narrowing.
   */
  predicate Narrower(g: Filters, f: Filters)
  {
    && f.priceRange.0 <= g.priceRange.0
    && g.priceRange.1 <= f.priceRange.1
    && DimensionNarrower(g.colors, f.colors)
    && DimensionNarrower(g.sizes, f.sizes)
    && DimensionNarrower(g.categories, f.categories)
    && DimensionNarrower(g.brands, f.brands)
  }

  lemma NarrowerPasses(g: Filters, f: Filters, p: Product)
    requires Narrower(g, f) && Passes(g, p)
    ensures Passes(f, p)
  {
    if |f.colors| > 0 {
      var i :| 0 <= i < |g.colors| && g.colors[i] in p.colors;
      assert g.colors[i] in f.colors;
    }
    if |f.sizes| > 0 {
      var i :| 0 <= i < |g.sizes| && g.sizes[i] in p.sizes;
      assert g.sizes[i] in f.sizes;
    }
  }

  /** Narrowing the filters never adds a product: the result is a subsequence of the wider one. */
  lemma NarrowingNeverAdds(all: seq<Product>, g: Filters, f: Filters)
    requires Narrower(g, f)
    ensures IsSubsequence(ApplyFilters(all, g), ApplyFilters(all, f))
  {
    if all != [] {
      forall i | 0 <= i < |all| && Passes(g, all[i]) ensures Passes(f, all[i]) {
        NarrowerPasses(g, f, all[i]);
      }
      FilterNarrowing(all, p => Passes(g, p), p => Passes(f, p));
    }
  }

  /** `Array.from(new Set(xs))`: the distinct values in order of first occurrence. */
  function Distinct(xs: seq<string>): seq<string>
  {
    if xs == [] then []
    else
      var d := Distinct(xs[..|xs| - 1]);
      if xs[|xs| - 1] in d then d else d + [xs[|xs| - 1]]
  }

  predicate NoDuplicates(xs: seq<string>)
  {
    forall i, j :: 0 <= i < j < |xs| ==> xs[i] != xs[j]
  }

  lemma {:induction false} DistinctSpec(xs: seq<string>)
    ensures NoDuplicates(Distinct(xs))
    ensures forall x :: x in Distinct(xs) <==> x in xs
  {
    if xs != [] {
      var init := xs[..|xs| - 1];
      DistinctSpec(init);
      assert xs == init + [xs[|xs| - 1]];
    }
  }

  function Brands(products: seq<Product>): seq<string>
  {
    seq(|products|, i requires 0 <= i < |products| => products[i].brand)
  }

  function Categories(products: seq<Product>): seq<string>
  {
    seq(|products|, i requires 0 <= i < |products| => products[i].category)
  }

  /** `getUniqueBrands`. */
  function UniqueBrands(products: seq<Product>): seq<string>
  {
    Distinct(Brands(products))
  }

  /** `getUniqueCategories`. */
  function UniqueCategories(products: seq<Product>): seq<string>
  {
    Distinct(Categories(products))
  }

  /** Each brand of the products appears exactly once, and nothing else appears. */
  lemma UniqueBrandsSpec(products: seq<Product>)
    ensures NoDuplicates(UniqueBrands(products))
    ensures forall b :: b in UniqueBrands(products) <==> exists p :: p in products && p.brand == b
  {
    DistinctSpec(Brands(products));
    forall b ensures b in Brands(products) <==> exists p :: p in products && p.brand == b {
      if exists p :: p in products && p.brand == b {
        var p :| p in products && p.brand == b;
        var i :| 0 <= i < |products| && products[i] == p;
        assert Brands(products)[i] == b;
      }
    }
  }

  /** Each category of the products appears exactly once, and nothing else appears. */
  lemma UniqueCategoriesSpec(products: seq<Product>)
    ensures NoDuplicates(UniqueCategories(products))
    ensures forall c :: c in UniqueCategories(products) <==> exists p :: p in products && p.category == c
  {
    DistinctSpec(Categories(products));
    forall c ensures c in Categories(products) <==> exists p :: p in products && p.category == c {
      if exists p :: p in products && p.category == c {
        var p :| p in products && p.category == c;
        var i :| 0 <= i < |products| && products[i] == p;
        assert Categories(products)[i] == c;
      }
    }
  }
}
