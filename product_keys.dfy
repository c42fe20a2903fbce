/** The cache-key helpers of the product actions (actions/get-products.ts, repeated word for
    word in actions/get-product.ts). Each key is a fixed family prefix followed by a payload
    built from the arguments. */
module ProductKeys {
  import opened Optional
  import opened JsStrings
  import opened ArraySort

  /** The five key families, one per helper. */
  datatype Family = Products | HotDeals | ProductSlug | ProductId | RecentlyViewed

  function Prefix(f: Family): string
  {
    match f
    case Products => "products-"
    case HotDeals => "hot-deals-"
    case ProductSlug => "product-slug-"
    case ProductId => "product-id-"
    case RecentlyViewed => "recently-viewed-"
  }

  /** `productQueryKey(query)`, given the text `JSON.stringify(query)`. */
  function ProductQueryKey(serializedQuery: string): string
  {
    Prefix(Products) + serializedQuery
  }

  /** `hotDealsKey(query)`, given the text `JSON.stringify(query)`. */
  function HotDealsKey(serializedQuery: string): string
  {
    Prefix(HotDeals) + serializedQuery
  }

  /** `productSlugKey(slug)` */
  function ProductSlugKey(slug: string): string
  {
    Prefix(ProductSlug) + slug
  }

  /** `productIdKey(id)` */
  function ProductIdKey(id: string): string
  {
    Prefix(ProductId) + id
  }

  /** `locationGroupId || "none"`: an omitted or empty location group reads as "none". */
  function LocationSuffix(locationGroupId: Option<string>): string
  {
    match locationGroupId
    case None => "none"
    case Some(g) => if g == "" then "none" else g
  }

  /** The key `recentlyViewedKey(productIds, locationGroupId)` returns, as a function of the
      array's contents before the call. */
  function RecentlyViewedKeyOf(productIds: seq<string>, locationGroupId: Option<string>): string
  {
    Prefix(RecentlyViewed) + Join(SortedCopy(productIds), "-") + "-" + LocationSuffix(locationGroupId)
  }

  /** `recentlyViewedKey`: sorts the caller's array in place, then joins it with "-" and
      appends the location group. */
  method RecentlyViewedKey(productIds: array<string>, locationGroupId: Option<string>) returns (key: string)
    modifies productIds
    ensures Sorted(productIds[..])
    ensures multiset(productIds[..]) == multiset(old(productIds[..]))
    ensures productIds[..] == SortedCopy(old(productIds[..]))
    ensures key == Prefix(RecentlyViewed) + Join(productIds[..], "-") + "-" + LocationSuffix(locationGroupId)
    ensures key == RecentlyViewedKeyOf(old(productIds[..]), locationGroupId)
  {
    SortInPlace(productIds);
    key := Prefix(RecentlyViewed) + Join(productIds[..], "-") + "-" + LocationSuffix(locationGroupId);
  }

  /** The family a key belongs to, read off its prefix. */
  function FamilyOf(key: string): Option<Family>
  {
    if StartsWith(key, Prefix(Products)) then Some(Products)
    else if StartsWith(key, Prefix(HotDeals)) then Some(HotDeals)
    else if StartsWith(key, Prefix(ProductSlug)) then Some(ProductSlug)
    else if StartsWith(key, Prefix(ProductId)) then Some(ProductId)
    else if StartsWith(key, Prefix(RecentlyViewed)) then Some(RecentlyViewed)
    else None
  }

  /** No two family prefixes are prefixes of one another. */
  lemma PrefixesDiverge(f: Family, g: Family)
    requires f != g
    ensures Diverge(Prefix(f), Prefix(g))
  {
    var p, q := Prefix(f), Prefix(g);
    if p[0] != q[0] {
    } else if p[1] != q[1] {
    } else if p[7] != q[7] {
    } else {
      assert p[8] != q[8];
    }
  }

  /** Every key is recognised as belonging to its own family, whatever its payload. */
  lemma FamilyOfKey(f: Family, payload: string)
    ensures FamilyOf(Prefix(f) + payload) == Some(f)
  {
    var key := Prefix(f) + payload;
    forall g | g != f
      ensures StartsWith(key, Prefix(f)) && !StartsWith(key, Prefix(g))
    {
      PrefixesDiverge(f, g);
      StartsWithOwnPrefixOnly(Prefix(f), Prefix(g), payload);
    }
  }

  /** Keys of different families never coincide, whatever the query text, slug, id or
      product list inside them. */
  lemma FamiliesDisjoint(f: Family, g: Family, s: string, t: string)
    requires f != g
    ensures Prefix(f) + s != Prefix(g) + t
  {
    PrefixesDiverge(f, g);
    DivergingPrefixesNeverMeet(Prefix(f), Prefix(g), s, t);
  }

  /** Different slugs give different slug keys, different ids different id keys. */
  lemma SlugAndIdKeysInjective(a: string, b: string)
    ensures ProductSlugKey(a) == ProductSlugKey(b) ==> a == b
    ensures ProductIdKey(a) == ProductIdKey(b) ==> a == b
  {
    if ProductSlugKey(a) == ProductSlugKey(b) {
      PrefixCancels(Prefix(ProductSlug), a, b);
    }
    if ProductIdKey(a) == ProductIdKey(b) {
      PrefixCancels(Prefix(ProductId), a, b);
    }
  }

  /** The query keys start with their family prefixes and are told apart by the query text
      alone: different serializations give different keys, equal ones equal keys. */
  lemma QueryKeysByText(a: string, b: string)
    ensures StartsWith(ProductQueryKey(a), "products-") && FamilyOf(ProductQueryKey(a)) == Some(Products)
    ensures StartsWith(HotDealsKey(a), "hot-deals-") && FamilyOf(HotDealsKey(a)) == Some(HotDeals)
    ensures ProductQueryKey(a) == ProductQueryKey(b) <==> a == b
    ensures HotDealsKey(a) == HotDealsKey(b) <==> a == b
    ensures ProductQueryKey(a) != HotDealsKey(b)
  {
    FamilyOfKey(Products, a);
    FamilyOfKey(HotDeals, a);
    if ProductQueryKey(a) == ProductQueryKey(b) {
      PrefixCancels(Prefix(Products), a, b);
    }
    if HotDealsKey(a) == HotDealsKey(b) {
      PrefixCancels(Prefix(HotDeals), a, b);
    }
    FamiliesDisjoint(Products, HotDeals, a, b);
  }

  /** Two arrays holding the same ids in any order give the same key. */
  lemma RecentlyViewedOrderIrrelevant(a: seq<string>, b: seq<string>, locationGroupId: Option<string>)
    requires multiset(a) == multiset(b)
    ensures RecentlyViewedKeyOf(a, locationGroupId) == RecentlyViewedKeyOf(b, locationGroupId)
  {
    SortedCopyOfPermutation(a, b);
  }

  /** An omitted location group, an empty one and the literal "none" give the same key. */
  lemma MissingLocationReadsAsNone(productIds: seq<string>)
    ensures RecentlyViewedKeyOf(productIds, None) == RecentlyViewedKeyOf(productIds, Some(""))
    ensures RecentlyViewedKeyOf(productIds, None) == RecentlyViewedKeyOf(productIds, Some("none"))
    ensures RecentlyViewedKeyOf(productIds, None) ==
            Prefix(RecentlyViewed) + Join(SortedCopy(productIds), "-") + "-none"
  {
  }

  /** An id containing "-" collides with its pieces, though the two lists hold different ids. */
  lemma DashInIdCollides()
    ensures multiset(["a-b"]) != multiset(["a", "b"])
    ensures RecentlyViewedKeyOf(["a-b"], None) == RecentlyViewedKeyOf(["a", "b"], None)
  {
  }

  /** The empty list and the list holding only the empty id share a key. */
  lemma EmptyIdCollides()
    ensures RecentlyViewedKeyOf([], None) == RecentlyViewedKeyOf([""], None) == "recently-viewed--none"
  {
  }

  /** A location group containing "-" collides with a longer id list. */
  lemma LocationWithDashCollides()
    ensures RecentlyViewedKeyOf(["x"], Some("y-none")) == RecentlyViewedKeyOf(["x", "y"], None)
  {
  }
}
