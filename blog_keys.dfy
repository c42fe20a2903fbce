/** The cache-key helpers and default arguments of actions/get-blogs.ts. Page and limit are
    natural numbers, written in decimal as a template string writes them. */
module BlogKeys {
  import opened Optional
  import opened JsStrings

  const BlogsPagePrefix := "blogs-page-"
  const LimitPart := "limit-"
  const BlogSlugPrefix := "blog-slug-"

  /** `getBlogsCacheKey(page, limit)` */
  function BlogsCacheKey(page: nat, limit: nat): string
  {
    BlogsPagePrefix + Decimal(page) + "-" + LimitPart + Decimal(limit)
  }

  /** `getBlogBySlugCacheKey(slug)` */
  function BlogBySlugCacheKey(slug: string): string
  {
    BlogSlugPrefix + slug
  }

  /** The page and limit `getBlogs` works with. */
  datatype BlogsPage = BlogsPage(page: nat, limit: nat)

  /** `getBlogs(page = 1, limit = 9)`: a default takes the place of an omitted argument only. */
  function GetBlogsArguments(page: Option<nat>, limit: Option<nat>): BlogsPage
  {
    BlogsPage(
      match page case None => 1 case Some(p) => p,
      match limit case None => 9 case Some(l) => l)
  }

  /** Omitted arguments mean page 1 of 9; an explicit argument, 0 included, is kept. */
  lemma GetBlogsDefaults(page: nat, limit: nat)
    ensures GetBlogsArguments(None, None) == BlogsPage(1, 9)
    ensures GetBlogsArguments(Some(page), None) == BlogsPage(page, 9)
    ensures GetBlogsArguments(None, Some(limit)) == BlogsPage(1, limit)
    ensures GetBlogsArguments(Some(page), Some(limit)) == BlogsPage(page, limit)
  {
  }

  /** The key of the default list page. */
  lemma DefaultBlogsKey()
    ensures BlogsCacheKey(GetBlogsArguments(None, None).page, GetBlogsArguments(None, None).limit)
            == "blogs-page-1-limit-9"
  {
  }

  /** Different page and limit pairs give different keys: the page's digits end at the first
      "-", and the limit's digits follow "limit-". */
  lemma {:induction false} BlogsCacheKeyInjective(page1: nat, limit1: nat, page2: nat, limit2: nat)
    requires BlogsCacheKey(page1, limit1) == BlogsCacheKey(page2, limit2)
    ensures page1 == page2 && limit1 == limit2
  {
    var d1, e1 := Decimal(page1), Decimal(limit1);
    var d2, e2 := Decimal(page2), Decimal(limit2);
    assert BlogsCacheKey(page1, limit1) == BlogsPagePrefix + (d1 + ['-'] + (LimitPart + e1));
    assert BlogsCacheKey(page2, limit2) == BlogsPagePrefix + (d2 + ['-'] + (LimitPart + e2));
    PrefixCancels(BlogsPagePrefix, d1 + ['-'] + (LimitPart + e1), d2 + ['-'] + (LimitPart + e2));
    SplitAtFirst('-', d1, LimitPart + e1, d2, LimitPart + e2);
    PrefixCancels(LimitPart, e1, e2);
    DecimalInjective(page1, page2);
    DecimalInjective(limit1, limit2);
  }

  /** Different slugs give different keys. */
  lemma BlogBySlugCacheKeyInjective(slug1: string, slug2: string)
    requires BlogBySlugCacheKey(slug1) == BlogBySlugCacheKey(slug2)
    ensures slug1 == slug2
  {
    PrefixCancels(BlogSlugPrefix, slug1, slug2);
  }

  /** A list key never equals a slug key: "blogs-" and "blog-s" differ at index 4. */
  lemma ListAndSlugKeysDisjoint(page: nat, limit: nat, slug: string)
    ensures BlogsCacheKey(page, limit) != BlogBySlugCacheKey(slug)
  {
    assert BlogsPagePrefix[4] != BlogSlugPrefix[4];
    assert BlogsCacheKey(page, limit) == BlogsPagePrefix + (Decimal(page) + "-" + LimitPart + Decimal(limit));
    DivergingPrefixesNeverMeet(BlogsPagePrefix, BlogSlugPrefix,
      Decimal(page) + "-" + LimitPart + Decimal(limit), slug);
  }
}
