# Storefront request gate and cache keys

A model, in Dafny, of the two pieces of logic in the storefront's server layer that have
behaviour of their own:

- **The request gate** (`middleware.ts`). Every matched request is classified three ways:
  - api-auth: the path starts with the api-auth prefix;
  - auth page: the path is exactly one of the auth routes;
  - private: the path starts with any private route.

  Then a fixed-priority rule decides between proceeding, redirecting a signed-in visitor of an
  auth page to the default page, and redirecting a visitor without a session to `/login` with
  a `callbackUrl` parameter. The gate is the pure function `Middleware.Decide` over an explicit
  `Config` record. The session is a boolean input. The `config.matcher` list is
  `Middleware.Matcher`.
- **The cache-key helpers** of `actions/get-products.ts`, `actions/get-product.ts` and
  `actions/get-blogs.ts`. These are string builders: a fixed family prefix followed by a slug,
  an id, the serialized query, the decimal page and limit, or the sorted product ids. The two
  product files hold the same five helpers word for word, so one module, `ProductKeys`,
  models both. `recentlyViewedKey` sorts the caller's array in place. It is a method on an
  `array<string>` (`ProductKeys.RecentlyViewedKey`) that calls an in-place sort
  (`ArraySort.SortInPlace`). The sort follows the default order of `Array.prototype.sort`:
  lexicographic by UTF-16 code unit (`JsStrings.LexLe`).

In the source, none of these helpers is passed to React's `cache`. `cache` memoizes on the
identity of its arguments. The model therefore treats the helpers as standalone functions
and claims nothing about memoization.

Modules:

| file | module | content |
|---|---|---|
| optional.dfy | `Optional` | `Option`, for an omitted (`undefined`) argument |
| js_strings.dfy | `JsStrings` | `startsWith`, `join`, decimal numbers, UTF-16 code-unit order |
| array_sort.dfy | `ArraySort` | `Array.prototype.sort()` on strings, in place |
| middleware.dfy | `Middleware` | the gate decision and the matcher list |
| product_keys.dfy | `ProductKeys` | the product key helpers of both product action files |
| blog_keys.dfy | `BlogKeys` | the blog key helpers and `getBlogs`' defaults |

Two consequences of the code worth knowing:

- One path can be both an auth page and private, because the three classifications are
  independent booleans. `Middleware.AuthRuleBeforePrivateRule` states what the gate does with
  such a path.
- The api-auth pattern is commented out of the matcher. So the api-auth branch only runs for a
  path that another pattern also matches.

## Model

| member | source | states |
|---|---|---|
| Middleware.Decide | middleware.ts:13-41 | the gate's answer: proceed for api-auth paths; otherwise redirect a signed-in visitor of an auth page to the default page; otherwise redirect a visitor without a session on a private path to the login page; otherwise proceed |
| Middleware.IsApiAuthRoute | middleware.ts:19 | the path starts with the api-auth prefix |
| Middleware.IsAuthRoute | middleware.ts:20 | the path is exactly one of the auth routes |
| Middleware.IsPrivateRoute | middleware.ts:21 | the path starts with some private route |
| Middleware.LoginRedirect | middleware.ts:33-35 | the login page `/login` with the single parameter `callbackUrl` set to path + query string |
| Middleware.Matcher | middleware.ts:44-57 | the four private patterns followed by the auth routes |
| ProductKeys.ProductQueryKey | actions/get-products.ts:39-40 | "products-" followed by the serialized query |
| ProductKeys.HotDealsKey | actions/get-products.ts:41-42 | "hot-deals-" followed by the serialized query |
| ProductKeys.ProductSlugKey | actions/get-products.ts:43 | "product-slug-" followed by the slug |
| ProductKeys.ProductIdKey | actions/get-products.ts:44 | "product-id-" followed by the id |
| ProductKeys.LocationSuffix | actions/get-products.ts:46 | the location group, or "none" when it is omitted or empty |
| ProductKeys.RecentlyViewedKeyOf | actions/get-product.ts:44-45 | the recently-viewed key of an id list: "recently-viewed-" + the ids in sorted order joined by "-" + "-" + the location suffix |
| JsStrings.Join | actions/get-products.ts:46 | `join`: the elements with the separator between neighbours; "" for no elements |
| JsStrings.LexLe | actions/get-products.ts:46 | the comparison of the default `sort()`: lexicographic by UTF-16 code unit, a proper prefix first |
| JsStrings.Decimal | actions/get-blogs.ts:7 | the decimal digits of a natural, no leading zero |
| BlogKeys.BlogsCacheKey | actions/get-blogs.ts:6-7 | "blogs-page-" + decimal page + "-limit-" + decimal limit |
| BlogKeys.BlogBySlugCacheKey | actions/get-blogs.ts:16 | "blog-slug-" followed by the slug |
| BlogKeys.GetBlogsArguments | actions/get-blogs.ts:10 | the page and limit `getBlogs` uses: 1 and 9 for omitted arguments, the given values otherwise |
| Middleware.ApiAuthAlwaysAllowed | middleware.ts:19-24 | a path starting with the api-auth prefix proceeds, whatever the session, auth-page or private membership |
| Middleware.LoggedInAuthPageRedirected | middleware.ts:26-29 | a non-api-auth path listed exactly among the auth routes, with a session, redirects to the default page |
| Middleware.LoggedOutPrivateRedirected | middleware.ts:31-37 | a non-api-auth path under a private route, without a session, redirects to `/login` whose only parameter is `callbackUrl` = path + query string |
| Middleware.DecisionCases | middleware.ts:19-40 | each of the three outcomes happens exactly when its condition holds (both directions), and each redirect carries its target |
| Middleware.SessionDecidesRedirectKind | middleware.ts:27-40 | a signed-in visitor is never sent to login; a visitor without a session is never sent to the default page |
| Middleware.AuthRuleBeforePrivateRule | middleware.ts:27-36 | for a path that is both an auth page and private, the auth-page rule wins with a session and the login redirect applies without one |
| Middleware.AuthRoutesMatchExactly | middleware.ts:20 | a listed auth page is one; a longer path below it is not, unless listed itself |
| Middleware.PrivateRoutesMatchByPrefix | middleware.ts:21 | any string continuing a listed private route is private, past segment boundaries too |
| Middleware.ExampleDecisions | middleware.ts:6-40 | on the routes in the file's comments: "/login/x" is no auth page, "/mystuff" is private, "/admin/x" logged out goes to login with callbackUrl "/admin/x", "/login" logged in goes to the default page, "/api/auth/callback" proceeds either way |
| Middleware.MatcherShape | middleware.ts:44-57 | the matcher is the four private patterns in order followed by the auth routes unchanged; it holds the api-auth pattern only if an auth route is that pattern |
| ArraySort.SortInPlace | actions/get-products.ts:46 | after `sort()` the array is ascending, is a permutation of its old contents, and equals the unique sorted arrangement of them |
| ArraySort.SortedCopy | actions/get-products.ts:46 | the sorted arrangement of a list is ascending and a permutation of it |
| ArraySort.SortedIsUnique | actions/get-products.ts:46 | two ascending lists holding the same strings are equal, so the result of sorting does not depend on the algorithm or on the starting order |
| ArraySort.SortedCopyOfPermutation | actions/get-products.ts:46 | lists with the same elements sort alike |
| JsStrings.LexLeTotal | actions/get-products.ts:46 | any two strings are comparable in the sort order |
| JsStrings.LexLeAntisymmetric | actions/get-products.ts:46 | strings that each sort no later than the other are equal |
| JsStrings.LexLeTransitive | actions/get-products.ts:46 | the sort order is transitive |
| JsStrings.BmpCodeUnitOrder | actions/get-products.ts:46 | for characters of the Basic Multilingual Plane the code-unit order is the character order |
| ProductKeys.RecentlyViewedKey | actions/get-products.ts:45-46 | sorts the caller's array in place (ascending, a permutation of the old contents) and returns prefix + the sorted ids joined by "-" + "-" + location group or "none", equal to the key of the old contents |
| ProductKeys.RecentlyViewedOrderIrrelevant | actions/get-products.ts:45-46 | the key is the same for any order of the same ids |
| ProductKeys.MissingLocationReadsAsNone | actions/get-product.ts:44-45 | an omitted location group, an empty one and the literal "none" give the same key, ending in "-none" |
| ProductKeys.DashInIdCollides | actions/get-products.ts:46 | ["a-b"] and ["a","b"] hold different ids but get the same key |
| ProductKeys.EmptyIdCollides | actions/get-product.ts:45 | the empty list and [""] share the key "recently-viewed--none" |
| ProductKeys.LocationWithDashCollides | actions/get-products.ts:46 | ["x"] with location group "y-none" and ["x","y"] with none share a key |
| ProductKeys.PrefixesDiverge | actions/get-products.ts:39-46 | the five family prefixes differ at an index both have, so none is a prefix of another |
| ProductKeys.FamilyOfKey | actions/get-product.ts:38-45 | a key is recognised as belonging to its own family, whatever its payload |
| ProductKeys.FamiliesDisjoint | actions/get-products.ts:39-46 | keys of two different families never coincide, whatever query text, slug, id or ids they carry |
| ProductKeys.SlugAndIdKeysInjective | actions/get-products.ts:43-44 | different slugs give different slug keys; different ids give different id keys |
| ProductKeys.QueryKeysByText | actions/get-product.ts:38-41 | the product and hot-deals keys start with their prefixes and are equal exactly when the serialized queries are equal; a product key never equals a hot-deals key |
| JsStrings.DecimalRoundTrip | actions/get-blogs.ts:7 | reading back the decimal form of a natural gives the number |
| BlogKeys.BlogsCacheKeyInjective | actions/get-blogs.ts:6-7 | different (page, limit) pairs give different list keys |
| BlogKeys.BlogBySlugCacheKeyInjective | actions/get-blogs.ts:16 | different slugs give different slug keys |
| BlogKeys.ListAndSlugKeysDisjoint | actions/get-blogs.ts:6-16 | a list key never equals a slug key ("blogs-" and "blog-s" differ at index 4) |
| BlogKeys.GetBlogsDefaults | actions/get-blogs.ts:10 | an omitted page is 1 and an omitted limit 9; an explicit argument is kept |
| BlogKeys.DefaultBlogsKey | actions/get-blogs.ts:6-10 | the default list page's key is "blogs-page-1-limit-9" |

## Left out

- React `cache` memoization, promises, `async`/`await` and the cache-miss log lines: the cache is managed by the framework and keyed by argument identity, and the rest are effects with nothing to prove.
- The data-access functions (`productsList`, `hotDeals`, `productBySlug`, `productById`, `recentlyViewedProducts`, `blogList`, `blogBySlug`): they belong to a data layer that is not part of this model.
- The store id taken from the environment with its fallback: it is configuration input that no key uses.
- NextAuth and the session lookup (middleware.ts:11-15): the session is the boolean `loggedIn`.
- `Response.redirect` and URL resolution against the request URL: redirect targets are plain paths.
- Middleware.LoginRedirect: holds the unencoded `callbackUrl` value; the percent-encoding that `URLSearchParams.set` applies (application/x-www-form-urlencoded serializing, section 5.2 of the WHATWG URL Standard) is not modelled.
- Middleware.Matcher: the patterns are uninterpreted strings; Next.js pattern matching (`"/my/:path*"`) and the fact that unmatched paths never reach the gate are not modelled.
- The contents of the routes module (`DEFAULT_LOGIN_REDIRECT` and the route lists): the module is not part of this model. `Config` takes them as values. `ExampleConfig` uses the lists given in middleware.ts's comments and keeps the default target as a parameter.
- `JSON.stringify` in `productQueryKey` and `hotDealsKey`: those keys take the serialized query text as input. Equal queries whose fields are in a different order can therefore get different keys, and the model says nothing about that.
- JsStrings.Decimal: writes every natural in plain decimal, also from 1e21 on, where JavaScript switches to exponent notation ("1e+21").
- BlogKeys.BlogsCacheKey: page and limit are naturals written in plain decimal. Numbers that are not integers are left out. JavaScript's exponent notation from 1e21 on and the loss of precision above 2^53 are also left out.
- JsStrings.LexLe: Dafny characters are Unicode scalar values, so lone surrogates, which a JavaScript string may hold, cannot appear in a modelled id.
- ArraySort.SortInPlace: the source uses the engine's own sort algorithm. The model sorts by insertion, which leaves the same final array, since sorted arrangements are unique (`SortedIsUnique`).
- actions/get-sizes.ts and actions/get-brand.ts: they hold only constant keys and pass-through cached wrappers.
- The route handlers under app/: the page composition is context, not part of this model.
