# Route resolver of the marketing site

This project models the navigation helper of a brochure website
(`src/app/utils/navigationHelper.ts`). The helper holds four fixed tables,
one per content category (services, products, AI solutions, "Who We Are"
pages), that translate a display title such as `"Cloud Practice"` into the
URL path of its page (`/services/cloud-practice`). It has two kinds of
operation:

- the pure `get*Url` resolvers, which look a title up verbatim and fall back
  to `/` (or `/ai` for AI solutions) when it is unknown;
- the deprecated `navigateTo*` helpers, which scroll to the top and assign
  the browser location, or log a console warning for an unknown title.

Modules:

- `Wrappers` (`wrappers.dfy`): `Option`, used for a JavaScript value that may be `undefined`.
- `NavigationHelper` (`navigation_helper.dfy`): the title constants, the
  tables, the resolvers and their properties. `Lookup` gives JavaScript
  object indexing (`undefined` becomes `None`). `Truthy` gives the truthiness
  of a `string | undefined` used by `||` and `if (route)`. `Resolve` is the
  shared shape of the four `get*Url` functions.
- `SiteShell` (`site_shell.dfy`): what the rest of the site expects of the
  resolver. This holds the paths registered with the router in
  `src/app/App.tsx`, the parent pages' child-route test
  (`location.pathname !== root`) and the titles the footer resolves. These
  are all constants or one-line predicates.
- `LegacyNavigation` (`legacy_navigation.dfy`): the deprecated helpers. The
  class `Browser` has one method per helper, over the fields `hasWindow`,
  `href`, `scrollX`, `scrollY` and `warnings`. The state functions
  `Navigated`, `Warned`, `CategoryNavigated` and `AINavigated` specify the
  methods. Lemmas about those functions tie the helpers to the resolvers.
  The `Consistent` invariant says the browser shows a registered page and
  logs only true warnings. The wrappers `navigateToService`,
  `navigateToProduct`, `navigateToAI`, `navigateToWhoWeAre`,
  `navigateToHome` and `navigateToCaseStudies` always preserve it, and each
  of their `Browser` methods says so in its contract. `navigateTo` preserves
  it only when its target is a registered route, and a console warning only
  when it names a title that really is unknown.

Two behaviours of the code worth noting:

- An unknown title given to `navigateToService`, `navigateToProduct`,
  `navigateToWhoWeAre` or (non-empty) `navigateToAI` does not navigate to
  the fallback path. It only logs a warning and leaves location and scroll
  unchanged (`UnknownTitleOnlyWarns`).
- `navigateTo` calls `window.scrollTo({ top: 0 })`. That resets only the
  vertical offset. The horizontal offset is not reset.

## Model

| member | source | states |
|---|---|---|
| `NavigationHelper.ServicePathsBelowRoot` | src/app/utils/navigationHelper.ts:61-69 | every service path starts with `/services/` followed by a non-empty slug |
| `NavigationHelper.ServiceRoutesInjective` | src/app/utils/navigationHelper.ts:61-69 | distinct service titles map to distinct paths |
| `NavigationHelper.ServiceTitlesCapitalizedAndLetterEnded` | src/app/utils/navigationHelper.ts:61-69 | every service title is non-empty, starts with a capital letter and ends with a small letter |
| `NavigationHelper.ProductPathsBelowRoot` | src/app/utils/navigationHelper.ts:71-78 | every product path starts with `/products/` followed by a non-empty slug |
| `NavigationHelper.ProductRoutesInjective` | src/app/utils/navigationHelper.ts:71-78 | distinct product titles map to distinct paths |
| `NavigationHelper.ProductTitlesCapitalizedAndLetterEnded` | src/app/utils/navigationHelper.ts:71-78 | every product title is non-empty, starts with a capital letter and ends with a small letter |
| `NavigationHelper.AIPathsBelowRoot` | src/app/utils/navigationHelper.ts:80-83 | every AI path starts with `/ai/` followed by a non-empty slug |
| `NavigationHelper.AIRoutesInjective` | src/app/utils/navigationHelper.ts:80-83 | distinct AI titles map to distinct paths |
| `NavigationHelper.AITitlesCapitalizedAndLetterEnded` | src/app/utils/navigationHelper.ts:80-83 | every AI title is non-empty, starts with a capital letter and ends with a small letter |
| `NavigationHelper.WhoWeArePathsBelowRoot` | src/app/utils/navigationHelper.ts:85-91 | every "Who We Are" path starts with `/who-we-are/` followed by a non-empty slug |
| `NavigationHelper.WhoWeAreRoutesInjective` | src/app/utils/navigationHelper.ts:85-91 | distinct "Who We Are" titles map to distinct paths |
| `NavigationHelper.WhoWeAreTitlesCapitalizedAndLetterEnded` | src/app/utils/navigationHelper.ts:85-91 | every "Who We Are" title is non-empty, starts with a capital letter and ends with a small letter |
| `NavigationHelper.TableValuesBelowRoot` | src/app/utils/navigationHelper.ts:61-91 | every configured path starts with its category prefix (`/services/`, `/products/`, `/ai/`, `/who-we-are/`) followed by a non-empty slug, so it is longer than and different from the category root |
| `NavigationHelper.TableInjective` | src/app/utils/navigationHelper.ts:61-91 | within one table, distinct titles map to distinct paths |
| `NavigationHelper.TitleConstantsAreKeys` | src/app/utils/navigationHelper.ts:16-91 | the values of `SERVICE_TITLES`, `PRODUCT_TITLES`, `AI_TITLES` and `WHO_WE_ARE_ITEMS` are exactly the keys of the matching table, so no title constant falls back |
| `NavigationHelper.ServiceTitlesAreKeys` | src/app/utils/navigationHelper.ts:16-24 | the service title constants are exactly the keys of `SERVICE_ROUTES` |
| `NavigationHelper.ProductTitlesAreKeys` | src/app/utils/navigationHelper.ts:29-36 | the product title constants are exactly the keys of `PRODUCT_ROUTES` |
| `NavigationHelper.AITitlesAreKeys` | src/app/utils/navigationHelper.ts:41-44 | the AI title constants are exactly the keys of `AI_ROUTES` |
| `NavigationHelper.WhoWeAreItemsAreKeys` | src/app/utils/navigationHelper.ts:49-55 | the "Who We Are" item constants are exactly the keys of `WHO_WE_ARE_ROUTES` |
| `NavigationHelper.Lookup` | src/app/utils/navigationHelper.ts:114-115 | indexing a table with a title (`SERVICE_ROUTES[title]` and the like) gives `undefined` exactly when the title is not a key; otherwise it gives the configured path, which is truthy (non-empty) |
| `NavigationHelper.Fallback` | src/app/utils/navigationHelper.ts:185-211 | the default a resolver returns when the lookup gives nothing (`/`, or `/ai` for AI solutions) is non-empty, is not a configured path of its table and does not lie below the category root |
| `NavigationHelper.Resolve` | src/app/utils/navigationHelper.ts:185-211 | the lookup with its default returns exactly the configured path for a known title and the category default for any other title (the default never applies to a known key, because no path is empty) |
| `NavigationHelper.GetServiceUrl` | src/app/utils/navigationHelper.ts:185-187 | a known service title gives its table path, which lies below `/services`; any other title gives `/` |
| `NavigationHelper.GetProductUrl` | src/app/utils/navigationHelper.ts:193-195 | a known product title gives its table path, which lies below `/products`; any other title gives `/` |
| `NavigationHelper.GetAIUrl` | src/app/utils/navigationHelper.ts:201-203 | a known AI title gives its table path, which lies below `/ai`; any other title gives `/ai` |
| `NavigationHelper.GetWhoWeAreUrl` | src/app/utils/navigationHelper.ts:209-211 | a known item gives its table path, which lies below `/who-we-are`; any other item gives `/` |
| `NavigationHelper.ResolverHitExamples` | src/app/utils/navigationHelper.ts:61-91 | concrete hits: `"ERP & Testing"` gives `/services/erp-testing`, `"Brand Management Agents"` gives `/ai/brand-management`, `"News & Updates"` gives `/who-we-are/news-updates`, and so on |
| `NavigationHelper.ResolverMissExamples` | src/app/utils/navigationHelper.ts:185-211 | concrete misses: `"unknown-product"` gives `/`, `"nonexistent"` gives `/ai`, and `"News"` (a footer label, not a key) gives `/` |
| `NavigationHelper.ResolveFallbackIff` | src/app/utils/navigationHelper.ts:185-211 | the resolver returns the category default if and only if the title is not in the table |
| `NavigationHelper.ResolveBelowRootIff` | src/app/utils/navigationHelper.ts:185-211 | the resolved path lies strictly below the category root if and only if the title is known |
| `NavigationHelper.ResolveInjective` | src/app/utils/navigationHelper.ts:61-91 | two known titles of one category that resolve to the same path are the same title |
| `NavigationHelper.TableTitlesCapitalizedAndLetterEnded` | src/app/utils/navigationHelper.ts:61-91 | in every table, each title is non-empty, starts with a capital letter and ends with a small letter |
| `NavigationHelper.NoCaseFolding` | src/app/utils/navigationHelper.ts:185-211 | a lower-cased known title is not recognised and resolves to the category default |
| `NavigationHelper.NoTrimming` | src/app/utils/navigationHelper.ts:185-211 | a known title padded on either side with a blank character (space, tab, newline or carriage return) is not recognised and resolves to the category default |
| `NavigationHelper.EmptyTitleFallsBack` | src/app/utils/navigationHelper.ts:185-211 | the empty title resolves to the category default |
| `SiteShell.RegisteredRoutesAreKnownTargets` | src/app/App.tsx:87-122 | every path the router registers is the home page, `/case-studies`, a category root or a configured path of one of the four tables |
| `SiteShell.TablePathsRegistered` | src/app/App.tsx:87-122 | every configured path is one of the routes the application registers |
| `SiteShell.ResolveRegistered` | src/app/App.tsx:87-125 | for every title, known or not, the resolved path is a registered route, so a resolved link never reaches the catch-all redirect |
| `SiteShell.RootsAndFallbacksRegistered` | src/app/App.tsx:87-122 | every category root (`/services`, `/products`, `/ai`, `/who-we-are`) and every fallback (`/`, `/ai`) is a registered route |
| `SiteShell.KnownTitleIsChildRoute` | src/app/components/ServicesPage.tsx:28 | the path of a known title passes the parent page's `pathname !== root` child-route test (the same test is at ProductsPage.tsx:27 and WhoWeArePage.tsx:27) |
| `SiteShell.AIChildRouteIff` | src/app/utils/navigationHelper.ts:201-203 | the AI fallback is the AI root itself, so `getAIUrl(t)` is a child of `/ai` if and only if `t` is known |
| `SiteShell.FooterTitlesAreExactlyTheKeys` | src/app/components/Footer.tsx:24-48 | every title the footer passes to a resolver is a key of the matching table, and every key of the service, product and "Who We Are" tables appears in the footer |
| `SiteShell.FooterLinksNeverFallBack` | src/app/components/Footer.tsx:24-48 | no footer link resolves to `/`; each resolves to a registered route |
| `LegacyNavigation.Navigated` | src/app/utils/navigationHelper.ts:99-107 | with a window, `href` becomes the path and the vertical offset 0 while the horizontal offset and the log are kept; without a window the state is unchanged |
| `LegacyNavigation.Warned` | src/app/utils/navigationHelper.ts:118-161 | a `console.warn` (lines 118, 131, 145, 161) extends the log by exactly the given warning at its end and changes nothing else |
| `LegacyNavigation.CategoryNavigated` | src/app/utils/navigationHelper.ts:113-163 | a category helper with a known title keeps the log and (with a window) goes to the table path with vertical offset 0; with an unknown title it keeps location and scroll and appends exactly `UnknownTitle(category, title)` to the log |
| `LegacyNavigation.AINavigated` | src/app/utils/navigationHelper.ts:139-150 | `navigateToAI` logs a warning exactly when it is given a non-empty title that is not a key; an absent or empty title goes (with a window) to `/ai` |
| `LegacyNavigation.KnownTitleNavigatesToResolved` | src/app/utils/navigationHelper.ts:113-163 | on a known title, a category helper has exactly the effect of `navigateTo` applied to the resolver's path |
| `LegacyNavigation.UnknownTitleOnlyWarns` | src/app/utils/navigationHelper.ts:113-163 | on an unknown title, a category helper leaves location and scroll unchanged and appends exactly one warning; it does not go where the resolver's fallback points |
| `LegacyNavigation.AINavigatedAgreesWithGetAIUrl` | src/app/utils/navigationHelper.ts:139-150 | `navigateToAI` with a known title, or with an absent or empty one, navigates exactly where `getAIUrl` points (`/ai` for the absent or empty title) |
| `LegacyNavigation.AIUnknownTitleOnlyWarns` | src/app/utils/navigationHelper.ts:139-150 | `navigateToAI` with a non-empty unknown title has exactly the effect of appending one `UnknownTitle` warning for that title; location and scroll stay as they were |
| `LegacyNavigation.CategoryNavigatedKeepsConsistent` | src/app/utils/navigationHelper.ts:113-163 | a category helper keeps the browser on a registered page, logs only titles that are really unknown, and never drops a logged warning |
| `LegacyNavigation.AINavigatedKeepsConsistent` | src/app/utils/navigationHelper.ts:139-150 | `navigateToAI` keeps the same invariant in all three of its branches and never drops a logged warning |
| `LegacyNavigation.NavigatedKeepsConsistent` | src/app/utils/navigationHelper.ts:99-107 | `navigateTo` with a registered target keeps the browser on a registered page and leaves the log as it was |
| `LegacyNavigation.WarnedKeepsConsistent` | src/app/utils/navigationHelper.ts:118-161 | logging a warning about a title that is not in its table keeps the invariant |
| `LegacyNavigation.FixedTargetsKeepConsistent` | src/app/utils/navigationHelper.ts:169-179 | navigating home (`/`) or to `/case-studies` keeps the same invariant |
| `LegacyNavigation.Browser.NavigateTo` | src/app/utils/navigationHelper.ts:99-107 | with a window: vertical scroll becomes 0, horizontal scroll is kept, and `href` becomes the path; without a window nothing changes; from a consistent state, a registered target keeps it consistent |
| `LegacyNavigation.Browser.Warn` | src/app/utils/navigationHelper.ts:118-161 | a console warning (the `console.warn` calls at lines 118, 131, 145 and 161) is appended to the log and nothing else changes; a true warning keeps a consistent state consistent |
| `LegacyNavigation.Browser.NavigateToService` | src/app/utils/navigationHelper.ts:113-120 | a known title goes (with a window) to `getServiceUrl(title)`; an unknown title keeps `href` and appends one warning; the helper preserves `Consistent` |
| `LegacyNavigation.Browser.NavigateToProduct` | src/app/utils/navigationHelper.ts:126-133 | a known title goes (with a window) to `getProductUrl(title)`; an unknown title keeps `href` and appends one warning; the helper preserves `Consistent` |
| `LegacyNavigation.Browser.NavigateToAI` | src/app/utils/navigationHelper.ts:139-150 | an absent or empty title goes (with a window) to `/ai`; a known title goes (with a window) to `getAIUrl(title)`; an unknown non-empty title keeps `href` and appends one warning; the helper preserves `Consistent` |
| `LegacyNavigation.Browser.NavigateToWhoWeAre` | src/app/utils/navigationHelper.ts:156-163 | a known item goes (with a window) to `getWhoWeAreUrl(item)`; an unknown item keeps `href` and appends one warning; the helper preserves `Consistent` |
| `LegacyNavigation.Browser.NavigateToHome` | src/app/utils/navigationHelper.ts:169-171 | the effect of `navigateTo("/")`; the helper preserves `Consistent` |
| `LegacyNavigation.Browser.NavigateToCaseStudies` | src/app/utils/navigationHelper.ts:177-179 | the effect of `navigateTo("/case-studies")`; the helper preserves `Consistent` |

## Left out

- JavaScript prototype keys: indexing a plain object with a key such as
  `"toString"` returns an inherited function rather than `undefined`. The
  tables are modelled as exact finite maps, so such keys fall back here.
- Real browser effects: `window.scrollTo` and the assignment to
  `window.location.href` are modelled as field updates. The full page load
  that the assignment triggers, and the `behavior: 'auto'` scroll option,
  are not modelled.
- The presence of `window` (`typeof window !== 'undefined'`) is an input
  field, `hasWindow`. It is not observed from the runtime.
- Console warnings are recorded as `UnknownTitle(category, title)` values
  rather than as their exact text (`Unknown service: ...` and so on).
- React Router's matching: `Routes`, `Outlet` and the `*` catch-all redirect
  in `src/app/App.tsx` are library behaviour. The registered paths are used
  only as a constant list.
- All rendering, layout, styling and animation in the page components and
  the footer are left out. That includes the animations' random
  floating-point values.
- The page components' own link arrays are left out. Their titles differ
  (for example "Digital Engineering" and "AIOps Platform"), and they never
  call the resolver.
- Theme context, social-media links and office addresses are static content
  or foreign components.
- `NavigationHelper.NoCaseFolding`: case variation is shown only for ASCII
  lower-casing of the whole title. Other case changes, such as upper-casing,
  are not stated.
- Scroll offsets are natural numbers. In a browser they are floating-point
  values and can be negative (on right-to-left pages). No property here
  depends on the offsets beyond resetting the vertical one to 0.
