/**
 * The deprecated imperative helpers: `navigateTo` scrolls to the top and
 * assigns the browser location; the per-category helpers look the title up
 * in the same tables and either navigate or log a warning. The browser is
 * modelled as a few fields: whether a window exists, the current location,
 * the scroll offsets and the console's warning log.
 */
module LegacyNavigation {
  import opened Wrappers
  import opened NavigationHelper
  import opened SiteShell

  /** A console warning about a title that is not in its category's table. */
  datatype Warning = UnknownTitle(category: Category, title: string)

  /** A snapshot of the browser state the helpers touch. */
  datatype BrowserState = BrowserState(
    hasWindow: bool,
    href: string,
    scrollX: nat,
    scrollY: nat,
    warnings: seq<Warning>)

  // ---------------------------------------------------------------------------
  // The helpers as state transformers

  /** `navigateTo`: with a window, scroll to the top and go to `path`; without one, nothing. */
  function Navigated(s: BrowserState, path: string): (r: BrowserState)
    ensures r.hasWindow == s.hasWindow && r.scrollX == s.scrollX && r.warnings == s.warnings
    ensures s.hasWindow ==> r.href == path && r.scrollY == 0
    ensures !s.hasWindow ==> r == s
  {
    if s.hasWindow then s.(scrollY := 0, href := path) else s
  }

  /** `console.warn`: one more entry in the log, and nothing else changes. */
  function Warned(s: BrowserState, w: Warning): (r: BrowserState)
    ensures r.hasWindow == s.hasWindow && r.href == s.href && r.scrollX == s.scrollX && r.scrollY == s.scrollY
    ensures |r.warnings| == |s.warnings| + 1 && s.warnings < r.warnings && r.warnings[|s.warnings|] == w
  {
    s.(warnings := s.warnings + [w])
  }

  /** `navigateToService`, `navigateToProduct`, `navigateToWhoWeAre` and the titled branch of `navigateToAI`. */
  function CategoryNavigated(s: BrowserState, cat: Category, title: string): (r: BrowserState)
    ensures r.hasWindow == s.hasWindow && r.scrollX == s.scrollX
    ensures title in Table(cat) ==>
      r.warnings == s.warnings && (s.hasWindow ==> r.href == Table(cat)[title] && r.scrollY == 0)
    ensures title !in Table(cat) ==>
      r.href == s.href && r.scrollY == s.scrollY && r.warnings == s.warnings + [UnknownTitle(cat, title)]
  {
    var route := Lookup(cat, title);
    if Truthy(route) then Navigated(s, route.value) else Warned(s, UnknownTitle(cat, title))
  }

  /** `navigateToAI(aiTitle?)`: an absent or empty title goes to the AI overview. */
  function AINavigated(s: BrowserState, aiTitle: Option<string>): (r: BrowserState)
    ensures r.hasWindow == s.hasWindow && r.scrollX == s.scrollX
    ensures r.warnings != s.warnings <==> Truthy(aiTitle) && aiTitle.value !in AI_ROUTES
    ensures s.hasWindow && !Truthy(aiTitle) ==> r.href == "/ai" && r.scrollY == 0
  {
    if Truthy(aiTitle) then CategoryNavigated(s, AISolution, aiTitle.value) else Navigated(s, "/ai")
  }

  // ---------------------------------------------------------------------------
  // How the helpers relate to the resolvers

  /** On a known title a helper does exactly what `navigateTo` does with the resolved path. */
  lemma KnownTitleNavigatesToResolved(s: BrowserState, cat: Category, title: string)
    requires title in Table(cat)
    ensures CategoryNavigated(s, cat, title) == Navigated(s, Resolve(cat, title))
    ensures s.hasWindow ==> CategoryNavigated(s, cat, title).href == Resolve(cat, title)
  {
  }

  /**
   * On an unknown title a helper only warns, once: location and scroll stay,
   * so, unlike the resolver, it does not send the browser to the fallback.
   */
  lemma UnknownTitleOnlyWarns(s: BrowserState, cat: Category, title: string)
    requires title !in Table(cat)
    ensures var r := CategoryNavigated(s, cat, title);
      && r.hasWindow == s.hasWindow
      && r.href == s.href && r.scrollX == s.scrollX && r.scrollY == s.scrollY
      && r.warnings == s.warnings + [UnknownTitle(cat, title)]
    ensures s.href != Fallback(cat) ==> CategoryNavigated(s, cat, title).href != Resolve(cat, title)
  {
  }

  /**
   * `navigateToAI` lands where `getAIUrl` points whenever it navigates: for a
   * known title, and for an absent or empty one (which `getAIUrl("")` also
   * sends to the AI overview).
   */
  lemma AINavigatedAgreesWithGetAIUrl(s: BrowserState, aiTitle: Option<string>)
    requires !Truthy(aiTitle) || aiTitle.value in AI_ROUTES
    ensures var t := if aiTitle.Some? then aiTitle.value else "";
      AINavigated(s, aiTitle) == Navigated(s, GetAIUrl(t))
  {
  }

  /** `navigateToAI` with a non-empty unknown title only warns. */
  lemma AIUnknownTitleOnlyWarns(s: BrowserState, title: string)
    requires title != "" && title !in AI_ROUTES
    ensures AINavigated(s, Some(title)) == Warned(s, UnknownTitle(AISolution, title))
  {
  }

  // ---------------------------------------------------------------------------
  // An invariant the helpers keep

  /**
   * The browser shows a registered page, and every logged warning names a
   * title that really is unknown in its category.
   */
  predicate Consistent(s: BrowserState)
  {
    && s.href in REGISTERED_ROUTES
    && forall i :: 0 <= i < |s.warnings| ==> s.warnings[i].title !in Table(s.warnings[i].category)
  }

  /** The category helpers never leave a registered page and never log a false warning. */
  lemma CategoryNavigatedKeepsConsistent(s: BrowserState, cat: Category, title: string)
    requires Consistent(s)
    ensures Consistent(CategoryNavigated(s, cat, title))
    ensures s.warnings <= CategoryNavigated(s, cat, title).warnings
  {
    if title in Table(cat) {
      ResolveRegistered(cat, title);
    } else {
      var r := CategoryNavigated(s, cat, title);
      assert r.warnings == s.warnings + [UnknownTitle(cat, title)];
    }
  }

  /** `navigateToAI` keeps the invariant too, in all three of its branches. */
  lemma AINavigatedKeepsConsistent(s: BrowserState, aiTitle: Option<string>)
    requires Consistent(s)
    ensures Consistent(AINavigated(s, aiTitle))
    ensures s.warnings <= AINavigated(s, aiTitle).warnings
  {
  }

  /** `navigateTo` keeps the invariant whenever its target is a registered route. */
  lemma NavigatedKeepsConsistent(s: BrowserState, path: string)
    requires Consistent(s) && path in REGISTERED_ROUTES
    ensures Consistent(Navigated(s, path))
  {
  }

  /** Logging a warning keeps the invariant when the warning is true. */
  lemma WarnedKeepsConsistent(s: BrowserState, w: Warning)
    requires Consistent(s) && w.title !in Table(w.category)
    ensures Consistent(Warned(s, w))
  {
    var r := Warned(s, w);
    assert r.warnings == s.warnings + [w];
  }

  /** Home and case studies are registered pages too. */
  lemma FixedTargetsKeepConsistent(s: BrowserState)
    requires Consistent(s)
    ensures Consistent(Navigated(s, "/")) && Consistent(Navigated(s, "/case-studies"))
  {
  }

  // ---------------------------------------------------------------------------
  // The helpers as methods on the browser

  class Browser {
    var hasWindow: bool
    var href: string
    var scrollX: nat
    var scrollY: nat
    var warnings: seq<Warning>

    function State(): BrowserState
      reads this
    {
      BrowserState(hasWindow, href, scrollX, scrollY, warnings)
    }

    constructor (hasWindow: bool, href: string, scrollX: nat, scrollY: nat)
      ensures State() == BrowserState(hasWindow, href, scrollX, scrollY, [])
    {
      this.hasWindow := hasWindow;
      this.href := href;
      this.scrollX := scrollX;
      this.scrollY := scrollY;
      this.warnings := [];
    }

    method NavigateTo(path: string)
      modifies this
      ensures State() == Navigated(old(State()), path)
      ensures old(hasWindow) ==> href == path && scrollY == 0 && scrollX == old(scrollX)
      ensures !old(hasWindow) ==> State() == old(State())
      ensures Consistent(old(State())) && path in REGISTERED_ROUTES ==> Consistent(State())
    {
      ghost var before := State();
      if Consistent(before) && path in REGISTERED_ROUTES {
        NavigatedKeepsConsistent(before, path);
      }
      if hasWindow {
        scrollY := 0;
        href := path;
      }
    }

    method Warn(w: Warning)
      modifies this
      ensures State() == Warned(old(State()), w)
      ensures Consistent(old(State())) && w.title !in Table(w.category) ==> Consistent(State())
    {
      ghost var before := State();
      if Consistent(before) && w.title !in Table(w.category) {
        WarnedKeepsConsistent(before, w);
      }
      warnings := warnings + [w];
    }

    method NavigateToService(serviceTitle: string)
      modifies this
      ensures State() == CategoryNavigated(old(State()), Service, serviceTitle)
      ensures serviceTitle in SERVICE_ROUTES && old(hasWindow) ==> href == GetServiceUrl(serviceTitle)
      ensures serviceTitle !in SERVICE_ROUTES ==>
        href == old(href) && warnings == old(warnings) + [UnknownTitle(Service, serviceTitle)]
      ensures Consistent(old(State())) ==> Consistent(State())
    {
      ghost var before := State();
      if Consistent(before) {
        CategoryNavigatedKeepsConsistent(before, Service, serviceTitle);
      }
      var route := Lookup(Service, serviceTitle);
      if Truthy(route) {
        NavigateTo(route.value);
      } else {
        Warn(UnknownTitle(Service, serviceTitle));
      }
    }

    method NavigateToProduct(productTitle: string)
      modifies this
      ensures State() == CategoryNavigated(old(State()), Product, productTitle)
      ensures productTitle in PRODUCT_ROUTES && old(hasWindow) ==> href == GetProductUrl(productTitle)
      ensures productTitle !in PRODUCT_ROUTES ==>
        href == old(href) && warnings == old(warnings) + [UnknownTitle(Product, productTitle)]
      ensures Consistent(old(State())) ==> Consistent(State())
    {
      ghost var before := State();
      if Consistent(before) {
        CategoryNavigatedKeepsConsistent(before, Product, productTitle);
      }
      var route := Lookup(Product, productTitle);
      if Truthy(route) {
        NavigateTo(route.value);
      } else {
        Warn(UnknownTitle(Product, productTitle));
      }
    }

    method NavigateToAI(aiTitle: Option<string>)
      modifies this
      ensures State() == AINavigated(old(State()), aiTitle)
      ensures !Truthy(aiTitle) && old(hasWindow) ==> href == "/ai"
      ensures Truthy(aiTitle) && aiTitle.value in AI_ROUTES && old(hasWindow) ==> href == GetAIUrl(aiTitle.value)
      ensures Truthy(aiTitle) && aiTitle.value !in AI_ROUTES ==>
        href == old(href) && warnings == old(warnings) + [UnknownTitle(AISolution, aiTitle.value)]
      ensures Consistent(old(State())) ==> Consistent(State())
    {
      ghost var before := State();
      if Consistent(before) {
        AINavigatedKeepsConsistent(before, aiTitle);
      }
      if Truthy(aiTitle) {
        var route := Lookup(AISolution, aiTitle.value);
        if Truthy(route) {
          NavigateTo(route.value);
        } else {
          Warn(UnknownTitle(AISolution, aiTitle.value));
        }
      } else {
        NavigateTo("/ai");
      }
    }

    method NavigateToWhoWeAre(item: string)
      modifies this
      ensures State() == CategoryNavigated(old(State()), CompanySection, item)
      ensures item in WHO_WE_ARE_ROUTES && old(hasWindow) ==> href == GetWhoWeAreUrl(item)
      ensures item !in WHO_WE_ARE_ROUTES ==>
        href == old(href) && warnings == old(warnings) + [UnknownTitle(CompanySection, item)]
      ensures Consistent(old(State())) ==> Consistent(State())
    {
      ghost var before := State();
      if Consistent(before) {
        CategoryNavigatedKeepsConsistent(before, CompanySection, item);
      }
      var route := Lookup(CompanySection, item);
      if Truthy(route) {
        NavigateTo(route.value);
      } else {
        Warn(UnknownTitle(CompanySection, item));
      }
    }

    method NavigateToHome()
      modifies this
      ensures State() == Navigated(old(State()), "/")
      ensures Consistent(old(State())) ==> Consistent(State())
    {
      ghost var before := State();
      if Consistent(before) {
        FixedTargetsKeepConsistent(before);
      }
      NavigateTo("/");
    }

    method NavigateToCaseStudies()
      modifies this
      ensures State() == Navigated(old(State()), "/case-studies")
      ensures Consistent(old(State())) ==> Consistent(State())
    {
      ghost var before := State();
      if Consistent(before) {
        FixedTargetsKeepConsistent(before);
      }
      NavigateTo("/case-studies");
    }
  }
}
