/**
 * What the rest of the site expects of the resolver: the paths registered
 * with the router, the parent pages' "am I showing a child?" test, and the
 * titles the footer resolves. Only the data and the tests are modelled; the
 * router itself and the rendering are not.
 */
module SiteShell {
  import opened NavigationHelper

  /** Every path the application registers with the router, in declaration order. */
  const REGISTERED_ROUTES: seq<string> := [
    "/",
    "/services",
    "/services/cloud-practice",
    "/services/digital-engineering",
    "/services/big-data",
    "/services/app-modernization",
    "/services/security",
    "/services/database-management",
    "/services/erp-testing",
    "/products",
    "/products/agent-studio",
    "/products/atlas-api-manager",
    "/products/ottohm-video",
    "/products/itsm-ticketing",
    "/products/ai-ops",
    "/products/smart-contracts",
    "/ai",
    "/ai/bfsi-agents",
    "/ai/brand-management",
    "/who-we-are",
    "/who-we-are/our-team",
    "/who-we-are/about-us",
    "/who-we-are/partners",
    "/who-we-are/careers",
    "/who-we-are/news-updates",
    "/case-studies"
  ]

  /** A parent page hands over to its nested child view whenever the path is not its own root. */
  predicate IsChildRoute(pathname: string, root: string)
  {
    pathname != root
  }

  /** The titles the footer passes to the resolvers, in the footer's order. */
  const FOOTER_SERVICE_TITLES: seq<string> := [
    "Cloud Practice",
    "Digital & Product Engineering",
    "Big Data",
    "App Modernization",
    "Security",
    "Database Management",
    "ERP & Testing"
  ]

  const FOOTER_PRODUCT_TITLES: seq<string> := [
    "Atlas API Manager",
    "Agent Studio",
    "Ottohm Video",
    "ITSM Ticketing",
    "AI Ops Platform",
    "Smart Contracts"
  ]

  /** The "Contact" entry links to "#contact" directly and is not resolved. */
  const FOOTER_COMPANY_TITLES: seq<string> := [
    "About Us",
    "Our Team",
    "Partners",
    "Careers",
    "News & Updates"
  ]

  /**
   * The application registers nothing but the home page, the case studies
   * page, the four category roots and the paths of the four tables.
   */
  lemma RegisteredRoutesAreKnownTargets()
    ensures forall i :: 0 <= i < |REGISTERED_ROUTES| ==>
      REGISTERED_ROUTES[i] in {"/", "/case-studies", "/services", "/products", "/ai", "/who-we-are"}
      || REGISTERED_ROUTES[i] in SERVICE_ROUTES.Values || REGISTERED_ROUTES[i] in PRODUCT_ROUTES.Values
      || REGISTERED_ROUTES[i] in AI_ROUTES.Values || REGISTERED_ROUTES[i] in WHO_WE_ARE_ROUTES.Values
  {
    assert SERVICE_ROUTES["Cloud Practice"] in SERVICE_ROUTES.Values;
    assert SERVICE_ROUTES["Digital & Product Engineering"] in SERVICE_ROUTES.Values;
    assert SERVICE_ROUTES["Big Data"] in SERVICE_ROUTES.Values;
    assert SERVICE_ROUTES["App Modernization"] in SERVICE_ROUTES.Values;
    assert SERVICE_ROUTES["Security"] in SERVICE_ROUTES.Values;
    assert SERVICE_ROUTES["Database Management"] in SERVICE_ROUTES.Values;
    assert SERVICE_ROUTES["ERP & Testing"] in SERVICE_ROUTES.Values;
    assert PRODUCT_ROUTES["Agent Studio"] in PRODUCT_ROUTES.Values;
    assert PRODUCT_ROUTES["Atlas API Manager"] in PRODUCT_ROUTES.Values;
    assert PRODUCT_ROUTES["Ottohm Video"] in PRODUCT_ROUTES.Values;
    assert PRODUCT_ROUTES["ITSM Ticketing"] in PRODUCT_ROUTES.Values;
    assert PRODUCT_ROUTES["AI Ops Platform"] in PRODUCT_ROUTES.Values;
    assert PRODUCT_ROUTES["Smart Contracts"] in PRODUCT_ROUTES.Values;
    assert AI_ROUTES["BFSI Agents"] in AI_ROUTES.Values;
    assert AI_ROUTES["Brand Management Agents"] in AI_ROUTES.Values;
    assert WHO_WE_ARE_ROUTES["Our Team"] in WHO_WE_ARE_ROUTES.Values;
    assert WHO_WE_ARE_ROUTES["About Us"] in WHO_WE_ARE_ROUTES.Values;
    assert WHO_WE_ARE_ROUTES["Partners"] in WHO_WE_ARE_ROUTES.Values;
    assert WHO_WE_ARE_ROUTES["Careers"] in WHO_WE_ARE_ROUTES.Values;
    assert WHO_WE_ARE_ROUTES["News & Updates"] in WHO_WE_ARE_ROUTES.Values;
  }

  /** Every configured path is a route the application registers. */
  lemma TablePathsRegistered(cat: Category)
    ensures forall t :: t in Table(cat) ==> Table(cat)[t] in REGISTERED_ROUTES
  {
  }

  /**
   * Whatever the title, the resolver's answer is a registered route, so a
   * resolved link never reaches the router's catch-all.
   */
  lemma ResolveRegistered(cat: Category, title: string)
    ensures Resolve(cat, title) in REGISTERED_ROUTES
  {
  }

  /** Each category root and each fallback is itself a registered route. */
  lemma RootsAndFallbacksRegistered(cat: Category)
    ensures Root(cat) in REGISTERED_ROUTES && Fallback(cat) in REGISTERED_ROUTES
  {
  }

  /** A known title's page is seen as a child by its category's parent page. */
  lemma KnownTitleIsChildRoute(cat: Category, title: string)
    requires title in Table(cat)
    ensures IsChildRoute(Resolve(cat, title), Root(cat))
  {
  }

  /**
   * For AI solutions the fallback is the category root itself, so a resolved
   * AI link is a child of `/ai` exactly when the title is known. The AI
   * parent page is not part of this model; it is assumed to use the same
   * `pathname !== root` test as the other parent pages, which the routing
   * notes in src/app/App.tsx describe for all four parents.
   */
  lemma AIChildRouteIff(title: string)
    ensures IsChildRoute(GetAIUrl(title), "/ai") <==> title in AI_ROUTES
  {
  }

  /** The footer resolves every service, every product and every company page, and nothing else. */
  lemma FooterTitlesAreExactlyTheKeys()
    ensures forall i :: 0 <= i < |FOOTER_SERVICE_TITLES| ==> FOOTER_SERVICE_TITLES[i] in SERVICE_ROUTES
    ensures forall t :: t in SERVICE_ROUTES ==> t in FOOTER_SERVICE_TITLES
    ensures forall i :: 0 <= i < |FOOTER_PRODUCT_TITLES| ==> FOOTER_PRODUCT_TITLES[i] in PRODUCT_ROUTES
    ensures forall t :: t in PRODUCT_ROUTES ==> t in FOOTER_PRODUCT_TITLES
    ensures forall i :: 0 <= i < |FOOTER_COMPANY_TITLES| ==> FOOTER_COMPANY_TITLES[i] in WHO_WE_ARE_ROUTES
    ensures forall t :: t in WHO_WE_ARE_ROUTES ==> t in FOOTER_COMPANY_TITLES
  {
  }

  /** No footer link falls back: each one is a registered page strictly below its category root. */
  lemma FooterLinksNeverFallBack()
    ensures forall i :: 0 <= i < |FOOTER_SERVICE_TITLES| ==>
      GetServiceUrl(FOOTER_SERVICE_TITLES[i]) != "/" && GetServiceUrl(FOOTER_SERVICE_TITLES[i]) in REGISTERED_ROUTES
    ensures forall i :: 0 <= i < |FOOTER_PRODUCT_TITLES| ==>
      GetProductUrl(FOOTER_PRODUCT_TITLES[i]) != "/" && GetProductUrl(FOOTER_PRODUCT_TITLES[i]) in REGISTERED_ROUTES
    ensures forall i :: 0 <= i < |FOOTER_COMPANY_TITLES| ==>
      GetWhoWeAreUrl(FOOTER_COMPANY_TITLES[i]) != "/" && GetWhoWeAreUrl(FOOTER_COMPANY_TITLES[i]) in REGISTERED_ROUTES
  {
    FooterTitlesAreExactlyTheKeys();
    TablePathsRegistered(Service);
    TablePathsRegistered(Product);
    TablePathsRegistered(CompanySection);
  }
}
