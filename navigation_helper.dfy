/**
 * The route resolver of the site: four fixed tables, one per content category,
 * that translate a display title into the URL path of its page, and the
 * `get*Url` lookups that fall back to a per-category default path when the
 * title is not in the table.
 */
module NavigationHelper {
  import opened Wrappers

  /** The four content groupings, each with its own table. */
  datatype Category = Service | Product | AISolution | CompanySection

  // ---------------------------------------------------------------------------
  // Title constants: constant name -> display title

  const SERVICE_TITLES: map<string, string> := map[
    "CLOUD_PRACTICE" := "Cloud Practice",
    "DIGITAL_ENGINEERING" := "Digital & Product Engineering",
    "BIG_DATA" := "Big Data",
    "APP_MODERNIZATION" := "App Modernization",
    "SECURITY" := "Security",
    "DATABASE_MANAGEMENT" := "Database Management",
    "ERP_TESTING" := "ERP & Testing"
  ]

  const PRODUCT_TITLES: map<string, string> := map[
    "AGENT_STUDIO" := "Agent Studio",
    "ATLAS_API_MANAGER" := "Atlas API Manager",
    "OTTOHM_VIDEO" := "Ottohm Video",
    "ITSM_TICKETING" := "ITSM Ticketing",
    "AI_OPS" := "AI Ops Platform",
    "SMART_CONTRACTS" := "Smart Contracts"
  ]

  const AI_TITLES: map<string, string> := map[
    "BFSI_AGENTS" := "BFSI Agents",
    "BRAND_MANAGEMENT" := "Brand Management Agents"
  ]

  const WHO_WE_ARE_ITEMS: map<string, string> := map[
    "OUR_TEAM" := "Our Team",
    "ABOUT_US" := "About Us",
    "PARTNERS" := "Partners",
    "CAREERS" := "Careers",
    "NEWS" := "News & Updates"
  ]

  // ---------------------------------------------------------------------------
  // Route tables: display title -> URL path

  const SERVICE_ROUTES: map<string, string> := map[
    "Cloud Practice" := "/services/cloud-practice",
    "Digital & Product Engineering" := "/services/digital-engineering",
    "Big Data" := "/services/big-data",
    "App Modernization" := "/services/app-modernization",
    "Security" := "/services/security",
    "Database Management" := "/services/database-management",
    "ERP & Testing" := "/services/erp-testing"
  ]

  const PRODUCT_ROUTES: map<string, string> := map[
    "Agent Studio" := "/products/agent-studio",
    "Atlas API Manager" := "/products/atlas-api-manager",
    "Ottohm Video" := "/products/ottohm-video",
    "ITSM Ticketing" := "/products/itsm-ticketing",
    "AI Ops Platform" := "/products/ai-ops",
    "Smart Contracts" := "/products/smart-contracts"
  ]

  const AI_ROUTES: map<string, string> := map[
    "BFSI Agents" := "/ai/bfsi-agents",
    "Brand Management Agents" := "/ai/brand-management"
  ]

  const WHO_WE_ARE_ROUTES: map<string, string> := map[
    "Our Team" := "/who-we-are/our-team",
    "About Us" := "/who-we-are/about-us",
    "Partners" := "/who-we-are/partners",
    "Careers" := "/who-we-are/careers",
    "News & Updates" := "/who-we-are/news-updates"
  ]

  function Table(cat: Category): map<string, string>
  {
    match cat
    case Service => SERVICE_ROUTES
    case Product => PRODUCT_ROUTES
    case AISolution => AI_ROUTES
    case CompanySection => WHO_WE_ARE_ROUTES
  }

  function Titles(cat: Category): map<string, string>
  {
    match cat
    case Service => SERVICE_TITLES
    case Product => PRODUCT_TITLES
    case AISolution => AI_TITLES
    case CompanySection => WHO_WE_ARE_ITEMS
  }

  /** The overview page of a category; its entries live below it. */
  function Root(cat: Category): string
  {
    match cat
    case Service => "/services"
    case Product => "/products"
    case AISolution => "/ai"
    case CompanySection => "/who-we-are"
  }

  /** The `||` default of each `get*Url`. */
  function Fallback(cat: Category): (path: string)
    ensures path != "" && !Below(path, Root(cat))
    ensures path !in Table(cat).Values
  {
    TableValuesBelowRoot(cat);
    if cat == AISolution then "/ai" else "/"
  }

  /** `path` has `root + "/"` as a proper prefix: it names a page strictly below `root`. */
  predicate Below(path: string, root: string)
  {
    root + "/" < path
  }

  /** Whitespace that a trimming lookup would strip. */
  predicate IsBlank(c: char)
  {
    c == ' ' || c == '\t' || c == '\n' || c == '\r'
  }

  // ---------------------------------------------------------------------------
  // JavaScript lookup semantics

  /**
   * `TABLE[title]` on a plain object: the value, or `undefined`. A defined
   * value is never the empty string, so it is always truthy.
   */
  function Lookup(cat: Category, title: string): (route: Option<string>)
    ensures route.None? <==> title !in Table(cat)
    ensures route.Some? ==> route.value == Table(cat)[title] && Truthy(route)
  {
    TableValuesBelowRoot(cat);
    if title in Table(cat) then Some(Table(cat)[title]) else None
  }

  /** Truthiness of a `string | undefined`: defined and non-empty. */
  predicate Truthy(v: Option<string>)
  {
    v.Some? && v.value != ""
  }

  // ---------------------------------------------------------------------------
  // Facts about the tables

  /** Every path of `m` lies strictly below `root`. */
  predicate PathsBelow(m: map<string, string>, root: string)
  {
    forall t :: t in m ==> Below(m[t], root)
  }

  /** Distinct titles of `m` lead to distinct paths. */
  predicate Injective(m: map<string, string>)
  {
    forall t1, t2 :: t1 in m && t2 in m && t1 != t2 ==> m[t1] != m[t2]
  }

  /** Every title of `m` is non-empty, starts with a capital letter and ends with a small letter. */
  predicate TitlesCapitalizedAndLetterEnded(m: map<string, string>)
  {
    forall t :: t in m ==> |t| > 0 && 'A' <= t[0] <= 'Z' && 'a' <= t[|t| - 1] <= 'z'
  }

  lemma ServicePathsBelowRoot()
    ensures PathsBelow(SERVICE_ROUTES, "/services")
  {
    var prefix := "/services" + "/";
    assert prefix == "/services/";
    forall t | t in SERVICE_ROUTES ensures prefix < SERVICE_ROUTES[t] {
    }
  }

  lemma ServiceRoutesInjective()
    ensures Injective(SERVICE_ROUTES)
  {
  }

  lemma ServiceTitlesCapitalizedAndLetterEnded()
    ensures TitlesCapitalizedAndLetterEnded(SERVICE_ROUTES)
  {
  }

  lemma ProductPathsBelowRoot()
    ensures PathsBelow(PRODUCT_ROUTES, "/products")
  {
    var prefix := "/products" + "/";
    assert prefix == "/products/";
    forall t | t in PRODUCT_ROUTES ensures prefix < PRODUCT_ROUTES[t] {
    }
  }

  lemma ProductRoutesInjective()
    ensures Injective(PRODUCT_ROUTES)
  {
  }

  lemma ProductTitlesCapitalizedAndLetterEnded()
    ensures TitlesCapitalizedAndLetterEnded(PRODUCT_ROUTES)
  {
  }

  lemma AIPathsBelowRoot()
    ensures PathsBelow(AI_ROUTES, "/ai")
  {
    var prefix := "/ai" + "/";
    assert prefix == "/ai/";
    forall t | t in AI_ROUTES ensures prefix < AI_ROUTES[t] {
    }
  }

  lemma AIRoutesInjective()
    ensures Injective(AI_ROUTES)
  {
  }

  lemma AITitlesCapitalizedAndLetterEnded()
    ensures TitlesCapitalizedAndLetterEnded(AI_ROUTES)
  {
  }

  lemma WhoWeArePathsBelowRoot()
    ensures PathsBelow(WHO_WE_ARE_ROUTES, "/who-we-are")
  {
    var prefix := "/who-we-are" + "/";
    assert prefix == "/who-we-are/";
    forall t | t in WHO_WE_ARE_ROUTES ensures prefix < WHO_WE_ARE_ROUTES[t] {
    }
  }

  lemma WhoWeAreRoutesInjective()
    ensures Injective(WHO_WE_ARE_ROUTES)
  {
  }

  lemma WhoWeAreTitlesCapitalizedAndLetterEnded()
    ensures TitlesCapitalizedAndLetterEnded(WHO_WE_ARE_ROUTES)
  {
  }

  /** Every configured path carries its category prefix and a non-empty slug. */
  lemma TableValuesBelowRoot(cat: Category)
    ensures PathsBelow(Table(cat), Root(cat))
  {
    match cat
    case Service => ServicePathsBelowRoot();
    case Product => ProductPathsBelowRoot();
    case AISolution => AIPathsBelowRoot();
    case CompanySection => WhoWeArePathsBelowRoot();
  }

  /** Within one table, distinct titles lead to distinct pages. */
  lemma TableInjective(cat: Category)
    ensures Injective(Table(cat))
  {
    match cat
    case Service => ServiceRoutesInjective();
    case Product => ProductRoutesInjective();
    case AISolution => AIRoutesInjective();
    case CompanySection => WhoWeAreRoutesInjective();
  }

  /** Every title starts with a capital letter and ends with a small letter. */
  lemma TableTitlesCapitalizedAndLetterEnded(cat: Category)
    ensures TitlesCapitalizedAndLetterEnded(Table(cat))
  {
    match cat
    case Service => ServiceTitlesCapitalizedAndLetterEnded();
    case Product => ProductTitlesCapitalizedAndLetterEnded();
    case AISolution => AITitlesCapitalizedAndLetterEnded();
    case CompanySection => WhoWeAreTitlesCapitalizedAndLetterEnded();
  }

  /** The title constants name exactly the keys of the matching table. */
  lemma TitleConstantsAreKeys(cat: Category)
    ensures Titles(cat).Values == Table(cat).Keys
  {
    match cat
    case Service => ServiceTitlesAreKeys();
    case Product => ProductTitlesAreKeys();
    case AISolution => AITitlesAreKeys();
    case CompanySection => WhoWeAreItemsAreKeys();
  }

  lemma ServiceTitlesAreKeys()
    ensures SERVICE_TITLES.Values == SERVICE_ROUTES.Keys
  {
    var m := SERVICE_TITLES;
    assert m["CLOUD_PRACTICE"] in m.Values && m["DIGITAL_ENGINEERING"] in m.Values;
    assert m["BIG_DATA"] in m.Values && m["APP_MODERNIZATION"] in m.Values;
    assert m["SECURITY"] in m.Values && m["DATABASE_MANAGEMENT"] in m.Values;
    assert m["ERP_TESTING"] in m.Values;
  }

  lemma ProductTitlesAreKeys()
    ensures PRODUCT_TITLES.Values == PRODUCT_ROUTES.Keys
  {
    var m := PRODUCT_TITLES;
    assert m["AGENT_STUDIO"] in m.Values && m["ATLAS_API_MANAGER"] in m.Values;
    assert m["OTTOHM_VIDEO"] in m.Values && m["ITSM_TICKETING"] in m.Values;
    assert m["AI_OPS"] in m.Values && m["SMART_CONTRACTS"] in m.Values;
  }

  lemma AITitlesAreKeys()
    ensures AI_TITLES.Values == AI_ROUTES.Keys
  {
    var m := AI_TITLES;
    assert m["BFSI_AGENTS"] in m.Values && m["BRAND_MANAGEMENT"] in m.Values;
  }

  lemma WhoWeAreItemsAreKeys()
    ensures WHO_WE_ARE_ITEMS.Values == WHO_WE_ARE_ROUTES.Keys
  {
    var m := WHO_WE_ARE_ITEMS;
    assert m["OUR_TEAM"] in m.Values && m["ABOUT_US"] in m.Values;
    assert m["PARTNERS"] in m.Values && m["CAREERS"] in m.Values;
    assert m["NEWS"] in m.Values;
  }

  // ---------------------------------------------------------------------------
  // The resolvers

  /**
   * `TABLE[title] || fallback`: exact, case-sensitive lookup. Because every
   * configured path is non-empty, the default is taken exactly when the title
   * is not a key.
   */
  function Resolve(cat: Category, title: string): (path: string)
    ensures title in Table(cat) ==> path == Table(cat)[title]
    ensures title !in Table(cat) ==> path == Fallback(cat)
  {
    TableValuesBelowRoot(cat);
    var route := Lookup(cat, title);
    if Truthy(route) then route.value else Fallback(cat)
  }

  function GetServiceUrl(serviceTitle: string): (url: string)
    ensures serviceTitle in SERVICE_ROUTES ==> url == SERVICE_ROUTES[serviceTitle] && Below(url, "/services")
    ensures serviceTitle !in SERVICE_ROUTES ==> url == "/"
  {
    TableValuesBelowRoot(Service);
    Resolve(Service, serviceTitle)
  }

  function GetProductUrl(productTitle: string): (url: string)
    ensures productTitle in PRODUCT_ROUTES ==> url == PRODUCT_ROUTES[productTitle] && Below(url, "/products")
    ensures productTitle !in PRODUCT_ROUTES ==> url == "/"
  {
    TableValuesBelowRoot(Product);
    Resolve(Product, productTitle)
  }

  function GetAIUrl(aiTitle: string): (url: string)
    ensures aiTitle in AI_ROUTES ==> url == AI_ROUTES[aiTitle] && Below(url, "/ai")
    ensures aiTitle !in AI_ROUTES ==> url == "/ai"
  {
    TableValuesBelowRoot(AISolution);
    Resolve(AISolution, aiTitle)
  }

  function GetWhoWeAreUrl(item: string): (url: string)
    ensures item in WHO_WE_ARE_ROUTES ==> url == WHO_WE_ARE_ROUTES[item] && Below(url, "/who-we-are")
    ensures item !in WHO_WE_ARE_ROUTES ==> url == "/"
  {
    TableValuesBelowRoot(CompanySection);
    Resolve(CompanySection, item)
  }

  // ---------------------------------------------------------------------------
  // Properties of resolution

  /** Concrete lookups of known titles. */
  lemma ResolverHitExamples()
    ensures GetServiceUrl("Cloud Practice") == "/services/cloud-practice"
    ensures GetServiceUrl("ERP & Testing") == "/services/erp-testing"
    ensures GetServiceUrl("Digital & Product Engineering") == "/services/digital-engineering"
    ensures GetProductUrl("Ottohm Video") == "/products/ottohm-video"
    ensures GetAIUrl("Brand Management Agents") == "/ai/brand-management"
    ensures GetWhoWeAreUrl("News & Updates") == "/who-we-are/news-updates"
  {
  }

  /** Concrete lookups of unknown titles. */
  lemma ResolverMissExamples()
    ensures GetProductUrl("unknown-product") == "/"
    ensures GetAIUrl("nonexistent") == "/ai"
    ensures GetWhoWeAreUrl("News") == "/"
  {
  }

  /** The default is returned if and only if the title is unknown. */
  lemma ResolveFallbackIff(cat: Category, title: string)
    ensures Resolve(cat, title) == Fallback(cat) <==> title !in Table(cat)
  {
  }

  /** The result lies strictly below the category root if and only if the title is known. */
  lemma ResolveBelowRootIff(cat: Category, title: string)
    ensures Below(Resolve(cat, title), Root(cat)) <==> title in Table(cat)
  {
    TableValuesBelowRoot(cat);
  }

  /** Two known titles of one category resolve to the same page only if they are equal. */
  lemma ResolveInjective(cat: Category, t1: string, t2: string)
    requires t1 in Table(cat) && t2 in Table(cat)
    requires Resolve(cat, t1) == Resolve(cat, t2)
    ensures t1 == t2
  {
    TableInjective(cat);
  }

  /** ASCII lower-casing, used to state that lookups do not fold case. */
  function LowerChar(c: char): char
  {
    if 'A' <= c <= 'Z' then (c as int - 'A' as int + 'a' as int) as char else c
  }

  function Lower(s: string): string
  {
    seq(|s|, i requires 0 <= i < |s| => LowerChar(s[i]))
  }

  lemma LowerDecapitalizes(s: string)
    requires |s| > 0 && 'A' <= s[0] <= 'Z'
    ensures |Lower(s)| > 0 && 'a' <= Lower(s)[0] <= 'z'
  {
  }

  /** No key starts with anything but a capital letter. */
  lemma UncapitalizedIsNoKey(cat: Category, s: string)
    requires |s| > 0 && !('A' <= s[0] <= 'Z')
    ensures s !in Table(cat)
  {
  }

  /** Matching does not fold case: a lower-cased known title is not recognised. */
  lemma NoCaseFolding(cat: Category, title: string)
    requires title in Table(cat)
    ensures Resolve(cat, Lower(title)) == Fallback(cat)
  {
    TableTitlesCapitalizedAndLetterEnded(cat);
    LowerDecapitalizes(title);
    UncapitalizedIsNoKey(cat, Lower(title));
  }

  /**
   * Matching does not trim: a known title padded with a blank (space, tab,
   * newline or carriage return) on either side is not recognised.
   */
  lemma NoTrimming(cat: Category, title: string, c: char)
    requires title in Table(cat) && IsBlank(c)
    ensures Resolve(cat, [c] + title) == Fallback(cat)
    ensures Resolve(cat, title + [c]) == Fallback(cat)
  {
    assert [c] + title !in Table(cat) by {
      TableTitlesCapitalizedAndLetterEnded(cat);
      assert ([c] + title)[0] == c;
    }
    var padded := title + [c];
    assert padded !in Table(cat) by {
      TableTitlesCapitalizedAndLetterEnded(cat);
      assert padded[|padded| - 1] == c;
    }
  }

  /** The empty title is in no table. */
  lemma EmptyTitleFallsBack(cat: Category)
    ensures Resolve(cat, "") == Fallback(cat)
  {
  }
}
