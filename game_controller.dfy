/**
 * The storefront API's `GameController`: role-based pricing with flash-sale override for the
 * product list, the search suggestions, and the cache-aside configuration endpoints.
 */
module GameController {
  import opened Wrappers
  import Php
  import opened Records
  import opened AppCache
  import Models
  import Sorting

  // ---------------------------------------------------------------- pricing

  /** The role the prices are computed for, and its profit percentage. */
  datatype Pricing = Pricing(role: Option<Role>, profitPercentage: real)

  predicate IsGuestRole(r: Role) {
    r.name == "guest"
  }

  /**
   * The viewer's role and profit percentage: the signed-in user's role when there is one,
   * otherwise the first role named 'guest' in the roles table, otherwise no role and 0.
   */
  function ViewerPricing(viewer: Option<User>, roles: seq<Role>): (pr: Pricing)
    ensures viewer.Some? && viewer.value.role.Some? ==>
      pr == Pricing(viewer.value.role, viewer.value.role.value.profitPercentage)
    ensures !(viewer.Some? && viewer.value.role.Some?) ==>
      (pr.role.Some? <==> exists i :: 0 <= i < |roles| && roles[i].name == "guest")
    ensures !(viewer.Some? && viewer.value.role.Some?) && pr.role.Some? ==>
      pr.role.value in roles && pr.role.value.name == "guest"
    ensures pr.role.Some? ==> pr.profitPercentage == pr.role.value.profitPercentage
    ensures pr.role.None? ==> pr.profitPercentage == 0.0
  {
    var fromUser := if viewer.Some? then viewer.value.role else None;
    var p := if viewer.Some? then Models.ProfitPercentage(viewer.value) else 0.0;
    if fromUser.Some? then Pricing(fromUser, p)
    else
      match FirstWhere(roles, IsGuestRole)
      case Some(guest) => Pricing(Some(guest), guest.profitPercentage)
      case None => Pricing(None, p)
  }

  /** The role price: the base price with the role's margin added when that margin is positive. */
  function RolePrice(basePrice: real, pr: Pricing): (price: real)
    ensures pr.role.Some? && pr.profitPercentage > 0.0 ==> price == basePrice * (1.0 + pr.profitPercentage / 100.0)
    ensures !(pr.role.Some? && pr.profitPercentage > 0.0) ==> price == basePrice
  {
    if pr.role.Some? && pr.profitPercentage > 0.0 then basePrice * (1.0 + pr.profitPercentage / 100.0)
    else basePrice
  }

  /** A margin never lowers a non-negative price, and without a role there is no margin. */
  lemma RolePriceBounds(basePrice: real, pr: Pricing)
    requires basePrice >= 0.0
    ensures RolePrice(basePrice, pr) >= basePrice
    ensures pr.role.None? ==> RolePrice(basePrice, pr) == basePrice
  {
  }

  /** A sale is running at `now`: active, and `now` inside its window, both ends inclusive. */
  predicate Running(s: FlashSale, now: int) {
    s.isActive && s.startDate <= now <= s.endDate
  }

  /**
   * The flash sale that applies to a product: the first attached sale that is running, in the
   * order of the relation, whatever its discount.
   */
  function ActiveFlashSale(links: seq<FlashSaleLink>, now: int): (r: Option<FlashSaleLink>)
    ensures r.Some? ==> r.value in links && Running(r.value.sale, now)
    ensures r.Some? ==> exists i :: (0 <= i < |links| && links[i] == r.value &&
      forall j :: 0 <= j < i ==> !Running(links[j].sale, now))
    ensures r.None? <==> forall i :: 0 <= i < |links| ==> !Running(links[i].sale, now)
  {
    FirstWhere(links, (l: FlashSaleLink) => Running(l.sale, now))
  }

  /**
   * Discount of `flash` against `price` in percent, to two decimals; 0 when `price` is not positive.
   * Not clamped: a flash price above the role price gives a non-positive percentage.
   */
  function DiscountPercentage(price: real, flash: real): (d: real)
    ensures price <= 0.0 ==> d == 0.0
    ensures price > 0.0 ==> d == Php.Round2((price - flash) / price * 100.0)
    ensures price > 0.0 ==> d - 0.005 <= (price - flash) / price * 100.0 <= d + 0.005
    ensures price > 0.0 && flash <= price ==> d >= 0.0
    ensures price > 0.0 && flash >= price ==> d <= 0.0
  {
    if price > 0.0 then Php.Round2((price - flash) / price * 100.0) else 0.0
  }

  /** The `flash_sale` object of a product. */
  datatype FlashSaleInfo = FlashSaleInfo(
    id: int, name: string, discountedPrice: int, originalPrice: int,
    discountPercentage: real, stock: int, startDate: int, endDate: int, isActive: bool)

  /** The flash-sale object for a running sale: the pivot price, or the role price when it is null. */
  function FlashInfo(link: FlashSaleLink, price: real): (f: FlashSaleInfo)
    ensures f.discountedPrice == Php.Round(link.discountedPrice.GetOr(price))
    ensures f.originalPrice == Php.Round(price)
    ensures f.discountPercentage == DiscountPercentage(price, link.discountedPrice.GetOr(price))
    ensures link.discountedPrice.None? ==> f.discountedPrice == f.originalPrice && f.discountPercentage == 0.0
    ensures f.id == link.sale.id && f.name == link.sale.name
    ensures f.startDate == link.sale.startDate && f.endDate == link.sale.endDate
    ensures f.stock == link.stock.GetOr(0)
    ensures f.isActive
  {
    var flashPrice := link.discountedPrice.GetOr(price);
    FlashSaleInfo(
      link.sale.id, link.sale.name, Php.Round(flashPrice), Php.Round(price),
      DiscountPercentage(price, flashPrice), link.stock.GetOr(0),
      link.sale.startDate, link.sale.endDate, true)
  }

  /** One entry of a category's `products`. */
  datatype ProductView = ProductView(
    id: int, name: string, description: Option<string>, basePrice: real,
    productPrice: int, userRole: Option<Role>, flashSale: Option<FlashSaleInfo>, finalPrice: int,
    iconUrl: Option<string>, provider: string, providerSku: string, displayOrder: int)

  /**
   * A product as listed: its own columns, the rounded role price, the viewer's role carrying the
   * viewer's percentage, the running sale's object, and the price the customer pays.
   */
  function ProductViewOf(env: Models.Env, p: Product, pr: Pricing, now: int): (v: ProductView)
    ensures v.id == p.id && v.name == p.name && v.description == p.description && v.basePrice == p.basePrice
    ensures v.provider == p.provider && v.providerSku == p.providerSku && v.displayOrder == p.displayOrder
    ensures v.iconUrl == Models.ProductIconUrl(env, p.iconPath)
    ensures v.productPrice == Php.Round(RolePrice(p.basePrice, pr))
    ensures v.userRole.Some? <==> pr.role.Some?
    ensures pr.role.Some? ==> v.userRole.value.id == pr.role.value.id && v.userRole.value.name == pr.role.value.name
    ensures pr.role.Some? ==> v.userRole.value.profitPercentage == pr.profitPercentage
    ensures v.flashSale.Some? <==> ActiveFlashSale(p.flashSales, now).Some?
    ensures v.flashSale.Some? ==> v.flashSale.value == FlashInfo(ActiveFlashSale(p.flashSales, now).value, RolePrice(p.basePrice, pr))
    ensures v.flashSale.Some? ==> v.finalPrice == v.flashSale.value.discountedPrice
    ensures v.flashSale.None? ==> v.finalPrice == v.productPrice
  {
    var price := RolePrice(p.basePrice, pr);
    var sale := ActiveFlashSale(p.flashSales, now);
    var info := if sale.Some? then Some(FlashInfo(sale.value, price)) else None;
    var shownRole := if pr.role.Some? then Some(Role(pr.role.value.id, pr.role.value.name, pr.profitPercentage)) else None;
    Php.RoundOfInteger(if info.Some? then info.value.discountedPrice else 0);
    ProductView(
      p.id, p.name, p.description, p.basePrice, Php.Round(price), shownRole, info,
      if info.Some? then Php.Round(info.value.discountedPrice as real) else Php.Round(price),
      Models.ProductIconUrl(env, p.iconPath), p.provider, p.providerSku, p.displayOrder)
  }

  /**
   * final_price is the flash-sale price when a sale applies and the rounded role price otherwise;
   * a sale applies exactly when one attached sale is running.
   */
  lemma FinalPrice(env: Models.Env, p: Product, pr: Pricing, now: int)
    ensures var v := ProductViewOf(env, p, pr, now);
      (v.flashSale.Some? <==> exists i :: 0 <= i < |p.flashSales| && Running(p.flashSales[i].sale, now)) &&
      (v.flashSale.Some? ==> v.finalPrice == v.flashSale.value.discountedPrice) &&
      (v.flashSale.None? ==> v.finalPrice == v.productPrice) &&
      v.productPrice == Php.Round(RolePrice(p.basePrice, pr))
  {
    var v := ProductViewOf(env, p, pr, now);
    if v.flashSale.Some? {
      Php.RoundOfInteger(v.flashSale.value.discountedPrice);
    }
  }

  /**
   * The worked example of the pricing rule: base 100000 with a 10% margin is 110000; a flash
   * price of 90000 is a discount of 18.18%.
   */
  lemma PricingExample(r: Role)
    requires r.profitPercentage == 10.0
    ensures RolePrice(100000.0, Pricing(Some(r), 10.0)) == 110000.0
    ensures DiscountPercentage(110000.0, 90000.0) == 18.18
  {
    assert (110000.0 - 90000.0) / 110000.0 * 100.0 * 100.0 == 20000000.0 / 11000.0;
    assert 1818.0 <= 20000000.0 / 11000.0 + 0.5 < 1819.0;
    assert Php.Round(20000000.0 / 11000.0) == 1818;
  }

  predicate ProductActive(p: Product) {
    p.isActive
  }

  function ProductOrder(p: Product): int {
    p.displayOrder
  }

  predicate CategoryActive(c: ProductCategory) {
    c.isActive
  }

  function CategoryOrder(c: ProductCategory): int {
    c.displayOrder
  }

  /** A product category as listed: its active products by display order. */
  datatype CategoryView = CategoryView(
    id: int, name: string, slug: string, iconPath: Option<string>, iconUrl: Option<string>,
    displayOrder: int, products: seq<ProductView>)

  function ListedProducts(c: ProductCategory): (r: seq<Product>)
    ensures Sorting.SortedByKey(r, ProductOrder)
    ensures multiset(r) == multiset(Filter(c.products, ProductActive))
    ensures |r| == |Filter(c.products, ProductActive)|
  {
    Sorting.SortByKey(Filter(c.products, ProductActive), ProductOrder)
  }

  /** A category as listed: its own columns, and each of its listed products priced for `pr`. */
  function CategoryViewOf(env: Models.Env, c: ProductCategory, pr: Pricing, now: int): (v: CategoryView)
    ensures v.id == c.id && v.name == c.name && v.slug == c.slug && v.displayOrder == c.displayOrder
    ensures v.iconPath == c.iconPath && v.iconUrl == Models.CategoryIconUrl(env, c.iconPath)
    ensures |v.products| == |ListedProducts(c)|
    ensures forall i :: 0 <= i < |v.products| ==> v.products[i] == ProductViewOf(env, ListedProducts(c)[i], pr, now)
  {
    var ps := ListedProducts(c);
    CategoryView(
      c.id, c.name, c.slug, c.iconPath, Models.CategoryIconUrl(env, c.iconPath), c.displayOrder,
      seq(|ps|, i requires 0 <= i < |ps| => ProductViewOf(env, ps[i], pr, now)))
  }

  function ListedCategories(g: Game): (r: seq<ProductCategory>)
    ensures Sorting.SortedByKey(r, CategoryOrder)
    ensures multiset(r) == multiset(Filter(g.categories, CategoryActive))
  {
    Sorting.SortByKey(Filter(g.categories, CategoryActive), CategoryOrder)
  }

  /** `pricing_info`; `marginApplied` says which of the two `price_calculation` texts is shown. */
  datatype PricingInfo = PricingInfo(
    userAuthenticated: bool, userRole: string, profitPercentage: real,
    marginApplied: bool, isGuestDefault: bool)

  datatype ProductsData = ProductsData(
    gameId: int, gameName: string, gameSlug: string, developer: Option<string>,
    categories: seq<CategoryView>, totalProducts: int, pricingInfo: PricingInfo)

  predicate ActiveWithSlug(g: Game, slug: string) {
    g.isActive && g.slug == slug
  }

  function ProductCount(c: CategoryView): int {
    |c.products|
  }

  function ActiveProductCount(c: ProductCategory): int {
    |Filter(c.products, ProductActive)|
  }

  /** `Game::where('is_active', true)->where('slug', $slug)->first()` */
  function ActiveGame(games: seq<Game>, slug: string): (r: Option<Game>)
    ensures r.Some? ==> r.value in games && ActiveWithSlug(r.value, slug)
    ensures r.Some? ==> exists i :: 0 <= i < |games| && games[i] == r.value && forall j :: 0 <= j < i ==> !ActiveWithSlug(games[j], slug)
    ensures r.None? <==> forall i :: 0 <= i < |games| ==> !ActiveWithSlug(games[i], slug)
  {
    FirstWhere(games, (g: Game) => ActiveWithSlug(g, slug))
  }

  /**
   * `GameController::products`: None is the 404 of `firstOrFail` (no active game with that slug);
   * otherwise the game's listed categories, each priced for the viewer, and their product count.
   */
  function Products(env: Models.Env, games: seq<Game>, slug: string, viewer: Option<User>, roles: seq<Role>, now: int): (r: Option<ProductsData>)
    ensures r.None? <==> forall i :: 0 <= i < |games| ==> !ActiveWithSlug(games[i], slug)
    ensures r.Some? ==> var g := ActiveGame(games, slug).value;
      r.value.gameId == g.id && r.value.gameName == g.name && r.value.gameSlug == g.slug && r.value.developer == g.developer
    ensures r.Some? ==> var cs := ListedCategories(ActiveGame(games, slug).value);
      |r.value.categories| == |cs| &&
      forall i :: 0 <= i < |cs| ==> r.value.categories[i] == CategoryViewOf(env, cs[i], ViewerPricing(viewer, roles), now)
    ensures r.Some? ==> r.value.totalProducts == Sorting.SumBy(r.value.categories, ProductCount)
    ensures r.Some? ==> r.value.pricingInfo.userAuthenticated == viewer.Some?
    ensures r.Some? ==> r.value.pricingInfo.profitPercentage == ViewerPricing(viewer, roles).profitPercentage
    ensures r.Some? ==> (r.value.pricingInfo.marginApplied <==> ViewerPricing(viewer, roles).profitPercentage > 0.0)
    ensures r.Some? && viewer.Some? && viewer.value.role.Some? ==>
      r.value.pricingInfo.userRole == viewer.value.role.value.name && !r.value.pricingInfo.isGuestDefault
    ensures r.Some? && !(viewer.Some? && viewer.value.role.Some?) ==>
      r.value.pricingInfo.userRole == "guest" && r.value.pricingInfo.isGuestDefault
  {
    match ActiveGame(games, slug)
    case None => None
    case Some(g) =>
      var pr := ViewerPricing(viewer, roles);
      var cs := ListedCategories(g);
      var views := seq(|cs|, i requires 0 <= i < |cs| => CategoryViewOf(env, cs[i], pr, now));
      Some(ProductsData(
        g.id, g.name, g.slug, g.developer, views, Sorting.SumBy(views, ProductCount),
        PricingInfo(
          viewer.Some?,
          if pr.role.Some? then pr.role.value.name else "guest",
          pr.profitPercentage,
          pr.profitPercentage > 0.0,
          viewer.None? || viewer.value.role.None?)))
  }

  /** total_products counts every active product of every active category of the game. */
  lemma TotalProductsCountsActive(env: Models.Env, games: seq<Game>, slug: string, viewer: Option<User>, roles: seq<Role>, now: int)
    requires Products(env, games, slug, viewer, roles, now).Some?
    ensures exists g :: (g in games && ActiveWithSlug(g, slug) &&
      Products(env, games, slug, viewer, roles, now).value.totalProducts ==
        Sorting.SumBy(Filter(g.categories, CategoryActive), ActiveProductCount))
  {
    var g := ActiveGame(games, slug).value;
    var pr := ViewerPricing(viewer, roles);
    var cs := ListedCategories(g);
    var views := seq(|cs|, i requires 0 <= i < |cs| => CategoryViewOf(env, cs[i], pr, now));
    SumOfViews(env, cs, pr, now);
    Sorting.SumByPermutation(cs, Filter(g.categories, CategoryActive), ActiveProductCount);
  }

  lemma {:induction false} SumOfViews(env: Models.Env, cs: seq<ProductCategory>, pr: Pricing, now: int)
    ensures Sorting.SumBy(seq(|cs|, i requires 0 <= i < |cs| => CategoryViewOf(env, cs[i], pr, now)), ProductCount)
      == Sorting.SumBy(cs, ActiveProductCount)
    decreases |cs|
  {
    var views := seq(|cs|, i requires 0 <= i < |cs| => CategoryViewOf(env, cs[i], pr, now));
    if cs != [] {
      var tail := cs[1..];
      SumOfViews(env, tail, pr, now);
      assert views[1..] == seq(|tail|, i requires 0 <= i < |tail| => CategoryViewOf(env, tail[i], pr, now));
    }
  }

  /** The viewer is reported as a guest default exactly when no signed-in user with a role is present. */
  lemma PricingInfoGuestDefault(env: Models.Env, games: seq<Game>, slug: string, viewer: Option<User>, roles: seq<Role>, now: int)
    requires Products(env, games, slug, viewer, roles, now).Some?
    ensures var info := Products(env, games, slug, viewer, roles, now).value.pricingInfo;
      (info.isGuestDefault <==> !(viewer.Some? && viewer.value.role.Some?)) &&
      (info.isGuestDefault && (forall i :: 0 <= i < |roles| ==> roles[i].name != "guest") ==>
        info.userRole == "guest" && info.profitPercentage == 0.0 && !info.marginApplied)
  {
  }

  // ---------------------------------------------------------------- search suggestions

  datatype Suggestion =
    | GameSuggestion(id: int, name: string, slug: string, developer: Option<string>)
    | DeveloperSuggestion(developerName: string)
    | CategorySuggestion(id: int, name: string, slug: string)

  datatype SuggestionsResponse =
    | ValidationError
    | SuggestionsList(suggestions: seq<Suggestion>, searchTerm: string, total: int)

  /** The `q` rule: present, not blank, between 2 and 255 characters. */
  predicate ValidQuery(q: Option<string>) {
    q.Some? && Php.Trim(q.value) != "" && 2 <= |q.value| <= 255
  }

  /** The kind order of the list: games, then developers, then categories. */
  function Rank(s: Suggestion): int {
    match s
    case GameSuggestion(_, _, _, _) => 0
    case DeveloperSuggestion(_) => 1
    case CategorySuggestion(_, _, _) => 2
  }

  function GameSuggestions(games: seq<Game>, like: (string, string) -> bool, q: string): (r: seq<Suggestion>)
    ensures |r| <= 5
    ensures forall i :: 0 <= i < |r| ==> r[i].GameSuggestion?
  {
    var found := Take(Filter(games, (g: Game) => g.isActive && like(g.name, q)), 5);
    seq(|found|, i requires 0 <= i < |found| => GameSuggestion(found[i].id, found[i].name, found[i].slug, found[i].developer))
  }

  /** Active games' non-null developers that match, without repeats; a null never matches. */
  function DeveloperSuggestions(games: seq<Game>, like: (string, string) -> bool, q: string): (r: seq<Suggestion>)
    ensures |r| <= 3
    ensures forall i :: 0 <= i < |r| ==> r[i].DeveloperSuggestion?
    ensures forall i, j :: 0 <= i < j < |r| ==> r[i] != r[j]
  {
    var matching := Filter(games, (g: Game) => g.isActive && g.developer.Some? && like(g.developer.value, q));
    var names := seq(|matching|, i requires 0 <= i < |matching| => matching[i].developer.GetOr(""));
    var found := Take(Sorting.Dedup(names), 3);
    seq(|found|, i requires 0 <= i < |found| => DeveloperSuggestion(found[i]))
  }

  function CategorySuggestions(categories: seq<Category>, like: (string, string) -> bool, q: string): (r: seq<Suggestion>)
    ensures |r| <= 3
    ensures forall i :: 0 <= i < |r| ==> r[i].CategorySuggestion?
  {
    var found := Take(Filter(categories, (c: Category) => c.isActive && like(c.name, q)), 3);
    seq(|found|, i requires 0 <= i < |found| => CategorySuggestion(found[i].id, found[i].name, found[i].slug))
  }

  /**
   * `GameController::searchSuggestions`. `like(value, q)` is the database's `value LIKE '%q%'`,
   * whose collation this model does not interpret.
   */
  function SearchSuggestions(games: seq<Game>, categories: seq<Category>, like: (string, string) -> bool, q: Option<string>): (r: SuggestionsResponse)
    ensures r.ValidationError? <==> !ValidQuery(q)
    ensures r.SuggestionsList? ==> r.total == |r.suggestions| <= 10 && r.searchTerm == q.value
    ensures r.SuggestionsList? ==> (r.suggestions ==
      Take(GameSuggestions(games, like, q.value) + DeveloperSuggestions(games, like, q.value) + CategorySuggestions(categories, like, q.value), 10))
  {
    if !ValidQuery(q) then ValidationError
    else
      var s := Take(GameSuggestions(games, like, q.value) + DeveloperSuggestions(games, like, q.value) + CategorySuggestions(categories, like, q.value), 10);
      SuggestionsList(s, q.value, |s|)
  }

  /** Games come first, then developers, then categories. */
  lemma SuggestionsOrdered(games: seq<Game>, categories: seq<Category>, like: (string, string) -> bool, q: Option<string>)
    requires ValidQuery(q)
    ensures var s := SearchSuggestions(games, categories, like, q).suggestions;
      forall i, j :: 0 <= i < j < |s| ==> Rank(s[i]) <= Rank(s[j])
  {
    RankedConcat(GameSuggestions(games, like, q.value), DeveloperSuggestions(games, like, q.value),
      CategorySuggestions(categories, like, q.value), 10);
  }

  lemma RankedConcat(gs: seq<Suggestion>, ds: seq<Suggestion>, cs: seq<Suggestion>, n: nat)
    requires forall i :: 0 <= i < |gs| ==> gs[i].GameSuggestion?
    requires forall i :: 0 <= i < |ds| ==> ds[i].DeveloperSuggestion?
    requires forall i :: 0 <= i < |cs| ==> cs[i].CategorySuggestion?
    ensures var s := Take(gs + ds + cs, n);
      forall i, j :: 0 <= i < j < |s| ==> Rank(s[i]) <= Rank(s[j])
  {
    var all := gs + ds + cs;
    forall i | 0 <= i < |all|
      ensures Rank(all[i]) == (if i < |gs| then 0 else if i < |gs| + |ds| then 1 else 2)
    {
      if i < |gs| {
        assert all[i] == gs[i];
      } else if i < |gs| + |ds| {
        assert all[i] == ds[i - |gs|];
      } else {
        assert all[i] == cs[i - |gs| - |ds|];
      }
    }
  }

  /** The limit of 10 never cuts a game or a developer: 5 + 3 + 3 = 11, so only the last category can be dropped. */
  lemma SuggestionsKeepGamesAndDevelopers(games: seq<Game>, categories: seq<Category>, like: (string, string) -> bool, q: Option<string>)
    requires ValidQuery(q)
    ensures var r := SearchSuggestions(games, categories, like, q);
      var gs := GameSuggestions(games, like, q.value);
      var ds := DeveloperSuggestions(games, like, q.value);
      var cs := CategorySuggestions(categories, like, q.value);
      r.suggestions[..|gs| + |ds|] == gs + ds &&
      |r.suggestions| == (if |gs| + |ds| + |cs| <= 10 then |gs| + |ds| + |cs| else 10)
  {
    var gs := GameSuggestions(games, like, q.value);
    var ds := DeveloperSuggestions(games, like, q.value);
    var cs := CategorySuggestions(categories, like, q.value);
    HeadSurvivesTake(gs + ds, cs, 10);
  }

  /** Cutting `head + tail` at `n >= |head|` keeps all of `head`. */
  lemma HeadSurvivesTake(head: seq<Suggestion>, tail: seq<Suggestion>, n: nat)
    requires |head| <= n
    ensures Take(head + tail, n)[..|head|] == head
  {
    assert (head + tail)[..|head|] == head;
  }

  // ---------------------------------------------------------------- configuration endpoints

  /** A JSON answer of the configuration endpoints: the data, and whether it came from the cache. */
  datatype ConfigResponse = Served(data: CacheValue, cached: bool) | NotFound

  /** The game's configuration: the row whose id is its game_configuration_id. */
  function ConfigurationOf(g: Game, configs: seq<GameConfiguration>): (r: Option<GameConfiguration>)
    ensures r.Some? ==> g.configurationId == Some(r.value.id) && r.value in configs
    ensures r.None? <==> g.configurationId.None? || forall i :: 0 <= i < |configs| ==> configs[i].id != g.configurationId.value
  {
    if g.configurationId.None? then None
    else FirstWhere(configs, (c: GameConfiguration) => c.id == g.configurationId.value)
  }

  function Summary(env: Models.Env, c: GameConfiguration): ConfigSummary {
    ConfigSummary(c.id, c.name, c.guideText, Models.GuideImageUrl(env, c.guideImagePath))
  }

  /** The payload `configurationInfo` computes for a game. */
  function InfoData(env: Models.Env, g: Game, configs: seq<GameConfiguration>): (d: ConfigInfoData)
    ensures d.hasConfiguration <==> d.configuration.Some?
    ensures d.hasConfiguration <==> ConfigurationOf(g, configs).Some?
    ensures d.gameId == g.id && d.gameSlug == g.slug
  {
    match ConfigurationOf(g, configs)
    case None => ConfigInfoData(g.id, g.name, g.slug, false, None)
    case Some(c) => ConfigInfoData(g.id, g.name, g.slug, true, Some(Summary(env, c)))
  }

  function FieldOrder(f: ConfigurationField): int {
    f.displayOrder
  }

  /** The payload `configurationFields` computes: fields by display order, with their count. */
  function FieldsData(env: Models.Env, g: Game, configs: seq<GameConfiguration>): (d: ConfigFieldsData)
    ensures d.totalFields == |d.fields|
    ensures Sorting.SortedByKey(d.fields, FieldOrder)
    ensures d.configuration.None? ==> d.fields == []
    ensures d.configuration.Some? <==> ConfigurationOf(g, configs).Some?
    ensures ConfigurationOf(g, configs).Some? ==> multiset(d.fields) == multiset(ConfigurationOf(g, configs).value.fields)
  {
    match ConfigurationOf(g, configs)
    case None => ConfigFieldsData(g.id, g.name, g.slug, None, [], 0)
    case Some(c) =>
      var fs := Sorting.SortByKey(c.fields, FieldOrder);
      ConfigFieldsData(g.id, g.name, g.slug, Some(Summary(env, c)), fs, |fs|)
  }

  /**
   * `GameController::configurationInfo`: a truthy cached value is served as is, before any
   * lookup; otherwise the active game with the slug is looked up (404 if none) and its payload
   * is stored under `game_config_info_{slug}`.
   */
  method ConfigurationInfo(cache: Cache, env: Models.Env, games: seq<Game>, configs: seq<GameConfiguration>, slug: string)
    returns (resp: ConfigResponse)
    modifies cache
    ensures Truthy(old(cache.Get(InfoKey(slug)))) ==>
      resp == Served(old(cache.Get(InfoKey(slug))), true) && cache.entries == old(cache.entries)
    ensures !Truthy(old(cache.Get(InfoKey(slug)))) ==>
      match FirstWhere(games, (g: Game) => ActiveWithSlug(g, slug))
      case None => resp == NotFound && cache.entries == old(cache.entries)
      case Some(g) =>
        resp == Served(Info(InfoData(env, g, configs)), false) &&
        cache.entries == old(cache.entries)[InfoKey(slug) := Info(InfoData(env, g, configs))]
  {
    var key := InfoKey(slug);
    var cached := cache.Get(key);
    if Truthy(cached) {
      return Served(cached, true);
    }
    var game := FirstWhere(games, (g: Game) => ActiveWithSlug(g, slug));
    if game.None? {
      return NotFound;
    }
    var data := Info(InfoData(env, game.value, configs));
    cache.Put(key, data);
    resp := Served(data, false);
  }

  /** `GameController::configurationFields`: the same cache-aside read under `game_config_fields_{slug}`. */
  method ConfigurationFields(cache: Cache, env: Models.Env, games: seq<Game>, configs: seq<GameConfiguration>, slug: string)
    returns (resp: ConfigResponse)
    modifies cache
    ensures Truthy(old(cache.Get(FieldsKey(slug)))) ==>
      resp == Served(old(cache.Get(FieldsKey(slug))), true) && cache.entries == old(cache.entries)
    ensures !Truthy(old(cache.Get(FieldsKey(slug)))) ==>
      match FirstWhere(games, (g: Game) => ActiveWithSlug(g, slug))
      case None => resp == NotFound && cache.entries == old(cache.entries)
      case Some(g) =>
        resp == Served(Fields(FieldsData(env, g, configs)), false) &&
        cache.entries == old(cache.entries)[FieldsKey(slug) := Fields(FieldsData(env, g, configs))]
  {
    var key := FieldsKey(slug);
    var cached := cache.Get(key);
    if Truthy(cached) {
      return Served(cached, true);
    }
    var game := FirstWhere(games, (g: Game) => ActiveWithSlug(g, slug));
    if game.None? {
      return NotFound;
    }
    var data := Fields(FieldsData(env, game.value, configs));
    cache.Put(key, data);
    resp := Served(data, false);
  }

  /**
   * After a miss the second request is served from the cache with the same payload, even if
   * the game has meanwhile been deactivated or removed.
   */
  method InfoServedFromCacheAfterMiss(cache: Cache, env: Models.Env, games: seq<Game>, later: seq<Game>, configs: seq<GameConfiguration>, slug: string)
    returns (first: ConfigResponse, second: ConfigResponse)
    modifies cache
    ensures first.Served? ==> second == Served(first.data, true)
  {
    first := ConfigurationInfo(cache, env, games, configs, slug);
    second := ConfigurationInfo(cache, env, later, [], slug);
  }
}
