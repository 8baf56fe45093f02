/**
 * The admin product list's "Get Products from Digiflazz" action (`ListProducts`): the game
 * options built from the Digiflazz price list, the product-type options for a game, and the
 * sync that upserts the matching price-list entries into the products table.
 *
 * The price-list request is a `PriceListClient` holding the reply it will give; `md5` (the request
 * signature) arrives as a parameter.
 */
module ListProducts {
  import opened Wrappers
  import Php
  import opened Records
  import opened AppCache
  import Sorting

  // ---------------------------------------------------------------- the price list

  /**
   * One element of the reply's `data` array: either not an array, or an entry whose fields are
   * null when missing (`isset` is false for both).
   */
  datatype ApiEntry =
    | NotAnArray
    | Entry(brand: Option<string>, productType: Option<string>, buyerSkuCode: Option<string>,
            productName: Option<string>, price: Option<real>, sellerProductStatus: Option<bool>)

  /** The reply: HTTP failure and status, the `rc` and `message` fields, and `data` when it is an array. */
  datatype ApiResponse = ApiResponse(failed: bool, status: int, rc: Option<string>, message: Option<string>, data: Option<seq<ApiEntry>>)

  /** Why a reply cannot be used. */
  datatype Problem = ConnectFailed(status: int) | RateLimit | InvalidFormat

  /** The reply checks, in the order the action makes them. */
  function ReplyProblem(r: ApiResponse): (p: Option<Problem>)
    ensures p.None? <==> (!r.failed && r.rc != Some("83") &&
      !(r.message.Some? && Php.Contains(r.message.value, "limitasi")) && r.data.Some?)
    ensures r.failed ==> p == Some(ConnectFailed(r.status))
    ensures !r.failed && r.rc == Some("83") ==> p == Some(RateLimit)
  {
    if r.failed then Some(ConnectFailed(r.status))
    else if r.rc == Some("83") then Some(RateLimit)
    else if r.message.Some? && Php.Contains(r.message.value, "limitasi") then Some(RateLimit)
    else if r.data.None? then Some(InvalidFormat)
    else None
  }

  /** The Digiflazz price-list endpoint: every call posts a signature and gets the same reply. */
  class PriceListClient {
    const reply: ApiResponse
    var sentSignatures: seq<string>

    constructor (reply: ApiResponse)
      ensures this.reply == reply && sentSignatures == []
    {
      this.reply := reply;
      sentSignatures := [];
    }

    method Post(signature: string) returns (r: ApiResponse)
      modifies this
      ensures r == reply
      ensures sentSignatures == old(sentSignatures) + [signature]
    {
      sentSignatures := sentSignatures + [signature];
      r := reply;
    }
  }

  /** `!$username || !$apiKey` on the two Digiflazz settings. */
  predicate HasCredentials(settings: map<string, string>) {
    Php.TruthyOpt(SettingValue(settings, "digiflazz_username")) && Php.TruthyOpt(SettingValue(settings, "digiflazz_api_key"))
  }

  /** `md5($username . $apiKey . 'pricelist')` */
  function Signature(settings: map<string, string>, md5: string -> string): string {
    md5(Php.OrEmpty(SettingValue(settings, "digiflazz_username")) + Php.OrEmpty(SettingValue(settings, "digiflazz_api_key")) + "pricelist")
  }

  const MissingCredentialsText := "Please fill in Digiflazz Username & API Key in Settings"
  const RateLimitText := "Digiflazz API rate limit reached. Please wait a few minutes and try again."
  const NoGamesText := "No games found that match available Digiflazz brands. Available brands: "

  function ProblemText(p: Problem): string {
    match p
    case ConnectFailed(status) => "Cannot connect to Digiflazz API. Status: " + Php.IntToString(status)
    case RateLimit => RateLimitText
    case InvalidFormat => "Invalid API response format. Response: "
  }

  /** A select that can only show an error: the single option keyed 'error'. */
  function ErrorOption(text: string): seq<SelectOption> {
    [SelectOption("error", text)]
  }

  /** `implode(', ', $items)` */
  function Join(items: seq<string>): string {
    if items == [] then "" else if |items| == 1 then items[0] else Join(items[..|items| - 1]) + ", " + items[|items| - 1]
  }

  // ---------------------------------------------------------------- brands and game options

  /** An array entry that has a brand. */
  predicate HasBrand(e: ApiEntry) {
    e.Entry? && e.brand.Some?
  }

  /** The brand of an entry, trimmed and upper-cased. */
  function BrandOf(e: ApiEntry): string {
    if HasBrand(e) then Php.Normalize(e.brand.value) else ""
  }

  /** The normalised brands the price list names, entry by entry. */
  function ListedBrands(data: seq<ApiEntry>): seq<string> {
    Select(data, HasBrand, BrandOf)
  }

  /**
   * The brand loop and `sort`: the normalised brand of every entry that is an array with a
   * brand, each once, in ascending order.
   */
  method CollectBrands(data: seq<ApiEntry>) returns (brands: seq<string>)
    ensures Sorting.SortedStrings(brands)
    ensures Sorting.Distinct(brands)
    ensures forall b :: b in brands <==> b in ListedBrands(data)
  {
    var found: seq<string> := [];
    for i := 0 to |data|
      invariant Sorting.Distinct(found)
      invariant forall b :: b in found <==> b in ListedBrands(data[..i])
    {
      assert data[..i + 1][..i] == data[..i];
      assert ListedBrands(data[..i + 1]) ==
        ListedBrands(data[..i]) + (if HasBrand(data[i]) then [BrandOf(data[i])] else []);
      if data[i].Entry? && data[i].brand.Some? {
        var brand := Php.Normalize(data[i].brand.value);
        if brand !in found {
          found := found + [brand];
        }
      }
    }
    assert data[..|data|] == data;
    Sorting.SortDistinctStrings(found);
    brands := Sorting.SortStrings(found);
  }

  /** A brand is listed exactly when some entry with a brand normalises to it. */
  lemma ListedBrandsMembers(data: seq<ApiEntry>, b: string)
    ensures b in ListedBrands(data) <==> exists i :: 0 <= i < |data| && data[i].Entry? && data[i].brand.Some? && Php.Normalize(data[i].brand.value) == b
  {
    SelectMembers(data, HasBrand, BrandOf);
  }

  /** A game is offered when it is active and its normalised brand is one of the price list's. */
  predicate Offered(g: Game, brands: seq<string>) {
    g.isActive && Php.Normalize(Php.OrEmpty(g.brand)) in brands
  }

  /** The option of a game: keyed by its id, labelled "name (brand)". */
  function GameOption(g: Game): SelectOption {
    SelectOption(Php.IntToString(g.id), g.name + " (" + Php.OrEmpty(g.brand) + ")")
  }

  /** The options of the offered games, in table order. */
  function OfferedOptions(games: seq<Game>, brands: seq<string>): seq<SelectOption> {
    Select(games, (g: Game) => Offered(g, brands), GameOption)
  }

  /** Exactly the offered games have an option, so there is none exactly when no game is offered. */
  lemma OfferedOptionsMembers(games: seq<Game>, brands: seq<string>)
    ensures forall o :: o in OfferedOptions(games, brands) <==>
      exists i :: 0 <= i < |games| && Offered(games[i], brands) && o == GameOption(games[i])
    ensures OfferedOptions(games, brands) == [] <==> forall i :: 0 <= i < |games| ==> !Offered(games[i], brands)
  {
    SelectMembers(games, (g: Game) => Offered(g, brands), GameOption);
    var r := OfferedOptions(games, brands);
    if r != [] {
      assert r[0] in r;
      var i :| 0 <= i < |games| && Offered(games[i], brands) && r[0] == GameOption(games[i]);
    }
  }

  /** Only which brands are listed matters, not their order or repeats. */
  lemma OfferedOptionsSameBrands(games: seq<Game>, a: seq<string>, b: seq<string>)
    requires forall x :: x in a <==> x in b
    ensures OfferedOptions(games, a) == OfferedOptions(games, b)
  {
    SelectSameTest(games, (g: Game) => Offered(g, a), (g: Game) => Offered(g, b), GameOption);
  }

  /** The loop over active games: one option per offered game, in table order. */
  method MatchingGameOptions(games: seq<Game>, brands: seq<string>) returns (options: seq<SelectOption>)
    ensures options == OfferedOptions(games, brands)
  {
    options := [];
    for i := 0 to |games|
      invariant options == OfferedOptions(games[..i], brands)
    {
      assert games[..i + 1][..i] == games[..i];
      if games[i].isActive && Php.Normalize(Php.OrEmpty(games[i].brand)) in brands {
        options := options + [GameOption(games[i])];
      }
    }
    assert games[..|games|] == games;
  }

  /**
   * The options of the Game select. Without both credentials no request is sent; a reply that
   * cannot be used gives a single error option, and so does one whose brands match no active
   * game (listing at most ten of the brands).
   */
  method GameOptions(client: PriceListClient, md5: string -> string, settings: map<string, string>, games: seq<Game>)
    returns (options: seq<SelectOption>)
    modifies client
    ensures !HasCredentials(settings) ==>
      options == ErrorOption(MissingCredentialsText) && client.sentSignatures == old(client.sentSignatures)
    ensures HasCredentials(settings) ==> client.sentSignatures == old(client.sentSignatures) + [Signature(settings, md5)]
    ensures HasCredentials(settings) && ReplyProblem(client.reply).Some? ==>
      options == ErrorOption(ProblemText(ReplyProblem(client.reply).value))
    ensures HasCredentials(settings) && ReplyProblem(client.reply).None? ==>
      var offered := OfferedOptions(games, ListedBrands(client.reply.data.value));
      (offered != [] ==> options == offered) &&
      (offered == [] ==> |options| == 1 && options[0].key == "error" && Php.StartsWith(options[0].text, NoGamesText))
    ensures (HasCredentials(settings) && ReplyProblem(client.reply).None? &&
      OfferedOptions(games, ListedBrands(client.reply.data.value)) == []) ==>
      exists brands :: Sorting.SortedStrings(brands) && Sorting.Distinct(brands) &&
        (forall b :: b in brands <==> b in ListedBrands(client.reply.data.value)) &&
        options == ErrorOption(NoGamesText + Join(Take(brands, 10)))
  {
    if !HasCredentials(settings) {
      return ErrorOption(MissingCredentialsText);
    }
    var reply := client.Post(Signature(settings, md5));
    var problem := ReplyProblem(reply);
    if problem.Some? {
      return ErrorOption(ProblemText(problem.value));
    }
    var brands := CollectBrands(reply.data.value);
    OfferedOptionsSameBrands(games, brands, ListedBrands(reply.data.value));
    options := MatchingGameOptions(games, brands);
    if options == [] {
      var text := NoGamesText + Join(Take(brands, 10));
      assert text[..|NoGamesText|] == NoGamesText;
      options := ErrorOption(text);
    }
  }

  // ---------------------------------------------------------------- types

  /** An array entry with a brand and a type, whose normalised brand is the game's. */
  predicate OfGameBrand(e: ApiEntry, gameBrand: Option<string>) {
    e.Entry? && e.brand.Some? && e.productType.Some? &&
    Php.Normalize(e.brand.value) == Php.Normalize(Php.OrEmpty(gameBrand))
  }

  /** The trimmed type of an entry, case kept. */
  function TypeOf(e: ApiEntry): string {
    if e.Entry? && e.productType.Some? then Php.Trim(e.productType.value) else ""
  }

  /** The types of the entries of the game's brand, entry by entry. */
  function ListedTypes(data: seq<ApiEntry>, gameBrand: Option<string>): seq<string> {
    Select(data, (e: ApiEntry) => OfGameBrand(e, gameBrand), TypeOf)
  }

  /** A type is listed exactly when an entry of the game's brand has it, once trimmed. */
  lemma ListedTypesMembers(data: seq<ApiEntry>, gameBrand: Option<string>, t: string)
    ensures t in ListedTypes(data, gameBrand) <==> exists i :: 0 <= i < |data| && OfGameBrand(data[i], gameBrand) && Php.Trim(data[i].productType.value) == t
  {
    SelectMembers(data, (e: ApiEntry) => OfGameBrand(e, gameBrand), TypeOf);
  }

  lemma ListedTypesSnoc(data: seq<ApiEntry>, gameBrand: Option<string>, i: int)
    requires 0 <= i < |data|
    ensures ListedTypes(data[..i + 1], gameBrand) ==
      ListedTypes(data[..i], gameBrand) + (if OfGameBrand(data[i], gameBrand) then [TypeOf(data[i])] else [])
  {
    assert data[..i + 1][..i] == data[..i];
  }

  /** The type loop and `sort`: each type of the game's brand once, trimmed, ascending. */
  method CollectTypes(data: seq<ApiEntry>, gameBrand: Option<string>) returns (types: seq<string>)
    ensures Sorting.SortedStrings(types)
    ensures Sorting.Distinct(types)
    ensures forall t :: t in types <==> t in ListedTypes(data, gameBrand)
  {
    var found: seq<string> := [];
    var searchBrand := Php.Normalize(Php.OrEmpty(gameBrand));
    for i := 0 to |data|
      invariant Sorting.Distinct(found)
      invariant forall t :: t in found <==> t in ListedTypes(data[..i], gameBrand)
    {
      var e := data[i];
      ListedTypesSnoc(data, gameBrand, i);
      if e.Entry? && e.brand.Some? && e.productType.Some? {
        var apiBrand := Php.Normalize(e.brand.value);
        var apiType := Php.Trim(e.productType.value);
        if apiBrand == searchBrand && apiType !in found {
          found := found + [apiType];
        }
      }
    }
    assert data[..|data|] == data;
    Sorting.SortDistinctStrings(found);
    types := Sorting.SortStrings(found);
  }

  const AllOption := SelectOption("ALL", "All Types")

  /** The hard-coded list offered for Mobile Legends when the price list has no type for it. */
  const MobileLegendsFallback := [
    AllOption,
    SelectOption("Umum", "Umum"),
    SelectOption("Membership", "Membership"),
    SelectOption("Malaysia", "Malaysia"),
    SelectOption("Global", "Global"),
    SelectOption("Filipina", "Filipina"),
    SelectOption("Brazil", "Brazil")]

  predicate NotAll(t: string) {
    t != "ALL"
  }

  /**
   * The options built from the types: 'ALL' first, then one option per type. The array union
   * keeps the left 'ALL', so a type literally named 'ALL' adds nothing.
   */
  function TypeOptionsFrom(types: seq<string>, gameBrand: Option<string>): (r: seq<SelectOption>)
    ensures types == [] && Php.Upper(Php.OrEmpty(gameBrand)) == "MOBILE LEGENDS" ==> r == MobileLegendsFallback
    ensures !(types == [] && Php.Upper(Php.OrEmpty(gameBrand)) == "MOBILE LEGENDS") ==>
      |r| >= 1 && r[0] == AllOption &&
      (forall t :: t in types && t != "ALL" ==> SelectOption(t, t) in r[1..]) &&
      (forall i :: 1 <= i < |r| ==> r[i].key == r[i].text && r[i].key in types && r[i].key != "ALL")
    ensures !(types == [] && Php.Upper(Php.OrEmpty(gameBrand)) == "MOBILE LEGENDS") ==>
      var rest := Filter(types, NotAll);
      r == [AllOption] + seq(|rest|, i requires 0 <= i < |rest| => SelectOption(rest[i], rest[i]))
  {
    if types == [] && Php.Upper(Php.OrEmpty(gameBrand)) == "MOBILE LEGENDS" then MobileLegendsFallback
    else
      var rest := Filter(types, NotAll);
      var opts := seq(|rest|, i requires 0 <= i < |rest| => SelectOption(rest[i], rest[i]));
      assert forall t :: t in types && t != "ALL" ==> SelectOption(t, t) in opts by {
        forall t | t in types && t != "ALL" ensures SelectOption(t, t) in opts {
          var i :| 0 <= i < |types| && types[i] == t;
          assert NotAll(types[i]);
          var j :| 0 <= j < |rest| && rest[j] == t;
          assert opts[j] == SelectOption(t, t);
        }
      }
      assert ([AllOption] + opts)[1..] == opts;
      [AllOption] + opts
  }

  /** Filtering keeps an ordered list of strings ordered. */
  lemma {:induction false} FilterSortedStrings(s: seq<string>, p: string -> bool)
    requires Sorting.SortedStrings(s)
    ensures Sorting.SortedStrings(Filter(s, p))
    decreases |s|
  {
    if s != [] {
      var tail := s[1..];
      assert Sorting.SortedStrings(tail) by {
        forall i, j | 0 <= i < j < |tail| ensures Php.StrLe(tail[i], tail[j]) {
          assert tail[i] == s[i + 1] && tail[j] == s[j + 1];
        }
      }
      FilterSortedStrings(tail, p);
      var rest := Filter(tail, p);
      if p(s[0]) {
        forall j | 0 <= j < |rest| ensures Php.StrLe(s[0], rest[j]) {
          assert rest[j] in tail;
          var k :| 0 <= k < |tail| && tail[k] == rest[j];
          assert s[k + 1] == rest[j];
        }
        Sorting.ConsSorted(s[0], rest);
      }
    }
  }

  /** The options of a list of types, after 'ALL', in the list's order. */
  lemma OptionsFollowTypes(rest: seq<string>)
    requires Sorting.SortedStrings(rest)
    ensures var r := [AllOption] + seq(|rest|, i requires 0 <= i < |rest| => SelectOption(rest[i], rest[i]));
      forall i, j :: 1 <= i < j < |r| ==> Php.StrLe(r[i].key, r[j].key)
  {
    var r := [AllOption] + seq(|rest|, i requires 0 <= i < |rest| => SelectOption(rest[i], rest[i]));
    forall i, j | 1 <= i < j < |r| ensures Php.StrLe(r[i].key, r[j].key) {
      assert r[i].key == rest[i - 1] && r[j].key == rest[j - 1];
    }
  }

  /** Built from sorted types, the options after 'ALL' keep the types' ascending order. */
  lemma TypeOptionsOrdered(types: seq<string>, gameBrand: Option<string>)
    requires Sorting.SortedStrings(types)
    ensures var r := TypeOptionsFrom(types, gameBrand);
      !(types == [] && Php.Upper(Php.OrEmpty(gameBrand)) == "MOBILE LEGENDS") ==>
      forall i, j :: 1 <= i < j < |r| ==> Php.StrLe(r[i].key, r[j].key)
  {
    FilterSortedStrings(types, NotAll);
    OptionsFollowTypes(Filter(types, NotAll));
  }

  /** Distinct types give options with distinct keys. */
  lemma TypeOptionKeysDistinct(types: seq<string>, gameBrand: Option<string>)
    requires Sorting.Distinct(types)
    ensures var r := TypeOptionsFrom(types, gameBrand);
      forall i, j :: 0 <= i < j < |r| ==> r[i].key != r[j].key
  {
    var r := TypeOptionsFrom(types, gameBrand);
    if !(types == [] && Php.Upper(Php.OrEmpty(gameBrand)) == "MOBILE LEGENDS") {
      FilterDistinct(types, NotAll);
    }
  }

  /** Whether the selected game value names a game (`!$gameId`, or an error key). */
  predicate UsableGameId(gameId: Option<string>) {
    gameId.Some? && Php.Truthy(gameId.value) && !Php.Contains(gameId.value, "error")
  }

  /** `Game::find($id)` */
  function FindGame(games: seq<Game>, id: string): (r: Option<Game>)
    ensures r.Some? ==> r.value in games && Php.IntToString(r.value.id) == id
    ensures r.None? ==> forall i :: 0 <= i < |games| ==> Php.IntToString(games[i].id) != id
  {
    FirstWhere(games, (g: Game) => Php.IntToString(g.id) == id)
  }

  /** The options of the Product Type select for the selected game. */
  method TypeOptions(client: PriceListClient, md5: string -> string, settings: map<string, string>, games: seq<Game>, gameId: Option<string>)
    returns (options: seq<SelectOption>)
    modifies client
    ensures !UsableGameId(gameId) || FindGame(games, gameId.value).None? ==>
      options == [] && client.sentSignatures == old(client.sentSignatures)
    ensures UsableGameId(gameId) && FindGame(games, gameId.value).Some? && !HasCredentials(settings) ==>
      options == ErrorOption(MissingCredentialsText) && client.sentSignatures == old(client.sentSignatures)
    ensures UsableGameId(gameId) && FindGame(games, gameId.value).Some? && HasCredentials(settings) ==>
      client.sentSignatures == old(client.sentSignatures) + [Signature(settings, md5)]
    ensures UsableGameId(gameId) && FindGame(games, gameId.value).Some? && HasCredentials(settings) && ReplyProblem(client.reply).Some? ==>
      options == ErrorOption(ProblemText(ReplyProblem(client.reply).value))
    ensures UsableGameId(gameId) && FindGame(games, gameId.value).Some? && HasCredentials(settings) && ReplyProblem(client.reply).None? ==>
      exists types :: Sorting.SortedStrings(types) && Sorting.Distinct(types) &&
        (forall t :: t in types <==> t in ListedTypes(client.reply.data.value, FindGame(games, gameId.value).value.brand)) &&
        options == TypeOptionsFrom(types, FindGame(games, gameId.value).value.brand)
  {
    if !UsableGameId(gameId) {
      return [];
    }
    var game := FindGame(games, gameId.value);
    if game.None? {
      return [];
    }
    if !HasCredentials(settings) {
      return ErrorOption(MissingCredentialsText);
    }
    var reply := client.Post(Signature(settings, md5));
    var problem := ReplyProblem(reply);
    if problem.Some? {
      return ErrorOption(ProblemText(problem.value));
    }
    var types := CollectTypes(reply.data.value, game.value.brand);
    options := TypeOptionsFrom(types, game.value.brand);
  }

  // ---------------------------------------------------------------- sync

  /** Products are identified by (provider, provider_sku). */
  datatype ProductKey = ProductKey(provider: string, sku: string)

  /** The columns of a product row that the sync reads or writes. */
  datatype ProductRow = ProductRow(
    name: string, basePrice: int, isActive: bool, gameId: int, categoryId: int,
    displayOrder: int, description: Option<string>, iconPath: Option<string>)

  /** The values `updateOrCreate` sets. */
  datatype SyncValues = SyncValues(name: string, basePrice: int, isActive: bool, gameId: int, categoryId: int)

  /** `updateOrCreate`'s row: the existing one with the values set, or a new row with column defaults. */
  function Upserted(rows: map<ProductKey, ProductRow>, key: ProductKey, v: SyncValues): (row: ProductRow)
    ensures row.name == v.name && row.basePrice == v.basePrice && row.isActive == v.isActive
    ensures row.gameId == v.gameId && row.categoryId == v.categoryId
    ensures key in rows ==> row.displayOrder == rows[key].displayOrder && row.description == rows[key].description && row.iconPath == rows[key].iconPath
    ensures key !in rows ==> row.displayOrder == 0 && row.description.None? && row.iconPath.None?
  {
    if key in rows then rows[key].(name := v.name, basePrice := v.basePrice, isActive := v.isActive, gameId := v.gameId, categoryId := v.categoryId)
    else ProductRow(v.name, v.basePrice, v.isActive, v.gameId, v.categoryId, 0, None, None)
  }

  /** The products table, keyed by (provider, provider_sku). */
  class ProductTable {
    var rows: map<ProductKey, ProductRow>

    constructor (initial: map<ProductKey, ProductRow>)
      ensures rows == initial
    {
      rows := initial;
    }

    /** `Product::updateOrCreate(key, values)` */
    method UpdateOrCreate(key: ProductKey, v: SyncValues)
      modifies this
      ensures rows == old(rows)[key := Upserted(old(rows), key, v)]
    {
      rows := rows[key := Upserted(rows, key, v)];
    }
  }

  /** What the sync matches against: the selected type, the game's brand and the ids it writes. */
  datatype SyncTarget = SyncTarget(selectedType: string, gameBrand: Option<string>, gameId: int, categoryId: int)

  /** An entry with all six fields the sync needs. */
  predicate Complete(e: ApiEntry) {
    e.Entry? && e.brand.Some? && e.productType.Some? && e.buyerSkuCode.Some? &&
    e.productName.Some? && e.price.Some? && e.sellerProductStatus.Some?
  }

  /** A complete entry of the game's brand whose untrimmed type is the selected one, or any type for 'ALL'. */
  predicate Matches(e: ApiEntry, t: SyncTarget) {
    Complete(e) && Php.Normalize(e.brand.value) == Php.Normalize(Php.OrEmpty(t.gameBrand)) &&
    (t.selectedType == "ALL" || e.productType.value == t.selectedType)
  }

  function KeyOf(e: ApiEntry): ProductKey
    requires Complete(e)
  {
    ProductKey("digiflazz", e.buyerSkuCode.value)
  }

  function ValuesOf(e: ApiEntry, t: SyncTarget): SyncValues
    requires Complete(e)
  {
    SyncValues(e.productName.value, Php.Round(e.price.value), e.sellerProductStatus.value, t.gameId, t.categoryId)
  }

  /** The table after the loop has seen `data`, one entry at a time. */
  function Synced(rows: map<ProductKey, ProductRow>, data: seq<ApiEntry>, t: SyncTarget): map<ProductKey, ProductRow> {
    if data == [] then rows
    else
      var before := Synced(rows, data[..|data| - 1], t);
      var e := data[|data| - 1];
      if Matches(e, t) then before[KeyOf(e) := Upserted(before, KeyOf(e), ValuesOf(e, t))] else before
  }

  /** Number of matching entries; a SKU that appears twice counts twice. */
  function MatchCount(data: seq<ApiEntry>, t: SyncTarget): nat {
    |Filter(data, (e: ApiEntry) => Matches(e, t))|
  }

  /** The sync loop: every matching entry is upserted, in order, and counted. */
  method SyncEntries(table: ProductTable, data: seq<ApiEntry>, t: SyncTarget) returns (syncedCount: nat)
    modifies table
    ensures table.rows == Synced(old(table.rows), data, t)
    ensures syncedCount == MatchCount(data, t)
  {
    syncedCount := 0;
    for i := 0 to |data|
      invariant table.rows == Synced(old(table.rows), data[..i], t)
      invariant syncedCount == MatchCount(data[..i], t)
    {
      assert data[..i + 1][..i] == data[..i];
      FilterAppend(data[..i], [data[i]], (e: ApiEntry) => Matches(e, t));
      assert data[..i + 1] == data[..i] + [data[i]];
      var e := data[i];
      if Complete(e) {
        var productType := e.productType.value;
        var apiBrand := Php.Normalize(e.brand.value);
        var searchBrand := Php.Normalize(Php.OrEmpty(t.gameBrand));
        if apiBrand == searchBrand && (t.selectedType == "ALL" || productType == t.selectedType) {
          table.UpdateOrCreate(KeyOf(e), ValuesOf(e, t));
          syncedCount := syncedCount + 1;
        }
      }
    }
    assert data[..|data|] == data;
  }

  /** The last matching entry for a SKU: the one whose values the row ends up with. */
  function LastMatch(data: seq<ApiEntry>, t: SyncTarget, sku: string): (r: Option<ApiEntry>)
    ensures r.Some? ==> Matches(r.value, t) && r.value.buyerSkuCode == Some(sku) && r.value in data
  {
    if data == [] then None
    else
      var e := data[|data| - 1];
      if Matches(e, t) && e.buyerSkuCode == Some(sku) then Some(e) else LastMatch(data[..|data| - 1], t, sku)
  }

  /**
   * The table after the sync, key by key: a Digiflazz SKU that some matching entry names holds the
   * values of the last such entry; every other row is unchanged and no other row appears.
   */
  lemma {:induction false} SyncedRows(rows: map<ProductKey, ProductRow>, data: seq<ApiEntry>, t: SyncTarget, k: ProductKey)
    ensures var after := Synced(rows, data, t);
      var last := if k.provider == "digiflazz" then LastMatch(data, t, k.sku) else None;
      (k in after <==> k in rows || last.Some?) &&
      (last.Some? ==> after[k] == Upserted(rows, k, ValuesOf(last.value, t))) &&
      (last.None? && k in rows ==> after[k] == rows[k])
    decreases |data|
  {
    if data != [] {
      var prefix := data[..|data| - 1];
      var e := data[|data| - 1];
      SyncedRows(rows, prefix, t, k);
      if Matches(e, t) && KeyOf(e) == k {
        var before := Synced(rows, prefix, t);
        var lastBefore := LastMatch(prefix, t, k.sku);
        if lastBefore.Some? {
          assert before[k] == Upserted(rows, k, ValuesOf(lastBefore.value, t));
        }
      }
    }
  }

  /** Syncing the same price list twice leaves the table as syncing it once. */
  lemma SyncIdempotent(rows: map<ProductKey, ProductRow>, data: seq<ApiEntry>, t: SyncTarget)
    ensures Synced(Synced(rows, data, t), data, t) == Synced(rows, data, t)
  {
    var once := Synced(rows, data, t);
    var twice := Synced(once, data, t);
    forall k ensures (k in twice <==> k in once) && (k in twice ==> twice[k] == once[k]) {
      SyncedRows(rows, data, t, k);
      SyncedRows(once, data, t, k);
    }
  }

  /** Rows of other providers, and SKUs no matching entry names, are never touched. */
  lemma SyncLeavesOthers(rows: map<ProductKey, ProductRow>, data: seq<ApiEntry>, t: SyncTarget, k: ProductKey)
    requires k in rows
    requires k.provider != "digiflazz" || forall i :: 0 <= i < |data| ==> !(Matches(data[i], t) && data[i].buyerSkuCode == Some(k.sku))
    ensures k in Synced(rows, data, t) && Synced(rows, data, t)[k] == rows[k]
  {
    SyncedRows(rows, data, t, k);
  }

  /** How the action ended: a failure notification, or the sync with its count and type label. */
  datatype SyncOutcome =
    | InvalidGameId
    | MissingCredentials
    | GameNotFound
    | ReplyRejected(problem: Problem)
    | NoProductCategory(gameName: string)
    | Done(syncedCount: nat, typeLabel: string)

  /** The guards the action passes before it posts to Digiflazz: a numeric game id, both credentials, a game. */
  predicate ReadyToPost(isNumeric: string -> bool, settings: map<string, string>, games: seq<Game>, gameId: Option<string>) {
    gameId.Some? && isNumeric(gameId.value) && HasCredentials(settings) && FindGame(games, gameId.value).Some?
  }

  /** `$game->productCategories()->first()?->id` is truthy: a first category whose id is not 0. */
  predicate HasProductCategory(g: Game) {
    g.categories != [] && g.categories[0].id != 0
  }

  /**
   * The action: each guard in turn, as the action's closure checks them (game id, credentials, game,
   * reply, product category), then the sync into the first product category of the game.
   * `isNumeric` is PHP's `is_numeric`, not modelled here.
   */
  method SyncAction(table: ProductTable, client: PriceListClient, md5: string -> string, isNumeric: string -> bool,
                    settings: map<string, string>, games: seq<Game>, gameId: Option<string>, productType: Option<string>)
    returns (outcome: SyncOutcome)
    modifies table, client
    ensures !outcome.Done? ==> table.rows == old(table.rows)
    ensures gameId.None? || !isNumeric(gameId.value) ==> outcome == InvalidGameId
    ensures gameId.Some? && isNumeric(gameId.value) && !HasCredentials(settings) ==> outcome == MissingCredentials
    ensures gameId.Some? && isNumeric(gameId.value) && HasCredentials(settings) && FindGame(games, gameId.value).None? ==>
      outcome == GameNotFound
    ensures !ReadyToPost(isNumeric, settings, games, gameId) ==> client.sentSignatures == old(client.sentSignatures)
    ensures ReadyToPost(isNumeric, settings, games, gameId) ==>
      client.sentSignatures == old(client.sentSignatures) + [Signature(settings, md5)]
    ensures ReadyToPost(isNumeric, settings, games, gameId) && ReplyProblem(client.reply).Some? ==>
      outcome == ReplyRejected(ReplyProblem(client.reply).value)
    ensures ReadyToPost(isNumeric, settings, games, gameId) && ReplyProblem(client.reply).None? ==>
      var g := FindGame(games, gameId.value).value;
      !HasProductCategory(g) ==> outcome == NoProductCategory(g.name)
    ensures (ReadyToPost(isNumeric, settings, games, gameId) && ReplyProblem(client.reply).None? &&
             HasProductCategory(FindGame(games, gameId.value).value)) ==>
      var g := FindGame(games, gameId.value).value;
      var t := SyncTarget(productType.GetOr("ALL"), g.brand, g.id, g.categories[0].id);
      outcome.Done? && outcome.syncedCount == MatchCount(client.reply.data.value, t) &&
      table.rows == Synced(old(table.rows), client.reply.data.value, t)
    ensures outcome.Done? ==>
      exists g :: g in games && Php.IntToString(g.id) == gameId.value && g.categories != [] &&
        var t := SyncTarget(productType.GetOr("ALL"), g.brand, g.id, g.categories[0].id);
        ReplyProblem(client.reply).None? &&
        table.rows == Synced(old(table.rows), client.reply.data.value, t) &&
        outcome.syncedCount == MatchCount(client.reply.data.value, t)
    ensures outcome.Done? ==> outcome.typeLabel == if productType.GetOr("ALL") == "ALL" then "all types" else "type " + productType.value
  {
    if gameId.None? || !isNumeric(gameId.value) {
      return InvalidGameId;
    }
    var game := FindGame(games, gameId.value);
    if !HasCredentials(settings) {
      return MissingCredentials;
    }
    if game.None? {
      return GameNotFound;
    }
    var g := game.value;
    var reply := client.Post(Signature(settings, md5));
    var problem := ReplyProblem(reply);
    if problem.Some? {
      return ReplyRejected(problem.value);
    }
    if !HasProductCategory(g) {
      return NoProductCategory(g.name);
    }
    var selectedType := productType.GetOr("ALL");
    var t := SyncTarget(selectedType, g.brand, g.id, g.categories[0].id);
    var count := SyncEntries(table, reply.data.value, t);
    outcome := Done(count, if selectedType == "ALL" then "all types" else "type " + selectedType);
  }
}
