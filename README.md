# Game top-up storefront: pricing, promotions, catalogue sync and settings rules

This project is a Dafny model of the rule-carrying core of a Laravel backend for a game top-up
store. The store has a public JSON API and a Filament admin panel. Requests, queries and
closures are modelled as functions and methods over explicit inputs:

- time is an integer timestamp in seconds;
- records are datatypes, and a relation is the sequence of related records in query order;
- the settings table is a `map<string, string>`;
- the application cache is a class holding a `map` that its methods update.

One module per source file:

| module | models |
|---|---|
| `GameController` | role-based product pricing with the flash-sale override, search suggestions, and the cache-aside configuration endpoints |
| `FlashSaleController` | running and upcoming flash-sale listings, the base-price discount, and countdowns clamped at zero |
| `VoucherController` | the public voucher listing |
| `SettingsController` | the whitelisted public settings in whitelist order, and the social-media links merged over empty defaults |
| `ListProducts` | the Digiflazz brand and type options, and the sync loop that upserts into the products table |
| `PaymentMethods` | the provider select, the dispatch on the provider, and the Tokopay import (type-ordered `usort`, insert-if-absent, count) |
| `FlashSaleResource` | the flash-sale status badge, its colour, the duration column and the filters |
| `DepositVoucherResource` | the deposit-voucher status badge, its colour, the usage summary and the filters |
| `VoucherResource` | the voucher form defaults, the usage summary, the value display and the filters |
| `SettingsPage` | the admin settings page: the default table, loading, the upload fields, and `save`/`saveSettings` over a settings store |
| `Models` | the display-URL accessors of the Eloquent models, the `User` role helpers and hidden attributes, and `Product::getAvailableProviders` |
| `CacheInvalidation` | the two configuration observers and the `ClearGameConfigurationCache` command |

These modules are shared:

- `AppCache`: the cache class and the configuration cache keys.
- `Records`: entities and query helpers.
- `Sorting`: a stable sort by an integer key, standing for `ORDER BY`, `sortBy` and `usort`; and `sort` on strings.
- `Php`: the PHP built-ins the code relies on (`round`, `trim`, `strtoupper`, `number_format`, truthiness).
- `Wrappers`: `Option`.

The model does not interpret some collaborators. These arrive as function-typed parameters:

- URL validation (`filter_var(..., FILTER_VALIDATE_URL)`);
- the public storage URL (`Storage::url`);
- `md5`;
- SQL `LIKE`;
- `is_numeric`.

## Model

| member | source | states |
|---|---|---|
| `GameController.ViewerPricing` | app/Http/Controllers/GameController.php:378-395 | a signed-in user with a role prices with that role and its percentage; otherwise the first role named 'guest' is used exactly when one exists, else no role and 0 |
| `GameController.RolePrice` | app/Http/Controllers/GameController.php:406-410 | the price is base × (1 + p/100) exactly when a role is present and p > 0, and the base price otherwise |
| `GameController.RolePriceBounds` | app/Http/Controllers/GameController.php:406-410 | a margin never lowers a non-negative base price, and without a role the price is the base price |
| `GameController.ActiveFlashSale` | app/Http/Controllers/GameController.php:369-414 | the applied sale is the first attached sale that is active with start ≤ now ≤ end; there is none exactly when no attached sale runs; the best discount plays no part |
| `GameController.DiscountPercentage` | app/Http/Controllers/GameController.php:425 | 0 when the role price is not positive; otherwise round((price − flash)/price × 100, 2), a whole number of hundredths with halves away from zero, within 0.005 of the quotient; unclamped: non-negative when flash ≤ price and non-positive when flash ≥ price |
| `GameController.FlashInfo` | app/Http/Controllers/GameController.php:416-430 | the object carries the running sale's id, name, start and end dates; a null pivot price falls back to the role price (so no discount) and a null stock reads 0; both prices are rounded, the percentage is DiscountPercentage of them, and the object is marked active |
| `GameController.ProductViewOf` | app/Http/Controllers/GameController.php:405-451 | a product entry carries the product's own columns and icon URL, the rounded role price, the viewer's role with the viewer's percentage, the flash-sale object exactly when an attached sale is running, and a final price that is the flash price when there is one and the product price otherwise |
| `GameController.FinalPrice` | app/Http/Controllers/GameController.php:416-445 | a flash sale applies exactly when an attached sale runs; final_price is then the flash discounted_price, otherwise the rounded role price |
| `GameController.PricingExample` | app/Http/Controllers/GameController.php:406-425 | with a 10% margin, 100000 becomes 110000, and a flash price of 90000 is an 18.18% discount |
| `GameController.ListedProducts` | app/Http/Controllers/GameController.php:366-368 | a category lists exactly its active products (as a multiset), ordered by display_order |
| `GameController.CategoryViewOf` | app/Http/Controllers/GameController.php:397-453 | a category's view carries the category's own columns and icon URL, and its i-th product entry is the i-th listed product priced for the viewer |
| `GameController.ListedCategories` | app/Http/Controllers/GameController.php:363-365 | a game lists exactly its active categories, ordered by display_order |
| `GameController.ActiveGame` | app/Http/Controllers/GameController.php:363-376 | the first game that is active and has the slug, and none exactly when no such game exists |
| `GameController.Products` | app/Http/Controllers/GameController.php:361-479 | the 404 happens exactly when no active game has the slug; otherwise the first such game's columns, its i-th category entry is the i-th listed category priced for ViewerPricing, total_products is the sum of the entries' product counts, and pricing_info reports the sign-in, the viewer's percentage, whether a margin applies, and the role name: the signed-in user's own role, otherwise 'guest' with is_guest_default set |
| `GameController.TotalProductsCountsActive` | app/Http/Controllers/GameController.php:465-467 | total_products equals the number of active products over the game's active categories |
| `GameController.PricingInfoGuestDefault` | app/Http/Controllers/GameController.php:468-476 | is_guest_default holds exactly when no signed-in user with a role is present; without a guest role it reports 'guest', 0 and no margin |
| `GameController.GameSuggestions` | app/Http/Controllers/GameController.php:628-642 | at most 5 suggestions, all of them games |
| `GameController.DeveloperSuggestions` | app/Http/Controllers/GameController.php:644-656 | at most 3 developers, none repeated |
| `GameController.CategorySuggestions` | app/Http/Controllers/GameController.php:658-671 | at most 3 suggestions, all of them categories |
| `GameController.SearchSuggestions` | app/Http/Controllers/GameController.php:620-687 | a query failing the rule is a validation error; otherwise the list is games, then developers, then categories, cut to 10, and the reported total is its length |
| `GameController.SuggestionsOrdered` | app/Http/Controllers/GameController.php:673-676 | in the list, games come before developers and developers before categories |
| `GameController.SuggestionsKeepGamesAndDevelopers` | app/Http/Controllers/GameController.php:628-676 | the cut to 10 never drops a game or a developer; the length is the sum of the three counts, capped at 10 |
| `GameController.ConfigurationOf` | app/Http/Controllers/GameController.php:219-225 | the game's configuration is the row whose id is its game_configuration_id, and there is none exactly when no row has that id |
| `GameController.InfoData` | app/Http/Controllers/GameController.php:225-258 | has_configuration holds exactly when a configuration is found and included |
| `GameController.FieldsData` | app/Http/Controllers/GameController.php:284-350 | the fields are the configuration's fields (as a multiset), by display_order, with their count; there are none without a configuration |
| `GameController.ConfigurationInfo` | app/Http/Controllers/GameController.php:204-268 | a truthy cached value is served unchanged before any lookup; on a miss a missing game is a 404 with the cache untouched, otherwise the payload is stored under `game_config_info_{slug}` and nothing else changes |
| `GameController.ConfigurationFields` | app/Http/Controllers/GameController.php:270-359 | the same cache-aside read and write under `game_config_fields_{slug}` |
| `GameController.InfoServedFromCacheAfterMiss` | app/Http/Controllers/GameController.php:207-237 | after a miss has been served, the next request gets the same payload from the cache, even if the game has meanwhile gone |
| `FlashSaleController.Clamp` | app/Http/Controllers/FlashSaleController.php:67 | `$x > 0 ? $x : 0` is never negative, is at least x, and is x or 0 |
| `FlashSaleController.BaseDiscount` | app/Http/Controllers/FlashSaleController.php:33-36 | the discount is `round` (half away from zero) of the relative discount against base_price, a null pivot price counting as 0; it is 0 when base_price ≤ 0 |
| `FlashSaleController.BaseDiscountRange` | app/Http/Controllers/FlashSaleController.php:33-36 | a sale price between 0 and the base price gives a discount between 0 and 100; a null pivot price gives 100 |
| `FlashSaleController.SaleProductViewOf` | app/Http/Controllers/FlashSaleController.php:31-58 | a sale product entry carries the product's columns and icon URL, the pivot's discounted price and stock, and BaseDiscount as its percentage |
| `FlashSaleController.ListedSaleProducts` | app/Http/Controllers/FlashSaleController.php:19-24 | the sale's active products, as a permutation ordered by display_order |
| `FlashSaleController.ProductViews` | app/Http/Controllers/FlashSaleController.php:19-60 | the i-th entry is the view of the i-th listed product: the active ones, by display_order |
| `FlashSaleController.RunningView` | app/Http/Controllers/FlashSaleController.php:26-71 | a running sale's view keeps its id, name, dates and is_active; remaining_seconds is the clamped time to its end; its products are ProductViews of the sale and total_products counts them |
| `FlashSaleController.UpcomingView` | app/Http/Controllers/FlashSaleController.php:168-213 | an upcoming sale's view keeps its id, name, dates and is_active; time_until_start is the clamped time to its start; its products are ProductViews of the sale and total_products counts them |
| `FlashSaleController.RunningRows` | app/Http/Controllers/FlashSaleController.php:15-22 | the result is a permutation of the running sales (same multiset), ordered by end_date |
| `FlashSaleController.UpcomingRows` | app/Http/Controllers/FlashSaleController.php:158-163 | the result is a permutation of the upcoming sales (same multiset), ordered by start_date |
| `FlashSaleController.RunningViews` | app/Http/Controllers/FlashSaleController.php:26-71 | one running view per running row, in the same order, each inside its window with end − now seconds left |
| `FlashSaleController.UpcomingViews` | app/Http/Controllers/FlashSaleController.php:168-213 | one upcoming view per upcoming row, in the same order, each not yet started with start − now seconds to go |
| `FlashSaleController.Index` | app/Http/Controllers/FlashSaleController.php:11-82 | only sales that are active with start ≤ now ≤ end are listed, every such sale is, ordered by end_date, and the i-th entry is RunningView of the i-th running row; remaining seconds are end − now ≥ 0; the total is the number listed |
| `FlashSaleController.Show` | app/Http/Controllers/FlashSaleController.php:84-151 | a 404 exactly when no running sale has the id; otherwise RunningView of the first running row with that id, with non-negative remaining seconds and its product count |
| `FlashSaleController.Upcoming` | app/Http/Controllers/FlashSaleController.php:154-222 | exactly the active sales with start > now, by start_date, the i-th entry being UpcomingView of the i-th upcoming row, each with a positive time_until_start; the total is the number listed |
| `FlashSaleController.RunningAndUpcomingDisjoint` | app/Http/Controllers/FlashSaleController.php:15-160 | no sale is listed both as running and as upcoming |
| `VoucherController.Index` | app/Http/Controllers/VoucherController.php:11-22 | the result is a permutation of the active vouchers with end_date ≥ now (same multiset), ordered by end_date |
| `VoucherController.NeverListed` | app/Http/Controllers/VoucherController.php:14-15 | an inactive or ended voucher never appears |
| `VoucherController.ListingIgnores` | app/Http/Controllers/VoucherController.php:14-17 | start date, usage limits and min_purchase play no part in the listing, so a voucher that has not started is listed |
| `SettingsController.AllowedSettings` | app/Http/Controllers/SettingsController.php:13-92 | the whitelist holds 73 keys: general, then appearance, then SEO settings |
| `SettingsController.SearchPosition` | app/Http/Controllers/SettingsController.php:97-99 | `array_search` gives the first position of a whitelisted key; a missing key gives `false`, which sorts as 0 |
| `SettingsController.Index` | app/Http/Controllers/SettingsController.php:10-106 | the listing is a permutation of the whitelisted rows, ordered by whitelist position |
| `SettingsController.IndexMembers` | app/Http/Controllers/SettingsController.php:94 | a row is listed exactly when it is in the table and its key is whitelisted |
| `SettingsController.CredentialsNotAllowed` | app/Http/Controllers/SettingsController.php:13-92 | no provider or payment-gateway credential key is in the whitelist |
| `SettingsController.IndexHidesCredentials` | app/Http/Controllers/SettingsController.php:13-106 | no credential is ever listed, whatever the table holds |
| `SettingsController.IndexStrictlyOrdered` | app/Http/Controllers/SettingsController.php:94-99 | with one row per key, the listing is strictly increasing in whitelist position |
| `SettingsController.IndexDistinct` | app/Http/Controllers/SettingsController.php:94-99 | with one row per key, the listing repeats no row |
| `SettingsController.FormattedLookup` | app/Http/Controllers/SettingsController.php:126-128 | the assignment loop keeps each key's last value, and only the keys it saw |
| `SettingsController.LastValueFilter` | app/Http/Controllers/SettingsController.php:122-128 | restricting the query to some keys does not change a selected key's last value |
| `SettingsController.FormattedSocial` | app/Http/Controllers/SettingsController.php:115-128 | the loop stores only social keys, each with its last stored value |
| `SettingsController.Merge` | app/Http/Controllers/SettingsController.php:138 | `array_merge` keeps every key of both maps, with stored values over the defaults |
| `SettingsController.SocialMedia` | app/Http/Controllers/SettingsController.php:112-146 | the response has exactly instagram_url, facebook_url, youtube_url and whatsapp_number, each with its last stored value or '' |
| `SettingsController.SocialMediaMerged` | app/Http/Controllers/SettingsController.php:126-138 | the merge of the defaults and the loop's map has the four keys, each with its last stored value or '' |
| `SettingsController.FormattedKeysAreRowKeys` | app/Http/Controllers/SettingsController.php:126-128 | a key the loop stored belongs to one of the rows |
| `ListProducts.ReplyProblem` | app/Filament/Resources/ProductResource/Pages/ListProducts.php:64-95 | a reply is usable exactly when the request succeeded, rc is not 83 and data is an array; a failed request and rate limiting are reported first |
| `ListProducts.PriceListClient.Post` | app/Filament/Resources/ProductResource/Pages/ListProducts.php:58-70 | each request sends the signature and gets the endpoint's reply |
| `ListProducts.CollectBrands` | app/Filament/Resources/ProductResource/Pages/ListProducts.php:102-114 | the brands are trim(strtoupper(brand)) of every array entry with a brand, each once, sorted ascending |
| `ListProducts.ListedBrandsMembers` | app/Filament/Resources/ProductResource/Pages/ListProducts.php:102-111 | a brand is listed exactly when some entry with a brand normalises to it |
| `ListProducts.OfferedOptionsMembers` | app/Filament/Resources/ProductResource/Pages/ListProducts.php:123-136 | a game has an option exactly when it is active and its normalised brand is listed; there are none exactly when no game is |
| `ListProducts.OfferedOptionsSameBrands` | app/Filament/Resources/ProductResource/Pages/ListProducts.php:123-130 | only which brands are listed matters, not their order or repeats |
| `ListProducts.MatchingGameOptions` | app/Filament/Resources/ProductResource/Pages/ListProducts.php:123-131 | the loop builds one option per offered game, in table order |
| `ListProducts.GameOptions` | app/Filament/Resources/ProductResource/Pages/ListProducts.php:49-143 | missing credentials give an error option and no request; an unusable reply gives its error option; otherwise the offered games, or when there are none a single error option whose text is the no-games message followed by the first ten of the sorted distinct brands |
| `ListProducts.ListedTypesMembers` | app/Filament/Resources/ProductResource/Pages/ListProducts.php:231-273 | a type is listed exactly when an entry of the game's brand has it, once trimmed and with its case kept |
| `ListProducts.CollectTypes` | app/Filament/Resources/ProductResource/Pages/ListProducts.php:231-285 | each type of the game's brand once, trimmed, sorted ascending |
| `ListProducts.TypeOptionsFrom` | app/Filament/Resources/ProductResource/Pages/ListProducts.php:287-309 | no types for Mobile Legends gives the fixed seven-entry fallback; otherwise 'ALL' first, then one option per type other than 'ALL', in the types' own order |
| `ListProducts.TypeOptionsOrdered` | app/Filament/Resources/ProductResource/Pages/ListProducts.php:285-294 | built from sorted types, the options after 'ALL' are in ascending byte-wise order |
| `ListProducts.FilterSortedStrings` | app/Filament/Resources/ProductResource/Pages/ListProducts.php:285-291 | dropping entries from an ordered list of types keeps it ordered |
| `ListProducts.TypeOptionKeysDistinct` | app/Filament/Resources/ProductResource/Pages/ListProducts.php:287-294 | distinct types give options with distinct keys |
| `ListProducts.FindGame` | app/Filament/Resources/ProductResource/Pages/ListProducts.php:157-160 | `Game::find` returns a game with that id, and none exactly when no game has it |
| `ListProducts.TypeOptions` | app/Filament/Resources/ProductResource/Pages/ListProducts.php:151-318 | no usable game gives no options and no request; missing credentials give an error; a rejected reply gives its error option; otherwise the options built from the game's distinct types, sorted ascending |
| `ListProducts.Upserted` | app/Filament/Resources/ProductResource/Pages/ListProducts.php:414-426 | `updateOrCreate` sets the five values; an existing row keeps its other columns, and a new row takes the column defaults |
| `ListProducts.ProductTable.UpdateOrCreate` | app/Filament/Resources/ProductResource/Pages/ListProducts.php:414-426 | only the row under (provider, provider_sku) changes |
| `ListProducts.SyncEntries` | app/Filament/Resources/ProductResource/Pages/ListProducts.php:386-429 | every complete entry of the game's brand whose type matches (or any type for 'ALL') is upserted in order, and the count is the number of such entries, repeats included |
| `ListProducts.LastMatch` | app/Filament/Resources/ProductResource/Pages/ListProducts.php:397-428 | the entry a SKU ends up with matches, names that SKU and comes from the price list |
| `ListProducts.SyncedRows` | app/Filament/Resources/ProductResource/Pages/ListProducts.php:397-429 | after the sync, a Digiflazz SKU named by a matching entry holds the last such entry's values; every other row is unchanged, and no other row appears |
| `ListProducts.SyncIdempotent` | app/Filament/Resources/ProductResource/Pages/ListProducts.php:397-429 | syncing the same price list twice leaves the table as syncing once |
| `ListProducts.SyncLeavesOthers` | app/Filament/Resources/ProductResource/Pages/ListProducts.php:399-417 | rows of other providers, and SKUs no matching entry names, are never touched |
| `ListProducts.SyncAction` | app/Filament/Resources/ProductResource/Pages/ListProducts.php:324-441 | each guard in turn decides the outcome: a non-numeric id, missing credentials, an unknown game (none of which posts), a rejected reply, and a game without a truthy first category; when every guard passes the outcome is Done, the table is the synced table and the count is the number of matches; every failure leaves the table unchanged and the label reads 'all types' or 'type X' |
| `PaymentMethods.ProviderOptions` | app/Filament/Resources/PaymentMethodResource/Pages/ListPaymentMethods.php:30-41 | a provider is offered exactly when both of its settings are non-empty, Tokopay first |
| `PaymentMethods.TypeRank` | app/Filament/Resources/PaymentMethodResource/Pages/ListPaymentMethods.php:213-220 | ranks go from 1 to 6, and are below 6 exactly for qris, e-wallet, va, convenience_store and pulsa |
| `PaymentMethods.SortByType` | app/Filament/Resources/PaymentMethodResource/Pages/ListPaymentMethods.php:223-227 | the order is a permutation of the channels with non-decreasing rank, and channels of one rank keep their order |
| `PaymentMethods.SortByKeyTypeOrdered` | app/Filament/Resources/PaymentMethodResource/Pages/ListPaymentMethods.php:223-227 | the stable sort by rank is what usort by type rank promises: ordered by rank, a permutation, and each rank's channels in listed order |
| `PaymentMethods.PaymentMethodTable.Create` | app/Filament/Resources/PaymentMethodResource/Pages/ListPaymentMethods.php:241-252 | `create` appends exactly the given row |
| `PaymentMethods.ImportChannels` | app/Filament/Resources/PaymentMethodResource/Pages/ListPaymentMethods.php:229-255 | each channel whose code is absent is created as a Tokopay row with zero fees and bounds, active; the count equals the number of rows created |
| `PaymentMethods.ImportedKeepsRows` | app/Filament/Resources/PaymentMethodResource/Pages/ListPaymentMethods.php:229-255 | the import only appends, and the old rows stay in front unchanged |
| `PaymentMethods.ImportedNewRows` | app/Filament/Resources/PaymentMethodResource/Pages/ListPaymentMethods.php:236-252 | every appended row is a channel's new Tokopay row whose code no earlier row has |
| `PaymentMethods.ImportedCovers` | app/Filament/Resources/PaymentMethodResource/Pages/ListPaymentMethods.php:236-252 | afterwards every channel's code is in the table |
| `PaymentMethods.ImportedCodesDistinct` | app/Filament/Resources/PaymentMethodResource/Pages/ListPaymentMethods.php:236-238 | a table with no repeated code gets none from the import |
| `PaymentMethods.ImportedIdempotent` | app/Filament/Resources/PaymentMethodResource/Pages/ListPaymentMethods.php:236-238 | importing twice adds nothing the first import did not |
| `PaymentMethods.ImportSkipsPresent` | app/Filament/Resources/PaymentMethodResource/Pages/ListPaymentMethods.php:236-238 | channels whose codes are all present create nothing |
| `PaymentMethods.ImportFreshCount` | app/Filament/Resources/PaymentMethodResource/Pages/ListPaymentMethods.php:229-255 | channels with distinct codes, none present, are all created |
| `PaymentMethods.CatalogueCodesDistinct` | app/Filament/Resources/PaymentMethodResource/Pages/ListPaymentMethods.php:173-207 | no two catalogue channels share a code |
| `PaymentMethods.ImportOrderedFreshCount` | app/Filament/Resources/PaymentMethodResource/Pages/ListPaymentMethods.php:213-255 | the type-ordered channels, with distinct codes and none present, are all created |
| `PaymentMethods.MerchantClient.Post` | app/Filament/Resources/PaymentMethodResource/Pages/ListPaymentMethods.php:128-137 | each request sends the merchant id and signature and gets the endpoint's reply |
| `PaymentMethods.TokopayResult` | app/Filament/Resources/PaymentMethodResource/Pages/ListPaymentMethods.php:109-262 | the import as a function of the table, the reply and the settings: the not-configured, HTTP-failure and API-error outcomes leave the rows; the import happens exactly when configured, successful and status is 1, and then adds the catalogue in rank order, counting the rows added |
| `PaymentMethods.TokopayRequests` | app/Filament/Resources/PaymentMethodResource/Pages/ListPaymentMethods.php:112-135 | one merchant request carrying the merchant id and signature when Tokopay is configured, none otherwise |
| `PaymentMethods.ImportTokopay` | app/Filament/Resources/PaymentMethodResource/Pages/ListPaymentMethods.php:109-262 | the import proceeds exactly when Tokopay is configured, the request succeeds and status is exactly 1; every other outcome leaves the table unchanged; on success the table is the import of the type-ordered catalogue and the count is the rows added; the outcome and rows are TokopayResult's and the requests TokopayRequests' |
| `PaymentMethods.GetPaymentMethodsFromProvider` | app/Filament/Resources/PaymentMethodResource/Pages/ListPaymentMethods.php:64-107 | no provider is an error, an unknown one is unsupported, Duitku is only checked and creates no row, and only Tokopay changes the table; provider 'tokopay' ends exactly as ImportTokopay does: TokopayResult's outcome and rows, TokopayRequests' requests |
| `PaymentMethods.ImportIntoFreshTable` | app/Filament/Resources/PaymentMethodResource/Pages/ListPaymentMethods.php:173-255 | on a table holding none of the catalogue's codes, the import creates all 23 channels |
| `FlashSaleResource.Status` | app/Filament/Resources/FlashSaleResource.php:144-150 | inactive is 'Inactive' whatever the dates; otherwise 'Upcoming' before start, 'Ended' after end, and 'Running' with both bounds inclusive |
| `FlashSaleResource.Color` | app/Filament/Resources/FlashSaleResource.php:153-159 | an inactive sale is 'danger' |
| `FlashSaleResource.ColorMatchesStatus` | app/Filament/Resources/FlashSaleResource.php:144-159 | colour and status always correspond (Inactive/danger, Upcoming/info, Ended/gray, Running/success), and the status is one of the four |
| `FlashSaleResource.Duration` | app/Filament/Resources/FlashSaleResource.php:126-138 | 'N/A' when either date is missing |
| `FlashSaleResource.DurationUnits` | app/Filament/Resources/FlashSaleResource.php:130-137 | under 24 hours the window shows whole hours (0 to 23); otherwise whole days, at least 1 |
| `FlashSaleResource.FiltersPartition` | app/Filament/Resources/FlashSaleResource.php:183-193 | for start ≤ end, exactly one of upcoming, running and ended selects a sale |
| `FlashSaleResource.StatusAgreesWithFilters` | app/Filament/Resources/FlashSaleResource.php:144-193 | for an active sale, the badge names the filter that selects it |
| `DepositVoucherResource.Status` | app/Filament/Resources/DepositVoucherResource.php:145-149 | precedence Inactive, then Expired, then Used Up (usages ≥ limit); 'Active' exactly when none of these holds |
| `DepositVoucherResource.ColorMatchesStatus` | app/Filament/Resources/DepositVoucherResource.php:145-156 | the colour always matches the status |
| `DepositVoucherResource.Remaining` | app/Filament/Resources/DepositVoucherResource.php:95-97 | remaining + usages = usage_limit, without clamping |
| `DepositVoucherResource.RemainingAndStatus` | app/Filament/Resources/DepositVoucherResource.php:95-149 | for an active, unexpired voucher, no uses left holds exactly when it shows 'Used Up'; remaining goes negative past the limit |
| `DepositVoucherResource.UsageInfo` | app/Filament/Resources/DepositVoucherResource.php:92-101 | without a record the placeholder text; otherwise the summary starting with the status |
| `DepositVoucherResource.PeriodFilters` | app/Filament/Resources/DepositVoucherResource.php:180-186 | expired and active_period never overlap; both miss exactly a voucher expiring at this instant; expired agrees with the badge's test |
| `DepositVoucherResource.InactiveWins` | app/Filament/Resources/DepositVoucherResource.php:146 | an inactive voucher is 'Inactive' even when it is expired and used up |
| `VoucherResource.Remaining` | app/Filament/Resources/VoucherResource.php:145-149 | remaining + usages = total_usage_limit, without clamping |
| `VoucherResource.UsageInfo` | app/Filament/Resources/VoucherResource.php:140-150 | without a record the placeholder text; otherwise the summary starting with 'Used: ' |
| `VoucherResource.TypeColor` | app/Filament/Resources/VoucherResource.php:179-184 | percentage is info, flat is warning, anything else gray |
| `VoucherResource.DecimalText` | app/Filament/Resources/VoucherResource.php:188-190 | a DECIMAL(15,2) value reads with two digits after the point |
| `VoucherResource.DisplayValue` | app/Filament/Resources/VoucherResource.php:187-191 | a percentage shows the stored decimal followed by '%'; anything else starts with 'Rp ' |
| `VoucherResource.FlatDisplayDigits` | app/Filament/Resources/VoucherResource.php:191 | a non-percentage display is 'Rp ' followed by the rounded amount, whose digits come back when the '.' separators are dropped |
| `VoucherResource.FiltersDisjoint` | app/Filament/Resources/VoucherResource.php:248-254 | expired (end < now) and active_period (start ≤ now ≤ end) never select the same voucher |
| `VoucherResource.DefaultsAreFlatSingleUse` | app/Filament/Resources/VoucherResource.php:62-137 | a new voucher is flat (shown in warning), with both usage limits 1, min_purchase 0, active |
| `SettingsPage.DataValue` | app/Filament/Pages/Settings.php:497-501 | a stored value is used, otherwise the entry's default |
| `SettingsPage.SettingsData` | app/Filament/Pages/Settings.php:497-536 | one value per entry of the default table |
| `SettingsPage.StoredValuesWin` | app/Filament/Pages/Settings.php:502-534 | a stored value always wins over the default |
| `SettingsPage.MissingTextDefaultsEmpty` | app/Filament/Pages/Settings.php:502-533 | a missing key reads as '', except the four colours and the three toggles |
| `SettingsPage.ColourAndToggleDefaults` | app/Filament/Pages/Settings.php:508-534 | the colours default to #3B82F6, #64748B, #F59E0B and #10B981; both sandboxes to true; fonnte_enabled to false |
| `SettingsPage.PropertyDefaultsMatchTable` | app/Filament/Pages/Settings.php:32-64 | the properties start at the table's defaults, except the two upload fields, which start as empty file lists |
| `SettingsPage.FieldPositions` | app/Filament/Pages/Settings.php:502-534 | each key of the table names its own entry |
| `SettingsPage.FieldKeysDistinct` | app/Filament/Pages/Settings.php:502-534 | no two entries share a key |
| `SettingsPage.UploadState` | app/Filament/Pages/Settings.php:92-93 | a truthy stored path becomes a one-file list, anything else the empty list |
| `SettingsPage.SiteLogoState` | app/Filament/Pages/Settings.php:123-127 | the logo state is [value] when the stored value is truthy, [] otherwise |
| `SettingsPage.SiteFaviconState` | app/Filament/Pages/Settings.php:129-133 | the favicon state is [value] when the stored value is truthy, [] otherwise |
| `SettingsPage.ResolvedPath` | app/Filament/Pages/Settings.php:447-477 | a URL is kept; a local path becomes its cached Cloudinary URL when one is cached, and is kept otherwise |
| `SettingsPage.SettingStore.SetValue` | app/Filament/Pages/Settings.php:541 | only the given key changes |
| `SettingsPage.WrittenValues` | app/Filament/Pages/Settings.php:538-543 | after writing distinct keys in turn, each holds its own value and every other key is left alone |
| `SettingsPage.WrittenKey` | app/Filament/Pages/Settings.php:540-542 | a key written once among distinct keys holds its value |
| `SettingsPage.WrittenOther` | app/Filament/Pages/Settings.php:540-542 | a key that was not written keeps what it had |
| `SettingsPage.SaveSettings` | app/Filament/Pages/Settings.php:538-543 | the loop writes every key/value pair of the data, in order |
| `SettingsPage.Page.constructor` | app/Filament/Pages/Settings.php:32-64 | the properties take their declared initial values |
| `SettingsPage.Page.LoadSettings` | app/Filament/Pages/Settings.php:82-121 | every property takes its stored-or-default value, and the logo and favicon take their upload states |
| `SettingsPage.Page.UpdatedSiteLogo` | app/Filament/Pages/Settings.php:136-142 | only a non-empty file list replaces the logo state; nothing else changes |
| `SettingsPage.Page.UpdatedSiteFavicon` | app/Filament/Pages/Settings.php:144-150 | only a non-empty file list replaces the favicon state; nothing else changes |
| `SettingsPage.Page.Save` | app/Filament/Pages/Settings.php:441-495 | it saves exactly when the form passes its `required` and `url` rules; on a failure (the caught exception) the store is unchanged; on success every key of the table is written: the form state, and for each upload field its resolved first file; keys outside the table keep their values either way |
| `SettingsPage.ValidatedKeys` | app/Filament/Pages/Settings.php:163-302 | the rules checked on save name site_name, site_description, prefix_pesanan and prefix_deposit (`required`) and instagram_url, facebook_url and youtube_url (`url`) |
| `SettingsPage.DefaultsRejected` | app/Filament/Pages/Settings.php:163-165 | the page's initial state fails `required` on site_name, so saving it writes nothing |
| `Models.ProductIconUrl` | app/Models/Product.php:38-52 | a valid URL or a Cloudinary-prefixed path is returned unchanged; otherwise a truthy path gives its storage URL and an empty or null one gives null |
| `Models.GameThumbnailUrl` | app/Models/Game.php:40-54 | the same rule on the thumbnail path |
| `Models.GameBannerUrl` | app/Models/Game.php:56-70 | the same rule, using only the banner path |
| `Models.CategoryIconUrl` | app/Models/ProductCategory.php:43-57 | a falsy path gives null before anything else; the result is non-null exactly when the path is truthy; then pass-through or storage URL |
| `Models.SliderImageUrl` | app/Models/Slider.php:49-63 | pass-through for URLs and the Cloudinary prefix; every other path, empty included, gives its storage URL; never null |
| `Models.PaymentMethodImageUrl` | app/Models/PaymentMethod.php:39-53 | the product rule on image_path |
| `Models.GuideImageUrl` | app/Models/GameConfiguration.php:24-38 | the product rule on guide_image_path |
| `Models.ArticleImageUrl` | app/Models/Article.php:33-39 | the product rule, with both pass-through tests in one condition |
| `Models.PopupImageUrl` | app/Models/Popup.php:33-39 | a truthy path gives its storage URL, a falsy one null; no URL passes through |
| `Models.SharedAccessorRule` | app/Models/PaymentMethod.php:39-53 | the payment-method, guide-image and article accessors equal the product accessor on every input |
| `Models.GameAccessorsFollowRule` | app/Models/Game.php:40-70 | both game accessors are the product rule on a non-null column |
| `Models.CategoryDeparture` | app/Models/ProductCategory.php:45-53 | the category accessor differs from the product rule exactly on a falsy path that the URL test or the prefix accepts |
| `Models.SliderDeparture` | app/Models/Slider.php:52-62 | the slider accessor differs from the rule exactly on falsy paths that do not pass through |
| `Models.PopupDeparture` | app/Models/Popup.php:33-39 | the popup accessor differs from the rule exactly on pass-through paths whose storage URL is not themselves |
| `Models.PanelAccessIsAdminRole` | app/Models/User.php:68-88 | canAccessPanel equals hasRole('admin'); a user without a role has no role name |
| `Models.ProfitPercentage` | app/Models/User.php:93-96 | 0 without a role, the role's profit_percentage otherwise |
| `Models.SerializedUser` | app/Models/User.php:42-46 | serialization keeps every attribute except password, remember_token and api_key |
| `Models.AvailableProviders` | app/Models/Product.php:54-75 | MANUAL always comes first; digiflazz and bangjeff appear exactly when their username setting is non-empty, apigames when apigames_merchant is; the options are those of `AllProviderOptions` at the positions `ProviderIndices` picks, so each appears at most once and they keep the order MANUAL, digiflazz, apigames, bangjeff |
| `Models.ProviderIndices` | app/Models/Product.php:58-72 | position 0 (MANUAL) comes first, positions strictly increase, and positions 1, 2 and 3 are picked exactly when their provider is configured |
| `Models.OptionsAtContains` | app/Models/Product.php:58-72 | an option is in the list exactly when its position was picked, because no two options share a key |
| `Models.GetAvailableProviders` | app/Models/Product.php:54-75 | a cached list is returned unchanged; on a miss the options are computed and remembered |
| `AppCache.KeysSeparate` | app/Observers/GameConfigurationObserver.php:43-46 | distinct slugs never share a cache key, and an info key is never a fields key |
| `AppCache.Cache.Get` | app/Http/Controllers/GameController.php:208 | a missing key reads as null, a present one as its value |
| `AppCache.Cache.Put` | app/Http/Controllers/GameController.php:261 | only the given key changes |
| `AppCache.Cache.Forget` | app/Console/Commands/ClearGameConfigurationCache.php:37-38 | exactly the given key is removed |
| `AppCache.Cache.Remember` | app/Models/Product.php:57 | a cached value is returned unchanged; otherwise the computed value is stored and returned |
| `CacheInvalidation.ClearedIsRemoval` | app/Console/Commands/ClearGameConfigurationCache.php:35-39 | clearing a list of slugs removes exactly their keys and changes nothing else |
| `CacheInvalidation.KeysOfSlug` | app/Console/Commands/ClearGameConfigurationCache.php:35-39 | a game's keys are cleared exactly when its slug is among the cleared slugs |
| `CacheInvalidation.ClearedIdempotent` | app/Console/Commands/ClearGameConfigurationCache.php:35-39 | clearing twice leaves what clearing once leaves |
| `CacheInvalidation.ClearGameCache` | app/Console/Commands/ClearGameConfigurationCache.php:35-39 | removes exactly `game_config_info_{slug}` and `game_config_fields_{slug}` |
| `CacheInvalidation.ClearSlugs` | app/Console/Commands/ClearGameConfigurationCache.php:23-29 | the loop clears the keys of each slug in turn |
| `CacheInvalidation.AffectedSlugsMembers` | app/Observers/GameConfigurationFieldObserver.php:39-41 | a slug is cleared exactly when an active game with that configuration id has it |
| `CacheInvalidation.ClearRelatedGameCache` | app/Observers/GameConfigurationObserver.php:37-47 | both keys of each active game with this configuration id are forgotten, and nothing else |
| `CacheInvalidation.ConfigurationChanged` | app/Observers/GameConfigurationObserver.php:13-32 | created, updated and deleted all perform the same invalidation for the configuration's id |
| `CacheInvalidation.FieldChanged` | app/Observers/GameConfigurationFieldObserver.php:13-32 | created, updated and deleted all perform the same invalidation for the field's configuration id |
| `CacheInvalidation.ObserverEffect` | app/Observers/GameConfigurationObserver.php:39-46 | afterwards both keys of every affected game are gone; every key of no affected game, inactive games and other configurations included, keeps its value; no key appears |
| `CacheInvalidation.UnaffectedGameKept` | app/Observers/GameConfigurationFieldObserver.php:39-46 | a game that is not affected keeps its cached responses unless an affected game shares its slug |
| `CacheInvalidation.HandleClearCommand` | app/Console/Commands/ClearGameConfigurationCache.php:13-33 | with --slug only that slug's two keys are removed; without it, the keys of every active game |
| `CacheInvalidation.ClearAllEffect` | app/Console/Commands/ClearGameConfigurationCache.php:23-29 | without --slug both keys of every active game are gone and nothing else changes |
| `Sorting.SortByKey` | app/Http/Controllers/SettingsController.php:97-99 | the result is ordered by the key and is a permutation of the input |
| `Sorting.SortByKeyStable` | app/Http/Controllers/SettingsController.php:97-99 | elements with equal keys keep their input order, as PHP 8's sorts do |
| `Sorting.SortStrings` | app/Filament/Resources/ProductResource/Pages/ListProducts.php:114 | `sort` gives an ordered permutation of the input |
| `Sorting.SortDistinctStrings` | app/Filament/Resources/ProductResource/Pages/ListProducts.php:285 | sorting a list without repeats gives a list without repeats holding the same strings |
| `Sorting.Dedup` | app/Http/Controllers/GameController.php:648 | `distinct` gives no repeats and the same elements |
| `Sorting.SumByPermutation` | app/Http/Controllers/GameController.php:465-467 | a sum does not depend on the order of the summands |
| `Php.Round` | app/Http/Controllers/GameController.php:423-425 | `round` gives the nearest integer, with halves away from zero |
| `Php.Round2` | app/Http/Controllers/GameController.php:425 | `round($x, 2)` is a whole number of hundredths: `x` in hundredths rounded as `Round` rounds, so within 0.005 of `x` and with the sign of `x` |
| `Php.TrimIsSlice` | app/Filament/Resources/ProductResource/Pages/ListProducts.php:248 | `trim` gives a contiguous slice of its input with no strippable character at either end |
| `Php.GroupThousandsDigits` | app/Filament/Resources/VoucherResource.php:191 | dropping the thousands separators from `number_format` gives the plain decimal digits |
| `Records.FirstWhere` | app/Http/Controllers/GameController.php:414 | `first()` gives the first element satisfying the test, and none exactly when no element does |
| `Records.Take` | app/Http/Controllers/GameController.php:676 | `take(n)` is the prefix of length min(n, length) |
| `Records.SettingValue` | app/Models/Product.php:63-71 | a setting reads as null exactly when its key is absent |

## Left out

- FlashSaleController.SaleProductViewOf: the nested `game` and `product_category` objects of each product entry are left out, because the model's sale products carry no game or category relation.
- HTTP and JSON transport is not modelled: the response envelopes, status codes other than the 404, pagination, the success and error message texts, and notification and log texts. Outcomes are datatypes instead.
- Exceptions and the `try`/`catch` blocks around the actions and endpoints are not modelled, except the validation failure that `SettingsPage.Page.Save` catches, which is modelled as saving nothing.
- SettingsPage.Page.Save: Laravel's `url` rule is the parameter `urlRule`, not its regular expression. The upload rules (`image`, `acceptedFileTypes`, `maxSize`, Settings.php:193-218) apply to file contents, which the model does not have.
- The other `GameController` endpoints (`index`, `show`, the category listings) are outside the core.
- Outbound requests to Digiflazz and Tokopay are an object holding the reply it gives. Timeouts, retries and the request body beyond the signature are not modelled.
- `md5`, URL validation, `Storage::url`, SQL `LIKE` and `is_numeric` are function parameters, not interpreted.
- Cache lifetimes and expiry are not modelled. The cache is a map without time.
- Carbon is replaced by integer seconds. `FlashSaleResource.DurationUnits` assumes Carbon 2's `diffInHours`/`diffInDays` (FlashSaleResource.php:130-137): whole units, floor-divided absolute differences. Carbon 3, the default from Laravel 11, returns signed floats there, so the column could read "1.5 hours" or a negative count. The dependency lock that would fix the version is not part of this model.
- Money is `real`. IEEE floating-point error is not modelled, and `round` is exact round-half-away-from-zero.
- PHP's loose comparison of numeric strings is not modelled. Strings compare byte-wise in `sort`, and `in_array` and the brand match compare them exactly. This affects `ListProducts.CollectBrands`, `ListProducts.MatchingGameOptions` and `ListProducts.CollectTypes` (ListProducts.php lines 108, 125, 250, 254 and 268). For example, "1e3" and "1000" are one brand in PHP 8 but two in the model. `$options[$type]` turning a numeric-string key into an integer key is not modelled either (`ListProducts.TypeOptionsFrom`, line 290).
- SQL `ORDER BY` is modelled as a stable sort. SQL leaves the order of ties unspecified.
- `app/Models/Setting.php` is not part of this model. `Setting::setValue` is taken to store the value under its key, and `Setting::getValue` is taken to return the stored string or null.
- The settings page's form state is taken to be its public properties; Livewire's upload plumbing is not modelled.
- A stored upload path is always a string here, so the `is_string` guard of `save` always holds.
- SettingsPage.ResolvedPath: a cached mapping that is truthy but not a string is treated as no mapping.
- A null value in the settings table is not modelled. A present key always holds a string.
- The Duitku import only checks its two settings and creates nothing, as `getPaymentMethodsFromProvider` does. Its notification text is left out.
- `array_search` returning `false` is modelled as position 0, which is how PHP orders it in `sortBy`.
- DepositVoucherResource.UsageInfo: the contract states only the placeholder and the leading status line. The rest of the text is in the body, and its numbers are `Remaining`, whose contract is stated.
- VoucherResource.UsageInfo: the contract states only the placeholder and the leading 'Used: '. The remaining count is `Remaining`, whose contract is stated.
- FlashSaleResource.Color: the contract states only the inactive colour. The other colours are stated through ColorMatchesStatus.
- FlashSaleResource.Duration: the contract states only the 'N/A' case. The hours and days texts are stated by DurationUnits.
- VoucherResource.DecimalText: the contract states only the position of the decimal point. The digits are in the body.
- GameController.GameSuggestions, GameController.DeveloperSuggestions and GameController.CategorySuggestions: the contracts state the limits, the kind and, for developers, that none repeats. Which rows match depends on the uninterpreted `LIKE`.
- The Filament form and table schemas, navigation, clusters and page overrides are not modelled. Only the closures that carry logic are.
