/**
 * The public settings API (`SettingsController`): the whitelisted settings in whitelist order,
 * and the social-media links merged over empty defaults.
 */
module SettingsController {
  import opened Wrappers
  import Records
  import Sorting

  /** A row of the `settings` table. */
  datatype SettingRow = SettingRow(key: string, value: string)

  // ---------------------------------------------------------------- index

  /** The whitelist's general settings, in order. */
  function GeneralKey(i: nat): string
    requires i < 25
  {
    match i
    case 0 => "site_name"
    case 1 => "site_description"
    case 2 => "site_logo"
    case 3 => "site_favicon"
    case 4 => "contact_email"
    case 5 => "contact_phone"
    case 6 => "contact_address"
    case 7 => "social_facebook"
    case 8 => "social_instagram"
    case 9 => "social_twitter"
    case 10 => "social_youtube"
    case 11 => "maintenance_mode"
    case 12 => "maintenance_message"
    case 13 => "google_analytics_id"
    case 14 => "facebook_pixel_id"
    case 15 => "meta_title"
    case 16 => "meta_description"
    case 17 => "meta_keywords"
    case 18 => "footer_text"
    case 19 => "copyright_text"
    case 20 => "terms_of_service_url"
    case 21 => "privacy_policy_url"
    case 22 => "help_center_url"
    case 23 => "about_us_url"
    case _ => "contact_us_url"
  }

  /** The whitelist's appearance settings, in order. */
  function AppearanceKey(i: nat): string
    requires i < 24
  {
    match i
    case 0 => "primary_color"
    case 1 => "secondary_color"
    case 2 => "accent_color"
    case 3 => "text_color"
    case 4 => "background_color"
    case 5 => "header_style"
    case 6 => "footer_style"
    case 7 => "button_style"
    case 8 => "border_radius"
    case 9 => "font_family"
    case 10 => "font_size"
    case 11 => "theme_mode"
    case 12 => "custom_css"
    case 13 => "custom_js"
    case 14 => "logo_width"
    case 15 => "logo_height"
    case 16 => "favicon_type"
    case 17 => "loading_animation"
    case 18 => "scroll_behavior"
    case 19 => "sidebar_position"
    case 20 => "navbar_style"
    case 21 => "card_style"
    case 22 => "shadow_style"
    case _ => "border_style"
  }

  /** The whitelist's SEO settings, in order. */
  function SeoKey(i: nat): string
    requires i < 24
  {
    match i
    case 0 => "seo_title"
    case 1 => "seo_description"
    case 2 => "seo_keywords"
    case 3 => "seo_author"
    case 4 => "seo_robots"
    case 5 => "seo_canonical"
    case 6 => "seo_og_title"
    case 7 => "seo_og_description"
    case 8 => "seo_og_image"
    case 9 => "seo_og_type"
    case 10 => "seo_twitter_card"
    case 11 => "seo_twitter_title"
    case 12 => "seo_twitter_description"
    case 13 => "seo_twitter_image"
    case 14 => "seo_schema_markup"
    case 15 => "seo_google_verification"
    case 16 => "seo_bing_verification"
    case 17 => "seo_yandex_verification"
    case 18 => "seo_baidu_verification"
    case 19 => "seo_sitemap_url"
    case 20 => "seo_robots_txt"
    case 21 => "seo_structured_data"
    case 22 => "seo_amp_enabled"
    case _ => "seo_pwa_enabled"
  }

  /** The whitelisted key at position `i`: general, then appearance, then SEO settings. */
  function AllowedKey(i: nat): string
    requires i < 73
  {
    if i < 25 then GeneralKey(i) else if i < 49 then AppearanceKey(i - 25) else SeoKey(i - 49)
  }

  /** The keys the API may expose, in the order it lists them. */
  function AllowedSettings(): (keys: seq<string>)
    ensures |keys| == 73 && forall i :: 0 <= i < 73 ==> keys[i] == AllowedKey(i)
  {
    seq(73, i requires 0 <= i < 73 => AllowedKey(i))
  }

  /** The provider and payment-gateway credentials the admin stores in the same table. */
  function CredentialKeys(): seq<string> {
    [
      "digiflazz_username", "digiflazz_api_key", "digiflazz_secret_key", "apigames_username", "apigames_api_key",
      "apigames_merchant", "bangjeff_username", "bangjeff_api_key", "tokopay_merchant_id", "tokopay_secret_key",
      "duitku_merchant_id", "duitku_api_key", "fonnte_token", "fonnte_device_id"
    ]
  }

  /** `whereIn('key', $allowedSettings)` */
  predicate IsAllowed(row: SettingRow) {
    row.key in AllowedSettings()
  }

  /**
   * `array_search($key, $allowedSettings)`: the first position of `key`; a missing key gives
   * `false`, which orders like 0.
   */
  function SearchPosition(list: seq<string>, key: string): (p: nat)
    ensures key in list ==> p < |list| && list[p] == key && key !in list[..p]
    ensures key !in list ==> p == 0
  {
    if list == [] then 0
    else if list[0] == key then 0
    else if key in list[1..] then 1 + SearchPosition(list[1..], key)
    else 0
  }

  /** The sort key of a row: its key's whitelist position. */
  function Position(row: SettingRow): int {
    SearchPosition(AllowedSettings(), row.key)
  }

  /**
   * `index`: the rows whose key is whitelisted, ordered by whitelist position (a stable sort, so
   * rows sharing a key keep their table order).
   */
  function Index(table: seq<SettingRow>): (r: seq<SettingRow>)
    ensures Sorting.SortedByKey(r, Position)
    ensures multiset(r) == multiset(Records.Filter(table, IsAllowed))
  {
    Sorting.SortByKey(Records.Filter(table, IsAllowed), Position)
  }

  /** A row is listed exactly when it is in the table and its key is whitelisted. */
  lemma IndexMembers(table: seq<SettingRow>)
    ensures forall row :: row in Index(table) <==> row in table && IsAllowed(row)
  {
    var allowed := Records.Filter(table, IsAllowed);
    forall row ensures row in Index(table) <==> row in table && IsAllowed(row) {
      calc {
        row in Index(table);
        row in multiset(Index(table));
        row in multiset(allowed);
        row in allowed;
      }
      if row in allowed {
        var i :| 0 <= i < |allowed| && allowed[i] == row;
      }
      if row in table && IsAllowed(row) {
        var i :| 0 <= i < |table| && table[i] == row;
      }
    }
  }

  /** No credential key is whitelisted. */
  lemma CredentialsNotAllowed()
    ensures forall k :: k in CredentialKeys() ==> k !in AllowedSettings()
  {
    forall i | 0 <= i < 73 ensures AllowedKey(i) !in CredentialKeys() {
      AllowedKeyNotCredential(i);
    }
  }

  lemma AllowedKeyNotCredential(i: nat)
    requires i < 73
    ensures AllowedKey(i) !in CredentialKeys()
  {
    if i < 25 {
      GeneralKeyNotCredential(i);
    } else if i < 49 {
      AppearanceKeyNotCredential(i - 25);
    } else {
      SeoKeyNotCredential(i - 49);
    }
  }

  lemma GeneralKeyNotCredential(i: nat)
    requires i < 25
    ensures GeneralKey(i) !in CredentialKeys()
  {
  }

  lemma AppearanceKeyNotCredential(i: nat)
    requires i < 24
    ensures AppearanceKey(i) !in CredentialKeys()
  {
  }

  lemma SeoKeyNotCredential(i: nat)
    requires i < 24
    ensures SeoKey(i) !in CredentialKeys()
  {
  }

  /** Hence no credential is ever listed, whatever the table holds. */
  lemma IndexHidesCredentials(table: seq<SettingRow>)
    ensures forall i :: 0 <= i < |Index(table)| ==> Index(table)[i].key !in CredentialKeys()
  {
    IndexMembers(table);
    CredentialsNotAllowed();
    forall i | 0 <= i < |Index(table)| ensures Index(table)[i].key !in CredentialKeys() {
      assert Index(table)[i] in Index(table);
    }
  }

  /** The `settings` table holds one row per key, so the listing is strictly in whitelist order. */
  lemma IndexStrictlyOrdered(table: seq<SettingRow>)
    requires forall i, j :: 0 <= i < j < |table| ==> table[i].key != table[j].key
    ensures forall i, j :: 0 <= i < j < |Index(table)| ==> Position(Index(table)[i]) < Position(Index(table)[j])
  {
    var r := Index(table);
    IndexDistinct(table);
    IndexMembers(table);
    forall i, j | 0 <= i < j < |r| ensures Position(r[i]) < Position(r[j]) {
      assert r[i] in r && r[j] in r;
      DistinctRowPositions(table, r[i], r[j]);
    }
  }

  /** Listing a table without repeated rows repeats no row. */
  lemma IndexDistinct(table: seq<SettingRow>)
    requires forall i, j :: 0 <= i < j < |table| ==> table[i].key != table[j].key
    ensures Sorting.Distinct(Index(table))
  {
    var allowed := Records.Filter(table, IsAllowed);
    Records.FilterDistinct(table, IsAllowed);
    forall x ensures multiset(Index(table))[x] <= 1 {
      Sorting.DistinctCount(allowed, x);
    }
    Sorting.CountDistinct(Index(table));
  }

  /** Two different whitelisted rows of a table with one row per key sit at different positions. */
  lemma DistinctRowPositions(table: seq<SettingRow>, x: SettingRow, y: SettingRow)
    requires forall i, j :: 0 <= i < j < |table| ==> table[i].key != table[j].key
    requires x in table && y in table && x != y && IsAllowed(x) && IsAllowed(y)
    ensures Position(x) != Position(y)
  {
    var a :| 0 <= a < |table| && table[a] == x;
    var b :| 0 <= b < |table| && table[b] == y;
    assert x.key != y.key by {
      if a < b {
        assert table[a].key != table[b].key;
      } else {
        assert table[b].key != table[a].key;
      }
    }
    assert AllowedSettings()[Position(x)] != AllowedSettings()[Position(y)];
  }

  // ---------------------------------------------------------------- socialMedia

  /** The social-media keys, each defaulting to "". */
  function SocialMediaKeys(): seq<string> {
    ["instagram_url", "facebook_url", "youtube_url", "whatsapp_number"]
  }

  predicate IsSocialMedia(row: SettingRow) {
    row.key in SocialMediaKeys()
  }

  /** The value of the last row with key `key`, if any: what a keyed assignment loop leaves. */
  function LastValue(rows: seq<SettingRow>, key: string): Option<string> {
    if rows == [] then None
    else if rows[|rows| - 1].key == key then Some(rows[|rows| - 1].value)
    else LastValue(rows[..|rows| - 1], key)
  }

  /** `$formattedSettings` after the loop has seen `rows`: `$formattedSettings[$key] = $value` in turn. */
  function Formatted(rows: seq<SettingRow>): map<string, string> {
    if rows == [] then map[]
    else Formatted(rows[..|rows| - 1])[rows[|rows| - 1].key := rows[|rows| - 1].value]
  }

  /** The loop keeps each key's last value, and only the keys it saw. */
  lemma {:induction false} FormattedLookup(rows: seq<SettingRow>, key: string)
    ensures key in Formatted(rows) <==> LastValue(rows, key).Some?
    ensures key in Formatted(rows) ==> Formatted(rows)[key] == LastValue(rows, key).value
    decreases |rows|
  {
    if rows != [] {
      FormattedLookup(rows[..|rows| - 1], key);
    }
  }

  /** The last value in `a + b` is `b`'s when `b` has the key, and `a`'s otherwise. */
  lemma {:induction false} LastValueAppend(a: seq<SettingRow>, b: seq<SettingRow>, key: string)
    ensures LastValue(a + b, key) == if LastValue(b, key).Some? then LastValue(b, key) else LastValue(a, key)
    decreases |b|
  {
    if b == [] {
      assert a + b == a;
    } else {
      var n := |b| - 1;
      assert (a + b)[..|a + b| - 1] == a + b[..n];
      LastValueAppend(a, b[..n], key);
    }
  }

  /** Dropping rows of other keys does not change a key's last value. */
  lemma {:induction false} LastValueFilter(rows: seq<SettingRow>, p: SettingRow -> bool, key: string)
    requires forall row: SettingRow :: row.key == key ==> p(row)
    ensures LastValue(Records.Filter(rows, p), key) == LastValue(rows, key)
    decreases |rows|
  {
    if rows != [] {
      var rest := rows[1..];
      var kept := Records.Filter(rest, p);
      LastValueFilter(rest, p, key);
      assert rows == [rows[0]] + rest;
      if p(rows[0]) {
        assert Records.Filter(rows, p) == [rows[0]] + kept;
        LastValueSameTail(rows[0], kept, rest, key);
      } else {
        assert Records.Filter(rows, p) == kept;
        LastValueSkipsOther(rows[0], rest, key);
      }
    }
  }

  /** Two lists with the same last value keep it equal behind the same first row. */
  lemma LastValueSameTail(x: SettingRow, a: seq<SettingRow>, b: seq<SettingRow>, key: string)
    requires LastValue(a, key) == LastValue(b, key)
    ensures LastValue([x] + a, key) == LastValue([x] + b, key)
  {
    LastValueAppend([x], a, key);
    LastValueAppend([x], b, key);
  }

  /** A first row of another key does not change the last value. */
  lemma LastValueSkipsOther(x: SettingRow, rest: seq<SettingRow>, key: string)
    requires x.key != key
    ensures LastValue([x] + rest, key) == LastValue(rest, key)
  {
    LastValueAppend([x], rest, key);
    assert LastValue([x], key) == None;
  }

  /** What the loop stores for the social-media rows: social keys only, each with its last stored value. */
  lemma FormattedSocial(table: seq<SettingRow>, key: string)
    ensures key in Formatted(Records.Filter(table, IsSocialMedia)) ==> key in SocialMediaKeys()
    ensures key in SocialMediaKeys() ==>
      (key in Formatted(Records.Filter(table, IsSocialMedia)) <==> LastValue(table, key).Some?)
    ensures key in Formatted(Records.Filter(table, IsSocialMedia)) ==>
      Formatted(Records.Filter(table, IsSocialMedia))[key] == LastValue(table, key).value
  {
    var settings := Records.Filter(table, IsSocialMedia);
    FormattedLookup(settings, key);
    if key in Formatted(settings) {
      FormattedKeysAreRowKeys(settings, key);
      var i :| 0 <= i < |settings| && settings[i].key == key;
      assert IsSocialMedia(settings[i]);
    }
    if key in SocialMediaKeys() {
      LastValueFilter(table, IsSocialMedia, key);
    }
  }

  /** The `$defaultSettings` of `socialMedia`. */
  function SocialDefaults(): map<string, string> {
    map["instagram_url" := "", "facebook_url" := "", "youtube_url" := "", "whatsapp_number" := ""]
  }

  /** `array_merge`: the defaults, with every stored value put over its key. */
  function Merge(defaults: map<string, string>, stored: map<string, string>): (r: map<string, string>)
    ensures r.Keys == defaults.Keys + stored.Keys
    ensures forall k :: k in stored ==> r[k] == stored[k]
    ensures forall k :: k in defaults && k !in stored ==> r[k] == defaults[k]
  {
    defaults + stored
  }

  /**
   * `socialMedia`: exactly the four social keys, each holding the value of the last stored row
   * with that key, or "" when there is none.
   */
  method SocialMedia(table: seq<SettingRow>) returns (social: map<string, string>)
    ensures social.Keys == {"instagram_url", "facebook_url", "youtube_url", "whatsapp_number"}
    ensures forall k :: k in social ==> social[k] == LastValue(table, k).GetOr("")
  {
    var settings := Records.Filter(table, IsSocialMedia);
    var formatted: map<string, string> := map[];
    for i := 0 to |settings|
      invariant formatted == Formatted(settings[..i])
    {
      assert settings[..i + 1][..i] == settings[..i];
      formatted := formatted[settings[i].key := settings[i].value];
    }
    assert settings[..|settings|] == settings;
    social := Merge(SocialDefaults(), formatted);
    SocialMediaMerged(table);
  }

  /** The merged response: the four social keys, each with its last stored value or "". */
  lemma SocialMediaMerged(table: seq<SettingRow>)
    ensures var social := Merge(SocialDefaults(), Formatted(Records.Filter(table, IsSocialMedia)));
      social.Keys == {"instagram_url", "facebook_url", "youtube_url", "whatsapp_number"} &&
      forall k :: k in social ==> social[k] == LastValue(table, k).GetOr("")
  {
    SocialMediaMergedKeys(table);
    SocialMediaMergedValues(table);
  }

  lemma SocialMediaMergedKeys(table: seq<SettingRow>)
    ensures Merge(SocialDefaults(), Formatted(Records.Filter(table, IsSocialMedia))).Keys ==
      {"instagram_url", "facebook_url", "youtube_url", "whatsapp_number"}
  {
    var formatted := Formatted(Records.Filter(table, IsSocialMedia));
    forall k | k in formatted ensures k in SocialDefaults() {
      FormattedSocial(table, k);
    }
  }

  lemma SocialMediaMergedValues(table: seq<SettingRow>)
    ensures var social := Merge(SocialDefaults(), Formatted(Records.Filter(table, IsSocialMedia)));
      forall k :: k in social ==> social[k] == LastValue(table, k).GetOr("")
  {
    var formatted := Formatted(Records.Filter(table, IsSocialMedia));
    var social := Merge(SocialDefaults(), formatted);
    forall k | k in social ensures social[k] == LastValue(table, k).GetOr("") {
      FormattedSocial(table, k);
    }
  }

  /** A key the loop stored is the key of one of the rows. */
  lemma {:induction false} FormattedKeysAreRowKeys(rows: seq<SettingRow>, key: string)
    requires LastValue(rows, key).Some?
    ensures exists i :: 0 <= i < |rows| && rows[i].key == key
    decreases |rows|
  {
    var n := |rows| - 1;
    if rows[n].key != key {
      FormattedKeysAreRowKeys(rows[..n], key);
      var i :| 0 <= i < n && rows[..n][i].key == key;
      assert rows[i].key == key;
    }
  }
}
