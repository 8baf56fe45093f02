/**
 * The admin `Settings` page: the settings it reads with their defaults, the state of its two
 * upload fields, and `save`, which resolves uploaded paths through the cached Cloudinary
 * mapping before writing every field back to the settings table.
 *
 * The page's public properties are kept in declaration order; property `i` is named
 * `FieldAt(i).key`, the same order `getSettingsData` lists its keys in.
 */
module SettingsPage {
  import opened Wrappers
  import Php
  import opened Records
  import AppCache

  /** A form value: text, a toggle, or the file list of an upload field. */
  datatype FormValue = Text(s: string) | Flag(b: bool) | Files(paths: seq<string>)

  /** An entry of `getSettingsData`: the key read and the value used when it is not stored. */
  datatype Field = Field(key: string, default: FormValue)

  const FieldCount := 33
  const LogoIndex := 4
  const FaviconIndex := 5

  /** `getSettingsData`'s entries, in order. */
  function FieldAt(i: nat): Field
    requires i < FieldCount
  {
    match i
    case 0 => Field("site_name", Text(""))
    case 1 => Field("site_description", Text(""))
    case 2 => Field("prefix_pesanan", Text(""))
    case 3 => Field("prefix_deposit", Text(""))
    case 4 => Field("site_logo", Text(""))
    case 5 => Field("site_favicon", Text(""))
    case 6 => Field("primary_color", Text("#3B82F6"))
    case 7 => Field("secondary_color", Text("#64748B"))
    case 8 => Field("accent_color", Text("#F59E0B"))
    case 9 => Field("success_color", Text("#10B981"))
    case 10 => Field("meta_title", Text(""))
    case 11 => Field("meta_description", Text(""))
    case 12 => Field("meta_keywords", Text(""))
    case 13 => Field("instagram_url", Text(""))
    case 14 => Field("facebook_url", Text(""))
    case 15 => Field("whatsapp_number", Text(""))
    case 16 => Field("youtube_url", Text(""))
    case 17 => Field("digiflazz_username", Text(""))
    case 18 => Field("digiflazz_api_key", Text(""))
    case 19 => Field("digiflazz_secret_key", Text(""))
    case 20 => Field("apigames_username", Text(""))
    case 21 => Field("apigames_api_key", Text(""))
    case 22 => Field("bangjeff_username", Text(""))
    case 23 => Field("bangjeff_api_key", Text(""))
    case 24 => Field("tokopay_merchant_id", Text(""))
    case 25 => Field("tokopay_secret_key", Text(""))
    case 26 => Field("tokopay_sandbox", Flag(true))
    case 27 => Field("duitku_merchant_id", Text(""))
    case 28 => Field("duitku_api_key", Text(""))
    case 29 => Field("duitku_sandbox", Flag(true))
    case 30 => Field("fonnte_token", Text(""))
    case 31 => Field("fonnte_device_id", Text(""))
    case _ => Field("fonnte_enabled", Flag(false))
  }

  /** The position of a settings key in the table, if it is one. */
  function FieldPosition(key: string): Option<nat> {
    match key
    case "site_name" => Some(0)
    case "site_description" => Some(1)
    case "prefix_pesanan" => Some(2)
    case "prefix_deposit" => Some(3)
    case "site_logo" => Some(4)
    case "site_favicon" => Some(5)
    case "primary_color" => Some(6)
    case "secondary_color" => Some(7)
    case "accent_color" => Some(8)
    case "success_color" => Some(9)
    case "meta_title" => Some(10)
    case "meta_description" => Some(11)
    case "meta_keywords" => Some(12)
    case "instagram_url" => Some(13)
    case "facebook_url" => Some(14)
    case "whatsapp_number" => Some(15)
    case "youtube_url" => Some(16)
    case "digiflazz_username" => Some(17)
    case "digiflazz_api_key" => Some(18)
    case "digiflazz_secret_key" => Some(19)
    case "apigames_username" => Some(20)
    case "apigames_api_key" => Some(21)
    case "bangjeff_username" => Some(22)
    case "bangjeff_api_key" => Some(23)
    case "tokopay_merchant_id" => Some(24)
    case "tokopay_secret_key" => Some(25)
    case "tokopay_sandbox" => Some(26)
    case "duitku_merchant_id" => Some(27)
    case "duitku_api_key" => Some(28)
    case "duitku_sandbox" => Some(29)
    case "fonnte_token" => Some(30)
    case "fonnte_device_id" => Some(31)
    case "fonnte_enabled" => Some(32)
    case _ => None
  }

  /** The initial values of the page's public properties, in declaration order. */
  function PropertyDefault(i: nat): FormValue
    requires i < FieldCount
  {
    match i
    case 0 => Text("")
    case 1 => Text("")
    case 2 => Text("")
    case 3 => Text("")
    case 4 => Files([])
    case 5 => Files([])
    case 6 => Text("#3B82F6")
    case 7 => Text("#64748B")
    case 8 => Text("#F59E0B")
    case 9 => Text("#10B981")
    case 10 => Text("")
    case 11 => Text("")
    case 12 => Text("")
    case 13 => Text("")
    case 14 => Text("")
    case 15 => Text("")
    case 16 => Text("")
    case 17 => Text("")
    case 18 => Text("")
    case 19 => Text("")
    case 20 => Text("")
    case 21 => Text("")
    case 22 => Text("")
    case 23 => Text("")
    case 24 => Text("")
    case 25 => Text("")
    case 26 => Flag(true)
    case 27 => Text("")
    case 28 => Text("")
    case 29 => Flag(true)
    case 30 => Text("")
    case 31 => Text("")
    case _ => Flag(false)
  }

  lemma FieldPositionLow(i: nat)
    requires i < 11
    ensures FieldPosition(FieldAt(i).key) == Some(i)
  {
  }

  lemma FieldPositionMiddle(i: nat)
    requires 11 <= i < 22
    ensures FieldPosition(FieldAt(i).key) == Some(i)
  {
  }

  lemma FieldPositionHigh(i: nat)
    requires 22 <= i < FieldCount
    ensures FieldPosition(FieldAt(i).key) == Some(i)
  {
  }

  /** Each key names its own entry. */
  lemma FieldPositions()
    ensures forall i :: 0 <= i < FieldCount ==> FieldPosition(FieldAt(i).key) == Some(i)
  {
    forall i | 0 <= i < FieldCount ensures FieldPosition(FieldAt(i).key) == Some(i) {
      if i < 11 {
        FieldPositionLow(i);
      } else if i < 22 {
        FieldPositionMiddle(i);
      } else {
        FieldPositionHigh(i);
      }
    }
  }

  /** The stored text of a key, or the entry's default: `$settings[$key] ?? $default`. */
  function DataValue(stored: map<string, string>, f: Field): (v: FormValue)
    ensures f.key in stored ==> v == Text(stored[f.key])
    ensures f.key !in stored ==> v == f.default
  {
    if f.key in stored then Text(stored[f.key]) else f.default
  }

  /** `getSettingsData`: every entry's value, in table order. */
  function SettingsData(stored: map<string, string>): (data: seq<FormValue>)
    ensures |data| == FieldCount
  {
    seq(FieldCount, i requires 0 <= i < FieldCount => DataValue(stored, FieldAt(i)))
  }

  /** A stored value always wins over the default. */
  lemma StoredValuesWin(stored: map<string, string>)
    ensures forall i :: 0 <= i < FieldCount && FieldAt(i).key in stored ==>
      SettingsData(stored)[i] == Text(stored[FieldAt(i).key])
  {
  }

  /** A missing key reads as "", except the four colours and the three toggles. */
  lemma MissingTextDefaultsEmpty(stored: map<string, string>)
    ensures forall i :: (0 <= i < FieldCount && FieldAt(i).key !in stored &&
                         FieldAt(i).key !in {"primary_color", "secondary_color", "accent_color", "success_color",
                                             "tokopay_sandbox", "duitku_sandbox", "fonnte_enabled"}) ==>
      SettingsData(stored)[i] == Text("")
  {
  }

  /** The colour and toggle defaults. */
  lemma ColourAndToggleDefaults(stored: map<string, string>)
    ensures "primary_color" !in stored ==> SettingsData(stored)[6] == Text("#3B82F6")
    ensures "secondary_color" !in stored ==> SettingsData(stored)[7] == Text("#64748B")
    ensures "accent_color" !in stored ==> SettingsData(stored)[8] == Text("#F59E0B")
    ensures "success_color" !in stored ==> SettingsData(stored)[9] == Text("#10B981")
    ensures "tokopay_sandbox" !in stored ==> SettingsData(stored)[26] == Flag(true)
    ensures "duitku_sandbox" !in stored ==> SettingsData(stored)[29] == Flag(true)
    ensures "fonnte_enabled" !in stored ==> SettingsData(stored)[32] == Flag(false)
  {
  }

  /** The properties start at the table's defaults, except the two upload fields, which start empty. */
  lemma PropertyDefaultsMatchTable()
    ensures forall i :: 0 <= i < FieldCount && i != LogoIndex && i != FaviconIndex ==>
      PropertyDefault(i) == FieldAt(i).default
    ensures PropertyDefault(LogoIndex) == Files([]) && FieldAt(LogoIndex).default == Text("")
    ensures PropertyDefault(FaviconIndex) == Files([]) && FieldAt(FaviconIndex).default == Text("")
  {
  }

  /** The table's keys, in order. */
  function FieldKeys(): (keys: seq<string>)
    ensures |keys| == FieldCount
  {
    seq(FieldCount, i requires 0 <= i < FieldCount => FieldAt(i).key)
  }

  /** No two entries share a key. */
  lemma FieldKeysDistinct()
    ensures forall i, j :: 0 <= i < j < FieldCount ==> FieldKeys()[i] != FieldKeys()[j]
  {
    FieldPositions();
  }

  // ---------------------------------------------------------------- upload fields

  /** `$value ? [$value] : []`: the file list of an upload field showing a stored path. */
  function UploadState(v: FormValue): (paths: seq<string>)
    ensures v.Text? && Php.Truthy(v.s) ==> paths == [v.s]
    ensures !(v.Text? && Php.Truthy(v.s)) ==> paths == []
  {
    if v.Text? && Php.Truthy(v.s) then [v.s] else []
  }

  /** `getSiteLogoState`: the stored logo path as a one-file list, or no file when it is empty or unset. */
  function SiteLogoState(stored: map<string, string>): (paths: seq<string>)
    ensures Php.TruthyOpt(SettingValue(stored, "site_logo")) ==> paths == [stored["site_logo"]]
    ensures !Php.TruthyOpt(SettingValue(stored, "site_logo")) ==> paths == []
  {
    UploadState(SettingsData(stored)[LogoIndex])
  }

  /** `getSiteFaviconState`: the same rule for the favicon. */
  function SiteFaviconState(stored: map<string, string>): (paths: seq<string>)
    ensures Php.TruthyOpt(SettingValue(stored, "site_favicon")) ==> paths == [stored["site_favicon"]]
    ensures !Php.TruthyOpt(SettingValue(stored, "site_favicon")) ==> paths == []
  {
    UploadState(SettingsData(stored)[FaviconIndex])
  }

  /** `"cloudinary_mapping_" . md5($localPath)`: where the upload component leaves a file's Cloudinary URL. */
  function MappingKey(md5: string -> string, path: string): string {
    "cloudinary_mapping_" + md5(path)
  }

  /**
   * The path `save` stores for an upload whose first file is `path`: a URL is kept; a local path
   * is replaced by its cached Cloudinary URL when one is cached, and kept otherwise.
   */
  function ResolvedPath(isUrl: string -> bool, cached: AppCache.CacheValue, path: string): (r: string)
    ensures isUrl(path) ==> r == path
    ensures !isUrl(path) && AppCache.Truthy(cached) && cached.Text? ==> r == cached.s
    ensures !isUrl(path) && !AppCache.Truthy(cached) ==> r == path
    ensures r == path || (cached.Text? && r == cached.s)
  {
    if !isUrl(path) && AppCache.Truthy(cached) && cached.Text? then cached.s else path
  }

  /** The settings table `save` writes to; `Setting::setValue` is taken to store the value under its key. */
  class SettingStore {
    var values: map<string, FormValue>

    constructor (initial: map<string, FormValue>)
      ensures values == initial
    {
      values := initial;
    }

    method SetValue(key: string, value: FormValue)
      modifies this
      ensures values == old(values)[key := value]
    {
      values := values[key := value];
    }
  }

  /** The table after the first `n` pairs of `keys` and `data` were written, one after another. */
  function Written(values: map<string, FormValue>, keys: seq<string>, data: seq<FormValue>, n: nat): map<string, FormValue>
    requires n <= |keys| && n <= |data|
  {
    if n == 0 then values else Written(values, keys, data, n - 1)[keys[n - 1] := data[n - 1]]
  }

  /** With distinct keys, each written key holds its own value, and every other key is left alone. */
  lemma WrittenValues(values: map<string, FormValue>, keys: seq<string>, data: seq<FormValue>, n: nat)
    requires n <= |keys| && n <= |data|
    requires forall i, j :: 0 <= i < j < n ==> keys[i] != keys[j]
    ensures forall i :: 0 <= i < n ==> keys[i] in Written(values, keys, data, n) && Written(values, keys, data, n)[keys[i]] == data[i]
    ensures forall k :: k !in keys[..n] ==>
      (k in Written(values, keys, data, n) <==> k in values) &&
      (k in values ==> Written(values, keys, data, n)[k] == values[k])
  {
    forall i | 0 <= i < n
      ensures keys[i] in Written(values, keys, data, n) && Written(values, keys, data, n)[keys[i]] == data[i]
    {
      WrittenKey(values, keys, data, n, i);
    }
    forall k | k !in keys[..n]
      ensures (k in Written(values, keys, data, n) <==> k in values) &&
        (k in values ==> Written(values, keys, data, n)[k] == values[k])
    {
      WrittenOther(values, keys, data, n, k);
    }
  }

  /** The `i`th key, written once among distinct keys, holds the `i`th value. */
  lemma {:induction false} WrittenKey(values: map<string, FormValue>, keys: seq<string>, data: seq<FormValue>, n: nat, i: nat)
    requires i < n <= |keys| && n <= |data|
    requires forall a, b :: 0 <= a < b < n ==> keys[a] != keys[b]
    ensures keys[i] in Written(values, keys, data, n) && Written(values, keys, data, n)[keys[i]] == data[i]
    decreases n
  {
    if i < n - 1 {
      WrittenKey(values, keys, data, n - 1, i);
      assert keys[i] != keys[n - 1];
    }
  }

  /** A key that was not written keeps whatever it had. */
  lemma {:induction false} WrittenOther(values: map<string, FormValue>, keys: seq<string>, data: seq<FormValue>, n: nat, k: string)
    requires n <= |keys| && n <= |data|
    requires k !in keys[..n]
    ensures k in Written(values, keys, data, n) <==> k in values
    ensures k in values ==> Written(values, keys, data, n)[k] == values[k]
    decreases n
  {
    if n > 0 {
      assert keys[..n - 1] == keys[..n][..n - 1];
      assert keys[n - 1] in keys[..n];
      WrittenOther(values, keys, data, n - 1, k);
    }
  }

  // ---------------------------------------------------------------- form validation

  /** The fields marked `required()`: site_name, site_description, prefix_pesanan, prefix_deposit. */
  const RequiredIndices: seq<nat> := [0, 1, 2, 3]

  /** The fields marked `url()`: instagram_url, facebook_url, youtube_url. */
  const UrlIndices: seq<nat> := [13, 14, 16]

  /** Laravel's `required`: not null, not blank after trimming, not an empty file list. */
  predicate Filled(v: FormValue) {
    match v
    case Text(s) => Php.Trim(s) != ""
    case Flag(_) => true
    case Files(paths) => paths != []
  }

  /** Laravel's `url` on an optional field: a blank value is not checked, any other text must pass. */
  predicate UrlAccepted(urlRule: string -> bool, v: FormValue) {
    v.Text? && Php.Trim(v.s) != "" ==> urlRule(v.s)
  }

  /** What `$this->form->getState()` checks before it hands the state back; it throws otherwise. */
  predicate FormValid(state: seq<FormValue>, urlRule: string -> bool)
    requires |state| == FieldCount
  {
    (forall i :: 0 <= i < |RequiredIndices| ==> Filled(state[RequiredIndices[i]])) &&
    (forall i :: 0 <= i < |UrlIndices| ==> UrlAccepted(urlRule, state[UrlIndices[i]]))
  }

  /** The rules name the right fields. */
  lemma ValidatedKeys()
    ensures forall i :: 0 <= i < |RequiredIndices| ==> RequiredIndices[i] < FieldCount
    ensures forall i :: 0 <= i < |UrlIndices| ==> UrlIndices[i] < FieldCount
    ensures [FieldAt(0).key, FieldAt(1).key, FieldAt(2).key, FieldAt(3).key] ==
      ["site_name", "site_description", "prefix_pesanan", "prefix_deposit"]
    ensures [FieldAt(13).key, FieldAt(14).key, FieldAt(16).key] == ["instagram_url", "facebook_url", "youtube_url"]
  {
  }

  /**
   * The page as first constructed cannot be saved: its site name is empty, so `getState` throws
   * whatever the url rule says.
   */
  lemma DefaultsRejected(urlRule: string -> bool)
    ensures !FormValid(seq(FieldCount, i requires 0 <= i < FieldCount => PropertyDefault(i)), urlRule)
  {
    var state := seq(FieldCount, i requires 0 <= i < FieldCount => PropertyDefault(i));
    assert state[RequiredIndices[0]] == Text("");
    assert Php.Trim("") == "";
  }

  class Page {
    /** The public properties, in declaration order. */
    var state: seq<FormValue>

    ghost predicate Valid()
      reads this
    {
      |state| == FieldCount
    }

    /** The properties' declared initial values. */
    constructor ()
      ensures Valid()
      ensures forall i :: 0 <= i < FieldCount ==> state[i] == PropertyDefault(i)
    {
      state := seq(FieldCount, i requires 0 <= i < FieldCount => PropertyDefault(i));
    }

    /**
     * `loadSettings`: every property takes its `getSettingsData` value, except the logo and
     * favicon, which take their one-file (or empty) upload state.
     */
    method LoadSettings(stored: map<string, string>)
      modifies this
      ensures Valid()
      ensures forall i :: 0 <= i < FieldCount && i != LogoIndex && i != FaviconIndex ==>
        state[i] == DataValue(stored, FieldAt(i))
      ensures state[LogoIndex] == Files(SiteLogoState(stored))
      ensures state[FaviconIndex] == Files(SiteFaviconState(stored))
    {
      var data := SettingsData(stored);
      state := data[LogoIndex := Files(UploadState(data[LogoIndex]))][FaviconIndex := Files(UploadState(data[FaviconIndex]))];
    }

    /** `updatedSiteLogo`: only a non-empty file list replaces the logo state. */
    method UpdatedSiteLogo(value: FormValue)
      requires Valid()
      modifies this
      ensures Valid()
      ensures value.Files? && value.paths != [] ==> state == old(state)[LogoIndex := value]
      ensures !(value.Files? && value.paths != []) ==> state == old(state)
    {
      if value.Files? && value.paths != [] {
        state := state[LogoIndex := value];
      }
    }

    /** `updatedSiteFavicon`: only a non-empty file list replaces the favicon state. */
    method UpdatedSiteFavicon(value: FormValue)
      requires Valid()
      modifies this
      ensures Valid()
      ensures value.Files? && value.paths != [] ==> state == old(state)[FaviconIndex := value]
      ensures !(value.Files? && value.paths != []) ==> state == old(state)
    {
      if value.Files? && value.paths != [] {
        state := state[FaviconIndex := value];
      }
    }

    /** What `save` writes for an upload field: its resolved first file, or the state unchanged when empty. */
    function SavedUpload(isUrl: string -> bool, md5: string -> string, cache: AppCache.Cache, v: FormValue): FormValue
      reads cache
    {
      if v.Files? && v.paths != [] then Text(ResolvedPath(isUrl, cache.Get(MappingKey(md5, v.paths[0])), v.paths[0]))
      else v
    }

    /**
     * `save`: when the form passes its rules, the form state with each non-empty upload field
     * replaced by its resolved path, written key by key; keys that are not settings of the page
     * keep their values. When a rule fails, `getState` throws, the `catch` shows the error
     * notification and nothing is written. `saved` tells which notification is shown.
     */
    method Save(store: SettingStore, cache: AppCache.Cache, isUrl: string -> bool, urlRule: string -> bool, md5: string -> string)
      returns (saved: bool)
      requires Valid()
      modifies store
      ensures saved == FormValid(state, urlRule)
      ensures !saved ==> store.values == old(store.values)
      ensures saved ==> forall i :: 0 <= i < FieldCount ==> FieldKeys()[i] in store.values
      ensures saved ==> forall i :: 0 <= i < FieldCount && i != LogoIndex && i != FaviconIndex ==>
        store.values[FieldKeys()[i]] == state[i]
      ensures saved ==> store.values[FieldKeys()[LogoIndex]] == SavedUpload(isUrl, md5, cache, state[LogoIndex])
      ensures saved ==> store.values[FieldKeys()[FaviconIndex]] == SavedUpload(isUrl, md5, cache, state[FaviconIndex])
      ensures forall k :: k !in FieldKeys() ==>
        (k in store.values <==> k in old(store.values)) &&
        (k in old(store.values) ==> store.values[k] == old(store.values)[k])
    {
      if !FormValid(state, urlRule) {
        return false;
      }
      var data := state;
      data := data[LogoIndex := SavedUpload(isUrl, md5, cache, data[LogoIndex])];
      data := data[FaviconIndex := SavedUpload(isUrl, md5, cache, data[FaviconIndex])];
      SaveSettings(store, data);
      FieldKeysDistinct();
      WrittenValues(old(store.values), FieldKeys(), data, FieldCount);
      assert FieldKeys()[..FieldCount] == FieldKeys();
      saved := true;
    }
  }

  /**
   * `saveSettings`: `Setting::setValue($key, $value)` for every entry of the data. The loop walks the
   * entries in the order of `getSettingsData`'s table, while the page's `$data` follows the form
   * schema (youtube_url comes before whatsapp_number there); the keys are distinct, so the final
   * store is the same in either order.
   */
  method SaveSettings(store: SettingStore, data: seq<FormValue>)
    requires |data| == FieldCount
    modifies store
    ensures store.values == Written(old(store.values), FieldKeys(), data, FieldCount)
  {
    var keys := FieldKeys();
    for i := 0 to FieldCount
      invariant store.values == Written(old(store.values), keys, data, i)
    {
      store.SetValue(keys[i], data[i]);
    }
  }
}
