/**
 * The Eloquent models' computed attributes: the display-URL accessors, the `User` role helpers
 * and hidden attributes, and `Product::getAvailableProviders`.
 *
 * URL validation (`filter_var($x, FILTER_VALIDATE_URL)`) and the storage disk's public URL
 * (`Storage::url`) are collaborators this model does not interpret; they arrive in an `Env`.
 */
module Models {
  import opened Wrappers
  import Php
  import opened Records
  import opened AppCache

  datatype Env = Env(isUrl: string -> bool, storageUrl: string -> string)

  const CloudinaryPrefix := "https://res.cloudinary.com"

  /** A stored value that is already absolute: a valid URL or a Cloudinary delivery URL. */
  predicate IsRemote(env: Env, path: string) {
    env.isUrl(path) || Php.StartsWith(path, CloudinaryPrefix)
  }

  // ---------------------------------------------------------------- display URLs

  /** `Product::getIconUrlAttribute`. */
  function ProductIconUrl(env: Env, iconPath: Option<string>): (r: Option<string>)
    ensures IsRemote(env, Php.OrEmpty(iconPath)) ==> r == iconPath
    ensures !IsRemote(env, Php.OrEmpty(iconPath)) && Php.TruthyOpt(iconPath) ==> r == Some(env.storageUrl(iconPath.value))
    ensures !IsRemote(env, Php.OrEmpty(iconPath)) && !Php.TruthyOpt(iconPath) ==> r == None
  {
    if env.isUrl(Php.OrEmpty(iconPath)) then iconPath
    else if Php.StartsWith(Php.OrEmpty(iconPath), CloudinaryPrefix) then iconPath
    else if Php.TruthyOpt(iconPath) then Some(env.storageUrl(iconPath.value))
    else None
  }

  /** `Game::getImageThumbnailUrlAttribute` (the column is NOT NULL). */
  function GameThumbnailUrl(env: Env, thumbnailPath: string): (r: Option<string>)
    ensures IsRemote(env, thumbnailPath) ==> r == Some(thumbnailPath)
    ensures !IsRemote(env, thumbnailPath) && Php.Truthy(thumbnailPath) ==> r == Some(env.storageUrl(thumbnailPath))
    ensures !IsRemote(env, thumbnailPath) && !Php.Truthy(thumbnailPath) ==> r == None
  {
    if env.isUrl(thumbnailPath) then Some(thumbnailPath)
    else if Php.StartsWith(thumbnailPath, CloudinaryPrefix) then Some(thumbnailPath)
    else if Php.Truthy(thumbnailPath) then Some(env.storageUrl(thumbnailPath))
    else None
  }

  /** `Game::getImageBannerUrlAttribute`: the thumbnail rule applied to the banner path alone. */
  function GameBannerUrl(env: Env, bannerPath: string): (r: Option<string>)
    ensures IsRemote(env, bannerPath) ==> r == Some(bannerPath)
    ensures !IsRemote(env, bannerPath) && Php.Truthy(bannerPath) ==> r == Some(env.storageUrl(bannerPath))
    ensures !IsRemote(env, bannerPath) && !Php.Truthy(bannerPath) ==> r == None
  {
    if env.isUrl(bannerPath) then Some(bannerPath)
    else if Php.StartsWith(bannerPath, CloudinaryPrefix) then Some(bannerPath)
    else if Php.Truthy(bannerPath) then Some(env.storageUrl(bannerPath))
    else None
  }

  /** `ProductCategory::getIconUrlAttribute`: the emptiness guard comes first. */
  function CategoryIconUrl(env: Env, iconPath: Option<string>): (r: Option<string>)
    ensures r.Some? <==> Php.TruthyOpt(iconPath)
    ensures Php.TruthyOpt(iconPath) && IsRemote(env, iconPath.value) ==> r == iconPath
    ensures Php.TruthyOpt(iconPath) && !IsRemote(env, iconPath.value) ==> r == Some(env.storageUrl(iconPath.value))
  {
    if !Php.TruthyOpt(iconPath) then None
    else if env.isUrl(iconPath.value) || Php.StartsWith(iconPath.value, CloudinaryPrefix) then iconPath
    else Some(env.storageUrl(iconPath.value))
  }

  /** `Slider::getImageUrlAttribute`: declared to return a string, with no emptiness guard. */
  function SliderImageUrl(env: Env, imagePath: string): (r: string)
    ensures IsRemote(env, imagePath) ==> r == imagePath
    ensures !IsRemote(env, imagePath) ==> r == env.storageUrl(imagePath)
  {
    if env.isUrl(imagePath) then imagePath
    else if Php.StartsWith(imagePath, CloudinaryPrefix) then imagePath
    else env.storageUrl(imagePath)
  }

  /** `PaymentMethod::getImageUrlAttribute`. */
  function PaymentMethodImageUrl(env: Env, imagePath: Option<string>): (r: Option<string>)
    ensures IsRemote(env, Php.OrEmpty(imagePath)) ==> r == imagePath
    ensures !IsRemote(env, Php.OrEmpty(imagePath)) && Php.TruthyOpt(imagePath) ==> r == Some(env.storageUrl(imagePath.value))
    ensures !IsRemote(env, Php.OrEmpty(imagePath)) && !Php.TruthyOpt(imagePath) ==> r == None
  {
    if env.isUrl(Php.OrEmpty(imagePath)) then imagePath
    else if Php.StartsWith(Php.OrEmpty(imagePath), CloudinaryPrefix) then imagePath
    else if Php.TruthyOpt(imagePath) then Some(env.storageUrl(imagePath.value))
    else None
  }

  /** `GameConfiguration::getGuideImageUrlAttribute`. */
  function GuideImageUrl(env: Env, guideImagePath: Option<string>): (r: Option<string>)
    ensures IsRemote(env, Php.OrEmpty(guideImagePath)) ==> r == guideImagePath
    ensures !IsRemote(env, Php.OrEmpty(guideImagePath)) && Php.TruthyOpt(guideImagePath) ==> r == Some(env.storageUrl(guideImagePath.value))
    ensures !IsRemote(env, Php.OrEmpty(guideImagePath)) && !Php.TruthyOpt(guideImagePath) ==> r == None
  {
    if env.isUrl(Php.OrEmpty(guideImagePath)) then guideImagePath
    else if Php.StartsWith(Php.OrEmpty(guideImagePath), CloudinaryPrefix) then guideImagePath
    else if Php.TruthyOpt(guideImagePath) then Some(env.storageUrl(guideImagePath.value))
    else None
  }

  /** `Article::getImageUrlAttribute`: both pass-through tests in one condition. */
  function ArticleImageUrl(env: Env, imagePath: Option<string>): (r: Option<string>)
    ensures IsRemote(env, Php.OrEmpty(imagePath)) ==> r == imagePath
    ensures !IsRemote(env, Php.OrEmpty(imagePath)) && Php.TruthyOpt(imagePath) ==> r == Some(env.storageUrl(imagePath.value))
    ensures !IsRemote(env, Php.OrEmpty(imagePath)) && !Php.TruthyOpt(imagePath) ==> r == None
  {
    if env.isUrl(Php.OrEmpty(imagePath)) || Php.StartsWith(Php.OrEmpty(imagePath), CloudinaryPrefix) then imagePath
    else if Php.TruthyOpt(imagePath) then Some(env.storageUrl(imagePath.value))
    else None
  }

  /** `Popup::getImageUrlAttribute`: no pass-through at all. */
  function PopupImageUrl(env: Env, imagePath: Option<string>): (r: Option<string>)
    ensures r.Some? <==> Php.TruthyOpt(imagePath)
    ensures r.Some? ==> r.value == env.storageUrl(imagePath.value)
  {
    if Php.TruthyOpt(imagePath) then Some(env.storageUrl(imagePath.value)) else None
  }

  /** Product, payment-method, guide-image and article accessors are one and the same rule. */
  lemma SharedAccessorRule(env: Env, p: Option<string>)
    ensures PaymentMethodImageUrl(env, p) == ProductIconUrl(env, p)
    ensures GuideImageUrl(env, p) == ProductIconUrl(env, p)
    ensures ArticleImageUrl(env, p) == ProductIconUrl(env, p)
  {
  }

  /** The game accessors are that rule on a non-null column. */
  lemma GameAccessorsFollowRule(env: Env, p: string)
    ensures GameThumbnailUrl(env, p) == ProductIconUrl(env, Some(p))
    ensures GameBannerUrl(env, p) == ProductIconUrl(env, Some(p))
  {
  }

  /**
   * The product-category accessor departs from that rule only for a falsy path ("" or "0")
   * that the URL test or the prefix accepts: it answers null where the rule passes it through.
   */
  lemma CategoryDeparture(env: Env, p: Option<string>)
    ensures CategoryIconUrl(env, p) != ProductIconUrl(env, p) <==>
      p.Some? && !Php.Truthy(p.value) && IsRemote(env, p.value)
  {
  }

  /** The slider accessor departs from the rule only on falsy paths, which it still sends to storage. */
  lemma SliderDeparture(env: Env, p: string)
    ensures Some(SliderImageUrl(env, p)) != GameThumbnailUrl(env, p) <==> !IsRemote(env, p) && !Php.Truthy(p)
  {
  }

  /** The popup accessor departs from the rule exactly on remote paths whose storage URL is not themselves. */
  lemma PopupDeparture(env: Env, p: Option<string>)
    ensures PopupImageUrl(env, p) != ProductIconUrl(env, p) <==>
      (IsRemote(env, Php.OrEmpty(p)) && (if Php.TruthyOpt(p) then env.storageUrl(p.value) != p.value else p.Some?))
  {
  }

  // ---------------------------------------------------------------- User

  /** `User::canAccessPanel`: a role whose name is exactly "admin". */
  predicate CanAccessPanel(u: User) {
    u.role.Some? && u.role.value.name == "admin"
  }

  /** `User::hasRole` */
  predicate HasRole(u: User, roleName: string) {
    u.role.Some? && u.role.value.name == roleName
  }

  lemma PanelAccessIsAdminRole(u: User)
    ensures CanAccessPanel(u) <==> HasRole(u, "admin")
    ensures u.role.None? ==> forall name :: !HasRole(u, name)
  {
  }

  /** `User::getProfitPercentage`: the role's percentage, 0 without a role. */
  function ProfitPercentage(u: User): (p: real)
    ensures u.role.None? ==> p == 0.0
    ensures u.role.Some? ==> p == u.role.value.profitPercentage
  {
    if u.role.Some? then u.role.value.profitPercentage else 0.0
  }

  const HiddenAttributes: set<string> := {"password", "remember_token", "api_key"}

  /** The user's attributes as serialized (`toArray`/JSON): everything but the hidden ones. */
  function SerializedUser(attributes: map<string, string>): (r: map<string, string>)
    ensures forall k :: k in r <==> k in attributes && k !in HiddenAttributes
    ensures forall k :: k in r ==> r[k] == attributes[k]
    ensures "password" !in r && "remember_token" !in r && "api_key" !in r
  {
    attributes - HiddenAttributes
  }

  // ---------------------------------------------------------------- Product providers

  const ProvidersCacheKey := "product.available_providers"

  /** Every provider option, in the order `getAvailableProviders` adds them. */
  const AllProviderOptions := [
    SelectOption("MANUAL", "MANUAL (Manual Processing)"),
    SelectOption("digiflazz", "Digiflazz"),
    SelectOption("apigames", "Apigames"),
    SelectOption("bangjeff", "Bangjeff")]

  /** The positions in `AllProviderOptions` of MANUAL and of each provider whose flag is set. */
  function ProviderIndices(digiflazz: bool, apigames: bool, bangjeff: bool): (ks: seq<nat>)
    ensures |ks| >= 1 && ks[0] == 0
    ensures forall i :: 0 <= i < |ks| ==> ks[i] < |AllProviderOptions|
    ensures forall i, j :: 0 <= i < j < |ks| ==> ks[i] < ks[j]
    ensures 1 in ks <==> digiflazz
    ensures 2 in ks <==> apigames
    ensures 3 in ks <==> bangjeff
  {
    [0] + (if digiflazz then [1] else []) + (if apigames then [2] else []) + (if bangjeff then [3] else [])
  }

  /** The options at positions `ks`, in that order. */
  function OptionsAt(ks: seq<nat>): (r: seq<SelectOption>)
    requires forall i :: 0 <= i < |ks| ==> ks[i] < |AllProviderOptions|
    ensures |r| == |ks| && forall i :: 0 <= i < |r| ==> r[i] == AllProviderOptions[ks[i]]
  {
    seq(|ks|, i requires 0 <= i < |ks| => AllProviderOptions[ks[i]])
  }

  /** An option is picked exactly when its position is: no two options share a key. */
  lemma OptionsAtContains(ks: seq<nat>, k: nat)
    requires forall i :: 0 <= i < |ks| ==> ks[i] < |AllProviderOptions|
    requires k < |AllProviderOptions|
    ensures AllProviderOptions[k] in OptionsAt(ks) <==> k in ks
  {
    var r := OptionsAt(ks);
    if k in ks {
      var i :| 0 <= i < |ks| && ks[i] == k;
      assert r[i] == AllProviderOptions[k];
    }
    if AllProviderOptions[k] in r {
      var i :| 0 <= i < |r| && r[i] == AllProviderOptions[k];
      assert AllProviderOptions[ks[i]].key[0] == AllProviderOptions[k].key[0];
    }
  }

  /** The provider options built by `Product::getAvailableProviders` on a cache miss. */
  function AvailableProviders(settings: map<string, string>): (r: seq<SelectOption>)
    ensures var ks := ProviderIndices(!Php.IsEmpty(SettingValue(settings, "digiflazz_username")),
      !Php.IsEmpty(SettingValue(settings, "apigames_merchant")), !Php.IsEmpty(SettingValue(settings, "bangjeff_username")));
      |r| == |ks| && forall i :: 0 <= i < |r| ==> r[i] == AllProviderOptions[ks[i]]
    ensures |r| >= 1 && r[0] == SelectOption("MANUAL", "MANUAL (Manual Processing)")
    ensures SelectOption("digiflazz", "Digiflazz") in r <==> !Php.IsEmpty(SettingValue(settings, "digiflazz_username"))
    ensures SelectOption("apigames", "Apigames") in r <==> !Php.IsEmpty(SettingValue(settings, "apigames_merchant"))
    ensures SelectOption("bangjeff", "Bangjeff") in r <==> !Php.IsEmpty(SettingValue(settings, "bangjeff_username"))
    ensures |r| <= 4
  {
    var ks := ProviderIndices(!Php.IsEmpty(SettingValue(settings, "digiflazz_username")),
      !Php.IsEmpty(SettingValue(settings, "apigames_merchant")), !Php.IsEmpty(SettingValue(settings, "bangjeff_username")));
    OptionsAtContains(ks, 1);
    OptionsAtContains(ks, 2);
    OptionsAtContains(ks, 3);
    OptionsAt(ks)
  }

  /** `Product::getAvailableProviders`: the options above, remembered in the cache. */
  method GetAvailableProviders(cache: Cache, settings: map<string, string>) returns (v: CacheValue)
    modifies cache
    ensures old(cache.Get(ProvidersCacheKey)) != Null ==> v == old(cache.Get(ProvidersCacheKey)) && cache.entries == old(cache.entries)
    ensures old(cache.Get(ProvidersCacheKey)) == Null ==>
      v == Options(AvailableProviders(settings)) && cache.entries == old(cache.entries)[ProvidersCacheKey := v]
  {
    v := cache.Remember(ProvidersCacheKey, Options(AvailableProviders(settings)));
  }
}
