/**
 * Invalidation of the cached game-configuration responses: the two model observers, which
 * forget the keys of every active game using the changed configuration, and the
 * `game-configurations:clear-cache` console command.
 */
module CacheInvalidation {
  import opened Wrappers
  import Php
  import opened Records
  import opened AppCache

  /** The cache after forgetting both configuration keys of each slug in turn. */
  function Cleared(entries: map<string, CacheValue>, slugs: seq<string>): map<string, CacheValue> {
    if slugs == [] then entries
    else Cleared(entries, slugs[..|slugs| - 1]) - GameKeys(slugs[|slugs| - 1])
  }

  /** Every key that belongs to one of `slugs`. */
  ghost function KeysOf(slugs: seq<string>): set<string> {
    set i, k | 0 <= i < |slugs| && k in GameKeys(slugs[i]) :: k
  }

  /** Clearing removes exactly the slugs' keys: nothing else is dropped or changed. */
  lemma {:induction false} ClearedIsRemoval(entries: map<string, CacheValue>, slugs: seq<string>)
    ensures Cleared(entries, slugs) == entries - KeysOf(slugs)
    decreases |slugs|
  {
    if slugs != [] {
      var n := |slugs| - 1;
      ClearedIsRemoval(entries, slugs[..n]);
      assert KeysOf(slugs) == KeysOf(slugs[..n]) + GameKeys(slugs[n]) by {
        forall k | k in KeysOf(slugs) ensures k in KeysOf(slugs[..n]) + GameKeys(slugs[n]) {
          var i :| 0 <= i < |slugs| && k in GameKeys(slugs[i]);
          if i < n {
            assert slugs[..n][i] == slugs[i];
          }
        }
        forall k | k in KeysOf(slugs[..n]) ensures k in KeysOf(slugs) {
          var i :| 0 <= i < n && k in GameKeys(slugs[..n][i]);
          assert slugs[i] == slugs[..n][i];
        }
      }
    }
  }

  /** A game's keys are among those cleared exactly when its slug is one of the cleared slugs. */
  lemma KeysOfSlug(slugs: seq<string>, slug: string)
    ensures InfoKey(slug) in KeysOf(slugs) <==> slug in slugs
    ensures FieldsKey(slug) in KeysOf(slugs) <==> slug in slugs
  {
    if slug in slugs {
      var i :| 0 <= i < |slugs| && slugs[i] == slug;
      assert InfoKey(slug) in GameKeys(slugs[i]) && FieldsKey(slug) in GameKeys(slugs[i]);
    }
    forall i | 0 <= i < |slugs| ensures InfoKey(slug) in GameKeys(slugs[i]) ==> slugs[i] == slug {
      KeysSeparate(slug, slugs[i]);
    }
    forall i | 0 <= i < |slugs| ensures FieldsKey(slug) in GameKeys(slugs[i]) ==> slugs[i] == slug {
      KeysSeparate(slugs[i], slug);
    }
  }

  /** Clearing twice leaves what clearing once leaves. */
  lemma ClearedIdempotent(entries: map<string, CacheValue>, slugs: seq<string>)
    ensures Cleared(Cleared(entries, slugs), slugs) == Cleared(entries, slugs)
  {
    ClearedIsRemoval(entries, slugs);
    ClearedIsRemoval(Cleared(entries, slugs), slugs);
  }

  /** `clearGameCache($slug)`: forgets `game_config_info_{slug}` and `game_config_fields_{slug}`. */
  method ClearGameCache(cache: Cache, slug: string)
    modifies cache
    ensures cache.entries == old(cache.entries) - GameKeys(slug)
  {
    cache.Forget(InfoKey(slug));
    cache.Forget(FieldsKey(slug));
    assert cache.entries == old(cache.entries) - {InfoKey(slug)} - {FieldsKey(slug)};
  }

  /** The `foreach` over the games' slugs, clearing each game's two keys. */
  method ClearSlugs(cache: Cache, slugs: seq<string>)
    modifies cache
    ensures cache.entries == Cleared(old(cache.entries), slugs)
  {
    for i := 0 to |slugs|
      invariant cache.entries == Cleared(old(cache.entries), slugs[..i])
    {
      assert slugs[..i + 1][..i] == slugs[..i];
      ClearGameCache(cache, slugs[i]);
    }
    assert slugs[..|slugs|] == slugs;
  }

  // ---------------------------------------------------------------- observers

  /** The Eloquent event an observer handles; all three are handled alike. */
  datatype ModelEvent = Created | Updated | Deleted

  /** `where('game_configuration_id', $id)->where('is_active', true)`: the games whose cache is stale. */
  predicate Affected(g: Game, configurationId: Option<int>) {
    g.configurationId == configurationId && g.isActive
  }

  /** The slugs of the affected games, in query order. */
  function AffectedSlugs(games: seq<Game>, configurationId: Option<int>): seq<string> {
    Select(games, (g: Game) => Affected(g, configurationId), (g: Game) => g.slug)
  }

  /** A slug is cleared exactly when an active game with that configuration has it. */
  lemma AffectedSlugsMembers(games: seq<Game>, configurationId: Option<int>, slug: string)
    ensures slug in AffectedSlugs(games, configurationId) <==>
      exists i :: 0 <= i < |games| && Affected(games[i], configurationId) && games[i].slug == slug
  {
    SelectMembers(games, (g: Game) => Affected(g, configurationId), (g: Game) => g.slug);
  }

  /**
   * `clearRelatedGameCache` of both observers: forgets the two keys of every active game whose
   * `game_configuration_id` is the given one.
   */
  method ClearRelatedGameCache(cache: Cache, games: seq<Game>, configurationId: Option<int>)
    modifies cache
    ensures cache.entries == Cleared(old(cache.entries), AffectedSlugs(games, configurationId))
  {
    var slugs: seq<string> := [];
    for i := 0 to |games|
      invariant slugs == AffectedSlugs(games[..i], configurationId)
    {
      assert games[..i + 1][..i] == games[..i];
      if Affected(games[i], configurationId) {
        slugs := slugs + [games[i].slug];
      }
    }
    assert games[..|games|] == games;
    ClearSlugs(cache, slugs);
  }

  /** `GameConfigurationObserver`: a configuration was created, updated or deleted. */
  method ConfigurationChanged(cache: Cache, games: seq<Game>, configuration: GameConfiguration, event: ModelEvent)
    modifies cache
    ensures cache.entries == Cleared(old(cache.entries), AffectedSlugs(games, Some(configuration.id)))
  {
    ClearRelatedGameCache(cache, games, Some(configuration.id));
  }

  /**
   * `GameConfigurationFieldObserver`: a field was created, updated or deleted; the games are
   * found through the field's `game_configuration_id` (a null one matches the games without
   * a configuration, as Eloquent turns `where(col, null)` into `whereNull`).
   */
  method FieldChanged(cache: Cache, games: seq<Game>, fieldConfigurationId: Option<int>, event: ModelEvent)
    modifies cache
    ensures cache.entries == Cleared(old(cache.entries), AffectedSlugs(games, fieldConfigurationId))
  {
    ClearRelatedGameCache(cache, games, fieldConfigurationId);
  }

  /**
   * What an observer leaves: both keys of each affected game are gone, and every key that
   * belongs to no affected game, including those of inactive games and of games using other
   * configurations, keeps its value.
   */
  lemma ObserverEffect(entries: map<string, CacheValue>, games: seq<Game>, configurationId: Option<int>)
    ensures var after := Cleared(entries, AffectedSlugs(games, configurationId));
      (forall i :: 0 <= i < |games| && Affected(games[i], configurationId) ==>
         InfoKey(games[i].slug) !in after && FieldsKey(games[i].slug) !in after) &&
      (forall k :: k in entries && k !in KeysOf(AffectedSlugs(games, configurationId)) ==>
         k in after && after[k] == entries[k]) &&
      (forall k :: k in after ==> k in entries)
  {
    var slugs := AffectedSlugs(games, configurationId);
    ClearedIsRemoval(entries, slugs);
    forall i | 0 <= i < |games| && Affected(games[i], configurationId)
      ensures InfoKey(games[i].slug) in KeysOf(slugs) && FieldsKey(games[i].slug) in KeysOf(slugs)
    {
      AffectedSlugsMembers(games, configurationId, games[i].slug);
      KeysOfSlug(slugs, games[i].slug);
    }
  }

  /**
   * A game that is not affected keeps its cached responses, unless an affected game has the
   * same slug.
   */
  lemma UnaffectedGameKept(entries: map<string, CacheValue>, games: seq<Game>, configurationId: Option<int>, g: Game)
    requires forall i :: 0 <= i < |games| && games[i].slug == g.slug ==> !Affected(games[i], configurationId)
    ensures var after := Cleared(entries, AffectedSlugs(games, configurationId));
      (InfoKey(g.slug) in entries ==> InfoKey(g.slug) in after && after[InfoKey(g.slug)] == entries[InfoKey(g.slug)]) &&
      (FieldsKey(g.slug) in entries ==> FieldsKey(g.slug) in after && after[FieldsKey(g.slug)] == entries[FieldsKey(g.slug)])
  {
    var slugs := AffectedSlugs(games, configurationId);
    ClearedIsRemoval(entries, slugs);
    AffectedSlugsMembers(games, configurationId, g.slug);
    KeysOfSlug(slugs, g.slug);
  }

  // ---------------------------------------------------------------- clear command

  /**
   * `handle` of `game-configurations:clear-cache`: a truthy `--slug` clears that slug's two keys;
   * otherwise every active game's keys are cleared.
   */
  method HandleClearCommand(cache: Cache, games: seq<Game>, slug: Option<string>)
    modifies cache
    ensures Php.TruthyOpt(slug) ==> cache.entries == old(cache.entries) - GameKeys(slug.value)
    ensures !Php.TruthyOpt(slug) ==> cache.entries == Cleared(old(cache.entries), ActiveSlugs(games))
  {
    if Php.TruthyOpt(slug) {
      ClearGameCache(cache, slug.value);
    } else {
      var slugs: seq<string> := [];
      for i := 0 to |games|
        invariant slugs == ActiveSlugs(games[..i])
      {
        assert games[..i + 1][..i] == games[..i];
        if games[i].isActive {
          slugs := slugs + [games[i].slug];
        }
      }
      assert games[..|games|] == games;
      ClearSlugs(cache, slugs);
    }
  }

  /** `Game::where('is_active', true)`: the active games' slugs, in query order. */
  function ActiveSlugs(games: seq<Game>): seq<string> {
    Select(games, (g: Game) => g.isActive, (g: Game) => g.slug)
  }

  /** Without `--slug`, both keys of every active game are gone and nothing else changes. */
  lemma ClearAllEffect(entries: map<string, CacheValue>, games: seq<Game>)
    ensures var after := Cleared(entries, ActiveSlugs(games));
      (forall i :: 0 <= i < |games| && games[i].isActive ==>
         InfoKey(games[i].slug) !in after && FieldsKey(games[i].slug) !in after) &&
      after == entries - KeysOf(ActiveSlugs(games))
  {
    var slugs := ActiveSlugs(games);
    ClearedIsRemoval(entries, slugs);
    SelectMembers(games, (g: Game) => g.isActive, (g: Game) => g.slug);
    forall i | 0 <= i < |games| && games[i].isActive
      ensures InfoKey(games[i].slug) in KeysOf(slugs) && FieldsKey(games[i].slug) in KeysOf(slugs)
    {
      KeysOfSlug(slugs, games[i].slug);
    }
  }
}
