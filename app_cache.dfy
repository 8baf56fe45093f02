/**
 * The application cache (`cache()` / `Cache::`) as a mutable map from key to value, without
 * expiry, and the keys under which game configuration responses are stored.
 */
module AppCache {
  import opened Wrappers
  import Php
  import opened Records

  /** The `configuration` object of a configuration response. */
  datatype ConfigSummary = ConfigSummary(id: int, name: string, guideText: Option<string>, guideImageUrl: Option<string>)

  /** Payload of `configurationInfo`: the game, whether it has a configuration, and that configuration. */
  datatype ConfigInfoData = ConfigInfoData(
    gameId: int, gameName: string, gameSlug: string,
    hasConfiguration: bool, configuration: Option<ConfigSummary>)

  /** Payload of `configurationFields`: the game, its configuration and that configuration's fields. */
  datatype ConfigFieldsData = ConfigFieldsData(
    gameId: int, gameName: string, gameSlug: string,
    configuration: Option<ConfigSummary>, fields: seq<ConfigurationField>, totalFields: int)

  /** One option of a `Select`: the stored key and the shown label. */
  datatype SelectOption = SelectOption(key: string, text: string)

  /** What the cache may hold; `Null` is what a missing key reads as. */
  datatype CacheValue =
    | Null
    | Text(s: string)
    | Info(info: ConfigInfoData)
    | Fields(fields: ConfigFieldsData)
    | Options(options: seq<SelectOption>)

  /** PHP truthiness of a cached value: arrays are truthy when non-empty, strings unless "" or "0". */
  predicate Truthy(v: CacheValue) {
    match v
    case Null => false
    case Text(s) => Php.Truthy(s)
    case Info(_) => true
    case Fields(_) => true
    case Options(o) => o != []
  }

  const InfoPrefix := "game_config_info_"
  const FieldsPrefix := "game_config_fields_"

  /** `game_config_info_{slug}` */
  function InfoKey(slug: string): string {
    InfoPrefix + slug
  }

  /** `game_config_fields_{slug}` */
  function FieldsKey(slug: string): string {
    FieldsPrefix + slug
  }

  /** The two keys a game's configuration responses live under. */
  function GameKeys(slug: string): set<string> {
    {InfoKey(slug), FieldsKey(slug)}
  }

  /** Distinct slugs never share a key, and an info key is never a fields key. */
  lemma KeysSeparate(a: string, b: string)
    ensures InfoKey(a) != FieldsKey(b)
    ensures InfoKey(a) == InfoKey(b) ==> a == b
    ensures FieldsKey(a) == FieldsKey(b) ==> a == b
  {
    assert InfoKey(a)[12] == 'i' && FieldsKey(b)[12] == 'f';
    if InfoKey(a) == InfoKey(b) {
      assert a == InfoKey(a)[|InfoPrefix|..] && b == InfoKey(b)[|InfoPrefix|..];
    }
    if FieldsKey(a) == FieldsKey(b) {
      assert a == FieldsKey(a)[|FieldsPrefix|..] && b == FieldsKey(b)[|FieldsPrefix|..];
    }
  }

  /** The cache store. */
  class Cache {
    var entries: map<string, CacheValue>

    constructor (initial: map<string, CacheValue>)
      ensures entries == initial
    {
      entries := initial;
    }

    /** `cache()->get($key)`: the stored value, or null when absent. */
    function Get(key: string): (v: CacheValue)
      reads this
      ensures key !in entries ==> v == Null
      ensures key in entries ==> v == entries[key]
    {
      if key in entries then entries[key] else Null
    }

    /** `cache()->put($key, $value, $ttl)`; the time to live is not modelled. */
    method Put(key: string, value: CacheValue)
      modifies this
      ensures entries == old(entries)[key := value]
    {
      entries := entries[key := value];
    }

    /** `cache()->forget($key)`: removes the key, whether or not it was there. */
    method Forget(key: string)
      modifies this
      ensures entries == old(entries) - {key}
    {
      entries := entries - {key};
    }

    /**
     * `cache()->remember($key, $ttl, $callback)`: a non-null stored value is returned as is;
     * otherwise `computed` is stored and returned.
     */
    method Remember(key: string, computed: CacheValue) returns (v: CacheValue)
      modifies this
      ensures old(Get(key)) != Null ==> v == old(Get(key)) && entries == old(entries)
      ensures old(Get(key)) == Null ==> v == computed && entries == old(entries)[key := computed]
    {
      v := Get(key);
      if v == Null {
        Put(key, computed);
        v := computed;
      }
    }
  }
}
