/**
  The exporter's configuration: a tree of maps loaded from YAML, read through
  dotted paths with a default on every miss, plus the typed settings derived
  from it and the table of defaults used when no file can be loaded.

  Reading the file, the system properties and the environment is I/O: their
  results are parameters here. What `String.valueOf` prints for a double or a
  nested map (Double.toString, HashMap.toString) is foreign code and is the
  parameter `foreignText`.
 */
module ExporterConfig {
  import opened JavaText

  /** An object of the loaded configuration, as the YAML loader builds it. */
  datatype Value =
    | Nil                               // null
    | Str(s: string)
    | Int(i: int)                       // an Integer, Long or BigInteger, by value
    | Real(x: real)                     // a finite Double
    | Bool(b: bool)
    | List(items: seq<Value>)
    | Dict(entries: map<string, Value>)

  /** The top-level map held by the configuration object. */
  type Config = map<string, Value>

  const DEFAULT_CONFIG_PATH: string := "config.yaml"
  const DEFAULT_CACHE_DURATION_MS: int := 5000
  const DEFAULT_METRICS_PORT: int := 17871

  /** The dotted paths the typed settings pass to `get`, each with the names it splits into. */
  const CACHE_DURATION_PATH: string := "cache.duration_ms"
  const CACHE_DURATION_KEYS: seq<string> := ["cache", "duration_ms"]
  const METRICS_PORT_PATH: string := "server.port"
  const METRICS_PORT_KEYS: seq<string> := ["server", "port"]
  const TORRENT_INFO_PATH: string := "metrics.collect_torrent_info"
  const TORRENT_INFO_KEYS: seq<string> := ["metrics", "collect_torrent_info"]
  const DEBUG_PATH: string := "logging.debug"
  const DEBUG_KEYS: seq<string> := ["logging", "debug"]
  const PARALLEL_CALLS_PATH: string := "performance.parallel_api_calls"
  const PARALLEL_CALLS_KEYS: seq<string> := ["performance", "parallel_api_calls"]

  // ---------------------------------------------------------------------
  // get(path, default)
  // ---------------------------------------------------------------------

  /** The map step of `get` fails here: not a map, no such key, or a key bound to null. */
  predicate Stops(current: Value, key: string) {
    !(current.Dict? && key in current.entries && current.entries[key] != Nil)
  }

  /** The value reached by following `keys` from `current`, or Null when a step stops. */
  function Walk(current: Value, keys: seq<string>): (found: Nullable<Value>)
    ensures keys != [] && found.NonNull? ==> found.value != Nil
    decreases |keys|
  {
    if keys == [] then NonNull(current)
    else if Stops(current, keys[0]) then Null
    else Walk(current.entries[keys[0]], keys[1..])
  }

  /** What `get` returns once the path is split: the value the keys reach, or the default. */
  function LookupKeys(configuration: Config, keys: seq<string>, defaultValue: Value): Value {
    match Walk(Dict(configuration), keys)
    case NonNull(v) => v
    case Null => defaultValue
  }

  /** What `get(path, defaultValue)` returns. */
  function Lookup(configuration: Config, path: string, defaultValue: Value): Value {
    LookupKeys(configuration, Split(path, '.'), defaultValue)
  }

  /** `get`: split the path at '.', then step through nested maps, reassigning the current object. */
  method Get(configuration: Config, path: string, defaultValue: Value) returns (r: Value)
    ensures r == Lookup(configuration, path, defaultValue)
  {
    var parts := Split(path, '.');
    var current := Dict(configuration);
    var i := 0;
    while i < |parts|
      invariant 0 <= i <= |parts|
      invariant Walk(Dict(configuration), parts) == Walk(current, parts[i..])
    {
      if current.Dict? && parts[i] in current.entries && current.entries[parts[i]] != Nil {
        current := current.entries[parts[i]];
      } else {
        return defaultValue;
      }
      i := i + 1;
    }
    r := current;
  }

  /** Walking a path in two pieces is walking the first piece, then the second from where it ended. */
  lemma {:induction false} WalkAppend(current: Value, a: seq<string>, b: seq<string>)
    ensures Walk(current, a + b) == match Walk(current, a) {
                                      case NonNull(v) => Walk(v, b)
                                      case Null => Null
                                    }
    decreases |a|
  {
    if a == [] {
      assert a + b == b;
    } else {
      assert (a + b)[0] == a[0] && (a + b)[1..] == a[1..] + b;
      if !Stops(current, a[0]) {
        WalkAppend(current.entries[a[0]], a[1..], b);
      }
    }
  }

  /**
    `get` falls back to its default exactly when some step stops: the object
    reached so far is not a map, lacks the next key, or binds it to null.
   */
  lemma {:induction false} WalkMissIff(current: Value, keys: seq<string>)
    ensures Walk(current, keys).Null?
            <==> exists i :: 0 <= i < |keys| && Walk(current, keys[..i]).NonNull?
                             && Stops(Walk(current, keys[..i]).value, keys[i])
    decreases |keys|
  {
    if keys != [] {
      assert keys[..0] == [];
      if Stops(current, keys[0]) {
        assert Walk(current, keys[..0]) == NonNull(current);
      } else {
        var next := current.entries[keys[0]];
        WalkMissIff(next, keys[1..]);
        forall i | 1 <= i <= |keys|
          ensures Walk(current, keys[..i]) == Walk(next, keys[1..][..i - 1])
        {
          assert keys[..i][0] == keys[0] && keys[..i][1..] == keys[1..][..i - 1];
        }
        if Walk(current, keys).Null? {
          var j :| 0 <= j < |keys[1..]| && Walk(next, keys[1..][..j]).NonNull?
                   && Stops(Walk(next, keys[1..][..j]).value, keys[1..][j]);
          assert Walk(current, keys[..j + 1]) == Walk(next, keys[1..][..j]);
        } else {
          forall i | 0 <= i < |keys| && Walk(current, keys[..i]).NonNull?
            ensures !Stops(Walk(current, keys[..i]).value, keys[i])
          {
            if i > 0 {
              assert keys[1..][i - 1] == keys[i];
            }
          }
        }
      }
    }
  }

  /** The value a two-level path "section.key" names, when there is one. */
  function Setting(configuration: Config, section: string, key: string): Nullable<Value> {
    if section in configuration && configuration[section].Dict?
       && key in configuration[section].entries && configuration[section].entries[key] != Nil
    then NonNull(configuration[section].entries[key])
    else Null
  }

  /** A dotted path "section.key" splits into its two names. */
  lemma DottedSplit(path: string, section: string, key: string)
    requires section != [] && key != [] && '.' !in section && '.' !in key
    requires path == section + "." + key
    ensures Split(path, '.') == [section, key]
  {
    assert path == section + ['.'] + key;
    SplitTwo(section, key, '.');
  }

  /** A section and a key read the key inside the section, or give the default. */
  lemma LookupTwoLevel(configuration: Config, section: string, key: string, defaultValue: Value)
    ensures LookupKeys(configuration, [section, key], defaultValue)
            == match Setting(configuration, section, key) {
                 case NonNull(v) => v
                 case Null => defaultValue
               }
  {
    var keys := [section, key];
    var top := Dict(configuration);
    assert keys[1..] == [key] && [key][1..] == [];
    if !Stops(top, section) {
      var inner := configuration[section];
      assert Walk(top, keys) == Walk(inner, [key]);
      if !Stops(inner, key) {
        assert Walk(inner, [key]) == Walk(inner.entries[key], []);
      }
    }
  }

  // ---------------------------------------------------------------------
  // Sections and the tracker table
  // ---------------------------------------------------------------------

  /** `getSection`: the top-level value when it is a map, else a new empty map. */
  function GetSection(configuration: Config, section: string): (entries: map<string, Value>)
    ensures section in configuration && configuration[section].Dict? ==> entries == configuration[section].entries
    ensures !(section in configuration && configuration[section].Dict?) ==> entries == map[]
  {
    if section in configuration && configuration[section].Dict? then configuration[section].entries
    else map[]
  }

  /** `String.valueOf(Object)` for the objects the YAML loader produces. */
  function StringValueOf(v: Value, foreignText: Value -> string): (text: string)
    ensures v.Nil? ==> text == "null"
    ensures v.Str? ==> text == v.s
    ensures v.Bool? ==> text == (if v.b then "true" else "false") && ParseBoolean(text) == v.b
    ensures v.Int? && v.i >= 0 ==>
              (forall k :: 0 <= k < |text| ==> '0' <= text[k] <= '9') && ParseDigits(text) == v.i
    ensures v.Int? && v.i < 0 ==>
              |text| >= 2 && text[0] == '-'
              && (forall k :: 1 <= k < |text| ==> '0' <= text[k] <= '9') && ParseDigits(text[1..]) == -v.i
    ensures v.Int? && v.i >= 0 ==> |text| >= 1 && (text[0] == '0' <==> v.i == 0)
    ensures v.Int? && v.i < 0 ==> |text| >= 2 && text[1] != '0'
    ensures v == Int(0) ==> text == "0"
    ensures v.Real? || v.Dict? ==> text == foreignText(v)
    ensures v.List? ==> |text| >= 2 && text[0] == '[' && text[|text| - 1] == ']'
    decreases v
  {
    match v
    case Nil => "null"
    case Str(s) => s
    case Int(i) => IntToString(i)
    case Bool(b) => if b then "true" else "false"
    case List(items) =>
      "[" + Join(seq(|items|, k requires 0 <= k < |items| => StringValueOf(items[k], foreignText)), ", ") + "]"
    case Real(_) => foreignText(v)
    case Dict(_) => foreignText(v)
  }

  /** `getTrackerMappings`: every entry of the "trackers" section, its value turned into text. */
  method GetTrackerMappings(configuration: Config, foreignText: Value -> string) returns (mappings: map<string, string>)
    ensures mappings.Keys == GetSection(configuration, "trackers").Keys
    ensures forall host :: host in mappings ==>
              mappings[host] == StringValueOf(GetSection(configuration, "trackers")[host], foreignText)
  {
    mappings := map[];
    var trackers := GetSection(configuration, "trackers");
    var remaining := trackers.Keys;
    while remaining != {}
      invariant remaining <= trackers.Keys
      invariant mappings.Keys == trackers.Keys - remaining
      invariant forall host :: host in mappings ==> mappings[host] == StringValueOf(trackers[host], foreignText)
      decreases remaining
    {
      var host :| host in remaining;
      mappings := mappings[host := StringValueOf(trackers[host], foreignText)];
      remaining := remaining - {host};
    }
  }

  // ---------------------------------------------------------------------
  // Typed settings
  // ---------------------------------------------------------------------

  /**
    `getCacheDurationMs`: the configured number as a long when there is one
    (an integer's low 64 bits, a double's truncation), and 5000 for anything
    else: absent, text, a Boolean or a map.
   */
  function GetCacheDurationMs(configuration: Config): (ms: Long)
    ensures var found := Setting(configuration, "cache", "duration_ms");
            && (found.NonNull? && found.value.Int? ==> ms == Wrap64(found.value.i))
            && (found.NonNull? && found.value.Real? ==> ms == DoubleToLong(found.value.x))
            && (!(found.NonNull? && (found.value.Int? || found.value.Real?)) ==> ms == 5000)
  {
    LookupTwoLevel(configuration, "cache", "duration_ms", Int(DEFAULT_CACHE_DURATION_MS));
    match LookupKeys(configuration, CACHE_DURATION_KEYS, Int(DEFAULT_CACHE_DURATION_MS))
    case Int(i) => Wrap64(i)
    case Real(x) => DoubleToLong(x)
    case _ => DEFAULT_CACHE_DURATION_MS
  }

  /**
    `getMetricsPort`: the configured number as an int when there is one (an
    integer's low 32 bits, a double's truncation), and 17871 for anything else.
   */
  function GetMetricsPort(configuration: Config): (port: Int32)
    ensures var found := Setting(configuration, "server", "port");
            && (found.NonNull? && found.value.Int? ==> port == Wrap32(found.value.i))
            && (found.NonNull? && found.value.Real? ==> port == DoubleToInt(found.value.x))
            && (!(found.NonNull? && (found.value.Int? || found.value.Real?)) ==> port == 17871)
  {
    LookupTwoLevel(configuration, "server", "port", Int(DEFAULT_METRICS_PORT));
    match LookupKeys(configuration, METRICS_PORT_KEYS, Int(DEFAULT_METRICS_PORT))
    case Int(i) => Wrap32(i)
    case Real(x) => DoubleToInt(x)
    case _ => DEFAULT_METRICS_PORT
  }

  /**
    A boolean setting read as `return get(path, defaultValue)` from a method
    returning boolean: the unboxing casts the found object to Boolean, which
    throws ClassCastException (carrying the object) when it is anything else.
   */
  function BooleanSetting(configuration: Config, keys: seq<string>, defaultValue: bool): Result<bool, Value> {
    match LookupKeys(configuration, keys, Bool(defaultValue))
    case Bool(b) => Success(b)
    case other => Failure(other)
  }

  /**
    `shouldCollectTorrentInfo`: a set system property decides alone, parsed by
    `parseBoolean`; otherwise the configured Boolean, true when the setting is
    absent, and a cast failure for any other object.
   */
  function ShouldCollectTorrentInfo(configuration: Config, systemProperty: Nullable<string>): (collect: Result<bool, Value>)
    ensures systemProperty.NonNull? ==> collect == Success(ParseBoolean(systemProperty.value))
    ensures var found := Setting(configuration, "metrics", "collect_torrent_info");
            && (systemProperty.Null? && found.Null? ==> collect == Success(true))
            && (systemProperty.Null? && found.NonNull? && found.value.Bool? ==> collect == Success(found.value.b))
            && (systemProperty.Null? && found.NonNull? && !found.value.Bool? ==> collect == Failure(found.value))
  {
    if systemProperty.NonNull? then Success(ParseBoolean(systemProperty.value))
    else
      BooleanSettingIsConfiguredOrDefault(configuration, "metrics", "collect_torrent_info", true);
      BooleanSetting(configuration, TORRENT_INFO_KEYS, true)
  }

  /** `isDebugEnabled`: the configured Boolean, false when absent, a cast failure for any other object. */
  function IsDebugEnabled(configuration: Config): (debug: Result<bool, Value>)
    ensures var found := Setting(configuration, "logging", "debug");
            && (found.Null? ==> debug == Success(false))
            && (found.NonNull? && found.value.Bool? ==> debug == Success(found.value.b))
            && (found.NonNull? && !found.value.Bool? ==> debug == Failure(found.value))
  {
    BooleanSettingIsConfiguredOrDefault(configuration, "logging", "debug", false);
    BooleanSetting(configuration, DEBUG_KEYS, false)
  }

  /** `useParallelApiCalls`: the configured Boolean, true when absent, a cast failure for any other object. */
  function UseParallelApiCalls(configuration: Config): (parallel: Result<bool, Value>)
    ensures var found := Setting(configuration, "performance", "parallel_api_calls");
            && (found.Null? ==> parallel == Success(true))
            && (found.NonNull? && found.value.Bool? ==> parallel == Success(found.value.b))
            && (found.NonNull? && !found.value.Bool? ==> parallel == Failure(found.value))
  {
    BooleanSettingIsConfiguredOrDefault(configuration, "performance", "parallel_api_calls", true);
    BooleanSetting(configuration, PARALLEL_CALLS_KEYS, true)
  }

  /**
    `getConfigurationPath`: the system property when set and not blank, else
    the environment variable when set and not blank, else "config.yaml".
   */
  function GetConfigurationPath(systemProperty: Nullable<string>, environment: Nullable<string>): (path: string)
    ensures !IsBlank(path)
    ensures systemProperty.NonNull? && !IsBlank(systemProperty.value) ==> path == systemProperty.value
    ensures ((systemProperty.Null? || IsBlank(systemProperty.value))
             && environment.NonNull? && !IsBlank(environment.value)) ==> path == environment.value
    ensures ((systemProperty.Null? || IsBlank(systemProperty.value))
             && (environment.Null? || IsBlank(environment.value))) ==> path == DEFAULT_CONFIG_PATH
  {
    if systemProperty.NonNull? && !IsBlank(systemProperty.value) then systemProperty.value
    else if environment.NonNull? && !IsBlank(environment.value) then environment.value
    else
      assert !IsBlank(DEFAULT_CONFIG_PATH) by {
        BlankIff(DEFAULT_CONFIG_PATH);
        assert DEFAULT_CONFIG_PATH[0] == 'c';
      }
      DEFAULT_CONFIG_PATH
  }

  // ---------------------------------------------------------------------
  // The dotted path behind each typed setting
  // ---------------------------------------------------------------------

  /** `getCacheDurationMs` reads what `get("cache.duration_ms", ...)` returns. */
  lemma CacheDurationPath(configuration: Config, defaultValue: Value)
    ensures Lookup(configuration, CACHE_DURATION_PATH, defaultValue)
            == LookupKeys(configuration, CACHE_DURATION_KEYS, defaultValue)
  {
    DottedSplit(CACHE_DURATION_PATH, "cache", "duration_ms");
  }

  /** `getMetricsPort` reads what `get("server.port", ...)` returns. */
  lemma MetricsPortPath(configuration: Config, defaultValue: Value)
    ensures Lookup(configuration, METRICS_PORT_PATH, defaultValue)
            == LookupKeys(configuration, METRICS_PORT_KEYS, defaultValue)
  {
    DottedSplit(METRICS_PORT_PATH, "server", "port");
  }

  /** `shouldCollectTorrentInfo` reads what `get("metrics.collect_torrent_info", ...)` returns. */
  lemma TorrentInfoPath(configuration: Config, defaultValue: Value)
    ensures Lookup(configuration, TORRENT_INFO_PATH, defaultValue)
            == LookupKeys(configuration, TORRENT_INFO_KEYS, defaultValue)
  {
    DottedSplit(TORRENT_INFO_PATH, "metrics", "collect_torrent_info");
  }

  /** `isDebugEnabled` reads what `get("logging.debug", ...)` returns. */
  lemma DebugPath(configuration: Config, defaultValue: Value)
    ensures Lookup(configuration, DEBUG_PATH, defaultValue)
            == LookupKeys(configuration, DEBUG_KEYS, defaultValue)
  {
    DottedSplit(DEBUG_PATH, "logging", "debug");
  }

  /** `useParallelApiCalls` reads what `get("performance.parallel_api_calls", ...)` returns. */
  lemma ParallelCallsPath(configuration: Config, defaultValue: Value)
    ensures Lookup(configuration, PARALLEL_CALLS_PATH, defaultValue)
            == LookupKeys(configuration, PARALLEL_CALLS_KEYS, defaultValue)
  {
    DottedSplit(PARALLEL_CALLS_PATH, "performance", "parallel_api_calls");
  }

  // ---------------------------------------------------------------------
  // What each typed setting reads
  // ---------------------------------------------------------------------

  /**
    A boolean setting is the configured Boolean, the default when the setting
    is absent, and a cast failure carrying the object for anything else.
   */
  lemma BooleanSettingIsConfiguredOrDefault(configuration: Config, section: string, key: string, defaultValue: bool)
    ensures var found := Setting(configuration, section, key);
            && (found.Null? ==> BooleanSetting(configuration, [section, key], defaultValue) == Success(defaultValue))
            && (found.NonNull? && found.value.Bool?
                ==> BooleanSetting(configuration, [section, key], defaultValue) == Success(found.value.b))
            && (found.NonNull? && !found.value.Bool?
                ==> BooleanSetting(configuration, [section, key], defaultValue) == Failure(found.value))
  {
    LookupTwoLevel(configuration, section, key, Bool(defaultValue));
    var found := Setting(configuration, section, key);
    assert BooleanSetting(configuration, [section, key], defaultValue) == match found {
      case Null => Success(defaultValue)
      case NonNull(Bool(b)) => Success(b)
      case NonNull(other) => Failure(other)
    };
  }

  // ---------------------------------------------------------------------
  // loadDefaultConfiguration
  // ---------------------------------------------------------------------

  /** The six top-level sections the defaults put. */
  const DEFAULT_SECTIONS: set<string> := {"trackers", "cache", "metrics", "server", "performance", "logging"}

  /** A configuration holding the default sections reads every typed setting's default. */
  lemma DefaultsRead(updated: Config)
    requires "trackers" in updated && updated["trackers"] == Dict(map[])
    requires "cache" in updated && updated["cache"] == Dict(map["duration_ms" := Int(5000)])
    requires "metrics" in updated && updated["metrics"] == Dict(map["collect_torrent_info" := Bool(true)])
    requires "server" in updated && updated["server"] == Dict(map["port" := Int(17871)])
    requires "performance" in updated && updated["performance"] == Dict(map["parallel_api_calls" := Bool(true)])
    requires "logging" in updated && updated["logging"] == Dict(map["debug" := Bool(false)])
    ensures GetSection(updated, "trackers") == map[]
    ensures GetCacheDurationMs(updated) == DEFAULT_CACHE_DURATION_MS
    ensures GetMetricsPort(updated) == DEFAULT_METRICS_PORT
    ensures ShouldCollectTorrentInfo(updated, Null) == Success(true)
    ensures UseParallelApiCalls(updated) == Success(true)
    ensures IsDebugEnabled(updated) == Success(false)
  {
    LookupTwoLevel(updated, "cache", "duration_ms", Int(DEFAULT_CACHE_DURATION_MS));
    LookupTwoLevel(updated, "server", "port", Int(DEFAULT_METRICS_PORT));
    LookupTwoLevel(updated, "metrics", "collect_torrent_info", Bool(true));
    LookupTwoLevel(updated, "performance", "parallel_api_calls", Bool(true));
    LookupTwoLevel(updated, "logging", "debug", Bool(false));
  }

  /**
    `loadDefaultConfiguration`: puts the six default sections into the map
    (replacing any section of the same name), leaving other keys alone. Every
    typed setting then reads its documented default.
   */
  method LoadDefaultConfiguration(config: Config) returns (updated: Config)
    ensures updated.Keys == config.Keys + DEFAULT_SECTIONS
    ensures forall k :: k in config && k !in DEFAULT_SECTIONS ==> updated[k] == config[k]
    ensures updated["trackers"] == Dict(map[])
    ensures updated["cache"] == Dict(map["duration_ms" := Int(DEFAULT_CACHE_DURATION_MS)])
    ensures updated["metrics"] == Dict(map["collect_torrent_info" := Bool(true)])
    ensures updated["server"] == Dict(map["port" := Int(DEFAULT_METRICS_PORT)])
    ensures updated["performance"] == Dict(map["parallel_api_calls" := Bool(true)])
    ensures updated["logging"] == Dict(map["debug" := Bool(false)])
    ensures GetSection(updated, "trackers") == map[]
    ensures GetCacheDurationMs(updated) == DEFAULT_CACHE_DURATION_MS
    ensures GetMetricsPort(updated) == DEFAULT_METRICS_PORT
    ensures ShouldCollectTorrentInfo(updated, Null) == Success(true)
    ensures UseParallelApiCalls(updated) == Success(true)
    ensures IsDebugEnabled(updated) == Success(false)
  {
    updated := config;
    updated := updated["trackers" := Dict(map[])];
    updated := updated["cache" := Dict(map["duration_ms" := Int(DEFAULT_CACHE_DURATION_MS)])];
    updated := updated["metrics" := Dict(map["collect_torrent_info" := Bool(true)])];
    updated := updated["server" := Dict(map["port" := Int(DEFAULT_METRICS_PORT)])];
    updated := updated["performance" := Dict(map["parallel_api_calls" := Bool(true)])];
    updated := updated["logging" := Dict(map["debug" := Bool(false)])];
    DefaultsRead(updated);
  }
}
