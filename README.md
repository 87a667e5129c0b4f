# qbittorrent-exporter core, modelled in Dafny

qbittorrent-exporter is a Prometheus exporter for the qBittorrent Web API. An
HTTP handler answers each scrape. It serves a cached exposition text while that
text is fresh. Otherwise it reads the qBittorrent API and refills a collector
with global and per-torrent gauges. It counts torrents per state and per
tracker category, renders the registry, and caches the result. A torrent's
tracker category comes from a tracker mapper: it extracts a host from the
announce string and looks that host up in a table taken from the YAML
configuration. The configuration object reads settings through dotted paths
with defaults, and falls back to a table of defaults when no file can be
loaded.

The project has four modules:

- `JavaText` (`java_text.dfy`): the java.lang behaviour the core relies on, stated exactly. It covers `trim().isEmpty()`, `indexOf`, `split` with its limit-0 rule for trailing empty strings, `Boolean.parseBoolean`, decimal text of integers, `longValue`/`intValue` wrap-around, and `(long)`/`(int)` casts of doubles.
- `TrackerMapper` (`tracker_mapper.dfy`): `extractHost`, `mapTracker` and `getMappings` as functions, each branch of host extraction pinned down by a lemma.
- `ExporterConfig` (`exporter_config.dfy`): the configuration tree as a `Value` datatype. `get` is the loop method `Get`, proved against the recursive walk `Walk`. The remaining parts are:
  - `getSection`;
  - `getTrackerMappings`, a loop over the section's keys;
  - the typed getters and the configuration-path precedence;
  - `loadDefaultConfiguration`, which updates the map it is given.
- `Handler` (`qbt_http_handler.dfy`): the class `QbtHttpHandler`.
  - Its fields are the cache pair `cachedMetrics`/`lastUpdateTime` and the collector's state.
  - `HandleRequest` is the cache gate.
  - `CollectMetrics` and `RecordTorrents` are the collection, with the counting loop.
  - Each method is proved against the closed-form specification `RunPoll`.
  - The per-state and per-tracker counts are specified by `Tally`, a fold of `HashMap.merge(key, 1L, Long::sum)`, and by `Total`, the sum of a count map.

Points where the model follows the code exactly, because the code does less
or other than a reader might expect:

- Classification is one exact-key `getOrDefault(host, host)`. There is no regular-expression tier, no substring tier and no `"other"` fallback. `NoSubstringMatch` and `NoOtherFallback` show that a `"beyond-hd"` key does not classify `tracker.beyond-hd.me` and that an `"other"` key is not a fallback.
- A URI that parses without a host makes `mapTracker` return null. The category is a `Nullable`.
- The `catch` blocks of `mapTracker` and `get` cannot be reached for the inputs they receive, so they have no counterpart.
- `shouldCollectTorrentInfo` returns `get(path, true)` from a `boolean` method. The unboxing casts the found object to `Boolean` outside `get`'s `try`, so a configured value that is not a Boolean throws `ClassCastException`. The method is called once per torrent, so a request with at least one torrent then answers 500. The model returns `Result<bool, Value>`.

Foreign behaviour is passed in as parameters:

- `parseUri`: what `new URI(s).getHost()` yields (a syntax error, or a host that may be null).
- `foreignText`: `Double.toString` and `HashMap.toString`.
- `scrape`: the registry's rendering, or the exception it throws.
- `castMessage`: the text of a `ClassCastException`.
- `now`: the clock.
- `systemProperty`: the value of a system property. It names two different properties:
  - `config.path` in `GetConfigurationPath`;
  - `qbt.collect.torrent.info` in `ShouldCollectTorrentInfo`, and in the handler methods that pass it on.
- `environment`: the value of the environment variable `CONFIG_PATH`.
- `fetched`: the joined results of the four API reads, or their failure.

## Model

| member | source | states |
|---|---|---|
| JavaText.TrimStart | src/main/java/qbittorrent/exporter/config/TrackerMapper.java:32 | `trim` removes exactly the leading characters at or below U+0020: the result is a suffix that is empty or starts above U+0020 |
| JavaText.TrimEnd | src/main/java/qbittorrent/exporter/config/TrackerMapper.java:32 | `trim` removes exactly the trailing characters at or below U+0020 |
| JavaText.BlankIff | src/main/java/qbittorrent/exporter/config/TrackerMapper.java:32 | `trim().isEmpty()` holds exactly when every character is at or below U+0020 |
| JavaText.IndexOf | src/main/java/qbittorrent/exporter/config/TrackerMapper.java:57 | `indexOf` is -1 exactly when the character is absent; otherwise it is the first index holding it |
| JavaText.IndexOfFirst | src/main/java/qbittorrent/exporter/config/TrackerMapper.java:68 | the first occurrence is found right after a prefix that lacks the character |
| JavaText.Segments | src/main/java/qbittorrent/exporter/config/ExporterConfig.java:50 | cutting at every separator yields at least one piece, and no piece holds the separator |
| JavaText.JoinSegments | src/main/java/qbittorrent/exporter/config/ExporterConfig.java:50 | joining the pieces with the separator gives back the original string |
| JavaText.SegmentsJoin | src/main/java/qbittorrent/exporter/config/ExporterConfig.java:50 | cutting a join of separator-free pieces gives back exactly those pieces |
| JavaText.DropTrailingEmpty | src/main/java/qbittorrent/exporter/config/TrackerMapper.java:64 | `split` keeps a prefix of the pieces that ends in a non-empty piece and drops only empty ones |
| JavaText.SegmentsAllEmpty | src/main/java/qbittorrent/exporter/config/TrackerMapper.java:64-65 | every piece is empty exactly when every character is the separator |
| JavaText.SplitHead | src/main/java/qbittorrent/exporter/config/TrackerMapper.java:64-66 | `split("/")` is empty exactly for a non-empty string of slashes only; otherwise its first part is the text before the first slash, or the whole string |
| JavaText.SplitTwo | src/main/java/qbittorrent/exporter/config/ExporterConfig.java:50 | a path "a.b" with dot-free, non-empty halves splits into exactly [a, b] |
| JavaText.ParseBooleanAnyCase | src/main/java/qbittorrent/exporter/config/ExporterConfig.java:115 | `parseBoolean` accepts exactly the four-character strings spelling "true" with each letter in either case |
| JavaText.ParseBooleanExamples | src/main/java/qbittorrent/exporter/config/ExporterConfig.java:115 | `parseBoolean` accepts "true", "TRUE" and "True" and rejects "false", "yes", "1" and "" |
| JavaText.NatToString | src/main/java/qbittorrent/exporter/config/ExporterConfig.java:91 | the decimal text of a number is non-empty, made of digits, starts with '0' only for 0, and is exactly "0" for 0 |
| JavaText.NatToStringRoundTrip | src/main/java/qbittorrent/exporter/config/ExporterConfig.java:91 | the decimal text reads back as the same number |
| JavaText.IntToString | src/main/java/qbittorrent/exporter/config/ExporterConfig.java:91 | the text of a non-negative integer is its digits, which read back as it; a negative one is '-' before the digits of its magnitude; there is no leading zero, and 0 is exactly "0" |
| JavaText.Wrap64 | src/main/java/qbittorrent/exporter/config/ExporterConfig.java:103 | `longValue` keeps the value modulo 2^64 in the long range, unchanged when it already fits |
| JavaText.Wrap32 | src/main/java/qbittorrent/exporter/config/ExporterConfig.java:126 | `intValue` keeps the value modulo 2^32 in the int range, unchanged when it already fits |
| JavaText.TruncateTowardZero | src/main/java/qbittorrent/exporter/config/ExporterConfig.java:103 | a double's cast rounds toward zero: within one below a non-negative value, within one above a negative one |
| JavaText.DoubleToLong | src/main/java/qbittorrent/exporter/config/ExporterConfig.java:103 | `longValue` of a double is its truncation when that fits in a long, and saturates at the long bound it passes otherwise |
| JavaText.DoubleToInt | src/main/java/qbittorrent/exporter/config/ExporterConfig.java:126 | `intValue` of a double is its truncation when that fits in an int, and saturates at the int bound it passes otherwise |
| TrackerMapper.StripPort | src/main/java/qbittorrent/exporter/config/TrackerMapper.java:68-72 | the result is a prefix: the whole string when it has no colon or starts with one, otherwise the non-empty text before the first colon |
| TrackerMapper.ExtractHost | src/main/java/qbittorrent/exporter/config/TrackerMapper.java:48-80 | the host is null exactly when the string has an http(s) prefix and parses as a URI without a host |
| TrackerMapper.MapTracker | src/main/java/qbittorrent/exporter/config/TrackerMapper.java:31-43 | a null string is "unknown"; a category that is neither a table value nor "unknown" is the extracted host itself |
| TrackerMapper.GetMappings | src/main/java/qbittorrent/exporter/config/TrackerMapper.java:85-87 | the copy has the same keys and values as the table |
| TrackerMapper.BlankIsUnknown | src/main/java/qbittorrent/exporter/config/TrackerMapper.java:32-34 | a whitespace-only string is "unknown" whatever the table holds |
| TrackerMapper.VisibleIsNotBlank | src/main/java/qbittorrent/exporter/config/TrackerMapper.java:32 | a string with a character above U+0020 is not blank |
| TrackerMapper.ResolvesByExactKey | src/main/java/qbittorrent/exporter/config/TrackerMapper.java:37-38 | a non-blank string with host h is classified as the table's value for h when h is a key, else as h |
| TrackerMapper.NullLabelIff | src/main/java/qbittorrent/exporter/config/TrackerMapper.java:51-53 | the category is null exactly when an http(s) string parses as a URI without a host |
| TrackerMapper.ExactKeyOnly | src/main/java/qbittorrent/exporter/config/TrackerMapper.java:38 | adding or changing an entry for any key other than the extracted host leaves the category unchanged |
| TrackerMapper.SyntaxErrorLooksUpWholeString | src/main/java/qbittorrent/exporter/config/TrackerMapper.java:75-79 | when the URI parser rejects an http(s) string, the whole string is the key looked up and its own default |
| TrackerMapper.NoSchemeAfterRun | src/main/java/qbittorrent/exporter/config/TrackerMapper.java:51-54 | a string whose colon-free opening run ends in '/' or in a ':' not followed by '/' has none of the three scheme prefixes |
| TrackerMapper.NotHttpAfterRun | src/main/java/qbittorrent/exporter/config/TrackerMapper.java:51-54 | such a string takes neither the http(s) branch nor the udp branch |
| TrackerMapper.UdpHostBeforePort | src/main/java/qbittorrent/exporter/config/TrackerMapper.java:54-60 | "udp://host:rest" gives back the host, without the port and the path |
| TrackerMapper.UdpWithoutPortKeepsPath | src/main/java/qbittorrent/exporter/config/TrackerMapper.java:54-61 | a udp string without a colon keeps the whole remainder, path included |
| TrackerMapper.UdpLeadingColonKept | src/main/java/qbittorrent/exporter/config/TrackerMapper.java:57-61 | a colon right after "udp://" is not a port separator, so the whole remainder is kept |
| TrackerMapper.FallbackHost | src/main/java/qbittorrent/exporter/config/TrackerMapper.java:62-79 | a string without a scheme that is not made of slashes only gives the port-stripped text before its first '/', or the whole string port-stripped when it has no '/' |
| TrackerMapper.FallbackBeforeSlash | src/main/java/qbittorrent/exporter/config/TrackerMapper.java:62-72 | a string without a scheme whose first '/' follows a non-empty part gives that part port-stripped |
| TrackerMapper.BareHostWithoutPath | src/main/java/qbittorrent/exporter/config/TrackerMapper.java:62-72 | "host:port" without any '/' gives back the host |
| TrackerMapper.LeadingSlashIsEmptyHost | src/main/java/qbittorrent/exporter/config/TrackerMapper.java:62-72 | a string starting with a single '/' splits into an empty first part, so its host is the empty string |
| TrackerMapper.BareHostBeforePort | src/main/java/qbittorrent/exporter/config/TrackerMapper.java:64-71 | "host:port/path" gives back the host |
| TrackerMapper.BareHostBeforePath | src/main/java/qbittorrent/exporter/config/TrackerMapper.java:64-72 | "host/path" gives back the host |
| TrackerMapper.OnlySlashesKept | src/main/java/qbittorrent/exporter/config/TrackerMapper.java:64-79 | a string of slashes only splits into nothing and is its own host |
| TrackerMapper.UpperCaseSchemeIsNotHttp | src/main/java/qbittorrent/exporter/config/TrackerMapper.java:51-72 | the prefix test is case-sensitive: "HTTP://…" takes the fallback branch and yields "HTTP" |
| TrackerMapper.UdpExample | src/main/java/qbittorrent/exporter/config/TrackerMapper.java:54-61 | "udp://tracker.opentrackr.org:1337/announce" is classified as "tracker.opentrackr.org" under an empty table |
| TrackerMapper.NoSubstringMatch | src/main/java/qbittorrent/exporter/config/TrackerMapper.java:38 | a "beyond-hd" key does not classify host "tracker.beyond-hd.me"; the host stays its own category |
| TrackerMapper.NoOtherFallback | src/main/java/qbittorrent/exporter/config/TrackerMapper.java:38 | an "other" key is not a fallback: a "host:port/path" tracker keeps its host |
| ExporterConfig.Walk | src/main/java/qbittorrent/exporter/config/ExporterConfig.java:53-61 | a walk over at least one key never ends on a null value |
| ExporterConfig.Get | src/main/java/qbittorrent/exporter/config/ExporterConfig.java:48-69 | the segment loop returns exactly what walking the split path gives, or the default |
| ExporterConfig.WalkAppend | src/main/java/qbittorrent/exporter/config/ExporterConfig.java:53-62 | walking a path in two pieces equals walking the first piece and then the second from where it ended |
| ExporterConfig.WalkMissIff | src/main/java/qbittorrent/exporter/config/ExporterConfig.java:53-61 | `get` returns the default exactly when, at some segment, the object reached is not a map, lacks the key, or maps it to null |
| ExporterConfig.DottedSplit | src/main/java/qbittorrent/exporter/config/ExporterConfig.java:50 | a path "section.key" splits into its two names |
| ExporterConfig.LookupTwoLevel | src/main/java/qbittorrent/exporter/config/ExporterConfig.java:48-64 | a two-segment path reads the key inside the section when both are present and non-null, else the default |
| ExporterConfig.GetSection | src/main/java/qbittorrent/exporter/config/ExporterConfig.java:75-81 | the top-level value when it is a map, otherwise an empty map |
| ExporterConfig.StringValueOf | src/main/java/qbittorrent/exporter/config/ExporterConfig.java:91 | null prints as "null", text as itself, a Boolean as exactly "true" or "false", an integer as decimal text without leading zeros that reads back as it (0 as exactly "0"), a double or a map as the foreign `toString` text, and a list inside brackets |
| ExporterConfig.GetTrackerMappings | src/main/java/qbittorrent/exporter/config/ExporterConfig.java:86-95 | exactly the keys of the "trackers" section, each value as `String.valueOf` prints it; empty when the section is missing or not a map |
| ExporterConfig.GetConfigurationPath | src/main/java/qbittorrent/exporter/config/ExporterConfig.java:186-204 | a non-blank system property wins, then a non-blank environment variable, then "config.yaml"; the result is never blank |
| ExporterConfig.CacheDurationPath | src/main/java/qbittorrent/exporter/config/ExporterConfig.java:101 | `get("cache.duration_ms", …)` reads the keys "cache" then "duration_ms" |
| ExporterConfig.MetricsPortPath | src/main/java/qbittorrent/exporter/config/ExporterConfig.java:124 | `get("server.port", …)` reads the keys "server" then "port" |
| ExporterConfig.TorrentInfoPath | src/main/java/qbittorrent/exporter/config/ExporterConfig.java:117 | `get("metrics.collect_torrent_info", …)` reads the keys "metrics" then "collect_torrent_info" |
| ExporterConfig.DebugPath | src/main/java/qbittorrent/exporter/config/ExporterConfig.java:135 | `get("logging.debug", …)` reads the keys "logging" then "debug" |
| ExporterConfig.ParallelCallsPath | src/main/java/qbittorrent/exporter/config/ExporterConfig.java:142 | `get("performance.parallel_api_calls", …)` reads the keys "performance" then "parallel_api_calls" |
| ExporterConfig.GetCacheDurationMs | src/main/java/qbittorrent/exporter/config/ExporterConfig.java:100-106 | a configured integer gives its low 64 bits, a configured double its truncation, and anything else (absent, text, Boolean, map) 5000 |
| ExporterConfig.GetMetricsPort | src/main/java/qbittorrent/exporter/config/ExporterConfig.java:123-129 | a configured integer gives its low 32 bits, a configured double its truncation, and anything else 17871 |
| ExporterConfig.BooleanSettingIsConfiguredOrDefault | src/main/java/qbittorrent/exporter/config/ExporterConfig.java:134-143 | a boolean setting is the default when absent, the configured Boolean when present, and a cast failure carrying the object otherwise |
| ExporterConfig.ShouldCollectTorrentInfo | src/main/java/qbittorrent/exporter/config/ExporterConfig.java:111-118 | a set system property decides alone, through `parseBoolean`; otherwise the configured Boolean, true when absent, a cast failure for any other object |
| ExporterConfig.IsDebugEnabled | src/main/java/qbittorrent/exporter/config/ExporterConfig.java:134-136 | the configured Boolean under "logging.debug", false when absent, a cast failure carrying any other object |
| ExporterConfig.UseParallelApiCalls | src/main/java/qbittorrent/exporter/config/ExporterConfig.java:141-143 | the configured Boolean under "performance.parallel_api_calls", true when absent, a cast failure carrying any other object |
| ExporterConfig.DefaultsRead | src/main/java/qbittorrent/exporter/config/ExporterConfig.java:223-251 | a map holding the six default sections reads: no trackers, 5000 ms, port 17871, torrent info on, parallel calls on, debug off |
| ExporterConfig.LoadDefaultConfiguration | src/main/java/qbittorrent/exporter/config/ExporterConfig.java:223-254 | puts the six default sections with their contents (an empty "trackers" map, "cache.duration_ms" 5000, "metrics.collect_torrent_info" true, "server.port" 17871, "performance.parallel_api_calls" true, "logging.debug" false), leaves every other key as it was, and every typed getter then reads its default |
| Handler.ErrorBody | src/main/java/qbittorrent/exporter/handler/QbtHttpHandler.java:79 | the 500 body is "An error occurred. " followed by the exception's message, or "null" when it has none |
| Handler.NoHitWithoutCache | src/main/java/qbittorrent/exporter/handler/QbtHttpHandler.java:52 | with nothing cached no request is a hit, so the first request after construction always collects |
| Handler.NonPositiveDurationNeverHits | src/main/java/qbittorrent/exporter/handler/QbtHttpHandler.java:52 | a cache duration of zero or less never hits while the elapsed time is non-negative and fits in a long |
| Handler.HitWithinWindow | src/main/java/qbittorrent/exporter/handler/QbtHttpHandler.java:52 | a cached text hits at any later time within the duration |
| Handler.WrappedElapsedTimeHits | src/main/java/qbittorrent/exporter/handler/QbtHttpHandler.java:52 | the long subtraction wraps: for any pair of times whose true difference exceeds the long range, the elapsed time reads as negative and a cached text hits for every positive duration |
| Handler.TallyCounts | src/main/java/qbittorrent/exporter/handler/QbtHttpHandler.java:151-152 | merging each key with 1 and `Long::sum` counts exactly the keys of the list, each as often as it occurs |
| Handler.TotalMerge | src/main/java/qbittorrent/exporter/handler/QbtHttpHandler.java:151-152 | each merge adds exactly one to the sum of the counts |
| Handler.TotalRemove | src/main/java/qbittorrent/exporter/handler/QbtHttpHandler.java:156-157 | the sum of a count map does not depend on the order its entries are visited |
| Handler.TallyTotal | src/main/java/qbittorrent/exporter/handler/QbtHttpHandler.java:119-153 | the counts built over a list add up to its length |
| Handler.CountStep | src/main/java/qbittorrent/exporter/handler/QbtHttpHandler.java:151-152 | merging one more torrent's state and mapped tracker gives the tallies of the longer prefix, and each sum grows by exactly one |
| Handler.TallySnoc | src/main/java/qbittorrent/exporter/handler/QbtHttpHandler.java:151-152 | one more torrent's merge tallies the longer list |
| Handler.PerTorrentEntries | src/main/java/qbittorrent/exporter/handler/QbtHttpHandler.java:122-144 | entry k of the state list, the mapped-tracker list and the series is torrent k's |
| Handler.SnapshotCounts | src/main/java/qbittorrent/exporter/handler/QbtHttpHandler.java:100-157 | a complete collection sets the total to the list's size, one series point per torrent, info points only with the toggle on, and state and tracker counts that each add up to the list's size |
| Handler.StateCountsPerTorrent | src/main/java/qbittorrent/exporter/handler/QbtHttpHandler.java:122-153 | a state is a count key exactly when some torrent has it, and its count is the number of torrents in that state |
| Handler.CollectedIsComplete | src/main/java/qbittorrent/exporter/handler/QbtHttpHandler.java:96-157 | every collection that completes leaves the collector with counts that agree with its torrent total |
| Handler.ReadFailureTouchesNothing | src/main/java/qbittorrent/exporter/handler/QbtHttpHandler.java:84-96 | a failed API read aborts with its message before `clear()`, leaving the collector as it was |
| Handler.EmptyListSkipsToggle | src/main/java/qbittorrent/exporter/handler/QbtHttpHandler.java:122-149 | with no torrents the toggle is never read, so even a toggle that would throw lets the collection complete, with no info points |
| Handler.QbtHttpHandler.constructor | src/main/java/qbittorrent/exporter/handler/QbtHttpHandler.java:34-44 | a new handler has nothing cached, last update 0 and an empty collector; its tracker mapper uses the configured tracker table |
| Handler.QbtHttpHandler.CollectMetrics | src/main/java/qbittorrent/exporter/handler/QbtHttpHandler.java:83-117 | a failed read leaves the collector untouched; a failure in the global gauges leaves it cleared with version and total only; otherwise the result and the collector are what `RunPoll` specifies |
| Handler.QbtHttpHandler.RecordTorrents | src/main/java/qbittorrent/exporter/handler/QbtHttpHandler.java:119-157 | the loop sets one series point per torrent and info points per the toggle; the state and tracker counts are the tallies of the list, and their sums equal the number of torrents seen; a throwing toggle aborts after the first torrent's series |
| Handler.QbtHttpHandler.RecordTorrent | src/main/java/qbittorrent/exporter/handler/QbtHttpHandler.java:126-149 | one torrent's turn appends its series point with the mapped tracker, reads the toggle anew, and appends the info point only when the toggle is true; nothing else in the collector changes |
| Handler.QbtHttpHandler.HandleRequest | src/main/java/qbittorrent/exporter/handler/QbtHttpHandler.java:47-81 | a hit answers the cached text and changes nothing; a successful miss caches the new text with the time read at the start; any failure in collecting or rendering answers 500 with the message and leaves both cache fields unchanged; a cached text is always the rendering of a complete collection |
| Handler.TwoRequestsWithinWindow | src/main/java/qbittorrent/exporter/handler/QbtHttpHandler.java:50-57 | a second request within the cache duration answers the first one's text, whatever upstream would answer then |

## Left out

- `java.net.URI` parsing is not modelled. Its outcome for a string is the parameter `parseUri`.
- YAML parsing, the file existence check and file reading (`loadConfiguration`, `loadFromFile`) are I/O and not modelled. So are `System.getProperty`, `System.getenv` and `System.currentTimeMillis`, whose results are parameters.
- The singleton `getInstance` and `getAll` are not modelled. A configuration is passed as a value.
- Configuration keys that are not strings, and YAML values other than null, text, integers, finite doubles, Booleans, lists and maps, are not modelled. NaN and infinite doubles are also left out.
- The four `CompletableFuture` reads and their join are one parameter, `fetched`: all four results, or the failure's message. Concurrency and the `volatile`, unsynchronised cache fields are not modelled. Two overlapping requests are not modelled either.
- `QbtCollector` and `PrometheusMeterRegistry` are external. The collector is the record of what a collection has set since its last `clear()`:
  - the version;
  - the torrent total;
  - whether all global gauges were set;
  - one series point per torrent (name and mapped tracker);
  - the info points;
  - the two count maps.
- Gauge values (byte counts, speeds, ratios, `Double.parseDouble` of the global ratio) are not modelled. A failure anywhere in the global setters is one outcome, `GlobalsFailed`; which global gauges were set before it is not modelled.
- ExporterConfig.StringValueOf: for a list the contract states only the enclosing brackets. The element texts joined by ", " are in the definition but not in the ensures, because stating them would only repeat the body.
- The collector's setters are assumed not to throw (for instance on a null label).
- Handler.QbtHttpHandler.RecordTorrents: `Long::sum` is unbounded here. The counts never exceed the list's length, so 64-bit overflow cannot occur.
- Handler.QbtHttpHandler.RecordTorrents: the system property is fixed for the whole request. The source reads it anew for each torrent, so a change during a collection is not modelled.
- The handler's tracker mapper and its `shouldCollectTorrentInfo` are function-valued fields of the class. The constructor's contract ties them to `TrackerMapper.MapTracker` over the configured table and to `ExporterConfig.ShouldCollectTorrentInfo`.
- Response headers, the Undertow exchange, logging and timing are not modelled. A response is its status, content type and body.
- Torrent fields that may be null (name, state) are modelled as plain strings. A null tracker is modelled.
