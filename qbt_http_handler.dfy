/**
  The HTTP handler that serves the exporter's metrics: a scrape cache guarded
  by a freshness test, and the collection step that reads the qBittorrent
  API, refills the collector and counts torrents per state and per tracker.

  The four API reads, which the source runs concurrently and then joins, are
  one parameter that holds either all four results or the failure's message.
  The collector and the registry are external: the collector is the record
  of what the collection step has set since its last clear(), and the text
  the registry renders from it is the parameter `scrape`. The clock is the
  parameter `now`; the `qbt.collect.torrent.info` system property is the
  parameter `systemProperty`.
 */
module Handler {
  import opened JavaText
  import opened TrackerMapper
  import opened ExporterConfig

  const CONTENT_TYPE: string := "text/plain;charset=utf-8"
  const ERROR_PREFIX: string := "An error occurred. "

  /** The fields of a torrent the core reads; its gauge values are opaque. */
  datatype Torrent = Torrent(name: string, state: string, tracker: Nullable<string>)

  /**
    How setting the global gauges ends: every setter ran, or an exception
    (a missing server state, an unparsable global ratio) with its message.
   */
  datatype GlobalsOutcome = GlobalsSet | GlobalsFailed(message: Nullable<string>)

  /** The joined results of the four API reads. */
  datatype Upstream = Upstream(torrents: seq<Torrent>, version: Nullable<string>, globals: GlobalsOutcome)

  /** A per-torrent series point: the torrent's name and its mapped tracker. */
  datatype Labelled = Labelled(name: string, tracker: Nullable<string>)

  /** What the collector holds: everything set on it since its last clear(). */
  datatype Collector = Collector(
    version: Nullable<string>,
    totalTorrents: int,
    globalsSet: bool,
    series: seq<Labelled>,
    info: seq<Labelled>,
    stateCounts: map<string, int>,
    trackerCounts: map<Nullable<string>, int>)

  /** A collector right after clear(). */
  const CLEARED: Collector := Collector(Null, 0, false, [], [], map[], map[])

  datatype Response = Response(status: int, contentType: string, body: string)

  /** How a call of `collectMetrics` ends. */
  datatype Outcome = Completed | Thrown(message: Nullable<string>)

  /** The 500 body: the prefix and the exception's message, "null" when it has none. */
  function ErrorBody(message: Nullable<string>): (body: string)
    ensures ERROR_PREFIX <= body
    ensures message.NonNull? ==> body[|ERROR_PREFIX|..] == message.value
    ensures message.Null? ==> body[|ERROR_PREFIX|..] == "null"
  {
    ERROR_PREFIX + (if message.Null? then "null" else message.value)
  }

  // ---------------------------------------------------------------------
  // The cache gate
  // ---------------------------------------------------------------------

  /**
    The freshness test: a text is cached and the time since it was stored,
    a long subtraction that wraps, is below the cache duration.
   */
  predicate Hit(cachedMetrics: Nullable<string>, lastUpdateTime: Long, now: Long, cacheDuration: Long) {
    cachedMetrics.NonNull? && Wrap64(now - lastUpdateTime) < cacheDuration
  }

  /** Nothing cached, no hit, whatever the times. */
  lemma NoHitWithoutCache(lastUpdateTime: Long, now: Long, cacheDuration: Long)
    ensures !Hit(Null, lastUpdateTime, now, cacheDuration)
  {
  }

  /**
    A duration of zero or less never hits while the clock has not run
    backwards and the elapsed time fits in a long.
   */
  lemma NonPositiveDurationNeverHits(cachedMetrics: Nullable<string>, lastUpdateTime: Long, now: Long, cacheDuration: Long)
    requires cacheDuration <= 0 && lastUpdateTime <= now && now - lastUpdateTime <= LONG_MAX
    ensures !Hit(cachedMetrics, lastUpdateTime, now, cacheDuration)
  {
  }

  /** A text stored at `stored` hits at any later time within the duration. */
  lemma HitWithinWindow(text: string, stored: Long, now: Long, cacheDuration: Long)
    requires stored <= now && now - stored < cacheDuration
    ensures Hit(NonNull(text), stored, now, cacheDuration)
  {
  }

  /**
    The subtraction wraps: when the elapsed time exceeds the long range it
    reads as negative, so the cached text is served for any positive
    duration although it is as old as it can be.
   */
  lemma WrappedElapsedTimeHits(text: string, lastUpdateTime: Long, now: Long, cacheDuration: Long)
    requires cacheDuration > 0 && now - lastUpdateTime > LONG_MAX
    ensures Hit(NonNull(text), lastUpdateTime, now, cacheDuration)
  {
  }

  // ---------------------------------------------------------------------
  // Counting: HashMap.merge(key, 1L, Long::sum) over a list
  // ---------------------------------------------------------------------

  /** `counts.merge(key, 1L, Long::sum)`: one more for the key, a new entry at 1 when it was absent. */
  function Merge<K>(counts: map<K, int>, key: K): map<K, int> {
    counts[key := (if key in counts then counts[key] else 0) + 1]
  }

  /** The counts after merging every key of the list in order. */
  function Tally<K>(keys: seq<K>): map<K, int> {
    if keys == [] then map[] else Merge(Tally(keys[..|keys| - 1]), keys[|keys| - 1])
  }

  /** The keys of the tally are exactly those of the list, each counted as often as it occurs. */
  lemma {:induction false} TallyCounts<K>(keys: seq<K>)
    ensures Tally(keys).Keys == set k | k in keys
    ensures forall k :: k in Tally(keys) ==> Tally(keys)[k] == multiset(keys)[k]
  {
    if keys != [] {
      var init := keys[..|keys| - 1];
      TallyCounts(init);
      assert keys == init + [keys[|keys| - 1]];
    }
  }

  /** The sum of all counts of a map. */
  ghost function Total<K>(counts: map<K, int>): int
    decreases |counts|
  {
    if counts == map[] then 0
    else
      var k :| k in counts;
      counts[k] + Total(counts - {k})
  }

  /** The sum does not depend on which key is taken out first. */
  lemma {:induction false} TotalRemove<K>(counts: map<K, int>, key: K)
    requires key in counts
    ensures Total(counts) == counts[key] + Total(counts - {key})
    decreases |counts|
  {
    var k :| k in counts && Total(counts) == counts[k] + Total(counts - {k});
    if k != key {
      var rest := counts - {k};
      TotalRemove(rest, key);
      TotalRemove(counts - {key}, k);
      assert rest - {key} == (counts - {key}) - {k};
    }
  }

  /** One merge adds one to the sum. */
  lemma TotalMerge<K>(counts: map<K, int>, key: K)
    ensures Total(Merge(counts, key)) == Total(counts) + 1
  {
    var merged := Merge(counts, key);
    TotalRemove(merged, key);
    if key in counts {
      TotalRemove(counts, key);
      assert merged - {key} == counts - {key};
    } else {
      assert merged - {key} == counts;
    }
  }

  /** The counts of a list add up to its length. */
  lemma {:induction false} TallyTotal<K>(keys: seq<K>)
    ensures Total(Tally(keys)) == |keys|
  {
    if keys != [] {
      var init := keys[..|keys| - 1];
      TallyTotal(init);
      TotalMerge(Tally(init), keys[|keys| - 1]);
    }
  }

  /** Merging one more key tallies the longer list. */
  lemma TallySnoc<K>(keys: seq<K>, key: K)
    ensures Tally(keys + [key]) == Merge(Tally(keys), key)
  {
    assert (keys + [key])[..|keys|] == keys;
  }

  // ---------------------------------------------------------------------
  // What one collection sets
  // ---------------------------------------------------------------------

  /** The states of the torrents, in list order. */
  function States(torrents: seq<Torrent>): (states: seq<string>)
    ensures |states| == |torrents|
  {
    if torrents == [] then [] else States(torrents[..|torrents| - 1]) + [torrents[|torrents| - 1].state]
  }

  /** The mapped tracker of each torrent, in list order. */
  function Trackers(torrents: seq<Torrent>, mapper: Nullable<string> -> Nullable<string>)
    : (trackers: seq<Nullable<string>>)
    ensures |trackers| == |torrents|
  {
    if torrents == [] then []
    else Trackers(torrents[..|torrents| - 1], mapper)
         + [mapper(torrents[|torrents| - 1].tracker)]
  }

  /** The per-torrent series points, in list order. */
  function Series(torrents: seq<Torrent>, mapper: Nullable<string> -> Nullable<string>)
    : (points: seq<Labelled>)
    ensures |points| == |torrents|
  {
    if torrents == [] then []
    else Series(torrents[..|torrents| - 1], mapper)
         + [Labelled(torrents[|torrents| - 1].name, mapper(torrents[|torrents| - 1].tracker))]
  }

  /** Entry k of each per-torrent list belongs to torrent k. */
  lemma {:induction false} PerTorrentEntries(torrents: seq<Torrent>, mapper: Nullable<string> -> Nullable<string>)
    ensures forall k :: 0 <= k < |torrents| ==> States(torrents)[k] == torrents[k].state
    ensures forall k :: 0 <= k < |torrents| ==> Trackers(torrents, mapper)[k] == mapper(torrents[k].tracker)
    ensures forall k :: 0 <= k < |torrents| ==>
              Series(torrents, mapper)[k] == Labelled(torrents[k].name, mapper(torrents[k].tracker))
  {
    if torrents != [] {
      var init := torrents[..|torrents| - 1];
      PerTorrentEntries(init, mapper);
      assert forall k :: 0 <= k < |init| ==> init[k] == torrents[k];
    }
  }

  /** One more torrent extends each per-torrent list by that torrent's entry. */
  lemma PrefixStep(torrents: seq<Torrent>, i: int, mapper: Nullable<string> -> Nullable<string>)
    requires 0 <= i < |torrents|
    ensures States(torrents[..i + 1]) == States(torrents[..i]) + [torrents[i].state]
    ensures Trackers(torrents[..i + 1], mapper)
            == Trackers(torrents[..i], mapper) + [mapper(torrents[i].tracker)]
    ensures Series(torrents[..i + 1], mapper)
            == Series(torrents[..i], mapper)
               + [Labelled(torrents[i].name, mapper(torrents[i].tracker))]
  {
    assert torrents[..i + 1][..i] == torrents[..i];
  }

  /** Merging torrent i's state and mapped tracker tallies one more torrent, and each sum grows by one. */
  lemma CountStep(torrents: seq<Torrent>, i: int, mapper: Nullable<string> -> Nullable<string>)
    requires 0 <= i < |torrents|
    ensures Merge(Tally(States(torrents[..i])), torrents[i].state) == Tally(States(torrents[..i + 1]))
    ensures Merge(Tally(Trackers(torrents[..i], mapper)), mapper(torrents[i].tracker))
            == Tally(Trackers(torrents[..i + 1], mapper))
    ensures Total(Tally(States(torrents[..i + 1]))) == Total(Tally(States(torrents[..i]))) + 1
    ensures Total(Tally(Trackers(torrents[..i + 1], mapper))) == Total(Tally(Trackers(torrents[..i], mapper))) + 1
  {
    PrefixStep(torrents, i, mapper);
    TallySnoc(States(torrents[..i]), torrents[i].state);
    TallySnoc(Trackers(torrents[..i], mapper), mapper(torrents[i].tracker));
    TotalMerge(Tally(States(torrents[..i])), torrents[i].state);
    TotalMerge(Tally(Trackers(torrents[..i], mapper)), mapper(torrents[i].tracker));
  }

  /** The collector once it is cleared and the version and the torrent total are set. */
  function Started(upstream: Upstream): Collector {
    CLEARED.(version := upstream.version, totalTorrents := |upstream.torrents|)
  }

  /** The collector after a complete collection. */
  function Snapshot(upstream: Upstream, infoOn: bool, mapper: Nullable<string> -> Nullable<string>): Collector
  {
    var series := Series(upstream.torrents, mapper);
    Started(upstream).(
      globalsSet := true,
      series := series,
      info := if infoOn then series else [],
      stateCounts := Tally(States(upstream.torrents)),
      trackerCounts := Tally(Trackers(upstream.torrents, mapper)))
  }

  /** How a collection ends: the collector it completed, or the exception and the collector it left. */
  datatype Poll = Collected(snapshot: Collector) | Aborted(message: Nullable<string>, left: Collector)

  /**
    One run of `collectMetrics`. A failed read throws before clear(), so the
    collector is untouched. A failure while setting the global gauges leaves
    the cleared collector with the version and total only. The toggle is read
    after the first torrent's series are set, so a toggle that throws aborts
    there, and only when there is a torrent at all.
   */
  function RunPoll(fetched: Result<Upstream, Nullable<string>>, toggle: Result<bool, Value>,
                   castMessage: Value -> string, mapper: Nullable<string> -> Nullable<string>, before: Collector): Poll
  {
    match fetched
    case Failure(message) => Aborted(message, before)
    case Success(upstream) =>
      match upstream.globals
      case GlobalsFailed(message) => Aborted(message, Started(upstream))
      case GlobalsSet =>
        if toggle.Failure? && |upstream.torrents| > 0 then
          Aborted(NonNull(castMessage(toggle.error)),
                  Started(upstream).(globalsSet := true, series := Series(upstream.torrents[..1], mapper)))
        else
          Collected(Snapshot(upstream, toggle == Success(true), mapper))
  }

  /** A collector whose counts agree with its torrent total. */
  ghost predicate Complete(c: Collector) {
    && c.globalsSet
    && |c.series| == c.totalTorrents
    && Total(c.stateCounts) == c.totalTorrents
    && Total(c.trackerCounts) == c.totalTorrents
  }

  /**
    A complete collection sets the total to the list's size, one series
    point per torrent, info points only when the toggle is on, and per-state
    and per-tracker counts that each add up to the list's size.
   */
  lemma SnapshotCounts(upstream: Upstream, infoOn: bool, mapper: Nullable<string> -> Nullable<string>)
    ensures var c := Snapshot(upstream, infoOn, mapper);
            && c.totalTorrents == |upstream.torrents|
            && |c.series| == |upstream.torrents|
            && |c.info| == (if infoOn then |upstream.torrents| else 0)
            && Total(c.stateCounts) == |upstream.torrents|
            && Total(c.trackerCounts) == |upstream.torrents|
            && Complete(c)
  {
    TallyTotal(States(upstream.torrents));
    TallyTotal(Trackers(upstream.torrents, mapper));
  }

  /** Each state is counted once per torrent in that state, and only states that occur are keys. */
  lemma StateCountsPerTorrent(torrents: seq<Torrent>, state: string)
    ensures var counts := Tally(States(torrents));
            && (state in counts <==> exists k :: 0 <= k < |torrents| && torrents[k].state == state)
            && (state in counts ==> counts[state] == multiset(States(torrents))[state])
  {
    var states := States(torrents);
    TallyCounts(states);
    PerTorrentEntries(torrents, x => x);
    if state in states {
      var k :| 0 <= k < |states| && states[k] == state;
      assert torrents[k].state == state;
    }
  }

  /** Every collection that completes leaves a complete collector. */
  lemma CollectedIsComplete(fetched: Result<Upstream, Nullable<string>>, toggle: Result<bool, Value>,
                            castMessage: Value -> string, mapper: Nullable<string> -> Nullable<string>, before: Collector)
    ensures var p := RunPoll(fetched, toggle, castMessage, mapper, before);
            p.Collected? ==> Complete(p.snapshot)
  {
    if fetched.Success? {
      SnapshotCounts(fetched.value, toggle == Success(true), mapper);
    }
  }

  /** A read failure aborts with its message and leaves the collector exactly as it was. */
  lemma ReadFailureTouchesNothing(message: Nullable<string>, toggle: Result<bool, Value>,
                                  castMessage: Value -> string, mapper: Nullable<string> -> Nullable<string>,
                                  before: Collector)
    ensures RunPoll(Failure(message), toggle, castMessage, mapper, before) == Aborted(message, before)
  {
  }

  /**
    A toggle that would throw is never read when there are no torrents: the
    collection completes, with no info points.
   */
  lemma EmptyListSkipsToggle(upstream: Upstream, error: Value, castMessage: Value -> string,
                             mapper: Nullable<string> -> Nullable<string>, before: Collector)
    requires upstream.torrents == [] && upstream.globals == GlobalsSet
    ensures var p := RunPoll(Success(upstream), Failure(error), castMessage, mapper, before);
            && p.Collected?
            && p.snapshot.info == []
            && p.snapshot.totalTorrents == 0
  {
  }

  // ---------------------------------------------------------------------
  // The handler
  // ---------------------------------------------------------------------

  class QbtHttpHandler {
    const configuration: Config
    /** The table of the handler's TrackerMapper, read once from the configuration. */
    const trackerMappings: map<string, string>
    /** The handler's TrackerMapper: `mapTracker` over the table above. */
    const trackerMapper: Nullable<string> -> Nullable<string>
    /** The configuration's `shouldCollectTorrentInfo`, given the system property. */
    const shouldCollectTorrentInfo: Nullable<string> -> Result<bool, Value>
    /** The registry's rendering of the collector's state, or the exception it throws. */
    const scrape: Collector -> Result<string, Nullable<string>>
    /** The message of the ClassCastException raised when a toggle value is not a Boolean. */
    const castMessage: Value -> string

    var collector: Collector
    var lastUpdateTime: Long
    var cachedMetrics: Nullable<string>
    /** The collector state the cached text was rendered from. */
    ghost var cachedSnapshot: Collector

    /** A cached text is always the rendering of a complete collection. */
    ghost predicate Valid()
      reads this
    {
      cachedMetrics.NonNull? ==> scrape(cachedSnapshot) == Success(cachedMetrics.value) && Complete(cachedSnapshot)
    }

    /** The collection this handler would run now. */
    function Poll(systemProperty: Nullable<string>, fetched: Result<Upstream, Nullable<string>>): Poll
      reads this
    {
      RunPoll(fetched, shouldCollectTorrentInfo(systemProperty), castMessage,
              trackerMapper, collector)
    }

    /** A new handler: an empty collector, nothing cached, last update at time 0. */
    constructor(configuration: Config, parseUri: string -> UriParse, scrape: Collector -> Result<string, Nullable<string>>,
                castMessage: Value -> string, foreignText: Value -> string)
      ensures this.configuration == configuration
      ensures trackerMappings.Keys == GetSection(configuration, "trackers").Keys
      ensures forall host :: host in trackerMappings ==>
                trackerMappings[host] == StringValueOf(GetSection(configuration, "trackers")[host], foreignText)
      ensures forall t :: trackerMapper(t) == MapTracker(trackerMappings, t, parseUri)
      ensures forall p :: shouldCollectTorrentInfo(p) == ShouldCollectTorrentInfo(configuration, p)
      ensures collector == CLEARED
      ensures cachedMetrics == Null && lastUpdateTime == 0
      ensures Valid()
    {
      var mappings := GetTrackerMappings(configuration, foreignText);
      this.configuration := configuration;
      this.trackerMappings := mappings;
      this.trackerMapper := t => MapTracker(mappings, t, parseUri);
      this.shouldCollectTorrentInfo := p => ShouldCollectTorrentInfo(configuration, p);
      this.scrape := scrape;
      this.castMessage := castMessage;
      collector := CLEARED;
      lastUpdateTime := 0;
      cachedMetrics := Null;
      cachedSnapshot := CLEARED;
    }

    /**
      `collectMetrics`: reads upstream, clears the collector and sets it
      again, then one pass over the torrents sets their series and merges
      each state and each mapped tracker into its count map, whose sums keep
      pace with the number of torrents seen.
     */
    method CollectMetrics(systemProperty: Nullable<string>, fetched: Result<Upstream, Nullable<string>>)
      returns (outcome: Outcome)
      modifies this`collector
      ensures match old(Poll(systemProperty, fetched))
              case Collected(c) => outcome == Completed && collector == c
              case Aborted(message, left) => outcome == Thrown(message) && collector == left
    {
      if fetched.Failure? {
        return Thrown(fetched.error);
      }
      var upstream := fetched.value;
      collector := CLEARED;
      collector := collector.(version := upstream.version);
      collector := collector.(totalTorrents := |upstream.torrents|);
      if upstream.globals.GlobalsFailed? {
        return Thrown(upstream.globals.message);
      }
      collector := collector.(globalsSet := true);
      outcome := RecordTorrents(systemProperty, upstream);
    }

    /**
      The pass over the torrents inside `collectMetrics`: each torrent's
      series, then its info point when the toggle (read anew for every
      torrent) is on, then one merge of its state and one of its mapped
      tracker into local count maps, whose sums keep pace with the number of
      torrents seen; after the pass the counts are handed to the collector.
     */
    method RecordTorrents(systemProperty: Nullable<string>, upstream: Upstream) returns (outcome: Outcome)
      requires collector == Started(upstream).(globalsSet := true)
      modifies this`collector
      ensures var toggle := shouldCollectTorrentInfo(systemProperty);
              if toggle.Failure? && |upstream.torrents| > 0 then
                && outcome == Thrown(NonNull(castMessage(toggle.error)))
                && collector == Started(upstream).(globalsSet := true, series := Series(upstream.torrents[..1], trackerMapper))
              else
                outcome == Completed && collector == Snapshot(upstream, toggle == Success(true), trackerMapper)
    {
      var torrents := upstream.torrents;
      ghost var toggle := shouldCollectTorrentInfo(systemProperty);
      var stateCountMap: map<string, int> := map[];
      var trackerCountMap: map<Nullable<string>, int> := map[];
      var i := 0;
      while i < |torrents|
        invariant 0 <= i <= |torrents|
        invariant toggle.Failure? ==> i == 0
        invariant collector == Started(upstream).(globalsSet := true, series := collector.series, info := collector.info)
        invariant collector.series == Series(torrents[..i], trackerMapper)
        invariant collector.info == if toggle == Success(true) then collector.series else []
        invariant stateCountMap == Tally(States(torrents[..i]))
        invariant trackerCountMap == Tally(Trackers(torrents[..i], trackerMapper))
        invariant Total(stateCountMap) == i && Total(trackerCountMap) == i
      {
        var torrent := torrents[i];
        PrefixStep(torrents, i, trackerMapper);
        var collectInfo := RecordTorrent(systemProperty, torrent);
        if collectInfo.Failure? {
          return Thrown(NonNull(castMessage(collectInfo.error)));
        }
        CountStep(torrents, i, trackerMapper);
        stateCountMap := Merge(stateCountMap, torrent.state);
        trackerCountMap := Merge(trackerCountMap, trackerMapper(torrent.tracker));
        i := i + 1;
      }
      assert torrents[..i] == torrents;
      collector := collector.(stateCounts := stateCountMap, trackerCounts := trackerCountMap);
      return Completed;
    }

    /**
      One torrent's turn in the pass: its series point with the mapped
      tracker, then the toggle, read anew, and the info point when it is on.
      A toggle that throws is handed back before any info point is set.
     */
    method RecordTorrent(systemProperty: Nullable<string>, torrent: Torrent) returns (collectInfo: Result<bool, Value>)
      modifies this`collector
      ensures collectInfo == shouldCollectTorrentInfo(systemProperty)
      ensures var point := Labelled(torrent.name, trackerMapper(torrent.tracker));
              collector == old(collector).(
                series := old(collector).series + [point],
                info := if collectInfo == Success(true) then old(collector).info + [point] else old(collector).info)
    {
      var mappedTracker := trackerMapper(torrent.tracker);
      collector := collector.(series := collector.series + [Labelled(torrent.name, mappedTracker)]);
      collectInfo := shouldCollectTorrentInfo(systemProperty);
      if collectInfo.Success? && collectInfo.value {
        collector := collector.(info := collector.info + [Labelled(torrent.name, mappedTracker)]);
      }
    }

    /**
      `handleRequest`: a hit serves the cached text and changes nothing; a
      miss collects, and on success caches the new text together with the
      time read at the start of the request; any exception, from collecting
      or from rendering, answers 500 and leaves both cache fields as they were.
     */
    method HandleRequest(now: Long, systemProperty: Nullable<string>, fetched: Result<Upstream, Nullable<string>>)
      returns (response: Response)
      requires Valid()
      modifies this
      ensures Valid()
      ensures old(Hit(cachedMetrics, lastUpdateTime, now, GetCacheDurationMs(configuration))) ==>
                && response == Response(200, CONTENT_TYPE, old(cachedMetrics).value)
                && collector == old(collector)
                && cachedMetrics == old(cachedMetrics) && lastUpdateTime == old(lastUpdateTime)
      ensures !old(Hit(cachedMetrics, lastUpdateTime, now, GetCacheDurationMs(configuration))) ==>
                match old(Poll(systemProperty, fetched))
                case Collected(c) =>
                  && collector == c
                  && (match scrape(c)
                      case Success(text) =>
                        && response == Response(200, CONTENT_TYPE, text)
                        && cachedMetrics == NonNull(text) && lastUpdateTime == now
                      case Failure(message) =>
                        && response == Response(500, CONTENT_TYPE, ErrorBody(message))
                        && cachedMetrics == old(cachedMetrics) && lastUpdateTime == old(lastUpdateTime))
                case Aborted(message, left) =>
                  && response == Response(500, CONTENT_TYPE, ErrorBody(message))
                  && collector == left
                  && cachedMetrics == old(cachedMetrics) && lastUpdateTime == old(lastUpdateTime)
    {
      var currentTime := now;
      var cacheDuration := GetCacheDurationMs(configuration);
      if cachedMetrics.NonNull? && Wrap64(currentTime - lastUpdateTime) < cacheDuration {
        return Response(200, CONTENT_TYPE, cachedMetrics.value);
      }
      CollectedIsComplete(fetched, shouldCollectTorrentInfo(systemProperty), castMessage,
                          trackerMapper, collector);
      var outcome := CollectMetrics(systemProperty, fetched);
      if outcome.Thrown? {
        return Response(500, CONTENT_TYPE, ErrorBody(outcome.message));
      }
      var rendered := scrape(collector);
      if rendered.Failure? {
        return Response(500, CONTENT_TYPE, ErrorBody(rendered.error));
      }
      var metrics := rendered.value;
      cachedMetrics := NonNull(metrics);
      cachedSnapshot := collector;
      lastUpdateTime := currentTime;
      response := Response(200, CONTENT_TYPE, metrics);
    }
  }

  /**
    Two requests within the window: the second is served from the cache with
    the text the first one collected, whatever upstream would answer then.
   */
  method TwoRequestsWithinWindow(handler: QbtHttpHandler, first: Long, second: Long,
                                 systemProperty: Nullable<string>, upstream: Upstream,
                                 later: Result<Upstream, Nullable<string>>)
    returns (a: Response, b: Response)
    requires handler.Valid() && handler.cachedMetrics == Null
    requires upstream.globals == GlobalsSet
    requires handler.shouldCollectTorrentInfo(systemProperty).Success?
    requires forall c :: handler.scrape(c).Success?
    requires first <= second && second - first < GetCacheDurationMs(handler.configuration)
    modifies handler
    ensures a.status == 200 && b == a
  {
    a := handler.HandleRequest(first, systemProperty, Success(upstream));
    HitWithinWindow(a.body, first, second, GetCacheDurationMs(handler.configuration));
    b := handler.HandleRequest(second, systemProperty, later);
  }
}
