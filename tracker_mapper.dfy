/**
  Tracker classification: a torrent's tracker announce string becomes a category
  by extracting a host with scheme-specific rules and looking that host up,
  once and by exact key, in a read-only table of tracker mappings.

  The table is the mapper's only state; it is fixed when the mapper is built,
  so every function here takes it as a value. `java.net.URI` is foreign code:
  its outcome for a string is the parameter `parseUri`.
 */
module TrackerMapper {
  import opened JavaText

  /** What `new URI(s).getHost()` yields: a syntax error, or a parsed URI whose host may be null. */
  datatype UriParse = SyntaxError | Parsed(host: Nullable<string>)

  const HTTP: string := "http://"
  const HTTPS: string := "https://"
  const UDP: string := "udp://"

  /** The case-sensitive prefix test that sends a string to the URI parser. */
  predicate IsHttp(url: string) {
    HTTP <= url || HTTPS <= url
  }

  /** Everything before the first ':' when that colon is not the first character, else the whole string. */
  function StripPort(s: string): (r: string)
    ensures r <= s
    ensures || (r == s && (':' !in s || s[0] == ':'))
            || (0 < |r| < |s| && s[|r|] == ':' && ':' !in r)
  {
    var i := IndexOf(s, ':');
    if i > 0 then s[..i] else s
  }

  /**
    `extractHost`: http(s) strings go through the URI parser, falling back to
    the whole string on a syntax error; udp strings lose the scheme and a port;
    anything else keeps the part before the first '/', without a port. When the
    split leaves nothing (the string is only slashes) the whole string is the host.
   */
  function ExtractHost(trackerUrl: string, parseUri: string -> UriParse): (host: Nullable<string>)
    ensures host.Null? <==> IsHttp(trackerUrl) && parseUri(trackerUrl) == Parsed(Null)
  {
    if IsHttp(trackerUrl) then
      match parseUri(trackerUrl)
      case SyntaxError => NonNull(trackerUrl)
      case Parsed(h) => h
    else if UDP <= trackerUrl then
      NonNull(StripPort(trackerUrl[|UDP|..]))
    else
      var parts := Split(trackerUrl, '/');
      if |parts| > 0 then NonNull(StripPort(parts[0])) else NonNull(trackerUrl)
  }

  /**
    `mapTracker`: a null or blank string is "unknown"; otherwise the extracted
    host is looked up by exact key and is its own default. A null host (a URI
    without one) finds no key, so the category is null as well.
   */
  function MapTracker(trackerMappings: map<string, string>, trackerUrl: Nullable<string>,
                      parseUri: string -> UriParse): (category: Nullable<string>)
    ensures trackerUrl.Null? ==> category == NonNull("unknown")
    ensures category.NonNull? && category.value !in trackerMappings.Values && category.value != "unknown"
            ==> trackerUrl.NonNull? && ExtractHost(trackerUrl.value, parseUri) == category
  {
    if trackerUrl.Null? || IsBlank(trackerUrl.value) then NonNull("unknown")
    else
      match ExtractHost(trackerUrl.value, parseUri)
      case Null => Null
      case NonNull(h) => NonNull(if h in trackerMappings then trackerMappings[h] else h)
  }

  /** `getMappings`: a copy with exactly the same entries. */
  function GetMappings(trackerMappings: map<string, string>): (copy: map<string, string>)
    ensures copy.Keys == trackerMappings.Keys
    ensures forall k :: k in copy ==> copy[k] == trackerMappings[k]
  {
    trackerMappings
  }

  // ---------------------------------------------------------------------
  // Properties of the classification
  // ---------------------------------------------------------------------

  /** A string made only of characters at or below U+0020 is "unknown", whatever the table. */
  lemma BlankIsUnknown(trackerMappings: map<string, string>, trackerUrl: string, parseUri: string -> UriParse)
    requires forall i :: 0 <= i < |trackerUrl| ==> trackerUrl[i] <= ' '
    ensures MapTracker(trackerMappings, NonNull(trackerUrl), parseUri) == NonNull("unknown")
  {
    BlankIff(trackerUrl);
  }

  /** One character above U+0020 makes a string non-blank. */
  lemma VisibleIsNotBlank(s: string, i: nat)
    requires i < |s| && s[i] > ' '
    ensures !IsBlank(s)
  {
    BlankIff(s);
  }

  /** A string with a visible character is classified by its host. */
  lemma {:induction false} ResolvesByExactKey(trackerMappings: map<string, string>, trackerUrl: string,
                                              parseUri: string -> UriParse, host: string)
    requires exists i :: 0 <= i < |trackerUrl| && trackerUrl[i] > ' '
    requires ExtractHost(trackerUrl, parseUri) == NonNull(host)
    ensures MapTracker(trackerMappings, NonNull(trackerUrl), parseUri)
            == NonNull(if host in trackerMappings then trackerMappings[host] else host)
  {
    BlankIff(trackerUrl);
  }

  /** The category is null exactly when an http(s) string parses as a URI without a host. */
  lemma NullLabelIff(trackerMappings: map<string, string>, trackerUrl: Nullable<string>,
                     parseUri: string -> UriParse)
    ensures MapTracker(trackerMappings, trackerUrl, parseUri).Null?
            <==> trackerUrl.NonNull? && IsHttp(trackerUrl.value) && parseUri(trackerUrl.value) == Parsed(Null)
  {
    if trackerUrl.NonNull? && IsHttp(trackerUrl.value) {
      var s := trackerUrl.value;
      assert s[0] == 'h';
      BlankIff(s);
    }
  }

  /**
    Only exact key equality matters: an entry for any other key than the
    extracted host leaves the category unchanged (no substring, pattern or
    fallback entry takes part).
   */
  lemma ExactKeyOnly(trackerMappings: map<string, string>, key: string, category: string,
                     trackerUrl: Nullable<string>, parseUri: string -> UriParse)
    requires trackerUrl.NonNull? ==> ExtractHost(trackerUrl.value, parseUri) != NonNull(key)
    ensures MapTracker(trackerMappings[key := category], trackerUrl, parseUri)
            == MapTracker(trackerMappings, trackerUrl, parseUri)
  {
  }

  /** When the URI parser rejects an http(s) string, the whole string is the key looked up. */
  lemma SyntaxErrorLooksUpWholeString(trackerMappings: map<string, string>, trackerUrl: string,
                                      parseUri: string -> UriParse)
    requires IsHttp(trackerUrl)
    requires parseUri(trackerUrl) == SyntaxError
    ensures MapTracker(trackerMappings, NonNull(trackerUrl), parseUri)
            == NonNull(if trackerUrl in trackerMappings then trackerMappings[trackerUrl] else trackerUrl)
  {
    assert trackerUrl[0] == 'h';
    BlankIff(trackerUrl);
  }

  // ---------------------------------------------------------------------
  // Host extraction, branch by branch
  // ---------------------------------------------------------------------

  lemma NotPrefixAt(p: string, s: string, k: nat)
    requires k < |p| && k < |s| && p[k] != s[k]
    ensures !(p <= s)
  {
  }

  /**
    A string that opens with a colon-free run ended by '/', or by ':' not
    followed by '/', carries none of the three scheme prefixes.
   */
  lemma {:induction false} NoSchemeAfterRun(p: string, s: string, n: nat)
    requires p == HTTP || p == HTTPS || p == UDP
    requires n < |s| && ':' !in s[..n]
    requires s[n] == '/' || (s[n] == ':' && (n + 1 < |s| ==> s[n + 1] != '/'))
    ensures !(p <= s)
  {
    var m := |p| - 3;
    assert p[m] == ':' && p[m + 1] == '/';
    assert forall j :: 0 <= j < m ==> p[j] != ':' && p[j] != '/';
    if n < m {
      NotPrefixAt(p, s, n);
    } else if n == m {
      if s[n] == '/' {
        NotPrefixAt(p, s, n);
      } else if n + 1 < |s| {
        NotPrefixAt(p, s, n + 1);
      }
    } else {
      assert s[m] == s[..n][m] != ':';
      NotPrefixAt(p, s, m);
    }
  }

  lemma NotHttpAfterRun(s: string, n: nat)
    requires n < |s| && ':' !in s[..n]
    requires s[n] == '/' || (s[n] == ':' && (n + 1 < |s| ==> s[n + 1] != '/'))
    ensures !IsHttp(s) && !(UDP <= s)
  {
    NoSchemeAfterRun(HTTP, s, n);
    NoSchemeAfterRun(HTTPS, s, n);
    NoSchemeAfterRun(UDP, s, n);
  }

  /** udp: the host before a port comes back without the port and the path. */
  lemma UdpHostBeforePort(host: string, rest: string, parseUri: string -> UriParse)
    requires host != [] && ':' !in host
    ensures ExtractHost(UDP + host + ":" + rest, parseUri) == NonNull(host)
  {
    var s := UDP + host + ":" + rest;
    assert !IsHttp(s) by { NotPrefixAt(HTTP, s, 0); NotPrefixAt(HTTPS, s, 0); }
    assert s[|UDP|..] == host + [':'] + rest;
    IndexOfFirst(host, ':', rest);
    assert (host + [':'] + rest)[..|host|] == host;
  }

  /** udp: without a port the whole remainder is the host, path included. */
  lemma UdpWithoutPortKeepsPath(remainder: string, parseUri: string -> UriParse)
    requires ':' !in remainder
    ensures ExtractHost(UDP + remainder, parseUri) == NonNull(remainder)
  {
    var s := UDP + remainder;
    assert !IsHttp(s) by { NotPrefixAt(HTTP, s, 0); NotPrefixAt(HTTPS, s, 0); }
    assert s[|UDP|..] == remainder;
  }

  /** udp: a colon right after the scheme is not a port separator; nothing is cut. */
  lemma UdpLeadingColonKept(remainder: string, parseUri: string -> UriParse)
    requires remainder != [] && remainder[0] == ':'
    ensures ExtractHost(UDP + remainder, parseUri) == NonNull(remainder)
  {
    var s := UDP + remainder;
    assert !IsHttp(s) by { NotPrefixAt(HTTP, s, 0); NotPrefixAt(HTTPS, s, 0); }
    assert s[|UDP|..] == remainder;
  }

  /** Other strings: the host is the port-stripped text before the first '/'. */
  lemma FallbackBeforeSlash(first: string, path: string, parseUri: string -> UriParse)
    requires first != [] && '/' !in first
    requires !IsHttp(first + ['/'] + path) && !(UDP <= first + ['/'] + path)
    ensures ExtractHost(first + ['/'] + path, parseUri) == NonNull(StripPort(first))
  {
    var s := first + ['/'] + path;
    IndexOfFirst(first, '/', path);
    assert s[0] == first[0] != '/';
    SplitHead(s, '/');
    assert s[..|first|] == first;
  }

  /**
    Other strings, in general: unless the string is made of slashes only, the
    host is the port-stripped text before the first '/', or the whole string
    when it has no '/'. A leading '/' thus gives the empty host.
   */
  lemma FallbackHost(s: string, parseUri: string -> UriParse)
    requires !IsHttp(s) && !(UDP <= s)
    requires !(s != [] && forall i :: 0 <= i < |s| ==> s[i] == '/')
    ensures ExtractHost(s, parseUri)
            == NonNull(StripPort(if IndexOf(s, '/') == -1 then s else s[..IndexOf(s, '/')]))
  {
    SplitHead(s, '/');
  }

  /** Other strings: "host:port" without a path gives back the host. */
  lemma BareHostWithoutPath(host: string, port: string, parseUri: string -> UriParse)
    requires host != [] && ':' !in host && '/' !in host && '/' !in port
    ensures ExtractHost(host + ":" + port, parseUri) == NonNull(host)
  {
    var s := host + ":" + port;
    assert s == host + [':'] + port;
    assert s[..|host|] == host && s[|host|] == ':';
    NotHttpAfterRun(s, |host|);
    assert '/' !in s by {
      assert forall j :: 0 <= j < |s| ==> s[j] == (if j < |host| then host[j] else if j == |host| then ':' else port[j - |host| - 1]);
    }
    assert s[0] == host[0] != '/';
    FallbackHost(s, parseUri);
    IndexOfFirst(host, ':', port);
  }

  /** Other strings: a leading '/' before some other character gives the empty host. */
  lemma LeadingSlashIsEmptyHost(rest: string, parseUri: string -> UriParse)
    requires rest != [] && rest[0] != '/'
    ensures ExtractHost("/" + rest, parseUri) == NonNull([])
  {
    var s := "/" + rest;
    NotPrefixAt(HTTP, s, 0);
    NotPrefixAt(HTTPS, s, 0);
    NotPrefixAt(UDP, s, 0);
    assert s[1] == rest[0] != '/';
    assert IndexOf(s, '/') == 0;
    FallbackHost(s, parseUri);
  }

  /** Other strings: "host:port/path" gives back the host. */
  lemma BareHostBeforePort(host: string, port: string, path: string, parseUri: string -> UriParse)
    requires host != [] && ':' !in host && '/' !in host
    requires port != [] && '/' !in port
    ensures ExtractHost(host + ":" + port + "/" + path, parseUri) == NonNull(host)
  {
    var s := host + ":" + port + "/" + path;
    var first := host + [':'] + port;
    assert s == first + ['/'] + path;
    assert s[..|host|] == host && s[|host|] == ':' && s[|host| + 1] == port[0];
    NotHttpAfterRun(s, |host|);
    assert '/' !in first by {
      assert forall j :: 0 <= j < |first| ==> first[j] == (if j < |host| then host[j] else if j == |host| then ':' else port[j - |host| - 1]);
    }
    FallbackBeforeSlash(first, path, parseUri);
    IndexOfFirst(host, ':', port);
    assert first[..|host|] == host;
  }

  /** Other strings: "host/path" gives back the host. */
  lemma BareHostBeforePath(host: string, path: string, parseUri: string -> UriParse)
    requires host != [] && ':' !in host && '/' !in host
    ensures ExtractHost(host + "/" + path, parseUri) == NonNull(host)
  {
    var s := host + "/" + path;
    assert s == host + ['/'] + path;
    assert s[..|host|] == host && s[|host|] == '/';
    NotHttpAfterRun(s, |host|);
    FallbackBeforeSlash(host, path, parseUri);
    IndexOfAbsent(host, ':');
  }

  /** Other strings: a string of slashes only splits into nothing and is its own host. */
  lemma OnlySlashesKept(trackerUrl: string, parseUri: string -> UriParse)
    requires trackerUrl != [] && forall i :: 0 <= i < |trackerUrl| ==> trackerUrl[i] == '/'
    ensures ExtractHost(trackerUrl, parseUri) == NonNull(trackerUrl)
  {
    NotPrefixAt(HTTP, trackerUrl, 0);
    NotPrefixAt(HTTPS, trackerUrl, 0);
    NotPrefixAt(UDP, trackerUrl, 0);
    SplitHead(trackerUrl, '/');
  }

  /** The scheme test is case-sensitive: an upper-case "HTTP://" falls to the split rule. */
  lemma UpperCaseSchemeIsNotHttp(rest: string, parseUri: string -> UriParse)
    ensures ExtractHost("HTTP://" + rest, parseUri) == NonNull("HTTP")
  {
    var s := "HTTP://" + rest;
    NotPrefixAt(HTTP, s, 0);
    NotPrefixAt(HTTPS, s, 0);
    NotPrefixAt(UDP, s, 0);
    assert s == "HTTP:" + ['/'] + ("/" + rest);
    assert '/' !in "HTTP:";
    IndexOfFirst("HTTP:", '/', "/" + rest);
    assert s[0] != '/';
    SplitHead(s, '/');
    assert s[..5] == "HTTP:";
    assert "HTTP:" == "HTTP" + [':'] + [];
    IndexOfFirst("HTTP", ':', []);
    assert "HTTP:"[..4] == "HTTP";
  }

  // ---------------------------------------------------------------------
  // Worked examples
  // ---------------------------------------------------------------------

  /** The usual udp announce string, with an empty table. */
  lemma UdpExample(parseUri: string -> UriParse)
    ensures MapTracker(map[], NonNull(UDP + "tracker.opentrackr.org" + ":" + "1337/announce"), parseUri)
            == NonNull("tracker.opentrackr.org")
  {
    var s := UDP + "tracker.opentrackr.org" + ":" + "1337/announce";
    UdpHostBeforePort("tracker.opentrackr.org", "1337/announce", parseUri);
    VisibleIsNotBlank(s, 0);
  }

  /**
    A key is not matched as a substring of the host: with only "beyond-hd"
    in the table, a host "tracker.beyond-hd.me" is its own category.
   */
  lemma NoSubstringMatch(parseUri: string -> UriParse)
    requires parseUri(HTTPS + "tracker.beyond-hd.me/announce") == Parsed(NonNull("tracker.beyond-hd.me"))
    ensures MapTracker(map["beyond-hd" := "BHD"], NonNull(HTTPS + "tracker.beyond-hd.me/announce"), parseUri)
            == NonNull("tracker.beyond-hd.me")
  {
    var s := HTTPS + "tracker.beyond-hd.me/announce";
    assert HTTPS <= s;
    VisibleIsNotBlank(s, 0);
    assert |"tracker.beyond-hd.me"| != |"beyond-hd"|;
  }

  /**
    A key "other" is an ordinary key, not a fallback for unmatched hosts: a
    "host:port/path" tracker whose host is not "other" keeps its host.
   */
  lemma NoOtherFallback(host: string, port: string, path: string, parseUri: string -> UriParse)
    requires host != [] && host[0] > ' ' && ':' !in host && '/' !in host && host != "other"
    requires port != [] && '/' !in port
    ensures MapTracker(map["other" := "Unknown"], NonNull(host + ":" + port + "/" + path), parseUri)
            == NonNull(host)
  {
    var s := host + ":" + port + "/" + path;
    BareHostBeforePort(host, port, path, parseUri);
    assert s[0] == host[0];
    VisibleIsNotBlank(s, 0);
  }
}
