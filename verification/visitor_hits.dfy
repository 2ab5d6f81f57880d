/** The visitor-hit middleware (`VisitorHitMiddleware.process_request` in
    core/middleware.py): which requests are recorded, and what is recorded. */
module VisitorHits {
  import opened Wrappers
  import opened Text

  type UserId = nat
  type Timestamp = int

  /** The parts of an incoming request the middleware looks at. `meta` is the
      CGI-style header dictionary (`request.META`); `sessionKey` is `None` when
      the request has no session or its session has no key yet. */
  datatype Request = Request(
    isAjax: bool,
    path: string,
    meta: map<string, string>,
    sessionKey: Option<string>,
    authenticated: bool,
    user: UserId,
    secure: bool,
    fullPath: string)

  /** The visitor-hit row the middleware saves. */
  datatype Hit = Hit(
    user: Option<UserId>,
    userAgent: string,
    ipAddress: string,
    sessionKey: string,
    secure: bool,
    referrer: string,
    hostname: string,
    url: string,
    date: Timestamp)

  const UserAgentLength: nat := 255
  const SessionKeyLength: nat := 40
  const HostnameLength: nat := 100

  /** User-agent keywords of crawlers and bots whose requests are not recorded. */
  const UntrackedUserAgent: seq<string> := [
    "Teoma", "alexa", "froogle", "Gigabot", "inktomi", "looksmart", "URL_Spider_SQL", "Firefly",
    "NationalDirectory", "Ask Jeeves", "TECNOSEEK", "InfoSeek", "WebFindBot", "girafabot", "crawler",
    "www.galaxy.com", "Googlebot", "Googlebot/2.1", "Google", "Webmaster", "Scooter", "James Bond",
    "Slurp", "msnbot", "appie", "FAST", "WebBug", "Spade", "ZyBorg", "rabaz", "Baiduspider",
    "Feedfetcher-Google", "TechnoratiSnoop", "Rankivabot", "Mediapartners-Google", "Sogou web spider",
    "WebAlta Crawler", "MJ12bot", "Yandex/", "YandexBot", "YaDirectBot", "StackRambler", "DotBot", "dotbot"
  ]

  /** `request.META.get(key, '')`. */
  function MetaGet(meta: map<string, string>, key: string): (r: string)
    ensures key in meta ==> r == meta[key]
    ensures key !in meta ==> r == ""
  {
    if key in meta then meta[key] else ""
  }

  /** The user agent as the middleware sees it: the header cut to 255 characters. */
  function TruncatedUserAgent(req: Request): (r: string)
    ensures r <= MetaGet(req.meta, "HTTP_USER_AGENT")
    ensures |r| == Min(UserAgentLength, |MetaGet(req.meta, "HTTP_USER_AGENT")|)
  {
    Truncate(MetaGet(req.meta, "HTTP_USER_AGENT"), UserAgentLength)
  }

  /** The keyword loop: true as soon as some keyword, taken in list order,
      occurs in `ua`. */
  predicate MatchesAny(ua: string, keys: seq<string>)
    ensures |keys| > 0 && Contains(ua, keys[0]) ==> MatchesAny(ua, keys)
    ensures MatchesAny(ua, keys) ==> exists i :: 0 <= i < |keys| && Contains(ua, keys[i])
  {
    |keys| > 0 && (Find(ua, keys[0]) != -1 || MatchesAny(ua, keys[1..]))
  }

  lemma {:induction false} MatchesAnyIff(ua: string, keys: seq<string>)
    ensures MatchesAny(ua, keys) <==> exists i :: 0 <= i < |keys| && Contains(ua, keys[i])
  {
    if |keys| > 0 {
      MatchesAnyIff(ua, keys[1..]);
      if MatchesAny(ua, keys[1..]) {
        var j :| 0 <= j < |keys[1..]| && Contains(ua, keys[1..][j]);
        assert Contains(ua, keys[j + 1]);
      }
      if exists i :: 0 <= i < |keys| && Contains(ua, keys[i]) {
        var i :| 0 <= i < |keys| && Contains(ua, keys[i]);
        if i > 0 {
          assert Contains(ua, keys[1..][i - 1]);
        }
      }
    }
  }

  /** Whether the keywords block a user agent does not depend on their order
      (or on repetitions): only on which keywords are listed. */
  lemma KeywordOrderIrrelevant(ua: string, keys1: seq<string>, keys2: seq<string>)
    requires forall k :: k in keys1 <==> k in keys2
    ensures MatchesAny(ua, keys1) <==> MatchesAny(ua, keys2)
  {
    MatchesAnyIff(ua, keys1);
    MatchesAnyIff(ua, keys2);
    if MatchesAny(ua, keys1) {
      var i :| 0 <= i < |keys1| && Contains(ua, keys1[i]);
      assert keys1[i] in keys2;
      var j :| 0 <= j < |keys2| && keys2[j] == keys1[i];
      assert Contains(ua, keys2[j]);
    }
    if MatchesAny(ua, keys2) {
      var j :| 0 <= j < |keys2| && Contains(ua, keys2[j]);
      assert keys2[j] in keys1;
      var i :| 0 <= i < |keys1| && keys1[i] == keys2[j];
      assert Contains(ua, keys1[i]);
    }
  }

  /** The three early returns of the middleware: a request is recorded unless
      it is an AJAX request, its path starts with the admin prefix, or its
      (truncated) user agent contains an untracked keyword. */
  predicate ShouldTrack(req: Request, adminPrefix: string)
    ensures ShouldTrack(req, adminPrefix) ==> !req.isAjax && !(adminPrefix <= req.path)
  {
    !req.isAjax
    && !(adminPrefix <= req.path)
    && !MatchesAny(TruncatedUserAgent(req), UntrackedUserAgent)
  }

  /** A request is recorded exactly when it is not AJAX, not under the admin
      prefix, and no keyword occurs in the first 255 characters of its user agent. */
  lemma ShouldTrackIff(req: Request, adminPrefix: string)
    ensures ShouldTrack(req, adminPrefix) <==>
      !req.isAjax && !(adminPrefix <= req.path) &&
      forall k :: k in UntrackedUserAgent ==> !Contains(TruncatedUserAgent(req), k)
  {
    var ua := TruncatedUserAgent(req);
    MatchesAnyIff(ua, UntrackedUserAgent);
    if exists k :: k in UntrackedUserAgent && Contains(ua, k) {
      var k :| k in UntrackedUserAgent && Contains(ua, k);
      var i :| 0 <= i < |UntrackedUserAgent| && UntrackedUserAgent[i] == k;
      assert Contains(ua, UntrackedUserAgent[i]);
    }
  }

  /** A keyword that ends within the first 255 characters of the user agent
      stops the request from being recorded. */
  lemma EarlyKeywordBlocks(req: Request, adminPrefix: string, k: string, i: nat)
    requires k in UntrackedUserAgent
    requires OccursAt(MetaGet(req.meta, "HTTP_USER_AGENT"), k, i) && i + |k| <= UserAgentLength
    ensures !ShouldTrack(req, adminPrefix)
  {
    EarlyOccurrenceKept(MetaGet(req.meta, "HTTP_USER_AGENT"), UserAgentLength, k, i);
    ShouldTrackIff(req, adminPrefix);
  }

  /** Truncation can only let more requests through: a request whose full
      user agent contains no keyword is blocked by nothing but AJAX and the prefix. */
  lemma CleanUserAgentTracked(req: Request, adminPrefix: string)
    requires !req.isAjax && !(adminPrefix <= req.path)
    requires forall k :: k in UntrackedUserAgent ==> !Contains(MetaGet(req.meta, "HTTP_USER_AGENT"), k)
    ensures ShouldTrack(req, adminPrefix)
  {
    ShouldTrackIff(req, adminPrefix);
    forall k | k in UntrackedUserAgent
      ensures !Contains(TruncatedUserAgent(req), k)
    {
      if Contains(TruncatedUserAgent(req), k) {
        TruncatedContains(MetaGet(req.meta, "HTTP_USER_AGENT"), UserAgentLength, k);
      }
    }
  }

  /** A string of `n` copies of `c`. */
  function Repeat(c: char, n: nat): (r: string)
    ensures |r| == n && forall i :: 0 <= i < n ==> r[i] == c
  {
    if n == 0 then [] else Repeat(c, n - 1) + [c]
  }

  /** A keyword that does not begin with `c` never occurs in a run of `c`s. */
  lemma NoOccurrenceInRun(c: char, n: nat, k: string)
    requires |k| > 0 && k[0] != c
    ensures !Contains(Repeat(c, n), k)
  {
  }

  /** No keyword begins with `x`, so none occurs in a run of `x` characters. */
  lemma NoKeywordInRun(n: nat)
    ensures forall k :: k in UntrackedUserAgent ==> !Contains(Repeat('x', n), k)
  {
    forall k | k in UntrackedUserAgent
      ensures !Contains(Repeat('x', n), k)
    {
      NoOccurrenceInRun('x', n, k);
    }
  }

  /** A keyword that only appears after the first 255 characters of the user
      agent does not block: a 255-character run followed by `Googlebot` is
      still recorded, though the full header contains a keyword. */
  lemma LateKeywordIgnored(req: Request, adminPrefix: string)
    requires !req.isAjax && !(adminPrefix <= req.path)
    requires MetaGet(req.meta, "HTTP_USER_AGENT") == Repeat('x', UserAgentLength) + "Googlebot"
    ensures Contains(MetaGet(req.meta, "HTTP_USER_AGENT"), "Googlebot") && "Googlebot" in UntrackedUserAgent
    ensures ShouldTrack(req, adminPrefix)
  {
    var header := MetaGet(req.meta, "HTTP_USER_AGENT");
    assert OccursAt(header, "Googlebot", UserAgentLength);
    var ua := Repeat('x', UserAgentLength);
    assert TruncatedUserAgent(req) == ua;
    NoKeywordInRun(UserAgentLength);
    MatchesAnyIff(ua, UntrackedUserAgent);
  }

  /** The referrer as `process_request` looks it up, under the key `HTTP_REFERRER`. */
  function ReferrerAsWritten(meta: map<string, string>): (r: string)
    ensures "HTTP_REFERRER" in meta ==> r == meta["HTTP_REFERRER"]
    ensures "HTTP_REFERRER" !in meta ==> r == ""
  {
    MetaGet(meta, "HTTP_REFERRER")
  }

  /** The `Referer` request header is stored in `request.META` under
      `HTTP_REFERER` (section 4.1.18 of RFC 3875 and the header's own
      spelling in section 10.1.3 of RFC 9110), so the lookup as written records
      an empty referrer for a request that carries one. */
  lemma ReferrerAsWrittenMissesHeader()
    ensures var meta := map["HTTP_REFERER" := "http://example.com/"];
      meta["HTTP_REFERER"] != "" && ReferrerAsWritten(meta) == ""
  {
  }

  /** The referrer under the key the `Referer` header is actually stored at. */
  function Referrer(meta: map<string, string>): (r: string)
    ensures "HTTP_REFERER" in meta ==> r == meta["HTTP_REFERER"]
    ensures "HTTP_REFERER" !in meta ==> r == ""
  {
    MetaGet(meta, "HTTP_REFERER")
  }

  /** The session key recorded for a hit: the request's own session key when
      it has a non-empty one, otherwise `ip:ua` cut to 40 characters. */
  function SessionKeyFor(req: Request, ipAddress: string, userAgent: string): (r: string)
    ensures req.sessionKey.Some? && req.sessionKey.value != "" ==> r == req.sessionKey.value
    ensures !(req.sessionKey.Some? && req.sessionKey.value != "") ==>
      r <= ipAddress + ":" + userAgent &&
      |r| == Min(SessionKeyLength, |ipAddress| + 1 + |userAgent|)
  {
    if req.sessionKey.Some? && req.sessionKey.value != "" then req.sessionKey.value
    else Truncate(ipAddress + ":" + userAgent, SessionKeyLength)
  }

  /** A made-up session key keeps the whole client address whenever the
      address has at most 39 characters (any dotted IPv4 address, and any
      IPv6 address written in hexadecimal groups only). */
  lemma {:induction false} FallbackKeyKeepsAddress(req: Request, ipAddress: string, userAgent: string)
    requires !(req.sessionKey.Some? && req.sessionKey.value != "")
    requires |ipAddress| < SessionKeyLength
    ensures ipAddress + ":" <= SessionKeyFor(req, ipAddress, userAgent)
  {
    var full := ipAddress + ":" + userAgent;
    var key := SessionKeyFor(req, ipAddress, userAgent);
    assert key == full[..|key|];
    assert (ipAddress + ":") == full[..|ipAddress| + 1];
  }

  /** The hit row filled in for a request that is recorded, at time `now`. */
  function BuildHit(req: Request, now: Timestamp): (h: Hit)
    ensures h.user.Some? <==> req.authenticated
    ensures h.user.Some? ==> h.user.value == req.user
    ensures h.userAgent <= MetaGet(req.meta, "HTTP_USER_AGENT")
    ensures |h.userAgent| == Min(UserAgentLength, |MetaGet(req.meta, "HTTP_USER_AGENT")|)
    ensures h.ipAddress == MetaGet(req.meta, "REMOTE_ADDR")
    ensures req.sessionKey.Some? && req.sessionKey.value != "" ==> h.sessionKey == req.sessionKey.value
    ensures !(req.sessionKey.Some? && req.sessionKey.value != "") ==>
      h.sessionKey <= h.ipAddress + ":" + h.userAgent &&
      |h.sessionKey| == Min(SessionKeyLength, |h.ipAddress| + 1 + |h.userAgent|)
    ensures h.sessionKey == SessionKeyFor(req, h.ipAddress, h.userAgent)
    ensures h.referrer == Referrer(req.meta)
    ensures h.hostname <= MetaGet(req.meta, "REMOTE_HOST")
    ensures |h.hostname| == Min(HostnameLength, |MetaGet(req.meta, "REMOTE_HOST")|)
    ensures h.secure == req.secure && h.url == req.fullPath && h.date == now
  {
    var userAgent := TruncatedUserAgent(req);
    var ipAddress := MetaGet(req.meta, "REMOTE_ADDR");
    Hit(
      user := if req.authenticated then Some(req.user) else None,
      userAgent := userAgent,
      ipAddress := ipAddress,
      sessionKey := SessionKeyFor(req, ipAddress, userAgent),
      secure := req.secure,
      referrer := Referrer(req.meta),
      hostname := Truncate(MetaGet(req.meta, "REMOTE_HOST"), HostnameLength),
      url := req.fullPath,
      date := now)
  }

  /** The middleware's `for` loop: looks for each keyword in turn and stops at
      the first one that occurs in `ua`. */
  method FindKeyword(ua: string, keys: seq<string>) returns (found: bool)
    ensures found <==> exists i :: 0 <= i < |keys| && Contains(ua, keys[i])
    ensures found == MatchesAny(ua, keys)
  {
    MatchesAnyIff(ua, keys);
    var i := 0;
    while i < |keys|
      invariant 0 <= i <= |keys|
      invariant forall j :: 0 <= j < i ==> !Contains(ua, keys[j])
    {
      if Find(ua, keys[i]) != -1 {
        return true;
      }
      i := i + 1;
    }
    return false;
  }

  /** `process_request`: the guards, the loop over the keywords that stops at
      the first match, and the hit it fills in (saving the row is not modelled). */
  method ProcessRequest(req: Request, adminPrefix: string, now: Timestamp) returns (hit: Option<Hit>)
    ensures req.isAjax ==> hit == None
    ensures adminPrefix <= req.path ==> hit == None
    ensures hit.Some? <==> ShouldTrack(req, adminPrefix)
    ensures hit.Some? ==> hit.value == BuildHit(req, now)
  {
    if req.isAjax {
      return None;
    }
    if adminPrefix <= req.path {
      return None;
    }
    var userAgent := Truncate(MetaGet(req.meta, "HTTP_USER_AGENT"), UserAgentLength);
    var blocked := FindKeyword(userAgent, UntrackedUserAgent);
    if blocked {
      return None;
    }
    var user := if req.authenticated then Some(req.user) else None;
    var ipAddress := MetaGet(req.meta, "REMOTE_ADDR");
    var sessionKey;
    if req.sessionKey.Some? && req.sessionKey.value != "" {
      sessionKey := req.sessionKey.value;
    } else {
      sessionKey := Truncate(ipAddress + ":" + userAgent, SessionKeyLength);
    }
    var referrer := Referrer(req.meta);
    var hostname := Truncate(MetaGet(req.meta, "REMOTE_HOST"), HostnameLength);
    hit := Some(Hit(user, userAgent, ipAddress, sessionKey, req.secure, referrer, hostname, req.fullPath, now));
  }

}
