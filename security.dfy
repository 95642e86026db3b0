/** The request-admission layer in front of every route (security.py):
    client identity, the two rate limiters, the attack-pattern scan, the
    content-type allowlist, upload validation and the two access decorators. */
module Security {
  import opened Common

  // ---------------------------------------------------------------------------
  // Requests and client identity
  // ---------------------------------------------------------------------------

  /** What the middleware reads from an inbound request. */
  datatype Request = Request(
    endpoint: Option<string>,          // Flask's `request.endpoint`; None when no route matched
    url: string,                       // `request.url`
    body: string,                      // `request.data`, decoded as UTF-8 with errors ignored
    headers: seq<(string, string)>,    // `request.headers`, in order, as (name, value)
    verb: string,                      // the HTTP method
    contentType: Option<string>,
    realIp: Option<string>,            // `environ['HTTP_X_REAL_IP']` set by the proxy
    remoteAddr: string,
    userAgent: string)                 // `headers.get('User-Agent', '')`

  predicate IsHexDigit(c: char)
  {
    '0' <= c <= '9' || 'a' <= c <= 'f'
  }

  /** A SHA-256 `hexdigest()`: 64 lower-case hex digits. */
  type HexDigest = s: string | |s| == 64 && forall i :: 0 <= i < |s| ==> IsHexDigit(s[i])
    witness seq(64, _ => '0')

  /** The shape of every client identifier: 16 lower-case hex digits. */
  predicate IsIdentifier(s: string)
  {
    |s| == 16 && forall i :: 0 <= i < |s| ==> IsHexDigit(s[i])
  }

  /** The proxy-supplied address when present, else the socket address. */
  function ClientAddress(req: Request): string
  {
    if req.realIp.Some? then req.realIp.value else req.remoteAddr
  }

  /** `get_client_identifier`: the first 16 hex digits of the digest of "address:agent".
      The digest function is a parameter: SHA-256 itself is not part of this model. */
  function ClientIdentifier(req: Request, sha256: string -> HexDigest): (id: string)
    ensures IsIdentifier(id)
    ensures id == sha256(ClientAddress(req) + ":" + req.userAgent)[..16]
  {
    sha256(ClientAddress(req) + ":" + req.userAgent)[..16]
  }

  /** Two requests from the same address with the same agent get the same identifier,
      whichever of the proxy header or the socket address supplied the address. */
  lemma IdentifierIsDeterministic(r1: Request, r2: Request, sha256: string -> HexDigest)
    requires ClientAddress(r1) == ClientAddress(r2) && r1.userAgent == r2.userAgent
    ensures ClientIdentifier(r1, sha256) == ClientIdentifier(r2, sha256)
  {
  }

  // ---------------------------------------------------------------------------
  // Endpoint classes
  // ---------------------------------------------------------------------------

  /** `request.endpoint or 'unknown'` */
  function EndpointName(req: Request): (e: string)
    ensures e != ""
  {
    if req.endpoint.Some? && req.endpoint.value != "" then req.endpoint.value else "unknown"
  }

  /** `apply_rate_limiting`'s choice of (limit, window in seconds) for an endpoint name. */
  function RateLimitFor(endpoint: string): (r: (int, int))
    ensures endpoint in ["user.login", "login"] ==> r == (5, 300)
    ensures endpoint in ["user.register", "register"] ==> r == (3, 3600)
    ensures endpoint !in ["user.login", "login", "user.register", "register"] ==>
              r == (if StartsWith(endpoint, "api.") then (100, 3600) else (1000, 3600))
  {
    if endpoint in ["user.login", "login"] then (5, 300)
    else if endpoint in ["user.register", "register"] then (3, 3600)
    else if StartsWith(endpoint, "api.") then (100, 3600)
    else (1000, 3600)
  }

  /** Every endpoint class is a positive number of requests over a positive window. */
  lemma RateLimitsArePositive(endpoint: string)
    ensures RateLimitFor(endpoint).0 >= 3 && RateLimitFor(endpoint).1 >= 300
  {
  }

  /** The key of the shared counter store. */
  function StoreKey(endpoint: string, identifier: string): string
  {
    "rate_limit:" + endpoint + ":" + identifier
  }

  /** The key of the in-process fallback. */
  function MemoryKey(endpoint: string, identifier: string): string
  {
    endpoint + ":" + identifier
  }

  /** Counter keys are built from the endpoint NAME, so two endpoints of the same class
      never share a counter; and since identifiers have a fixed length, a key determines
      both its endpoint and its client. */
  lemma StoreKeyInjective(e1: string, i1: string, e2: string, i2: string)
    requires IsIdentifier(i1) && IsIdentifier(i2)
    requires StoreKey(e1, i1) == StoreKey(e2, i2)
    ensures e1 == e2 && i1 == i2
  {
    var k := StoreKey(e1, i1);
    assert |e1| == |e2|;
    assert e1 == k[11..11 + |e1|];
    assert e2 == StoreKey(e2, i2)[11..11 + |e2|];
    assert i1 == k[|k| - 16..];
    assert i2 == StoreKey(e2, i2)[|k| - 16..];
  }

  lemma MemoryKeyInjective(e1: string, i1: string, e2: string, i2: string)
    requires IsIdentifier(i1) && IsIdentifier(i2)
    requires MemoryKey(e1, i1) == MemoryKey(e2, i2)
    ensures e1 == e2 && i1 == i2
  {
    var k := MemoryKey(e1, i1);
    assert |e1| == |e2|;
    assert e1 == k[..|e1|];
    assert e2 == MemoryKey(e2, i2)[..|e2|];
    assert i1 == k[|k| - 16..];
    assert i2 == MemoryKey(e2, i2)[|k| - 16..];
  }

  // ---------------------------------------------------------------------------
  // Fixed-window limiter over the shared store
  // ---------------------------------------------------------------------------

  /** One request against a counter: `current` is what the store holds for the key
      (None once the window has expired). Returns (limited, counter afterwards). */
  function StoreStep(current: Option<int>, limit: int): (r: (bool, int))
    ensures r.0 <==> current.Some? && current.value >= limit
    ensures r.0 ==> r.1 == current.value
    ensures !r.0 ==> r.1 == (if current.None? then 0 else current.value) + 1
  {
    if current.None? then (false, 1)
    else if current.value >= limit then (true, current.value)
    else (false, current.value + 1)
  }

  /** The decisions for `n` successive requests inside one window. */
  function StoreRun(current: Option<int>, n: nat, limit: int): (r: seq<bool>)
    ensures |r| == n
    decreases n
  {
    if n == 0 then []
    else
      var step := StoreStep(current, limit);
      [step.0] + StoreRun(Some(step.1), n - 1, limit)
  }

  lemma {:induction false} StoreRunFrom(c: int, n: nat, limit: int)
    requires 1 <= c <= limit
    ensures forall k :: 0 <= k < n ==> StoreRun(Some(c), n, limit)[k] == (c + k >= limit)
    decreases n
  {
    if n > 0 {
      var step := StoreStep(Some(c), limit);
      if c < limit {
        StoreRunFrom(c + 1, n - 1, limit);
      } else {
        StoreRunSaturated(c, n - 1, limit);
      }
    }
  }

  lemma {:induction false} StoreRunSaturated(c: int, n: nat, limit: int)
    requires c >= limit
    ensures forall k :: 0 <= k < n ==> StoreRun(Some(c), n, limit)[k]
  {
    if n > 0 {
      StoreRunSaturated(c, n - 1, limit);
    }
  }

  /** Within one window, with a limit N >= 1, requests 1..N are admitted and every
      later one is denied; the first request after the window expired is admitted again. */
  lemma FixedWindowAdmitsExactlyLimit(n: nat, limit: int)
    requires limit >= 1
    ensures forall k :: 0 <= k < n ==> StoreRun(None, n, limit)[k] == (k >= limit)
  {
    if n > 0 {
      StoreRunFrom(1, n - 1, limit);
      assert forall k :: 1 <= k < n ==> StoreRun(None, n, limit)[k] == StoreRun(Some(1), n - 1, limit)[k - 1];
    }
  }

  // ---------------------------------------------------------------------------
  // Sliding-list fallback limiter
  // ---------------------------------------------------------------------------

  /** The timestamps of `ts` still inside the window ending at `now`, in order. */
  function Prune(ts: seq<int>, now: int, window: int): (r: seq<int>)
    ensures |r| <= |ts|
    ensures forall t :: t in r <==> t in ts && now - t < window
  {
    if ts == [] then []
    else if now - ts[|ts| - 1] < window then Prune(ts[..|ts| - 1], now, window) + [ts[|ts| - 1]]
    else Prune(ts[..|ts| - 1], now, window)
  }

  /** The comprehension in `_memory_rate_limit` that drops timestamps outside the window. */
  method PruneWindow(ts: seq<int>, now: int, window: int) returns (kept: seq<int>)
    ensures kept == Prune(ts, now, window)
  {
    kept := [];
    var i := 0;
    while i < |ts|
      invariant 0 <= i <= |ts|
      invariant kept == Prune(ts[..i], now, window)
    {
      assert ts[..i + 1][..i] == ts[..i];
      if now - ts[i] < window {
        kept := kept + [ts[i]];
      }
      i := i + 1;
    }
    assert ts[..i] == ts;
  }

  /** One request against the fallback list: (limited, list afterwards). */
  function MemoryStep(ts: seq<int>, now: int, limit: int, window: int): (r: (bool, seq<int>))
    ensures r.0 <==> |Prune(ts, now, window)| >= limit
    ensures r.0 ==> r.1 == Prune(ts, now, window)
    ensures !r.0 ==> r.1 == Prune(ts, now, window) + [now]
  {
    var kept := Prune(ts, now, window);
    if |kept| >= limit then (true, kept) else (false, kept + [now])
  }

  /** After a call every retained timestamp lies inside the window, a denial appends
      nothing, and the list never grows past the limit. */
  lemma MemoryStepBounds(ts: seq<int>, now: int, limit: int, window: int)
    requires window > 0
    ensures forall t :: t in MemoryStep(ts, now, limit, window).1 ==> now - t < window
    ensures |MemoryStep(ts, now, limit, window).1| <= |ts| + 1
    ensures !MemoryStep(ts, now, limit, window).0 ==> |MemoryStep(ts, now, limit, window).1| <= limit
    ensures |ts| <= limit ==> |MemoryStep(ts, now, limit, window).1| <= limit
  {
  }

  /** The decisions for successive requests arriving at the instants `times`. */
  function MemoryRun(ts: seq<int>, times: seq<int>, limit: int, window: int): (r: seq<bool>)
    ensures |r| == |times|
    decreases |times|
  {
    if times == [] then []
    else
      var step := MemoryStep(ts, times[0], limit, window);
      [step.0] + MemoryRun(step.1, times[1..], limit, window)
  }

  lemma {:induction false} PruneKeepsRecent(ts: seq<int>, now: int, window: int)
    requires forall i :: 0 <= i < |ts| ==> now - ts[i] < window
    ensures Prune(ts, now, window) == ts
  {
    if ts != [] {
      PruneKeepsRecent(ts[..|ts| - 1], now, window);
      assert ts[..|ts| - 1] + [ts[|ts| - 1]] == ts;
    }
  }

  lemma {:induction false} MemoryRunFrom(ts: seq<int>, now: int, times: seq<int>, limit: int, window: int)
    requires window > 0 && |ts| <= limit
    requires forall i :: 0 <= i < |ts| ==> now - ts[i] < window
    requires forall i :: 0 <= i < |times| ==> times[i] == now
    ensures forall k :: 0 <= k < |times| ==> MemoryRun(ts, times, limit, window)[k] == (|ts| + k >= limit)
    decreases |times|
  {
    if times != [] {
      PruneKeepsRecent(ts, now, window);
      var next := if |ts| < limit then ts + [now] else ts;
      assert MemoryStep(ts, now, limit, window) == (|ts| >= limit, next);
      var rest := MemoryRun(next, times[1..], limit, window);
      assert MemoryRun(ts, times, limit, window) == [|ts| >= limit] + rest;
      assert forall i :: 0 <= i < |next| ==> now - next[i] < window;
      MemoryRunFrom(next, now, times[1..], limit, window);
    }
  }

  /** A burst of requests at one instant: the fallback admits exactly `limit` of them. */
  lemma MemoryBurstAdmitsExactlyLimit(now: int, times: seq<int>, limit: int, window: int)
    requires window > 0 && limit >= 0
    requires forall i :: 0 <= i < |times| ==> times[i] == now
    ensures forall k :: 0 <= k < |times| ==> MemoryRun([], times, limit, window)[k] == (k >= limit)
  {
    MemoryRunFrom([], now, times, limit, window);
  }

  // ---------------------------------------------------------------------------
  // Attack-pattern scan
  // ---------------------------------------------------------------------------

  const SuspiciousPatterns: seq<string> := [
    "union select", "script>", "../", "<?php", "eval(",
    "base64_decode", "system(", "exec(", "passthru(", "shell_exec"]

  const AllowedMethods: seq<string> := ["GET", "POST", "PUT", "PATCH", "DELETE", "HEAD", "OPTIONS"]

  /** What `detect_suspicious_activity` reports; `Message` is the string it returns. */
  datatype Finding =
    | InUrl(pattern: string)
    | InBody(pattern: string)
    | InHeader(name: string, pattern: string)
    | UnusualMethod(verb: string)
  {
    function Message(): string
    {
      match this
      case InUrl(p) => "Suspicious pattern in URL: " + p
      case InBody(p) => "Suspicious pattern in body: " + p
      case InHeader(n, p) => "Suspicious pattern in " + n + " header: " + p
      case UnusualMethod(m) => "Unusual HTTP method: " + m
    }
  }

  /** The index of the first pattern, in list order, that occurs in `text`. */
  function FirstContained(text: string, patterns: seq<string>): (r: Option<nat>)
    ensures r.Some? ==> r.value < |patterns| && Contains(text, patterns[r.value])
    ensures r.Some? ==> forall j :: 0 <= j < r.value ==> !Contains(text, patterns[j])
    ensures r.None? ==> forall j :: 0 <= j < |patterns| ==> !Contains(text, patterns[j])
  {
    if patterns == [] then None
    else if Contains(text, patterns[0]) then Some(0)
    else match FirstContained(text, patterns[1..])
      case None => None
      case Some(i) => Some(i + 1)
  }

  /** A header value flags the request when it is non-empty and contains a pattern. */
  predicate HeaderFlags(h: (string, string))
  {
    h.1 != "" && FirstContained(Lower(h.1), SuspiciousPatterns).Some?
  }

  /** The index of the first header, in order, that flags the request. */
  function FirstFlaggedHeader(headers: seq<(string, string)>): (r: Option<nat>)
    ensures r.Some? ==> r.value < |headers| && HeaderFlags(headers[r.value])
    ensures r.Some? ==> forall j :: 0 <= j < r.value ==> !HeaderFlags(headers[j])
    ensures r.None? ==> forall j :: 0 <= j < |headers| ==> !HeaderFlags(headers[j])
  {
    if headers == [] then None
    else if HeaderFlags(headers[0]) then Some(0)
    else match FirstFlaggedHeader(headers[1..])
      case None => None
      case Some(i) => Some(i + 1)
  }

  /** No pattern occurs in the lower-cased text. */
  predicate Clean(text: string)
  {
    forall j :: 0 <= j < |SuspiciousPatterns| ==> !Contains(Lower(text), SuspiciousPatterns[j])
  }

  /** `pattern` is the first entry of `SuspiciousPatterns`, in list order, found in `text`. */
  predicate FirstPattern(text: string, pattern: string)
  {
    exists j :: 0 <= j < |SuspiciousPatterns| && pattern == SuspiciousPatterns[j]
      && Contains(text, SuspiciousPatterns[j])
      && forall j' :: 0 <= j' < j ==> !Contains(text, SuspiciousPatterns[j'])
  }

  /** `detect_suspicious_activity`: URL, then body, then each header, then the method. */
  function DetectSuspicious(req: Request): (r: Option<Finding>)
    ensures r.Some? && r.value.InUrl? ==> FirstPattern(Lower(req.url), r.value.pattern)
    ensures r.Some? && r.value.InBody? ==>
      && Clean(req.url) && req.body != ""
      && FirstPattern(Lower(req.body), r.value.pattern)
    ensures r.Some? && r.value.InHeader? ==>
      && Clean(req.url) && Clean(req.body)
      && exists h :: 0 <= h < |req.headers| && req.headers[h].0 == r.value.name
           && HeaderFlags(req.headers[h])
           && FirstPattern(Lower(req.headers[h].1), r.value.pattern)
           && forall h' :: 0 <= h' < h ==> !HeaderFlags(req.headers[h'])
    ensures r.Some? && r.value.UnusualMethod? ==>
      && Clean(req.url) && Clean(req.body)
      && (forall h :: 0 <= h < |req.headers| ==> !HeaderFlags(req.headers[h]))
      && req.verb !in AllowedMethods && r.value.verb == req.verb
    ensures r.None? <==>
        Clean(req.url) && Clean(req.body)
        && (forall h :: 0 <= h < |req.headers| ==> !HeaderFlags(req.headers[h]))
        && req.verb in AllowedMethods
  {
    match FirstContained(Lower(req.url), SuspiciousPatterns)
    case Some(j) => Some(InUrl(SuspiciousPatterns[j]))
    case None =>
      var inBody := if req.body != "" then FirstContained(Lower(req.body), SuspiciousPatterns) else None;
      if inBody.Some? then Some(InBody(SuspiciousPatterns[inBody.value]))
      else
        assert req.body == "" ==> Clean(req.body);
        match FirstFlaggedHeader(req.headers)
        case Some(h) =>
          var j := FirstContained(Lower(req.headers[h].1), SuspiciousPatterns).value;
          Some(InHeader(req.headers[h].0, SuspiciousPatterns[j]))
        case None =>
          if req.verb !in AllowedMethods then Some(UnusualMethod(req.verb)) else None
  }

  /** A URL containing "union select" in any casing is always reported as such. */
  lemma UnionSelectIsCaught(req: Request)
    requires Contains(Lower(req.url), "union select")
    ensures DetectSuspicious(req) == Some(InUrl("union select"))
  {
    assert SuspiciousPatterns[0] == "union select";
  }

  // ---------------------------------------------------------------------------
  // Security events and the pre-request pipeline
  // ---------------------------------------------------------------------------

  /** The detail payload of a logged security event. */
  datatype EventDetail =
    | SuspiciousRequest(reason: string)          // 'suspicious_request', blocked: True
    | InvalidContentType(contentType: string)    // 'invalid_content_type'
    | AuthenticationFailure                      // 'authentication_failure', status 401
    | SecurityResponse(status: int)              // 'security_response', status 403 or 429

  datatype SecurityEvent = SecurityEvent(time: int, ip: string, endpoint: Option<string>, detail: EventDetail)

  /** What `before_request` does with a request. */
  datatype Verdict = Proceed | TooManyRequests | Blocked | BadContentType
  {
    /** The HTTP status a short-circuited request receives. */
    function Status(): Option<int>
    {
      match this
      case Proceed => None
      case TooManyRequests => Some(429)
      case Blocked => Some(403)
      case BadContentType => Some(400)
    }
  }

  const AllowedContentTypes: seq<string> := [
    "application/json", "application/x-www-form-urlencoded", "multipart/form-data", "text/plain"]

  /** The content-type rule: only POST/PUT/PATCH with a non-empty declared type are checked,
      on the part before the first ';'. */
  predicate ContentTypeRejected(req: Request)
  {
    req.verb in ["POST", "PUT", "PATCH"] && req.contentType.Some? && req.contentType.value != ""
      && BeforeFirst(req.contentType.value, ';') !in AllowedContentTypes
  }

  /** The steps of `before_request` after the rate-limit decision `limited`.
      `fault` stands for an exception raised while inspecting the request, which the
      middleware logs and then lets the request through. Returns the verdict and the
      security event to log, if any. */
  function Screen(req: Request, limited: bool, fault: bool): (r: (Verdict, Option<EventDetail>))
    ensures limited ==> r == (TooManyRequests, None)
    ensures !limited && fault ==> r == (Proceed, None)
    ensures !limited && !fault && DetectSuspicious(req).Some? ==>
      r == (Blocked, Some(SuspiciousRequest(DetectSuspicious(req).value.Message())))
    ensures r.0 == BadContentType <==> !limited && !fault && DetectSuspicious(req).None? && ContentTypeRejected(req)
    ensures r.0 == Proceed <==>
      !limited && (fault || (DetectSuspicious(req).None? && !ContentTypeRejected(req)))
    ensures r.1.Some? <==> r.0 in {Blocked, BadContentType}
    ensures r.0 == BadContentType ==>
      req.contentType.Some? && r.1 == Some(InvalidContentType(BeforeFirst(req.contentType.value, ';')))
  {
    if limited then (TooManyRequests, None)
    else if fault then (Proceed, None)
    else match DetectSuspicious(req)
      case Some(f) => (Blocked, Some(SuspiciousRequest(f.Message())))
      case None =>
        if ContentTypeRejected(req) then
          (BadContentType, Some(InvalidContentType(BeforeFirst(req.contentType.value, ';'))))
        else (Proceed, None)
  }

  /** `after_request`: the events logged for a response status (the slow-request event,
      which needs wall-clock durations, is not part of this model). */
  function AfterRequestEvents(status: int): (r: seq<EventDetail>)
    ensures |r| <= 1
    ensures |r| == 1 <==> status in {401, 403, 429}
    ensures status == 401 ==> r == [AuthenticationFailure]
    ensures status in {403, 429} ==> r == [SecurityResponse(status)]
  {
    if status == 401 then [AuthenticationFailure]
    else if status in {403, 429} then [SecurityResponse(status)]
    else []
  }

  /** The decision of `is_rate_limited` on the middleware's state: whether the request is
      denied, then the new counter store and the new fallback lists. */
  function RateDecision(store: Option<map<string, int>>, rateLimits: map<string, seq<int>>,
                        identifier: string, endpoint: string, limit: int, window: int,
                        now: int, storeFault: bool): (bool, Option<map<string, int>>, map<string, seq<int>>)
  {
    if store.None? then
      var key := MemoryKey(endpoint, identifier);
      var step := MemoryStep(if key in rateLimits then rateLimits[key] else [], now, limit, window);
      (step.0, store, rateLimits[key := step.1])
    else if storeFault then (false, store, rateLimits)
    else
      var key := StoreKey(endpoint, identifier);
      var m := store.value;
      var step := StoreStep(if key in m then Some(m[key]) else None, limit);
      (step.0, Some(m[key := step.1]), rateLimits)
  }

  /** The middleware's state: the optional shared counter store (None when no Redis
      client is configured), the in-process fallback lists and the security-event log. */
  class SecurityMiddleware {
    var store: Option<map<string, int>>
    var rateLimits: map<string, seq<int>>
    var events: seq<SecurityEvent>

    constructor (store: Option<map<string, int>>)
      ensures this.store == store && rateLimits == map[] && events == []
    {
      this.store := store;
      rateLimits := map[];
      events := [];
    }

    /** `is_rate_limited`. `storeFault` stands for the store raising an error, in which
        case the request is admitted and nothing changes (fail-open). */
    method IsRateLimited(identifier: string, endpoint: string, limit: int, window: int,
                         now: int, storeFault: bool) returns (limited: bool)
      modifies this
      ensures events == old(events)
      ensures old(store).None? ==>
        && store == old(store)
        && var key := MemoryKey(endpoint, identifier);
           var step := MemoryStep(if key in old(rateLimits) then old(rateLimits)[key] else [], now, limit, window);
           limited == step.0 && rateLimits == old(rateLimits)[key := step.1]
      ensures old(store).Some? && storeFault ==> !limited && store == old(store) && rateLimits == old(rateLimits)
      ensures old(store).Some? && !storeFault ==>
        && rateLimits == old(rateLimits)
        && var key := StoreKey(endpoint, identifier);
           var m := old(store).value;
           var step := StoreStep(if key in m then Some(m[key]) else None, limit);
           limited == step.0 && store == Some(m[key := step.1])
    {
      if store.None? {
        limited := MemoryRateLimit(identifier, endpoint, limit, window, now);
        return;
      }
      if storeFault {
        return false;
      }
      var key := StoreKey(endpoint, identifier);
      var m := store.value;
      if key !in m {
        store := Some(m[key := 1]);   // setex(key, window, 1)
        return false;
      }
      if m[key] >= limit {
        assert m[key := m[key]] == m;
        return true;
      }
      store := Some(m[key := m[key] + 1]);   // incr(key)
      limited := false;
    }

    /** `_memory_rate_limit`: prune the client's list to the window, then deny when it is
        full or record this request. Only the key `endpoint:identifier` changes. */
    method MemoryRateLimit(identifier: string, endpoint: string, limit: int, window: int, now: int)
      returns (limited: bool)
      modifies this`rateLimits
      ensures var key := MemoryKey(endpoint, identifier);
              var step := MemoryStep(if key in old(rateLimits) then old(rateLimits)[key] else [], now, limit, window);
              limited == step.0 && rateLimits == old(rateLimits)[key := step.1]
    {
      var key := MemoryKey(endpoint, identifier);
      if key !in rateLimits {
        rateLimits := rateLimits[key := []];
      }
      var kept := PruneWindow(rateLimits[key], now, window);
      rateLimits := rateLimits[key := kept];
      if |kept| >= limit {
        return true;
      }
      rateLimits := rateLimits[key := kept + [now]];
      limited := false;
    }

    /** The store's TTL running out: the counter for `key` disappears. */
    method ExpireWindow(key: string)
      requires store.Some?
      modifies this`store
      ensures store == Some(old(store).value - {key})
    {
      store := Some(store.value - {key});
    }

    /** `before_request`. The health-check endpoint skips everything; otherwise the rate
        limit is checked first, then the pattern scan (which logs one 'suspicious_request'
        event and blocks), then the content type of state-changing requests. */
    method BeforeRequest(req: Request, now: int, sha256: string -> HexDigest,
                         storeFault: bool, fault: bool) returns (verdict: Verdict)
      modifies this
      ensures req.endpoint == Some("health_check") ==>
        verdict == Proceed && store == old(store) && rateLimits == old(rateLimits) && events == old(events)
      ensures req.endpoint != Some("health_check") ==>
        var endpoint := EndpointName(req);
        var limits := RateLimitFor(endpoint);
        var decision := RateDecision(old(store), old(rateLimits), ClientIdentifier(req, sha256), endpoint,
                                     limits.0, limits.1, now, storeFault);
        var screened := Screen(req, decision.0, fault);
        && store == decision.1 && rateLimits == decision.2
        && verdict == screened.0
        && events == old(events) + (if screened.1.Some?
             then [SecurityEvent(now, ClientAddress(req), req.endpoint, screened.1.value)] else [])
    {
      if req.endpoint == Some("health_check") {
        return Proceed;
      }
      var identifier := ClientIdentifier(req, sha256);
      var endpoint := EndpointName(req);
      var (limit, window) := RateLimitFor(endpoint);
      var limited := IsRateLimited(identifier, endpoint, limit, window, now, storeFault);
      var screened := Screen(req, limited, fault);
      verdict := screened.0;
      if screened.1.Some? {
        events := events + [SecurityEvent(now, ClientAddress(req), req.endpoint, screened.1.value)];
      }
    }
  }

  // ---------------------------------------------------------------------------
  // Upload validation
  // ---------------------------------------------------------------------------

  /** An uploaded file: its name and, when known, its declared length. */
  datatype Upload = Upload(filename: string, contentLength: Option<int>)

  const DefaultMaxContentLength: int := 16 * 1024 * 1024
  const DefaultAllowedExtensions: set<string> := {"png", "jpg", "jpeg", "gif"}

  const MaliciousFragments: seq<string> := ["..", "/", "\\", "<", ">", "|", ":", "*", "?", "\""]

  /** `validate_file_upload`, with the two configuration values as optional settings
      that fall back to the defaults. */
  function ValidateUpload(file: Option<Upload>, maxSetting: Option<int>,
                          extensionsSetting: Option<set<string>>): (ok: bool)
    ensures ok ==> file.Some? && '.' in file.value.filename
    ensures ok <==>
      && file.Some?
      && var name := file.value.filename;
         var maxSize := if maxSetting.Some? then maxSetting.value else DefaultMaxContentLength;
         var allowed := if extensionsSetting.Some? then extensionsSetting.value else DefaultAllowedExtensions;
         && (file.value.contentLength.None? || file.value.contentLength.value <= maxSize)
         && '.' in name
         && Lower(AfterLast(name, '.')) in allowed
         && forall k :: 0 <= k < |MaliciousFragments| ==> !Contains(name, MaliciousFragments[k])
  {
    if file.None? then false
    else
      var name := file.value.filename;
      var maxSize := if maxSetting.Some? then maxSetting.value else DefaultMaxContentLength;
      var allowed := if extensionsSetting.Some? then extensionsSetting.value else DefaultAllowedExtensions;
      if file.value.contentLength.Some? && file.value.contentLength.value > maxSize then false
      else if '.' !in name then false
      else if Lower(AfterLast(name, '.')) !in allowed then false
      else FirstContained(name, MaliciousFragments).None?
  }

  /** An accepted file name contains no path separator or parent reference, so it cannot
      escape the upload directory. */
  lemma AcceptedNameIsPlain(file: Option<Upload>, maxSetting: Option<int>, extensionsSetting: Option<set<string>>)
    requires ValidateUpload(file, maxSetting, extensionsSetting)
    ensures '/' !in file.value.filename && '\\' !in file.value.filename
    ensures !Contains(file.value.filename, "..")
  {
    assert MaliciousFragments[1] == "/" && MaliciousFragments[2] == "\\";
    ContainsChar(file.value.filename, '/');
    ContainsChar(file.value.filename, '\\');
  }

  // ---------------------------------------------------------------------------
  // Access decorators
  // ---------------------------------------------------------------------------

  /** `require_api_key`: with no (or an empty) key configured every call passes;
      otherwise the X-API-Key header must equal it. */
  function ApiKeyAdmits(expected: Option<string>, provided: Option<string>): (ok: bool)
    ensures ok <==> expected.None? || expected.value == "" || provided == expected
  {
    if expected.None? || expected.value == "" then true
    else provided.Some? && provided.value != "" && provided.value == expected.value
  }

  /** `[ip.strip() for ip in parts]` */
  function StripAll(parts: seq<string>): (r: seq<string>)
    ensures |r| == |parts| && forall k :: 0 <= k < |r| ==> r[k] == Strip(parts[k])
  {
    seq(|parts|, k requires 0 <= k < |parts| => Strip(parts[k]))
  }

  /** The entries of `xs` that are not empty, in order. */
  function DropEmpty(xs: seq<string>): (r: seq<string>)
    ensures |r| <= |xs|
    ensures forall x :: x in r <==> x in xs && x != ""
  {
    if xs == [] then []
    else if xs[0] == "" then DropEmpty(xs[1..])
    else [xs[0]] + DropEmpty(xs[1..])
  }

  /** The raw whitelist setting; an unset variable reads as "". */
  function SettingText(setting: Option<string>): string
  {
    if setting.Some? then setting.value else ""
  }

  /** The pieces of the whitelist setting, each stripped: `[ip.strip() for ip in
      setting.split(',')]`. */
  function Pieces(setting: Option<string>): (r: seq<string>)
    ensures var parts := Split(SettingText(setting), ',');
      |r| == |parts| && forall k :: 0 <= k < |r| ==> r[k] == Strip(parts[k])
    ensures forall k :: 0 <= k < |r| ==> ',' !in r[k]
  {
    var parts := Split(SettingText(setting), ',');
    forall k | 0 <= k < |parts| ensures ',' !in Strip(parts[k]) {
      StripHasNoComma(parts[k]);
    }
    StripAll(parts)
  }

  /** The whitelist read from the environment variable: the stripped pieces of the
      setting that are not empty. */
  function Whitelist(setting: Option<string>): (r: seq<string>)
    ensures forall x :: x in r <==> x != "" && x in Pieces(setting)
  {
    DropEmpty(Pieces(setting))
  }

  lemma StripHasNoComma(s: string)
    requires ',' !in s
    ensures ',' !in Strip(s)
  {
    var l := StripLeft(s);
    assert forall c :: c in l ==> c in s;
    assert forall c :: c in StripRight(l) ==> c in l;
  }

  /** `ip_whitelist_required`: everyone passes while every piece of the setting strips to
      nothing; otherwise only a client whose address is one of the pieces. */
  function WhitelistAdmits(setting: Option<string>, clientIp: string): (ok: bool)
    ensures var pieces := Pieces(setting);
      ok <==> ((forall k :: 0 <= k < |pieces| ==> pieces[k] == "") || (clientIp != "" && clientIp in pieces))
  {
    var entries := Whitelist(setting);
    DropEmptyEmpty(Pieces(setting));
    entries == [] || clientIp in entries
  }

  /** Dropping the empty entries leaves nothing exactly when every entry is empty. */
  lemma {:induction false} DropEmptyEmpty(xs: seq<string>)
    ensures DropEmpty(xs) == [] <==> forall k :: 0 <= k < |xs| ==> xs[k] == ""
  {
    if xs != [] {
      DropEmptyEmpty(xs[1..]);
      assert forall k :: 1 <= k < |xs| ==> xs[k] == xs[1..][k - 1];
    }
  }

  /** An address containing a comma is never on a configured whitelist. */
  lemma CommaAddressNeverWhitelisted(setting: Option<string>, clientIp: string)
    requires ',' in clientIp && Whitelist(setting) != []
    ensures !WhitelistAdmits(setting, clientIp)
  {
  }
}
