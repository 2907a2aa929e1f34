/**
 * The per-IP daily gate in front of the generation routes: derive the client address
 * from proxy headers, key the limiter by address and UTC date, block with a 429 when the
 * limiter says no, and let the request through when the address is unknown or the
 * limiter's store fails.
 *
 * Request headers are a map from lower-case header name to value (`headers.get` gives
 * `null` for an absent name). The limiter's fixed-window counting is an input: the
 * verdict it gives for a (prefix, limit, identifier) triple.
 */
module RateLimit {
  import opened Base
  import opened Json
  import opened Text
  import opened Http

  /** `LIMIT_CONFIG.MAX_REQUESTS_PER_DAY`. */
  const MaxRequestsPerDay := 5
  const LimitPrefix := "@rmd/ratelimit"
  const Unknown := "unknown"

  /** `headers.get(name) || ...`: a header that is absent or empty is falsy. */
  predicate HasHeader(headers: map<string, string>, name: string)
  {
    name in headers && headers[name] != ""
  }

  /**
   * `getClientIp`: the first comma-separated entry of `x-forwarded-for`, trimmed, when
   * that header is non-empty; otherwise the first non-empty of `x-real-ip`,
   * `cf-connecting-ip`, `x-vercel-forwarded-for`; otherwise 'unknown'.
   */
  function GetClientIp(headers: map<string, string>): (ip: string)
    ensures HasHeader(headers, "x-forwarded-for") ==>
      ip == Trim(BeforeFirst(headers["x-forwarded-for"], ',')) && ',' !in ip
      && (ip == [] || (!IsSpace(ip[0]) && !IsSpace(ip[|ip| - 1])))
    ensures !HasHeader(headers, "x-forwarded-for") ==>
      if HasHeader(headers, "x-real-ip") then ip == headers["x-real-ip"]
      else if HasHeader(headers, "cf-connecting-ip") then ip == headers["cf-connecting-ip"]
      else if HasHeader(headers, "x-vercel-forwarded-for") then ip == headers["x-vercel-forwarded-for"]
      else ip == Unknown
  {
    if HasHeader(headers, "x-forwarded-for") then
      var first := BeforeFirst(headers["x-forwarded-for"], ',');
      var ip := Trim(first);
      assert ',' !in ip by {
        var lo := LeadingSpaces(first);
        TrimSlice(first);
        assert ip == first[lo..lo + |ip|];
        assert forall c :: c in ip ==> c in first;
      }
      ip
    else if HasHeader(headers, "x-real-ip") then headers["x-real-ip"]
    else if HasHeader(headers, "cf-connecting-ip") then headers["cf-connecting-ip"]
    else if HasHeader(headers, "x-vercel-forwarded-for") then headers["x-vercel-forwarded-for"]
    else Unknown
  }

  /** `${clientIp}:${today}`, where today is the date part of an ISO-8601 timestamp. */
  function Identifier(ip: string, isoNow: string): string
  {
    ip + ":" + BeforeFirst(isoNow, 'T')
  }

  /**
   * Identifiers tell (address, day) pairs apart: the date part never holds ':', so the
   * last ':' separates it from the address, even an IPv6 address full of ':'.
   */
  lemma IdentifierInjective(ip1: string, iso1: string, ip2: string, iso2: string)
    requires ':' !in BeforeFirst(iso1, 'T') && ':' !in BeforeFirst(iso2, 'T')
    requires Identifier(ip1, iso1) == Identifier(ip2, iso2)
    ensures ip1 == ip2 && BeforeFirst(iso1, 'T') == BeforeFirst(iso2, 'T')
  {
    var d1, d2 := BeforeFirst(iso1, 'T'), BeforeFirst(iso2, 'T');
    var s := Identifier(ip1, iso1);
    assert s == ip1 + ":" + d1 && s == ip2 + ":" + d2;
    assert s[|s| - |d1| - 1] == ':' && s[|s| - |d2| - 1] == ':';
    assert forall k :: 0 <= k < |d1| ==> s[|s| - |d1| + k] == d1[k];
    assert forall k :: 0 <= k < |d2| ==> s[|s| - |d2| + k] == d2[k];
    assert |d1| == |d2|;
    assert d1 == s[|s| - |d1|..] && d2 == s[|s| - |d2|..];
    assert ip1 == s[..|ip1|] && ip2 == s[..|ip2|];
  }

  /** `ratelimit.limit(identifier)`: a verdict, or an error from the store. */
  datatype LimiterReply =
    | Verdict(success: bool, limit: int, remaining: int)
    | StoreError

  const ExceededError := "Rate limit exceeded"
  const ExceededMessage := "请求太频繁啦，请休息一下，明天再试吧"

  /** The hand-built 429 carrying the limiter's numbers. */
  function TooManyRequests(limit: int, remaining: int): (r: Response)
    ensures r.Raw? && r.status == 429
    ensures r.headers.Keys == {"Content-Type", "X-RateLimit-Limit", "X-RateLimit-Remaining"}
    ensures r.headers["X-RateLimit-Limit"] == IntToString(limit)
    ensures r.headers["X-RateLimit-Remaining"] == IntToString(remaining)
    ensures r.body.JObject? && r.body.fields.Keys == {"error", "message"}
  {
    Raw(429,
        map["Content-Type" := "application/json",
            "X-RateLimit-Limit" := IntToString(limit),
            "X-RateLimit-Remaining" := IntToString(remaining)],
        JObject(map["error" := JString(ExceededError), "message" := JString(ExceededMessage)]))
  }

  /**
   * `checkRateLimit`: `blocked` is the 429 to answer instead of the handler, None to let
   * the request through; `consulted` is the identifier the limiter was asked about.
   */
  method CheckRateLimit(headers: map<string, string>, isoNow: string, limitCount: int, prefix: string,
                        limiter: (string, int, string) -> LimiterReply)
    returns (blocked: Option<Response>, consulted: Option<string>)
    ensures GetClientIp(headers) == Unknown ==> blocked.None? && consulted.None?
    ensures GetClientIp(headers) != Unknown ==>
      consulted == Some(Identifier(GetClientIp(headers), isoNow))
    ensures blocked.Some? <==>
      && consulted.Some?
      && limiter(prefix, limitCount, consulted.value).Verdict?
      && !limiter(prefix, limitCount, consulted.value).success
    ensures blocked.Some? ==>
      var v := limiter(prefix, limitCount, consulted.value);
      blocked.value == TooManyRequests(v.limit, v.remaining)
  {
    var clientIp := GetClientIp(headers);
    blocked, consulted := None, None;
    if clientIp != Unknown {
      var identifier := Identifier(clientIp, isoNow);
      consulted := Some(identifier);
      var reply := limiter(prefix, limitCount, identifier);
      if reply.StoreError? {
        return None, consulted;
      }
      if !reply.success {
        return Some(TooManyRequests(reply.limit, reply.remaining)), consulted;
      }
    }
  }

  /**
   * `withRateLimit(handler)`: the handler runs iff the check lets the request through,
   * with the daily limit of 5 under the '@rmd/ratelimit' prefix; `handled` is what the
   * handler answers when it runs.
   */
  method WithRateLimit(headers: map<string, string>, isoNow: string,
                       limiter: (string, int, string) -> LimiterReply, handled: Response)
    returns (resp: Response, ran: bool)
    ensures var ip := GetClientIp(headers);
      var verdict := limiter(LimitPrefix, 5, Identifier(ip, isoNow));
      ran <==> ip == Unknown || verdict.StoreError? || verdict.success
    ensures ran ==> resp == handled
    ensures !ran ==>
      var v := limiter(LimitPrefix, 5, Identifier(GetClientIp(headers), isoNow));
      resp == TooManyRequests(v.limit, v.remaining)
  {
    var limitRes, _ := CheckRateLimit(headers, isoNow, MaxRequestsPerDay, LimitPrefix, limiter);
    if limitRes.Some? {
      return limitRes.value, false;
    }
    return handled, true;
  }
}
