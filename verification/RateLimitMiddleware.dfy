/** Which key and tier the middleware checks a request against. */
module RateLimitMiddleware {
  import opened Options
  import opened RateLimiter
  import opened RateLimiterHistory

  datatype Config = Config(write: Tier, read: Tier, globalPerIp: Tier)

  /** What the middleware looks at; a missing user header is an empty user id. */
  datatype Request = Request(verb: string, userId: string, clientIp: string)

  const WRITE_METHODS := {"POST", "PUT", "PATCH", "DELETE"}

  function Identity(request: Request): string {
    if request.userId != "" then "user:" + request.userId else "ip:" + request.clientIp
  }

  /** The per-user check of a write or a read; other verbs have none. */
  function TierCheck(config: Config, request: Request, now: real): Option<Call> {
    if request.verb in WRITE_METHODS then Some(Call("write:" + Identity(request), config.write, now))
    else if request.verb == "GET" then Some(Call("read:" + Identity(request), config.read, now))
    else None
  }

  function GlobalCheck(config: Config, request: Request, now: real): Call {
    Call("global:ip:" + request.clientIp, config.globalPerIp, now)
  }

  /** Which requests have a check of their own, against which tier. */
  lemma TierCheckFollowsVerb(config: Config, request: Request, now: real)
    ensures
      var check := TierCheck(config, request, now);
      && (request.verb in ["POST", "PUT", "PATCH", "DELETE"] ==>
            check.Some? && check.value.tier == config.write && check.value.now == now)
      && (request.verb == "GET" ==> check.Some? && check.value.tier == config.read && check.value.now == now)
      && (request.verb !in ["POST", "PUT", "PATCH", "DELETE", "GET"] ==> check.None?)
    ensures
      var check := GlobalCheck(config, request, now);
      check.tier == config.globalPerIp && check.now == now
  {
    assert "GET"[0] == 'G';
  }

  /** Whom a request counts for: its user, or its address when it has none. */
  predicate IsSameClient(a: Request, b: Request) {
    a.userId == b.userId && (a.userId == "" ==> a.clientIp == b.clientIp)
  }

  /** Two requests share a counter exactly when they come from one client and are both writes or
    * both reads; the counter of an address is shared exactly by its requests. */
  lemma KeysSeparateClients(config: Config, a: Request, b: Request, now: real)
    ensures
      var x, y := TierCheck(config, a, now), TierCheck(config, b, now);
      x.Some? && y.Some? ==>
        (x.value.key == y.value.key <==> IsSameClient(a, b) && (a.verb == "GET" <==> b.verb == "GET"))
    ensures GlobalCheck(config, a, now).key == GlobalCheck(config, b, now).key <==> a.clientIp == b.clientIp
    ensures
      var x := TierCheck(config, a, now);
      x.Some? ==> x.value.key != GlobalCheck(config, b, now).key
  {
    hide IsSameClient, TierCheck;
    IdentitiesSeparate(a, b);
    TierKeyIs(config, a, now);
    TierKeyIs(config, b, now);
    PrefixCancels("global:ip:", a.clientIp, b.clientIp);
    PrefixCancels("write:", Identity(a), Identity(b));
    PrefixCancels("read:", Identity(a), Identity(b));
    assert ("write:" + Identity(a))[0] == 'w' && ("read:" + Identity(a))[0] == 'r';
    assert ("write:" + Identity(b))[0] == 'w' && ("read:" + Identity(b))[0] == 'r';
    assert ("global:ip:" + b.clientIp)[0] == 'g';
  }

  lemma TierKeyIs(config: Config, request: Request, now: real)
    ensures
      var check := TierCheck(config, request, now);
      check.Some? ==> check.value.key == (if request.verb == "GET" then "read:" else "write:") + Identity(request)
  {
    assert "GET"[0] == 'G';
  }

  lemma PrefixCancels(prefix: string, s: string, t: string)
    ensures prefix + s == prefix + t <==> s == t
  {
    assert (prefix + s)[|prefix|..] == s && (prefix + t)[|prefix|..] == t;
  }

  lemma IdentitiesSeparate(a: Request, b: Request)
    ensures Identity(a) == Identity(b) <==> IsSameClient(a, b)
  {
    PrefixCancels("user:", a.userId, b.userId);
    PrefixCancels("ip:", a.clientIp, b.clientIp);
    assert Identity(a)[0] == if a.userId != "" then 'u' else 'i';
    assert Identity(b)[0] == if b.userId != "" then 'u' else 'i';
  }

  /** A call that the middleware makes for some request. */
  ghost predicate IsMade(config: Config, call: Call) {
    exists request ::
      TierCheck(config, request, call.now) == Some(call) || GlobalCheck(config, request, call.now) == call
  }

  /** The tier a key belongs to can be read off the key, so no two tiers ever share a key. */
  function TierOf(config: Config, key: string): Tier {
    if "write:" <= key then config.write
    else if "read:" <= key then config.read
    else config.globalPerIp
  }

  lemma MadeCallsFollowKeys(config: Config, call: Call)
    requires IsMade(config, call)
    ensures call.tier == TierOf(config, call.key)
  {
    var request :|
      TierCheck(config, request, call.now) == Some(call) || GlobalCheck(config, request, call.now) == call;
    assert call.key[0] in "wrg";
  }

  /** Any history of middleware calls on a clock that does not run backwards is one the
    * limiter's promises cover, as long as the configured windows survive the sweep. */
  lemma MiddlewareHistoriesAreLegal(config: Config, calls: seq<Call>)
    requires SurvivesSweep(config.write) && SurvivesSweep(config.read) && SurvivesSweep(config.globalPerIp)
    requires forall i :: 0 <= i < |calls| ==> IsMade(config, calls[i])
    requires forall i, j :: 0 <= i < j < |calls| ==> calls[i].now <= calls[j].now
    ensures Legal(calls, key => TierOf(config, key))
  {
    forall i | 0 <= i < |calls| ensures calls[i].tier == TierOf(config, calls[i].key) {
      MadeCallsFollowKeys(config, calls[i]);
    }
  }
}
