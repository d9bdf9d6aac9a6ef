/**
 * Token acquisition and the process-wide token cache of the panel API
 * client (utils/panel_api/auth.py).
 *
 * The network is an oracle: `net(Request(a, s))` is what the panel answers to
 * the token request of attempt `a` over scheme `s`. The wall clock is the
 * parameter `now` (read once on entry), and the random backoff factors drawn
 * by `random.randint(2, 5)` are the parameter `draws`, one per attempt.
 * Logging, `log_api_request` and the Telegram notifications are no-ops here.
 */
module PanelAuth {
  import opened Wrappers
  import opened Json

  /** Number of rounds of the retry loop. */
  const MaxAttempts: nat := 5
  /** Every round tries `https` and then `http`. */
  const MaxRequests: nat := 2 * MaxAttempts
  /** A fetched token is cached for 30 minutes. */
  const TokenLifetime: real := 1800.0
  /** Upper bound the source puts on one backoff sleep, in seconds. */
  const BackoffCap: int := 30
  /** Bounds of `random.randint(2, 5)`, both inclusive. */
  const MinDraw: int := 2
  const MaxDraw: int := 5

  datatype Scheme = Https | Http

  /** The token request of round `attempt` (0-based) over `scheme`. */
  datatype Request = Request(attempt: nat, scheme: Scheme)

  /** The body of an HTTP response: JSON, or text that does not parse. */
  datatype Body = Unparsable | Parsed(value: Json)

  /** Everything a token request can end in. */
  datatype Response =
    | Responded(status: int, body: Body)  // an HTTP response with its status code
    | SslFailure                          // ssl.SSLError
    | TimedOut                            // httpx.TimeoutException
    | ConnectFailure                      // httpx.ConnectError
    | OtherFailure                        // any other exception

  /** The panel's answer to each token request. */
  type Network = Request -> Response

  /**
   * A response is accepted only when `raise_for_status` passes (a 2xx code),
   * the body parses as JSON, the JSON is a dict and it has `access_token`.
   */
  predicate Accepted(r: Response)
  {
    && r.Responded?
    && 200 <= r.status < 300
    && r.body.Parsed?
    && r.body.value.JObj?
    && Has(r.body.value.members, "access_token")
  }

  /** The token carried by an accepted response (any JSON value, even null). */
  function AccessToken(r: Response): (token: Json)
    requires Accepted(r)
    ensures ("access_token", token) in r.body.value.members
  {
    Get(r.body.value.members, "access_token").value
  }

  /** The `i`-th request the retry loop sends: `https` at even, `http` at odd positions. */
  function RequestAt(i: nat): (req: Request)
    ensures req.attempt == i / 2
    ensures req.scheme == if i % 2 == 0 then Https else Http
  {
    Request(i / 2, if i % 2 == 0 then Https else Http)
  }

  /** The first `n` requests of the retry loop, in order. */
  function Requests(n: nat): (reqs: seq<Request>)
    ensures |reqs| == n
    ensures forall i :: 0 <= i < n ==> reqs[i] == RequestAt(i)
  {
    seq(n, i requires 0 <= i < n => RequestAt(i))
  }

  /**
   * The position of the first accepted response at or after position
   * `from`, if there is one before the loop runs out of requests.
   */
  function FirstAccepted(net: Network, from: nat): (k: Option<nat>)
    decreases MaxRequests - from
    ensures k.Some? ==> from <= k.value < MaxRequests && Accepted(net(RequestAt(k.value)))
    ensures k.Some? ==> forall j :: from <= j < k.value ==> !Accepted(net(RequestAt(j)))
    ensures k.None? ==> forall j :: from <= j < MaxRequests ==> !Accepted(net(RequestAt(j)))
  {
    if from >= MaxRequests then None
    else if Accepted(net(RequestAt(from))) then Some(from)
    else FirstAccepted(net, from + 1)
  }

  /** `min(30, draw * (attempt + 1))`: the sleep after round `attempt` fails. */
  function Backoff(attempt: nat, draw: int): int
  {
    if draw * (attempt + 1) < BackoffCap then draw * (attempt + 1) else BackoffCap
  }

  /** Every draw lies in the range of `random.randint(2, 5)`. */
  predicate ValidDraws(draws: seq<int>)
  {
    |draws| == MaxAttempts && forall i :: 0 <= i < |draws| ==> MinDraw <= draws[i] <= MaxDraw
  }

  /** The sleeps after the first `n` rounds, each with its own draw. */
  function Backoffs(draws: seq<int>, n: nat): (sleeps: seq<int>)
    requires n <= |draws|
    ensures |sleeps| == n
    ensures forall i :: 0 <= i < n ==> sleeps[i] == Backoff(i, draws[i])
  {
    seq(n, i requires 0 <= i < n => Backoff(i, draws[i]))
  }

  /** What one run of the retry loop does: its token, requests and sleeps. */
  datatype Fetch = Fetch(token: Option<Json>, requests: seq<Request>, sleeps: seq<int>)

  /**
   * The retry loop, stated declaratively: the requests go out in the fixed
   * order up to and including the first accepted one, with a sleep after
   * each round in which both schemes failed; when none is accepted all ten
   * go out and all five sleeps happen, the last one included.
   */
  function FetchSpec(net: Network, draws: seq<int>): Fetch
    requires ValidDraws(draws)
  {
    match FirstAccepted(net, 0)
    case Some(k) => Fetch(Some(AccessToken(net(RequestAt(k)))), Requests(k + 1), Backoffs(draws, k / 2))
    case None => Fetch(None, Requests(MaxRequests), Backoffs(draws, MaxAttempts))
  }

  /**
   * The retry loop of `get_token`: up to five rounds, each posting to
   * `https` and then to `http`; every failure of any kind moves on to the
   * next scheme, and a round in which both failed ends with a backoff sleep.
   */
  method FetchToken(net: Network, draws: seq<int>) returns (token: Option<Json>, requests: seq<Request>, sleeps: seq<int>)
    requires ValidDraws(draws)
    ensures Fetch(token, requests, sleeps) == FetchSpec(net, draws)
  {
    requests, sleeps := [], [];
    for attempt := 0 to MaxAttempts
      invariant requests == Requests(2 * attempt)
      invariant sleeps == Backoffs(draws, attempt)
      invariant forall j :: 0 <= j < 2 * attempt ==> !Accepted(net(RequestAt(j)))
    {
      for s := 0 to 2
        invariant requests == Requests(2 * attempt + s)
        invariant forall j :: 0 <= j < 2 * attempt + s ==> !Accepted(net(RequestAt(j)))
      {
        var req := Request(attempt, if s == 0 then Https else Http);
        RoundRequest(attempt, s);
        RequestsSnoc(2 * attempt + s);
        requests := requests + [req];
        var response := net(req);
        if Accepted(response) {
          token := Some(AccessToken(response));
          FirstAcceptedIs(net, 2 * attempt + s);
          return;
        }
      }
      BackoffsSnoc(draws, attempt);
      sleeps := sleeps + [Backoff(attempt, draws[attempt])];
    }
    token := None;
    NoneAccepted(net);
  }

  /** Request `s` of round `attempt`, as a position in the fixed order. */
  lemma RoundRequest(attempt: nat, s: nat)
    requires s < 2
    ensures RequestAt(2 * attempt + s) == Request(attempt, if s == 0 then Https else Http)
  {
  }

  lemma RequestsSnoc(n: nat)
    ensures Requests(n + 1) == Requests(n) + [RequestAt(n)]
  {
  }

  lemma BackoffsSnoc(draws: seq<int>, n: nat)
    requires n < |draws|
    ensures Backoffs(draws, n + 1) == Backoffs(draws, n) + [Backoff(n, draws[n])]
  {
  }

  /** The first accepted position is the one every earlier position failed to be. */
  lemma FirstAcceptedIs(net: Network, k: nat)
    requires k < MaxRequests && Accepted(net(RequestAt(k)))
    requires forall j :: 0 <= j < k ==> !Accepted(net(RequestAt(j)))
    ensures FirstAccepted(net, 0) == Some(k)
  {
  }

  /** No position is accepted when every position failed. */
  lemma NoneAccepted(net: Network)
    requires forall j :: 0 <= j < MaxRequests ==> !Accepted(net(RequestAt(j)))
    ensures FirstAccepted(net, 0) == None
  {
  }

  /** The cache entry: the token (`JNull` is Python's None), its expiry and its domain. */
  datatype CacheState = CacheState(token: Json, expiresAt: real, panelDomain: Option<string>)

  /** The cache as it is at import time. */
  const EmptyCache := CacheState(JNull, 0.0, None)

  /** The four conditions under which `get_token` answers from the cache. */
  predicate CacheHit(c: CacheState, domain: string, forceRefresh: bool, now: real)
  {
    && !forceRefresh
    && c.token != JNull
    && c.panelDomain == Some(domain)
    && now < c.expiresAt
  }

  /** `invalidate_token_cache`: drop the token and its expiry, keep the domain. */
  function Invalidated(c: CacheState): (c': CacheState)
    ensures c'.token == JNull && c'.expiresAt == 0.0 && c'.panelDomain == c.panelDomain
  {
    c.(token := JNull, expiresAt := 0.0)
  }

  /** The ValueError raised once every attempt failed. */
  datatype AuthError = TokenUnavailable(attempts: nat)

  /** The effect of one `get_token` call: its answer, network traffic, sleeps and the new cache. */
  datatype TokenCall = TokenCall(result: Result<Json, AuthError>, requests: seq<Request>, sleeps: seq<int>, cache: CacheState)

  /** `get_token(panel_data, force_refresh)` started at time `now`, as a function of the cache. */
  function GetTokenSpec(c: CacheState, domain: string, forceRefresh: bool, now: real, net: Network, draws: seq<int>): TokenCall
    requires ValidDraws(draws)
  {
    if CacheHit(c, domain, forceRefresh, now) then
      TokenCall(Success(c.token), [], [], c)
    else
      var f := FetchSpec(net, draws);
      match f.token
      case Some(t) => TokenCall(Success(t), f.requests, f.sleeps, CacheState(t, now + TokenLifetime, Some(domain)))
      case None => TokenCall(Failure(TokenUnavailable(MaxAttempts)), f.requests, f.sleeps, c)
  }

  /** The caller's panel credentials; `get_token` stores the token it hands out in `panelToken`. */
  class PanelData {
    const panelDomain: string
    const panelUsername: string
    const panelPassword: string
    var panelToken: Json

    constructor (domain: string, username: string, password: string)
      ensures panelDomain == domain && panelUsername == username && panelPassword == password
      ensures panelToken == JNull
    {
      panelDomain, panelUsername, panelPassword := domain, username, password;
      panelToken := JNull;
    }
  }

  /** The module-level `_token_cache` dict. */
  class TokenCache {
    var token: Json
    var expiresAt: real
    var panelDomain: Option<string>

    function State(): CacheState
      reads this
    {
      CacheState(token, expiresAt, panelDomain)
    }

    constructor ()
      ensures State() == EmptyCache
    {
      token, expiresAt, panelDomain := JNull, 0.0, None;
    }

    /** `invalidate_token_cache()`. */
    method Invalidate()
      modifies this
      ensures State() == Invalidated(old(State()))
    {
      token := JNull;
      expiresAt := 0.0;
    }

    /**
     * `get_token(panel, forceRefresh)` called at time `now`. On success the
     * token is also stored in `panel.panelToken`; on failure neither the
     * cache nor `panel` changes.
     */
    method GetToken(panel: PanelData, forceRefresh: bool, now: real, net: Network, draws: seq<int>)
      returns (result: Result<Json, AuthError>, requests: seq<Request>, sleeps: seq<int>)
      requires ValidDraws(draws)
      modifies this, panel
      ensures TokenCall(result, requests, sleeps, State())
           == GetTokenSpec(old(State()), panel.panelDomain, forceRefresh, now, net, draws)
      ensures panel.panelToken == if result.Success? then result.value else old(panel.panelToken)
    {
      if !forceRefresh && token != JNull && panelDomain == Some(panel.panelDomain) && now < expiresAt {
        panel.panelToken := token;
        return Success(token), [], [];
      }
      var fetched;
      fetched, requests, sleeps := FetchToken(net, draws);
      if fetched.Some? {
        token := fetched.value;
        expiresAt := now + TokenLifetime;
        panelDomain := Some(panel.panelDomain);
        panel.panelToken := fetched.value;
        result := Success(fetched.value);
      } else {
        result := Failure(TokenUnavailable(MaxAttempts));
      }
    }
  }

  // Properties of get_token, stated on its specification.

  /** A cache hit returns the cached token without any request, sleep or cache change. */
  lemma CacheHitReusesToken(c: CacheState, domain: string, now: real, net: Network, draws: seq<int>)
    requires ValidDraws(draws)
    requires c.token != JNull && c.panelDomain == Some(domain) && now < c.expiresAt
    ensures var call := GetTokenSpec(c, domain, false, now, net, draws);
      call.result == Success(c.token) && call.requests == [] && call.sleeps == [] && call.cache == c
  {
  }

  /** `force_refresh` always goes to the network, starting with `https` in round 0. */
  lemma ForceRefreshFetches(c: CacheState, domain: string, now: real, net: Network, draws: seq<int>)
    requires ValidDraws(draws)
    ensures var call := GetTokenSpec(c, domain, true, now, net, draws);
      call.requests != [] && call.requests[0] == Request(0, Https)
  {
  }

  /**
   * At most ten requests go out, in the order https, http of round 0, then
   * of round 1, and so on; at most one sleep per round.
   */
  lemma {:induction false} RequestsBoundedAndOrdered(c: CacheState, domain: string, force: bool, now: real, net: Network, draws: seq<int>)
    requires ValidDraws(draws)
    ensures var call := GetTokenSpec(c, domain, force, now, net, draws);
      && |call.requests| <= MaxRequests
      && |call.sleeps| <= MaxAttempts
      && (forall i :: 0 <= i < |call.requests| ==> call.requests[i].attempt < MaxAttempts)
      && (forall i :: 0 <= i < |call.requests| ==>
            call.requests[i].scheme == (if i % 2 == 0 then Https else Http))
      && (forall i, j :: 0 <= i < j < |call.requests| ==> call.requests[i].attempt <= call.requests[j].attempt)
  {
    var call := GetTokenSpec(c, domain, force, now, net, draws);
    forall i, j | 0 <= i < j < |call.requests|
      ensures call.requests[i].attempt <= call.requests[j].attempt
    {
      assert call.requests[i] == RequestAt(i) && call.requests[j] == RequestAt(j);
      DivMonotone(i, j);
    }
  }

  lemma DivMonotone(i: nat, j: nat)
    requires i <= j
    ensures i / 2 <= j / 2
  {
  }

  /**
   * A fetch succeeds exactly when some response is accepted; then the
   * token is the first accepted one's, the last request is the one that
   * got it, and the cache holds that token for the requested domain until
   * 1800 seconds after the call started.
   */
  lemma {:induction false} FetchSuccess(c: CacheState, domain: string, force: bool, now: real, net: Network, draws: seq<int>)
    requires ValidDraws(draws)
    requires !CacheHit(c, domain, force, now)
    ensures var call := GetTokenSpec(c, domain, force, now, net, draws);
      && (call.result.Success? <==> exists j :: 0 <= j < MaxRequests && Accepted(net(RequestAt(j))))
      && (call.result.Success? ==>
            && call.requests != []
            && Accepted(net(call.requests[|call.requests| - 1]))
            && call.result.value == AccessToken(net(call.requests[|call.requests| - 1]))
            && (forall i :: 0 <= i < |call.requests| - 1 ==> !Accepted(net(call.requests[i])))
            && call.cache == CacheState(call.result.value, now + TokenLifetime, Some(domain)))
  {
    var call := GetTokenSpec(c, domain, force, now, net, draws);
    match FirstAccepted(net, 0)
    case Some(k) =>
      assert call.requests[|call.requests| - 1] == RequestAt(k);
      forall i | 0 <= i < |call.requests| - 1
        ensures !Accepted(net(call.requests[i]))
      {
        assert call.requests[i] == RequestAt(i);
      }
    case None =>
  }

  /**
   * When every request fails, all ten requests and all five sleeps happen
   * (the sleep after the last round included), the call fails with
   * ValueError and the cache is exactly as it was on entry.
   */
  lemma {:induction false} FetchFailure(c: CacheState, domain: string, force: bool, now: real, net: Network, draws: seq<int>)
    requires ValidDraws(draws)
    requires !CacheHit(c, domain, force, now)
    requires forall j :: 0 <= j < MaxRequests ==> !Accepted(net(RequestAt(j)))
    ensures var call := GetTokenSpec(c, domain, force, now, net, draws);
      && call.result == Failure(TokenUnavailable(MaxAttempts))
      && call.requests == Requests(MaxRequests)
      && |call.sleeps| == MaxAttempts
      && call.cache == c
  {
  }

  /** A failed call never touches the cache, whatever the responses were. */
  lemma FailureLeavesCache(c: CacheState, domain: string, force: bool, now: real, net: Network, draws: seq<int>)
    requires ValidDraws(draws)
    ensures var call := GetTokenSpec(c, domain, force, now, net, draws);
      call.result.Failure? ==> call.cache == c
  {
  }

  /**
   * Each sleep is `min(30, r * (a + 1))` for round `a` and its draw `r`,
   * hence between 2 and 30 seconds; with `r <= 5` and at most five rounds
   * it never exceeds 25, so the cap of 30 never applies.
   */
  lemma {:induction false} SleepsBounded(c: CacheState, domain: string, force: bool, now: real, net: Network, draws: seq<int>)
    requires ValidDraws(draws)
    ensures var call := GetTokenSpec(c, domain, force, now, net, draws);
      forall i :: 0 <= i < |call.sleeps| ==>
        && call.sleeps[i] == Backoff(i, draws[i])
        && MinDraw <= call.sleeps[i] <= MaxDraw * MaxAttempts < BackoffCap
  {
    var call := GetTokenSpec(c, domain, force, now, net, draws);
    forall i | 0 <= i < |call.sleeps|
      ensures call.sleeps[i] == Backoff(i, draws[i])
      ensures MinDraw <= call.sleeps[i] <= MaxDraw * MaxAttempts
    {
      assert call.sleeps[i] == Backoff(i, draws[i]);
      BackoffRange(i, draws[i]);
    }
  }

  lemma BackoffRange(attempt: nat, draw: int)
    requires attempt < MaxAttempts && MinDraw <= draw <= MaxDraw
    ensures MinDraw <= Backoff(attempt, draw) <= MaxDraw * MaxAttempts
  {
    assert draw * (attempt + 1) >= draw;
    assert draw * (attempt + 1) <= MaxDraw * (attempt + 1) <= MaxDraw * MaxAttempts;
  }

  /** After `invalidate_token_cache` the next call goes to the network. */
  lemma InvalidateForcesFetch(c: CacheState, domain: string, force: bool, now: real, net: Network, draws: seq<int>)
    requires ValidDraws(draws)
    ensures GetTokenSpec(Invalidated(c), domain, force, now, net, draws).requests != []
  {
  }

  /**
   * Token reuse: after a call that fetched a non-null token, a second call
   * for the same domain less than 30 minutes after the first started, and
   * without `force_refresh`, issues no request and returns the same token.
   */
  lemma ReuseWithinLifetime(c: CacheState, domain: string, force: bool, t1: real, net1: Network, draws1: seq<int>,
                            t2: real, net2: Network, draws2: seq<int>)
    requires ValidDraws(draws1) && ValidDraws(draws2)
    requires var first := GetTokenSpec(c, domain, force, t1, net1, draws1);
      first.requests != [] && first.result.Success? && first.result.value != JNull
    requires t2 < t1 + TokenLifetime
    ensures var first := GetTokenSpec(c, domain, force, t1, net1, draws1);
      var second := GetTokenSpec(first.cache, domain, false, t2, net2, draws2);
      second.requests == [] && second.result == first.result
  {
  }

  /**
   * A panel that answers `{"access_token": null}` is accepted, but the null
   * token it caches never satisfies the cache test, so every later call
   * fetches again.
   */
  lemma NullTokenNeverReused(c: CacheState, domain: string, force: bool, t1: real, net1: Network, draws1: seq<int>,
                             t2: real, net2: Network, draws2: seq<int>)
    requires ValidDraws(draws1) && ValidDraws(draws2)
    requires var first := GetTokenSpec(c, domain, force, t1, net1, draws1);
      first.requests != [] && first.result == Success(JNull)
    ensures var first := GetTokenSpec(c, domain, force, t1, net1, draws1);
      GetTokenSpec(first.cache, domain, false, t2, net2, draws2).requests != []
  {
  }
}
