/**
 * The Amadeus API client (lib/amadeus-client.ts): an OAuth2 client-credentials token
 * cache and the query of the flight-offers search.
 *
 * The clock and the network are parameters: every operation receives the current time
 * `now` (milliseconds) and, where the source would call the token endpoint, the
 * `TokenResponse` that endpoint gives.
 */
module AmadeusApi {
  import opened Wrappers
  import opened JsString

  datatype AmadeusConfig = AmadeusConfig(clientId: string, clientSecret: string, endpoint: string)

  /** A cached bearer token and the instant (milliseconds) from which it is no longer used. */
  datatype AccessToken = AccessToken(token: string, expiresAt: int)

  /** What the token endpoint answers: a grant (lifetime in seconds), or a non-OK status. */
  datatype TokenResponse = Granted(accessToken: string, expiresIn: int) | Rejected(status: int)

  datatype TokenError = MissingCredentials | TokenRequestFailed(status: int)

  /** A form-encoded POST to the token endpoint. */
  datatype TokenRequest = TokenRequest(url: string, form: seq<(string, string)>)

  /** Tokens are dropped one minute before the server says they expire. */
  const EarlyExpiryMs := 60000

  /** Both credentials are non-empty strings. */
  predicate HasCredentials(config: AmadeusConfig) {
    config.clientId != "" && config.clientSecret != ""
  }

  /** A token is cached and has not reached its (early) expiry. */
  predicate IsFresh(cache: Option<AccessToken>, now: int) {
    cache.Some? && cache.value.expiresAt > now
  }

  function ExpiryOf(now: int, expiresIn: int): int {
    now + expiresIn * 1000 - EarlyExpiryMs
  }

  /** The request `getAccessToken` sends for a configuration. */
  function TokenRequestFor(config: AmadeusConfig): TokenRequest {
    TokenRequest(
      config.endpoint + "/v1/security/oauth2/token",
      [("grant_type", "client_credentials"), ("client_id", config.clientId), ("client_secret", config.clientSecret)])
  }

  /** The token returned, the cache afterwards, and whether the token endpoint was called. */
  datatype TokenOutcome = TokenOutcome(result: Result<string, TokenError>, cache: Option<AccessToken>, requested: bool)

  /**
   * One call of `getAccessToken`: a fresh cached token is returned without any request;
   * otherwise missing credentials fail before any request; otherwise the endpoint is
   * asked, and a grant is cached while a rejection leaves the cache as it was.
   */
  function NextToken(cache: Option<AccessToken>, config: AmadeusConfig, now: int, response: TokenResponse): (o: TokenOutcome)
    ensures o.requested <==> !IsFresh(cache, now) && HasCredentials(config)
    ensures o.result.Err? ==> o.cache == cache
    ensures o.result.Ok? ==> o.cache.Some? && o.result.value == o.cache.value.token
  {
    if IsFresh(cache, now) then TokenOutcome(Ok(cache.value.token), cache, false)
    else if !HasCredentials(config) then TokenOutcome(Err(MissingCredentials), cache, false)
    else
      match response
      case Rejected(status) => TokenOutcome(Err(TokenRequestFailed(status)), cache, true)
      case Granted(token, expiresIn) =>
        TokenOutcome(Ok(token), Some(AccessToken(token, ExpiryOf(now, expiresIn))), true)
  }

  /**
   * A fresh cached token is served as it is, without a request, and even when the
   * credentials have since become empty: the cache is consulted before the configuration.
   */
  lemma CachedTokenServed(cache: Option<AccessToken>, config: AmadeusConfig, now: int, response: TokenResponse)
    requires IsFresh(cache, now)
    ensures NextToken(cache, config, now, response) == TokenOutcome(Ok(cache.value.token), cache, false)
  {
  }

  /** Without a fresh token and without credentials the call fails and nothing is sent. */
  lemma MissingCredentialsFailEarly(cache: Option<AccessToken>, config: AmadeusConfig, now: int, response: TokenResponse)
    requires !IsFresh(cache, now) && !HasCredentials(config)
    ensures NextToken(cache, config, now, response) == TokenOutcome(Err(MissingCredentials), cache, false)
  {
  }

  /** A rejected token request reports its status and keeps the previous cache. */
  lemma RejectionKeepsCache(cache: Option<AccessToken>, config: AmadeusConfig, now: int, status: int)
    requires !IsFresh(cache, now) && HasCredentials(config)
    ensures NextToken(cache, config, now, Rejected(status)) == TokenOutcome(Err(TokenRequestFailed(status)), cache, true)
  {
  }

  /**
   * After a grant, every later call before the early expiry is served from the cache with
   * the granted token and sends nothing, whatever the endpoint would answer then.
   */
  lemma GrantServesUntilExpiry(
    cache: Option<AccessToken>, config: AmadeusConfig, now: int, token: string, expiresIn: int,
    later: int, response: TokenResponse)
    requires !IsFresh(cache, now) && HasCredentials(config)
    requires now <= later < ExpiryOf(now, expiresIn)
    ensures var first := NextToken(cache, config, now, Granted(token, expiresIn));
            first.result == Ok(token)
            && NextToken(first.cache, config, later, response) == TokenOutcome(Ok(token), first.cache, false)
  {
  }

  /**
   * A grant is reused exactly until its early expiry: a later call sends a new request
   * if and only if it comes at or after `now + expiresIn * 1000 - 60000`.
   */
  lemma GrantLifetime(
    cache: Option<AccessToken>, config: AmadeusConfig, now: int, token: string, expiresIn: int,
    later: int, response: TokenResponse)
    requires !IsFresh(cache, now) && HasCredentials(config)
    ensures var first := NextToken(cache, config, now, Granted(token, expiresIn));
            NextToken(first.cache, config, later, response).requested <==> later >= ExpiryOf(now, expiresIn)
  {
  }

  /** A grant that lives 60 seconds or less is already stale when cached: the next call asks again. */
  lemma ShortGrantNotReused(
    cache: Option<AccessToken>, config: AmadeusConfig, now: int, token: string, expiresIn: int,
    later: int, response: TokenResponse)
    requires !IsFresh(cache, now) && HasCredentials(config)
    requires expiresIn <= 60 && now <= later
    ensures var first := NextToken(cache, config, now, Granted(token, expiresIn));
            NextToken(first.cache, config, later, response).requested
  {
  }

  /** Freshness only runs out: a token fresh at some instant was fresh at every earlier one. */
  lemma FreshnessMonotone(cache: Option<AccessToken>, earlier: int, later: int)
    requires earlier <= later && IsFresh(cache, later)
    ensures IsFresh(cache, earlier)
  {
  }

  /** A token counts as active exactly when the next call would succeed without a request. */
  lemma ActiveIffServedWithoutRequest(cache: Option<AccessToken>, config: AmadeusConfig, now: int, response: TokenResponse)
    ensures IsFresh(cache, now) <==>
              (var o := NextToken(cache, config, now, response); !o.requested && o.result.Ok?)
  {
  }

  /** `getConfigStatus`: the configuration with its secrets reduced to flags. */
  datatype ConfigStatus = ConfigStatus(
    hasClientId: bool, hasClientSecret: bool, endpoint: string,
    hasActiveToken: bool, tokenExpiresAt: Option<int>)

  /** A GET request to the flight-offers endpoint: its URL, query pairs in order, and bearer token. */
  datatype SearchRequest = SearchRequest(url: string, query: seq<(string, string)>, authorization: string)

  /** The client with its token cache; `tokenRequests` records every token request it has sent. */
  class AmadeusClient {
    const config: AmadeusConfig
    var accessToken: Option<AccessToken>
    ghost var tokenRequests: seq<TokenRequest>

    /** A client for `config` with an empty cache. */
    constructor(config: AmadeusConfig)
      ensures this.config == config && accessToken == None && tokenRequests == []
    {
      this.config := config;
      accessToken := None;
      tokenRequests := [];
    }

    /** `getAccessToken`: one step of the token cache, as `NextToken` describes it. */
    method GetAccessToken(now: int, response: TokenResponse) returns (r: Result<string, TokenError>)
      modifies this
      ensures var o := NextToken(old(accessToken), config, now, response);
              r == o.result && accessToken == o.cache
              && tokenRequests == old(tokenRequests) + (if o.requested then [TokenRequestFor(config)] else [])
    {
      if accessToken.Some? && accessToken.value.expiresAt > now {
        return Ok(accessToken.value.token);
      }
      if config.clientId == "" || config.clientSecret == "" {
        return Err(MissingCredentials);
      }
      tokenRequests := tokenRequests + [TokenRequestFor(config)];
      match response
      case Rejected(status) =>
        return Err(TokenRequestFailed(status));
      case Granted(token, expiresIn) =>
        accessToken := Some(AccessToken(token, now + expiresIn * 1000 - EarlyExpiryMs));
        return Ok(token);
    }

    /**
     * `searchFlights` up to the HTTP call: obtains a token, then builds the request it
     * sends; a token failure is reported and no search request is built.
     */
    method SearchFlights(params: FlightSearchParams, now: int, response: TokenResponse) returns (r: Result<SearchRequest, TokenError>)
      modifies this
      ensures var o := NextToken(old(accessToken), config, now, response);
              accessToken == o.cache
              && tokenRequests == old(tokenRequests) + (if o.requested then [TokenRequestFor(config)] else [])
              && (r.Err? <==> o.result.Err?)
              && (r.Err? ==> r.error == o.result.error)
              && (r.Ok? ==> r.value == SearchRequest(config.endpoint + "/v2/shopping/flight-offers",
                                                     SearchQuery(params), "Bearer " + o.result.value))
    {
      var token := GetAccessToken(now, response);
      if token.Err? {
        return Err(token.error);
      }
      var query := BuildSearchQuery(params);
      r := Ok(SearchRequest(config.endpoint + "/v2/shopping/flight-offers", query, "Bearer " + token.value));
    }

    /** `testConnection`: whether a token could be obtained; the cache is updated as by `GetAccessToken`. */
    method TestConnection(now: int, response: TokenResponse) returns (ok: bool)
      modifies this
      ensures var o := NextToken(old(accessToken), config, now, response);
              ok == o.result.Ok? && accessToken == o.cache
              && tokenRequests == old(tokenRequests) + (if o.requested then [TokenRequestFor(config)] else [])
    {
      var token := GetAccessToken(now, response);
      ok := token.Ok?;
    }

    /**
     * `getConfigStatus`: presence flags for the credentials, the endpoint, whether the cached
     * token is still fresh, and its expiry unless that is 0 (a falsy number in the source).
     */
    function GetConfigStatus(now: int): (s: ConfigStatus)
      reads this
      ensures s.hasClientId <==> config.clientId != ""
      ensures s.hasClientSecret <==> config.clientSecret != ""
      ensures s.endpoint == config.endpoint
      ensures s.hasActiveToken <==> IsFresh(accessToken, now)
      ensures s.tokenExpiresAt.Some? <==> accessToken.Some? && accessToken.value.expiresAt != 0
      ensures s.tokenExpiresAt.Some? ==> s.tokenExpiresAt.value == accessToken.value.expiresAt
    {
      ConfigStatus(
        config.clientId != "", config.clientSecret != "", config.endpoint,
        accessToken.Some? && accessToken.value.expiresAt > now,
        if accessToken.Some? && accessToken.value.expiresAt != 0 then Some(accessToken.value.expiresAt) else None)
    }
  }

  /** The status reports an active token exactly when a token request now would be served from the cache. */
  lemma ActiveTokenStatus(client: AmadeusClient, now: int, response: TokenResponse)
    ensures client.GetConfigStatus(now).hasActiveToken <==>
              (var o := NextToken(client.accessToken, client.config, now, response); !o.requested && o.result.Ok?)
  {
    ActiveIffServedWithoutRequest(client.accessToken, client.config, now, response);
  }

  // ===========================================================================
  // The flight-offers search query
  // ===========================================================================

  /** The search parameters; an absent optional property is `None`. */
  datatype FlightSearchParams = FlightSearchParams(
    origin: string, destination: string, departureDate: string,
    returnDate: Option<string>, adults: Option<int>, children: Option<int>, infants: Option<int>,
    travelClass: Option<string>, nonStop: Option<bool>, maxResults: Option<int>,
    currencyCode: Option<string>, maxPrice: Option<int>)

  /** A present, non-empty string: what `if (params.x)` accepts for a string property. */
  predicate IsTruthy(x: Option<string>) {
    x.Some? && x.value != ""
  }

  /** `x || fallback` for a number: absent and 0 both give the fallback. */
  function NumberOr(x: Option<int>, fallback: int): (n: int)
    ensures x.Some? && x.value != 0 ==> n == x.value
    ensures x.None? || x.value == 0 ==> n == fallback
  {
    if x.Some? && x.value != 0 then x.value else fallback
  }

  /** `String(b)` for a boolean. */
  function BoolText(b: bool): string {
    if b then "true" else "false"
  }

  /** The keys in the only order they can be appended in. */
  const QueryKeyOrder: seq<string> := [
    "originLocationCode", "destinationLocationCode", "departureDate", "adults",
    "returnDate", "children", "infants", "travelClass", "nonStop", "currencyCode", "maxPrice", "max"
  ]

  function RequiredQuery(p: FlightSearchParams): seq<(string, string)> {
    [("originLocationCode", p.origin), ("destinationLocationCode", p.destination),
     ("departureDate", p.departureDate), ("adults", IntToString(NumberOr(p.adults, 1)))]
  }

  /** The pair `(key, value)` when `present`, nothing otherwise. */
  function PairIf(present: bool, key: string, value: string): seq<(string, string)> {
    if present then [(key, value)] else []
  }

  // The optional pairs: strings only when non-empty, numbers and booleans whenever given.
  function ReturnDatePair(p: FlightSearchParams): seq<(string, string)> {
    PairIf(IsTruthy(p.returnDate), "returnDate", p.returnDate.GetOr(""))
  }
  function ChildrenPair(p: FlightSearchParams): seq<(string, string)> {
    PairIf(p.children.Some?, "children", IntToString(p.children.GetOr(0)))
  }
  function InfantsPair(p: FlightSearchParams): seq<(string, string)> {
    PairIf(p.infants.Some?, "infants", IntToString(p.infants.GetOr(0)))
  }
  function TravelClassPair(p: FlightSearchParams): seq<(string, string)> {
    PairIf(IsTruthy(p.travelClass), "travelClass", p.travelClass.GetOr(""))
  }
  function NonStopPair(p: FlightSearchParams): seq<(string, string)> {
    PairIf(p.nonStop.Some?, "nonStop", BoolText(p.nonStop.GetOr(false)))
  }
  function CurrencyCodePair(p: FlightSearchParams): seq<(string, string)> {
    PairIf(IsTruthy(p.currencyCode), "currencyCode", p.currencyCode.GetOr(""))
  }
  function MaxPricePair(p: FlightSearchParams): seq<(string, string)> {
    PairIf(p.maxPrice.Some?, "maxPrice", IntToString(p.maxPrice.GetOr(0)))
  }
  function MaxPair(p: FlightSearchParams): seq<(string, string)> {
    [("max", IntToString(NumberOr(p.maxResults, 50)))]
  }

  /** The query `searchFlights` sends, pair by pair. */
  function SearchQuery(p: FlightSearchParams): seq<(string, string)> {
    RequiredQuery(p) + ReturnDatePair(p) + ChildrenPair(p) + InfantsPair(p) + TravelClassPair(p)
    + NonStopPair(p) + CurrencyCodePair(p) + MaxPricePair(p) + MaxPair(p)
  }

  /** Builds the query the way `searchFlights` does: the required pairs, then one append per given option. */
  method BuildSearchQuery(p: FlightSearchParams) returns (query: seq<(string, string)>)
    ensures query == SearchQuery(p)
  {
    query := RequiredQuery(p);
    ghost var expected := query;
    if IsTruthy(p.returnDate) {
      query := query + [("returnDate", p.returnDate.value)];
      assert ReturnDatePair(p) == [("returnDate", p.returnDate.value)];
    } else {
      assert ReturnDatePair(p) == [];
    }
    expected := expected + ReturnDatePair(p);
    assert query == expected;
    if p.children.Some? {
      query := query + [("children", IntToString(p.children.value))];
      assert ChildrenPair(p) == [("children", IntToString(p.children.value))];
    } else {
      assert ChildrenPair(p) == [];
    }
    expected := expected + ChildrenPair(p);
    assert query == expected;
    if p.infants.Some? {
      query := query + [("infants", IntToString(p.infants.value))];
      assert InfantsPair(p) == [("infants", IntToString(p.infants.value))];
    } else {
      assert InfantsPair(p) == [];
    }
    expected := expected + InfantsPair(p);
    assert query == expected;
    if IsTruthy(p.travelClass) {
      query := query + [("travelClass", p.travelClass.value)];
      assert TravelClassPair(p) == [("travelClass", p.travelClass.value)];
    } else {
      assert TravelClassPair(p) == [];
    }
    expected := expected + TravelClassPair(p);
    assert query == expected;
    if p.nonStop.Some? {
      query := query + [("nonStop", BoolText(p.nonStop.value))];
      assert NonStopPair(p) == [("nonStop", BoolText(p.nonStop.value))];
    } else {
      assert NonStopPair(p) == [];
    }
    expected := expected + NonStopPair(p);
    assert query == expected;
    if IsTruthy(p.currencyCode) {
      query := query + [("currencyCode", p.currencyCode.value)];
      assert CurrencyCodePair(p) == [("currencyCode", p.currencyCode.value)];
    } else {
      assert CurrencyCodePair(p) == [];
    }
    expected := expected + CurrencyCodePair(p);
    assert query == expected;
    if p.maxPrice.Some? {
      query := query + [("maxPrice", IntToString(p.maxPrice.value))];
      assert MaxPricePair(p) == [("maxPrice", IntToString(p.maxPrice.value))];
    } else {
      assert MaxPricePair(p) == [];
    }
    expected := expected + MaxPricePair(p);
    assert query == expected;
    query := query + [("max", IntToString(NumberOr(p.maxResults, 50)))];
  }

  /** The keys of a query, in order. */
  function Keys(q: seq<(string, string)>): (ks: seq<string>)
    ensures |ks| == |q| && forall i :: 0 <= i < |q| ==> ks[i] == q[i].0
  {
    if q == [] then [] else [q[0].0] + Keys(q[1..])
  }

  lemma {:induction false} KeysConcat(a: seq<(string, string)>, b: seq<(string, string)>)
    ensures Keys(a + b) == Keys(a) + Keys(b)
  {
    assert forall i :: 0 <= i < |a + b| ==> Keys(a + b)[i] == (Keys(a) + Keys(b))[i];
  }

  /** `xs` can be obtained from `ys` by deleting elements. */
  predicate IsSubsequence(xs: seq<string>, ys: seq<string>)
    decreases |ys|
  {
    if xs == [] then true
    else if ys == [] then false
    else if xs[0] == ys[0] then IsSubsequence(xs[1..], ys[1..])
    else IsSubsequence(xs, ys[1..])
  }

  lemma {:induction false} SubsequenceCons(xs: seq<string>, y: string, ys: seq<string>)
    requires IsSubsequence(xs, ys)
    ensures IsSubsequence(xs, [y] + ys)
    decreases |xs| + |ys| + 1
  {
    assert ([y] + ys)[1..] == ys;
    if xs != [] && xs[0] == y {
      SubsequenceDropHead(xs, ys);
    }
  }

  lemma {:induction false} SubsequenceDropHead(xs: seq<string>, ys: seq<string>)
    requires xs != [] && IsSubsequence(xs, ys)
    ensures IsSubsequence(xs[1..], ys)
    decreases |xs| + |ys|
  {
    assert ys != [];
    assert [ys[0]] + ys[1..] == ys;
    if xs[0] == ys[0] {
      SubsequenceCons(xs[1..], ys[0], ys[1..]);
    } else {
      SubsequenceDropHead(xs, ys[1..]);
      SubsequenceCons(xs[1..], ys[0], ys[1..]);
    }
  }

  lemma {:induction false} SubsequenceOfLonger(xs: seq<string>, pre: seq<string>, ys: seq<string>)
    requires IsSubsequence(xs, ys)
    ensures IsSubsequence(xs, pre + ys)
    decreases |pre|
  {
    if pre == [] {
      assert pre + ys == ys;
    } else {
      SubsequenceOfLonger(xs, pre[1..], ys);
      SubsequenceCons(xs, pre[0], pre[1..] + ys);
      assert [pre[0]] + (pre[1..] + ys) == pre + ys;
    }
  }

  lemma {:induction false} SubsequenceConcat(a: seq<string>, b: seq<string>, c: seq<string>, d: seq<string>)
    requires IsSubsequence(a, b) && IsSubsequence(c, d)
    ensures IsSubsequence(a + c, b + d)
    decreases |b|
  {
    if a == [] {
      SubsequenceOfLonger(c, b, d);
      assert a + c == c;
    } else {
      assert b != [];
      assert (a + c)[0] == a[0] && (b + d)[0] == b[0];
      assert (b + d)[1..] == b[1..] + d;
      if a[0] == b[0] {
        SubsequenceConcat(a[1..], b[1..], c, d);
        assert (a + c)[1..] == a[1..] + c;
      } else {
        SubsequenceConcat(a, b[1..], c, d);
      }
    }
  }

  /** `[key]` when `present`, nothing otherwise. */
  function KeyIf(present: bool, key: string): seq<string> {
    if present then [key] else []
  }

  lemma KeysAppendPair(q: seq<(string, string)>, present: bool, key: string, value: string)
    ensures Keys(q + PairIf(present, key, value)) == Keys(q) + KeyIf(present, key)
  {
    KeysConcat(q, PairIf(present, key, value));
  }

  /** The keys the options add after any prefix `q0`. */
  lemma OptionKeys(q0: seq<(string, string)>, p: FlightSearchParams)
    ensures Keys(q0 + ReturnDatePair(p) + ChildrenPair(p) + InfantsPair(p) + TravelClassPair(p)
                 + NonStopPair(p) + CurrencyCodePair(p) + MaxPricePair(p) + MaxPair(p))
            == Keys(q0)
               + KeyIf(IsTruthy(p.returnDate), "returnDate") + KeyIf(p.children.Some?, "children")
               + KeyIf(p.infants.Some?, "infants") + KeyIf(IsTruthy(p.travelClass), "travelClass")
               + KeyIf(p.nonStop.Some?, "nonStop") + KeyIf(IsTruthy(p.currencyCode), "currencyCode")
               + KeyIf(p.maxPrice.Some?, "maxPrice") + ["max"]
  {
    var q1 := q0 + ReturnDatePair(p);
    var q2 := q1 + ChildrenPair(p);
    var q3 := q2 + InfantsPair(p);
    var q4 := q3 + TravelClassPair(p);
    var q5 := q4 + NonStopPair(p);
    var q6 := q5 + CurrencyCodePair(p);
    var q7 := q6 + MaxPricePair(p);
    KeysAppendPair(q0, IsTruthy(p.returnDate), "returnDate", p.returnDate.GetOr(""));
    KeysAppendPair(q1, p.children.Some?, "children", IntToString(p.children.GetOr(0)));
    KeysAppendPair(q2, p.infants.Some?, "infants", IntToString(p.infants.GetOr(0)));
    KeysAppendPair(q3, IsTruthy(p.travelClass), "travelClass", p.travelClass.GetOr(""));
    KeysAppendPair(q4, p.nonStop.Some?, "nonStop", BoolText(p.nonStop.GetOr(false)));
    KeysAppendPair(q5, IsTruthy(p.currencyCode), "currencyCode", p.currencyCode.GetOr(""));
    KeysAppendPair(q6, p.maxPrice.Some?, "maxPrice", IntToString(p.maxPrice.GetOr(0)));
    KeysAppendPair(q7, true, "max", IntToString(NumberOr(p.maxResults, 50)));
  }

  /** The keys of the query: the four required ones, the given options, and "max". */
  lemma SearchQueryKeys(p: FlightSearchParams)
    ensures Keys(SearchQuery(p))
            == ["originLocationCode", "destinationLocationCode", "departureDate", "adults"]
               + KeyIf(IsTruthy(p.returnDate), "returnDate") + KeyIf(p.children.Some?, "children")
               + KeyIf(p.infants.Some?, "infants") + KeyIf(IsTruthy(p.travelClass), "travelClass")
               + KeyIf(p.nonStop.Some?, "nonStop") + KeyIf(IsTruthy(p.currencyCode), "currencyCode")
               + KeyIf(p.maxPrice.Some?, "maxPrice") + ["max"]
  {
    OptionKeys(RequiredQuery(p), p);
    RequiredKeys(p);
  }

  lemma RequiredKeys(p: FlightSearchParams)
    ensures Keys(RequiredQuery(p)) == ["originLocationCode", "destinationLocationCode", "departureDate", "adults"]
  {
  }

  /** `KeyIf(present, key)` is always a subsequence of `[key]`. */
  lemma KeyIfWithin(present: bool, key: string)
    ensures IsSubsequence(KeyIf(present, key), [key])
  {
    assert [key][1..] == [];
  }

  lemma {:induction false} SubsequenceReflexive(xs: seq<string>)
    ensures IsSubsequence(xs, xs)
  {
    if xs != [] {
      SubsequenceReflexive(xs[1..]);
    }
  }

  /** Appending to both sides one optional key and the slot it may fill keeps a subsequence. */
  lemma AppendOptionalKey(acc: seq<string>, order: seq<string>, present: bool, key: string)
    requires IsSubsequence(acc, order)
    ensures IsSubsequence(acc + KeyIf(present, key), order + [key])
  {
    KeyIfWithin(present, key);
    SubsequenceConcat(acc, order, KeyIf(present, key), [key]);
  }

  /** Four optional keys appended after `acc` stay within their four slots appended after `order`. */
  lemma FourOptionalKeys(acc: seq<string>, order: seq<string>, b1: bool, b2: bool, b3: bool, b4: bool,
                         s1: string, s2: string, s3: string, s4: string)
    requires IsSubsequence(acc, order)
    ensures IsSubsequence(acc + KeyIf(b1, s1) + KeyIf(b2, s2) + KeyIf(b3, s3) + KeyIf(b4, s4),
                          order + [s1] + [s2] + [s3] + [s4])
  {
    AppendOptionalKey(acc, order, b1, s1);
    AppendOptionalKey(acc + KeyIf(b1, s1), order + [s1], b2, s2);
    AppendOptionalKey(acc + KeyIf(b1, s1) + KeyIf(b2, s2), order + [s1] + [s2], b3, s3);
    AppendOptionalKey(acc + KeyIf(b1, s1) + KeyIf(b2, s2) + KeyIf(b3, s3), order + [s1] + [s2] + [s3], b4, s4);
  }

  /**
   * After a prefix `k0`, the keys selected from seven optional slots and one mandatory last
   * slot form a subsequence of the prefix followed by all eight slots.
   */
  lemma {:induction false} SelectedKeysInOrder(k0: seq<string>, b1: bool, b2: bool, b3: bool, b4: bool,
                                               b5: bool, b6: bool, b7: bool, s1: string, s2: string,
                                               s3: string, s4: string, s5: string, s6: string, s7: string,
                                               s8: string)
    ensures IsSubsequence(k0 + KeyIf(b1, s1) + KeyIf(b2, s2) + KeyIf(b3, s3) + KeyIf(b4, s4)
                          + KeyIf(b5, s5) + KeyIf(b6, s6) + KeyIf(b7, s7) + [s8],
                          k0 + [s1] + [s2] + [s3] + [s4] + [s5] + [s6] + [s7] + [s8])
  {
    SubsequenceReflexive(k0);
    FourOptionalKeys(k0, k0, b1, b2, b3, b4, s1, s2, s3, s4);
    var acc := k0 + KeyIf(b1, s1) + KeyIf(b2, s2) + KeyIf(b3, s3) + KeyIf(b4, s4);
    var order := k0 + [s1] + [s2] + [s3] + [s4];
    FourOptionalKeys(acc, order, b5, b6, b7, true, s5, s6, s7, s8);
    assert KeyIf(true, s8) == [s8];
  }

  /** No string occurs twice in `xs`. */
  predicate Distinct(xs: seq<string>) {
    forall i, j :: 0 <= i < j < |xs| ==> xs[i] != xs[j]
  }

  /** The twelve query keys are pairwise different. */
  lemma QueryKeyOrderDistinct()
    ensures Distinct(QueryKeyOrder)
  {
  }

  /**
   * Whatever is given, the keys appear in the fixed order, each at most once: the query's
   * keys are a subsequence of `QueryKeyOrder`.
   */
  lemma QueryKeysInOrder(p: FlightSearchParams)
    ensures IsSubsequence(Keys(SearchQuery(p)), QueryKeyOrder)
  {
    SearchQueryKeys(p);
    var k0 := ["originLocationCode", "destinationLocationCode", "departureDate", "adults"];
    SelectedKeysInOrder(k0, IsTruthy(p.returnDate), p.children.Some?, p.infants.Some?, IsTruthy(p.travelClass),
                        p.nonStop.Some?, IsTruthy(p.currencyCode), p.maxPrice.Some?,
                        "returnDate", "children", "infants", "travelClass", "nonStop", "currencyCode",
                        "maxPrice", "max");
    QueryKeyOrderSlots();
  }

  /** The key order as the required keys followed by the eight later slots. */
  lemma QueryKeyOrderSlots()
    ensures QueryKeyOrder
            == ["originLocationCode", "destinationLocationCode", "departureDate", "adults"]
               + ["returnDate"] + ["children"] + ["infants"] + ["travelClass"] + ["nonStop"] + ["currencyCode"]
               + ["maxPrice"] + ["max"]
  {
  }

  /** Pairwise different slot names: none repeats a prefix key, and each differs from the later ones. */
  lemma {:induction false} SlotsApart(k0: seq<string>, s1: string, s2: string, s3: string, s4: string,
                                      s5: string, s6: string, s7: string, s8: string)
    requires Distinct(k0 + [s1, s2, s3, s4, s5, s6, s7, s8])
    ensures forall k :: k in k0 ==> k !in [s1, s2, s3, s4, s5, s6, s7, s8]
    ensures s1 !in [s2, s3, s4, s5, s6, s7, s8] && s2 !in [s3, s4, s5, s6, s7, s8]
            && s3 !in [s4, s5, s6, s7, s8] && s4 !in [s5, s6, s7, s8] && s5 !in [s6, s7, s8]
            && s6 !in [s7, s8] && s7 != s8
  {
    var order := k0 + [s1, s2, s3, s4, s5, s6, s7, s8];
    forall i | 0 <= i < |k0|
      ensures k0[i] !in [s1, s2, s3, s4, s5, s6, s7, s8]
    {
      assert order[i] == k0[i];
      assert order[|k0|..] == [s1, s2, s3, s4, s5, s6, s7, s8];
    }
    assert order[|k0|] == s1 && order[|k0| + 1] == s2 && order[|k0| + 2] == s3 && order[|k0| + 3] == s4;
    assert order[|k0| + 4] == s5 && order[|k0| + 5] == s6 && order[|k0| + 6] == s7 && order[|k0| + 7] == s8;
  }

  /**
   * With all slot names different, each of the first four optional keys is selected exactly
   * when its flag is set.
   */
  lemma {:induction false} EarlyKeysPresent(k0: seq<string>, b1: bool, b2: bool, b3: bool, b4: bool,
                                               b5: bool, b6: bool, b7: bool, s1: string, s2: string,
                                               s3: string, s4: string, s5: string, s6: string, s7: string,
                                               s8: string)
    requires Distinct(k0 + [s1, s2, s3, s4, s5, s6, s7, s8])
    ensures var ks := k0 + KeyIf(b1, s1) + KeyIf(b2, s2) + KeyIf(b3, s3) + KeyIf(b4, s4)
                      + KeyIf(b5, s5) + KeyIf(b6, s6) + KeyIf(b7, s7) + [s8];
            (s1 in ks <==> b1) && (s2 in ks <==> b2) && (s3 in ks <==> b3) && (s4 in ks <==> b4)
  {
    SlotsApart(k0, s1, s2, s3, s4, s5, s6, s7, s8);
  }

  /**
   * With all slot names different, each of the last three optional keys is selected exactly
   * when its flag is set, and the mandatory last key always is.
   */
  lemma {:induction false} LateKeysPresent(k0: seq<string>, b1: bool, b2: bool, b3: bool, b4: bool,
                                               b5: bool, b6: bool, b7: bool, s1: string, s2: string,
                                               s3: string, s4: string, s5: string, s6: string, s7: string,
                                               s8: string)
    requires Distinct(k0 + [s1, s2, s3, s4, s5, s6, s7, s8])
    ensures var ks := k0 + KeyIf(b1, s1) + KeyIf(b2, s2) + KeyIf(b3, s3) + KeyIf(b4, s4)
                      + KeyIf(b5, s5) + KeyIf(b6, s6) + KeyIf(b7, s7) + [s8];
            (s5 in ks <==> b5) && (s6 in ks <==> b6) && (s7 in ks <==> b7) && s8 in ks
  {
    SlotsApart(k0, s1, s2, s3, s4, s5, s6, s7, s8);
  }

  /** The slot names after the four required keys. */
  lemma QueryKeyOrderSplit()
    ensures Distinct(["originLocationCode", "destinationLocationCode", "departureDate", "adults"]
                     + ["returnDate", "children", "infants", "travelClass", "nonStop", "currencyCode",
                        "maxPrice", "max"])
  {
    QueryKeyOrderDistinct();
    assert ["originLocationCode", "destinationLocationCode", "departureDate", "adults"]
           + ["returnDate", "children", "infants", "travelClass", "nonStop", "currencyCode", "maxPrice", "max"]
           == QueryKeyOrder;
  }

  /**
   * Which optional keys are sent: string options exactly when non-empty, number and
   * boolean options exactly when given, even when 0 or false; "max" always.
   */
  lemma QueryKeyPresence(p: FlightSearchParams)
    ensures var ks := Keys(SearchQuery(p));
            && ("returnDate" in ks <==> IsTruthy(p.returnDate))
            && ("children" in ks <==> p.children.Some?)
            && ("infants" in ks <==> p.infants.Some?)
            && ("travelClass" in ks <==> IsTruthy(p.travelClass))
            && ("nonStop" in ks <==> p.nonStop.Some?)
            && ("currencyCode" in ks <==> IsTruthy(p.currencyCode))
            && ("maxPrice" in ks <==> p.maxPrice.Some?)
            && "max" in ks
  {
    SearchQueryKeys(p);
    QueryKeyOrderSplit();
    var k0 := ["originLocationCode", "destinationLocationCode", "departureDate", "adults"];
    EarlyKeysPresent(k0, IsTruthy(p.returnDate), p.children.Some?, p.infants.Some?, IsTruthy(p.travelClass),
                     p.nonStop.Some?, IsTruthy(p.currencyCode), p.maxPrice.Some?,
                     "returnDate", "children", "infants", "travelClass", "nonStop", "currencyCode",
                     "maxPrice", "max");
    LateKeysPresent(k0, IsTruthy(p.returnDate), p.children.Some?, p.infants.Some?, IsTruthy(p.travelClass),
                    p.nonStop.Some?, IsTruthy(p.currencyCode), p.maxPrice.Some?,
                    "returnDate", "children", "infants", "travelClass", "nonStop", "currencyCode",
                    "maxPrice", "max");
  }

  /** The query always begins with the four required keys, in this order. */
  lemma QueryBeginsWithRequired(p: FlightSearchParams)
    ensures Keys(SearchQuery(p))[..4] == ["originLocationCode", "destinationLocationCode", "departureDate", "adults"]
  {
    SearchQueryKeys(p);
  }

  /** A number option sent with a fallback reads back as the given number, or the fallback for 0 or none. */
  lemma NumberOrReadBack(x: Option<int>, fallback: int)
    ensures ParseInt(IntToString(NumberOr(x, fallback)))
            == Some(if x.Some? && x.value != 0 then x.value else fallback)
  {
    ParseIntOfString(NumberOr(x, fallback));
  }

  /** The fourth pair is the adult count, and it reads back as the given count or 1. */
  lemma AdultsReadBack(p: FlightSearchParams)
    ensures SearchQuery(p)[3].0 == "adults"
    ensures ParseInt(SearchQuery(p)[3].1) == Some(if p.adults.Some? && p.adults.value != 0 then p.adults.value else 1)
  {
    var q := SearchQuery(p);
    assert q[3] == RequiredQuery(p)[3];
    NumberOrReadBack(p.adults, 1);
  }

  /** The last pair is the result limit, and it reads back as the given limit or 50. */
  lemma MaxReadBack(p: FlightSearchParams)
    ensures var q := SearchQuery(p);
            q[|q| - 1].0 == "max"
            && ParseInt(q[|q| - 1].1) == Some(if p.maxResults.Some? && p.maxResults.value != 0 then p.maxResults.value else 50)
  {
    var q := SearchQuery(p);
    assert q[|q| - 1] == MaxPair(p)[0];
    NumberOrReadBack(p.maxResults, 50);
  }
}
