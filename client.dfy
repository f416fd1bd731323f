/**
 * The Hunter.io client: it joins the base URL and the endpoint, merges the
 * API key into the query parameters, filters keyword arguments against
 * fixed per-endpoint allow-lists, validates the convenience methods' inputs
 * and reads the response through `Http.Classify`.
 *
 * `requests.get` is not modelled: each operation takes the response it
 * would receive as an input and reports the request it issues.
 */
module Client {
  import opened Wrappers
  import opened Text
  import opened OrderedDict
  import opened Http

  const KEY_QUERY := "query"
  const KEY_DOMAIN := "domain"
  const KEY_COMPANY := "company"
  const KEY_INDUSTRY := "industry"
  const KEY_COUNTRY := "country"
  const KEY_CITY := "city"
  const KEY_SIZE_FROM := "size_from"
  const KEY_SIZE_TO := "size_to"
  const KEY_TYPE := "type"
  const KEY_LIMIT := "limit"
  const KEY_OFFSET := "offset"
  const KEY_FIRST_NAME := "first_name"
  const KEY_LAST_NAME := "last_name"
  const API_KEY := "api_key"

  const DISCOVER_ALLOWED_KEYS: seq<string> := [
    KEY_QUERY, KEY_DOMAIN, KEY_COMPANY, KEY_INDUSTRY, KEY_COUNTRY, KEY_CITY,
    KEY_SIZE_FROM, KEY_SIZE_TO, KEY_TYPE, KEY_LIMIT, KEY_OFFSET
  ]

  const DOMAIN_SEARCH_ALLOWED_KEYS: seq<string> := [KEY_COMPANY, KEY_LIMIT, KEY_OFFSET, KEY_TYPE]

  const DISCOVER := "discover"
  const DOMAIN_SEARCH := "domain-search"
  const EMAIL_FINDER := "email-finder"

  const DEFAULT_BASE_URL := "https://api.hunter.io/v2"
  const DEFAULT_TIMEOUT_SECONDS := 15

  /** A query parameter value: the client only ever sends strings and integers. */
  datatype Value = Str(s: string) | Int(i: int)

  type Params = Dict<Value>

  /** The GET request handed to the transport. */
  datatype Request = Request(url: string, params: Params, timeoutSeconds: int)

  /** What a client call does: it is rejected by local validation (the
      `ValueError` of the convenience methods) before any request exists,
      or it sends one request and yields that request's `Result`. */
  datatype Outcome = Rejected(message: string) | Sent(request: Request, result: Result)

  const Slash: set<char> := {'/'}

  // ---------------------------------------------------------------------
  // URL join

  /** `"/".join((base_url.rstrip("/"), endpoint.lstrip("/")))`: the
      separating slash stands right after the stripped base, and neither of
      its neighbours is a slash. */
  function JoinUrl(baseUrl: string, endpoint: string): (url: string)
    ensures var n := |RStrip(baseUrl, Slash)|;
      && n < |url| && url[n] == '/'
      && (n == 0 || url[n - 1] != '/')
      && (n + 1 == |url| || url[n + 1] != '/')
  {
    var b, e := RStrip(baseUrl, Slash), LStrip(endpoint, Slash);
    var url := b + "/" + e;
    assert b != [] ==> url[|b| - 1] == b[|b| - 1];
    assert e != [] ==> url[|b| + 1] == e[0];
    url
  }

  /** Extra trailing slashes on the base and extra leading slashes on the
      endpoint make no difference. */
  lemma JoinUrlTolerant(baseUrl: string, endpoint: string, s: string, t: string)
    requires forall i :: 0 <= i < |s| ==> s[i] == '/'
    requires forall i :: 0 <= i < |t| ==> t[i] == '/'
    ensures JoinUrl(baseUrl + s, t + endpoint) == JoinUrl(baseUrl, endpoint)
  {
    RStripAppend(baseUrl, s, Slash);
    LStripPrepend(t, endpoint, Slash);
  }

  /** A base URL with a trailing slash and an endpoint with a leading one
      still join with a single slash. */
  lemma JoinUrlExample()
    ensures JoinUrl("https://api.hunter.io/v2/", "/discover") == "https://api.hunter.io/v2/discover"
  {
    var b, e := "https://api.hunter.io/v2", "discover";
    JoinUrlTolerant(b, e, "/", "/");
    JoinUrlClean(b, e);
  }

  /** A base without a trailing slash and an endpoint without a leading one
      are joined as they are. */
  lemma JoinUrlClean(baseUrl: string, endpoint: string)
    requires baseUrl == [] || baseUrl[|baseUrl| - 1] != '/'
    requires endpoint == [] || endpoint[0] != '/'
    ensures JoinUrl(baseUrl, endpoint) == baseUrl + "/" + endpoint
  {
  }

  // ---------------------------------------------------------------------
  // Allow-list filtering

  /** The keys of `ks` that also occur in `present`, in `ks`'s order. */
  function Kept(ks: seq<string>, present: seq<string>): seq<string> {
    if ks == [] then [] else (if ks[0] in present then [ks[0]] else []) + Kept(ks[1..], present)
  }

  /** `{key: params[key] for key in allowed if key in params}`: it holds
      no more entries than the allow-list has keys. */
  function FilterAllowed(allowed: seq<string>, params: Params): (r: Params)
    ensures |r| <= |allowed|
  {
    if allowed == [] then []
    else
      var rest := FilterAllowed(allowed[1..], params);
      match Get(params, allowed[0])
      case None => rest
      case Some(v) => [(allowed[0], v)] + rest
  }

  /** An allowed key is forwarded with the caller's value, if the caller
      gave one; any other key is never forwarded. */
  lemma {:induction false} FilterGet(allowed: seq<string>, params: Params, k: string)
    ensures Get(FilterAllowed(allowed, params), k) == if k in allowed then Get(params, k) else None
  {
    if allowed != [] {
      assert allowed == [allowed[0]] + allowed[1..];
      FilterGet(allowed[1..], params, k);
    }
  }

  /** The forwarded keys are the allowed keys the caller gave, in
      allow-list order. */
  lemma {:induction false} FilterKeys(allowed: seq<string>, params: Params)
    ensures Keys(FilterAllowed(allowed, params)) == Kept(allowed, Keys(params))
  {
    if allowed != [] {
      GetSome(params, allowed[0]);
      FilterKeys(allowed[1..], params);
      var rest := FilterAllowed(allowed[1..], params);
      if Get(params, allowed[0]).Some? {
        var r := [(allowed[0], Get(params, allowed[0]).value)] + rest;
        assert r[1..] == rest;
      } else {
        assert Kept(allowed, Keys(params)) == Kept(allowed[1..], Keys(params));
      }
    }
  }

  /** With a duplicate-free allow-list the forwarded keys are distinct. */
  lemma {:induction false} FilterDistinct(allowed: seq<string>, params: Params)
    requires Distinct(allowed)
    ensures DistinctKeys(FilterAllowed(allowed, params))
  {
    if allowed != [] {
      var rest := FilterAllowed(allowed[1..], params);
      assert Distinct(allowed[1..]) by {
        forall i, j | 0 <= i < j < |allowed| - 1 ensures allowed[1..][i] != allowed[1..][j] {
          assert allowed[1..][i] == allowed[i + 1] && allowed[1..][j] == allowed[j + 1];
        }
      }
      FilterDistinct(allowed[1..], params);
      if Get(params, allowed[0]).Some? {
        var r := [(allowed[0], Get(params, allowed[0]).value)] + rest;
        assert r[1..] == rest;
        FilterGet(allowed[1..], params, allowed[0]);
        GetSome(rest, allowed[0]);
        DistinctCons(allowed[0], Keys(rest));
      }
    }
  }

  /** The three properties above determine the filtered arguments. */
  lemma FilterUnique(allowed: seq<string>, params: Params, r: Params)
    requires Distinct(allowed) && DistinctKeys(r)
    requires Keys(r) == Kept(allowed, Keys(params))
    requires forall k :: Get(r, k) == if k in allowed then Get(params, k) else None
    ensures r == FilterAllowed(allowed, params)
  {
    var f := FilterAllowed(allowed, params);
    FilterDistinct(allowed, params);
    FilterKeys(allowed, params);
    forall k ensures Get(r, k) == Get(f, k) {
      FilterGet(allowed, params, k);
    }
    DictExt(r, f);
  }

  /** Keys outside the allow-list cannot change what is forwarded: two
      argument sets that agree on the allowed keys filter to the same
      parameters. */
  lemma {:induction false} FilterIgnoresOthers(allowed: seq<string>, p: Params, q: Params)
    requires forall k :: k in allowed ==> Get(p, k) == Get(q, k)
    ensures FilterAllowed(allowed, p) == FilterAllowed(allowed, q)
  {
    if allowed != [] {
      FilterIgnoresOthers(allowed[1..], p, q);
    }
  }

  /** Neither allow-list repeats a key or admits "api_key", and
      `domain_search`'s does not admit "domain". */
  lemma AllowListsWellFormed()
    ensures Distinct(DISCOVER_ALLOWED_KEYS) && API_KEY !in DISCOVER_ALLOWED_KEYS
    ensures Distinct(DOMAIN_SEARCH_ALLOWED_KEYS) && API_KEY !in DOMAIN_SEARCH_ALLOWED_KEYS
    ensures KEY_DOMAIN !in DOMAIN_SEARCH_ALLOWED_KEYS
  {
  }

  /** Filtered arguments have distinct keys and never carry a key outside
      the allow-list. */
  lemma FilteredWellFormed(allowed: seq<string>, kwargs: Params, k: string)
    requires Distinct(allowed) && k !in allowed
    ensures DistinctKeys(FilterAllowed(allowed, kwargs))
    ensures k !in Keys(FilterAllowed(allowed, kwargs))
  {
    FilterDistinct(allowed, kwargs);
    FilterGet(allowed, kwargs, k);
    GetSome(FilterAllowed(allowed, kwargs), k);
  }

  // ---------------------------------------------------------------------
  // The request executor

  /** The query `_perform_get` starts from. */
  function KeyOnly(apiKey: string): (q: Params)
    ensures Keys(q) == [API_KEY] && Get(q, API_KEY) == Some(Str(apiKey))
  {
    [(API_KEY, Str(apiKey))]
  }

  /** `q` is {"api_key": apiKey} updated with `params`: the caller's own
      "api_key" wins, every other caller key is present with its value and
      nothing else is, "api_key" comes first and the caller's other keys
      follow in the caller's order. */
  ghost predicate KeyMerged(q: Params, apiKey: string, params: Params) {
    && DistinctKeys(q)
    && Get(q, API_KEY) == (if API_KEY in Keys(params) then Get(params, API_KEY) else Some(Str(apiKey)))
    && (forall k :: k != API_KEY ==> Get(q, k) == Get(params, k))
    && Keys(q) == [API_KEY] + Fresh(Keys(params), [API_KEY])
  }

  /** After the update, "api_key" holds the caller's own value if there is
      one, else the client's key. */
  lemma QueryOwnKey(apiKey: string, params: Params)
    requires DistinctKeys(params)
    ensures Get(Updated(KeyOnly(apiKey), params), API_KEY)
      == if API_KEY in Keys(params) then Get(params, API_KEY) else Some(Str(apiKey))
  {
    UpdatedGet(KeyOnly(apiKey), params, API_KEY);
  }

  /** After the update, every other key is looked up as in `params`. */
  lemma QueryOtherKey(apiKey: string, params: Params, k: string)
    requires DistinctKeys(params) && k != API_KEY
    ensures Get(Updated(KeyOnly(apiKey), params), k) == Get(params, k)
  {
    var d := KeyOnly(apiKey);
    UpdatedGet(d, params, k);
    GetSome(params, k);
    assert d[1..] == [];
  }

  /** The query `_perform_get` sends has the shape of `KeyMerged`. */
  lemma QueryMerged(apiKey: string, params: Params)
    requires DistinctKeys(params)
    ensures KeyMerged(Updated(KeyOnly(apiKey), params), apiKey, params)
  {
    var d := KeyOnly(apiKey);
    assert Keys(d) == [API_KEY];
    UpdatedDistinct(d, params);
    UpdatedKeys(d, params);
    QueryOwnKey(apiKey, params);
    forall k | k != API_KEY ensures Get(Updated(d, params), k) == Get(params, k) {
      QueryOtherKey(apiKey, params, k);
    }
  }

  /** When the caller sends no "api_key" of its own, the query is the API
      key followed by the caller's parameters as given. */
  lemma QueryWithoutOwnKey(apiKey: string, params: Params)
    requires DistinctKeys(params) && API_KEY !in Keys(params)
    ensures Updated(KeyOnly(apiKey), params) == KeyOnly(apiKey) + params
  {
    assert Keys(KeyOnly(apiKey)) == [API_KEY];
    UpdatedDisjoint(KeyOnly(apiKey), params);
  }

  /** `_perform_get`: the URL is the join of base and endpoint; the query
      starts as {"api_key": apiKey} and is rebound to its update with `params`;
      the response is read by `Classify`. */
  method PerformGet(baseUrl: string, endpoint: string, apiKey: string, timeoutSeconds: int,
                    params: Params, response: Response)
    returns (request: Request, result: Result)
    requires DistinctKeys(params)
    ensures request.url == JoinUrl(baseUrl, endpoint) && request.timeoutSeconds == timeoutSeconds
    ensures request.params == Updated(KeyOnly(apiKey), params)
    ensures API_KEY !in Keys(params) ==> request.params == KeyOnly(apiKey) + params
    ensures result == Classify(response)
  {
    var url := JoinUrl(baseUrl, endpoint);
    var queryParams := KeyOnly(apiKey);
    queryParams := Update(queryParams, params);
    if API_KEY !in Keys(params) {
      QueryWithoutOwnKey(apiKey, params);
    }
    request := Request(url, queryParams, timeoutSeconds);
    result := Classify(response);
  }

  const QueryBlank := "query must be a non-empty string"
  const DomainBlank := "domain must be a non-empty string"
  const FirstNameBlank := "first_name must be a non-empty string"
  const LastNameBlank := "last_name must be a non-empty string"
  const LimitNotPositive := "limit must be a positive integer"
  const OffsetNegative := "offset must be a non-negative integer"

  /** The query `domain_search` sends: "api_key" comes first and, when a
      domain is given, "domain" comes last. */
  function DomainSearchQueryParams(apiKey: string, kwargs: Params, domain: Option<string>): (q: Params)
    ensures |q| > 0 && q[0] == (API_KEY, Str(apiKey))
    ensures domain.Some? ==> q[|q| - 1] == (KEY_DOMAIN, Str(domain.value))
  {
    KeyOnly(apiKey) + FilterAllowed(DOMAIN_SEARCH_ALLOWED_KEYS, kwargs)
      + (if domain.Some? then [(KEY_DOMAIN, Str(domain.value))] else [])
  }

  /** In the query `discover` sends, an allowed key carries the caller's
      value if the caller gave one, and no other key than "api_key" is
      present. */
  lemma DiscoverQuery(apiKey: string, kwargs: Params, k: string)
    requires k != API_KEY
    ensures Get(KeyOnly(apiKey) + FilterAllowed(DISCOVER_ALLOWED_KEYS, kwargs), k)
      == if k in DISCOVER_ALLOWED_KEYS then Get(kwargs, k) else None
  {
    GetAppend(KeyOnly(apiKey), FilterAllowed(DISCOVER_ALLOWED_KEYS, kwargs), k);
    FilterGet(DISCOVER_ALLOWED_KEYS, kwargs, k);
  }

  /** In the query `domain_search` sends, "domain" carries the given domain
      and is absent when none is given; an allowed key carries the caller's
      value if given; no other key than "api_key" is present. */
  lemma DomainSearchQuery(apiKey: string, kwargs: Params, domain: Option<string>, k: string)
    requires k != API_KEY
    ensures Get(DomainSearchQueryParams(apiKey, kwargs, domain), k) ==
      if k == KEY_DOMAIN then (if domain.Some? then Some(Str(domain.value)) else None)
      else if k in DOMAIN_SEARCH_ALLOWED_KEYS then Get(kwargs, k)
      else None
  {
    var filtered := FilterAllowed(DOMAIN_SEARCH_ALLOWED_KEYS, kwargs);
    var head := KeyOnly(apiKey) + filtered;
    var tail: Params := if domain.Some? then [(KEY_DOMAIN, Str(domain.value))] else [];
    AllowListsWellFormed();
    GetAppend(head, tail, k);
    GetAppend(KeyOnly(apiKey), filtered, k);
    FilterGet(DOMAIN_SEARCH_ALLOWED_KEYS, kwargs, k);
    GetSome(head, k);
    GetSome(filtered, k);
  }

  /** An immutable client configuration; its methods are the public API. */
  datatype HunterClient = HunterClient(
    apiKey: string,
    baseUrl: string := DEFAULT_BASE_URL,
    timeoutSeconds: int := DEFAULT_TIMEOUT_SECONDS)
  {
    /** `discover(**params)`: sends the allowed keyword arguments, in
        allow-list order after the API key, and drops every other one. */
    method Discover(kwargs: Params, response: Response) returns (call: Outcome)
      ensures call.Sent? && call.request.url == JoinUrl(baseUrl, DISCOVER)
      ensures call.request.params == KeyOnly(apiKey) + FilterAllowed(DISCOVER_ALLOWED_KEYS, kwargs)
      ensures call.request.timeoutSeconds == timeoutSeconds && call.result == Classify(response)
    {
      var values := FilterAllowed(DISCOVER_ALLOWED_KEYS, kwargs);
      AllowListsWellFormed();
      FilteredWellFormed(DISCOVER_ALLOWED_KEYS, kwargs, API_KEY);
      var request, result := PerformGet(baseUrl, DISCOVER, apiKey, timeoutSeconds, values, response);
      call := Sent(request, result);
    }

    /** `domain_search(domain=..., **params)`: the allowed keyword arguments
        in allow-list order, then "domain" exactly when a domain is given. */
    method DomainSearch(domain: Option<string>, kwargs: Params, response: Response) returns (call: Outcome)
      ensures call.Sent? && call.request.url == JoinUrl(baseUrl, DOMAIN_SEARCH)
      ensures call.request.params == DomainSearchQueryParams(apiKey, kwargs, domain)
      ensures call.request.timeoutSeconds == timeoutSeconds && call.result == Classify(response)
    {
      var values := FilterAllowed(DOMAIN_SEARCH_ALLOWED_KEYS, kwargs);
      AllowListsWellFormed();
      FilteredWellFormed(DOMAIN_SEARCH_ALLOWED_KEYS, kwargs, API_KEY);
      FilteredWellFormed(DOMAIN_SEARCH_ALLOWED_KEYS, kwargs, KEY_DOMAIN);
      if domain.Some? {
        var filtered := values;
        values := Assign(values, KEY_DOMAIN, Str(domain.value));
        AssignNew(filtered, KEY_DOMAIN, Str(domain.value));
        AssignDistinct(filtered, KEY_DOMAIN, Str(domain.value));
        KeysAppend(filtered, [(KEY_DOMAIN, Str(domain.value))]);
      } else {
        assert values + [] == values;
      }
      var request, result := PerformGet(baseUrl, DOMAIN_SEARCH, apiKey, timeoutSeconds, values, response);
      call := Sent(request, result);
    }

    /** `email_finder(domain=..., first_name=..., last_name=...)`: always
        exactly these three parameters after the API key. */
    method EmailFinder(domain: string, firstName: string, lastName: string, response: Response)
      returns (call: Outcome)
      ensures call.Sent? && call.request.url == JoinUrl(baseUrl, EMAIL_FINDER)
      ensures call.request.params == KeyOnly(apiKey) + [(KEY_DOMAIN, Str(domain)),
        (KEY_FIRST_NAME, Str(firstName)), (KEY_LAST_NAME, Str(lastName))]
      ensures call.request.timeoutSeconds == timeoutSeconds && call.result == Classify(response)
    {
      var typed: Params := [(KEY_DOMAIN, Str(domain)), (KEY_FIRST_NAME, Str(firstName)), (KEY_LAST_NAME, Str(lastName))];
      ThreeKeys(typed);
      var request, result := PerformGet(baseUrl, EMAIL_FINDER, apiKey, timeoutSeconds, typed, response);
      call := Sent(request, result);
    }

    /** `search_companies(query, limit=10, offset=0)`: a blank query, then a
        non-positive limit, then a negative offset are rejected in that
        order with no request; otherwise exactly {query, limit, offset} go
        to "discover". */
    method SearchCompanies(query: string, response: Response, limit: int := 10, offset: int := 0)
      returns (call: Outcome)
      ensures call.Rejected? <==> IsBlank(query) || limit <= 0 || offset < 0
      ensures IsBlank(query) ==> call == Rejected(QueryBlank)
      ensures !IsBlank(query) && limit <= 0 ==> call == Rejected(LimitNotPositive)
      ensures !IsBlank(query) && limit > 0 && offset < 0 ==> call == Rejected(OffsetNegative)
      ensures call.Sent? ==>
        && call.request.url == JoinUrl(baseUrl, DISCOVER)
        && call.request.params == KeyOnly(apiKey) + [(KEY_QUERY, Str(query)),
             (KEY_LIMIT, Int(limit)), (KEY_OFFSET, Int(offset))]
        && call.request.timeoutSeconds == timeoutSeconds && call.result == Classify(response)
    {
      if IsBlank(query) {
        return Rejected(QueryBlank);
      }
      if limit <= 0 {
        return Rejected(LimitNotPositive);
      }
      if offset < 0 {
        return Rejected(OffsetNegative);
      }
      var params: Params := [(KEY_QUERY, Str(query)), (KEY_LIMIT, Int(limit)), (KEY_OFFSET, Int(offset))];
      ThreeKeys(params);
      var request, result := PerformGet(baseUrl, DISCOVER, apiKey, timeoutSeconds, params, response);
      call := Sent(request, result);
    }

    /** `emails_for_domain(domain, limit=10, offset=0)`: the same checks on
        the domain, limit and offset; otherwise exactly {domain, limit,
        offset} go to "domain-search". */
    method EmailsForDomain(domain: string, response: Response, limit: int := 10, offset: int := 0)
      returns (call: Outcome)
      ensures call.Rejected? <==> IsBlank(domain) || limit <= 0 || offset < 0
      ensures IsBlank(domain) ==> call == Rejected(DomainBlank)
      ensures !IsBlank(domain) && limit <= 0 ==> call == Rejected(LimitNotPositive)
      ensures !IsBlank(domain) && limit > 0 && offset < 0 ==> call == Rejected(OffsetNegative)
      ensures call.Sent? ==>
        && call.request.url == JoinUrl(baseUrl, DOMAIN_SEARCH)
        && call.request.params == KeyOnly(apiKey) + [(KEY_DOMAIN, Str(domain)),
             (KEY_LIMIT, Int(limit)), (KEY_OFFSET, Int(offset))]
        && call.request.timeoutSeconds == timeoutSeconds && call.result == Classify(response)
    {
      if IsBlank(domain) {
        return Rejected(DomainBlank);
      }
      if limit <= 0 {
        return Rejected(LimitNotPositive);
      }
      if offset < 0 {
        return Rejected(OffsetNegative);
      }
      var params: Params := [(KEY_DOMAIN, Str(domain)), (KEY_LIMIT, Int(limit)), (KEY_OFFSET, Int(offset))];
      ThreeKeys(params);
      var request, result := PerformGet(baseUrl, DOMAIN_SEARCH, apiKey, timeoutSeconds, params, response);
      call := Sent(request, result);
    }

    /** `guess_email(domain, first_name, last_name)`: a blank domain, then a
        blank first name, then a blank last name are rejected in that
        order; otherwise one "email-finder" request with exactly the three
        names after the API key. */
    method GuessEmail(domain: string, firstName: string, lastName: string, response: Response)
      returns (call: Outcome)
      ensures call.Rejected? <==> IsBlank(domain) || IsBlank(firstName) || IsBlank(lastName)
      ensures IsBlank(domain) ==> call == Rejected(DomainBlank)
      ensures !IsBlank(domain) && IsBlank(firstName) ==> call == Rejected(FirstNameBlank)
      ensures !IsBlank(domain) && !IsBlank(firstName) && IsBlank(lastName) ==> call == Rejected(LastNameBlank)
      ensures call.Sent? ==>
        && call.request.url == JoinUrl(baseUrl, EMAIL_FINDER)
        && call.request.params == KeyOnly(apiKey) + [(KEY_DOMAIN, Str(domain)),
             (KEY_FIRST_NAME, Str(firstName)), (KEY_LAST_NAME, Str(lastName))]
        && call.request.timeoutSeconds == timeoutSeconds && call.result == Classify(response)
    {
      if IsBlank(domain) {
        return Rejected(DomainBlank);
      }
      if IsBlank(firstName) {
        return Rejected(FirstNameBlank);
      }
      if IsBlank(lastName) {
        return Rejected(LastNameBlank);
      }
      call := EmailFinder(domain, firstName, lastName, response);
    }

    /** `_get(endpoint, params)`: the raw executor on this client's
        configuration; a caller-supplied "api_key" overrides the client's. */
    method GetEndpoint(endpoint: string, params: Params, response: Response) returns (call: Outcome)
      requires DistinctKeys(params)
      ensures call.Sent? && call.request.url == JoinUrl(baseUrl, endpoint)
      ensures KeyMerged(call.request.params, apiKey, params)
      ensures call.request.timeoutSeconds == timeoutSeconds && call.result == Classify(response)
    {
      var request, result := PerformGet(baseUrl, endpoint, apiKey, timeoutSeconds, params, response);
      QueryMerged(apiKey, params);
      call := Sent(request, result);
    }
  }

  /** The literal three-entry queries of the convenience methods have
      distinct keys and no "api_key". */
  lemma ThreeKeys(params: Params)
    requires |params| == 3
    requires params[0].0 != params[1].0 && params[0].0 != params[2].0 && params[1].0 != params[2].0
    requires params[0].0 != API_KEY && params[1].0 != API_KEY && params[2].0 != API_KEY
    ensures DistinctKeys(params) && API_KEY !in Keys(params)
  {
    KeysAt(params);
  }
}
