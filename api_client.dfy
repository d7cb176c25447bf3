/**
 * `ApiClient`: builds a request from a normalised root URL, an endpoint, the
 * default and per-call query parameters, body parameters and headers; hands it
 * to the transport; remembers the last response; and, for the `*Data` calls,
 * decodes the body and insists on status 200.
 */
module Client {
  import opened Wrappers
  import opened Strings
  import opened OrderedMaps
  import opened QueryStrings
  import opened Http
  import opened Json
  import opened Exceptions
  import opened JsonParser

  // ---------------------------------------------------------------------------
  // The root URL

  /** Ends in `/`, and in only one. */
  predicate IsNormalizedRoot(s: string) {
    |s| > 0 && s[|s| - 1] == '/' && (|s| == 1 || s[|s| - 2] != '/')
  }

  /** `setApiRootUrl`: the URL without its trailing slashes, then one slash. */
  function NormalizeRoot(url: string): (root: string)
    ensures IsNormalizedRoot(root)
    ensures |root| - 1 <= |url| && root[..|root| - 1] == url[..|root| - 1]
    ensures forall i | |root| - 1 <= i < |url| :: url[i] == '/'
  {
    RTrim(url, '/') + "/"
  }

  /** A root that already ends in exactly one slash is kept as it is. */
  lemma NormalizedRootIsFixed(root: string)
    requires IsNormalizedRoot(root)
    ensures NormalizeRoot(root) == root
  {
    var stem := root[..|root| - 1];
    assert root == stem + "/";
    assert RTrim(root, '/') == RTrim(stem, '/');
  }

  /** Normalising twice is normalising once. */
  lemma NormalizeRootIdempotent(url: string)
    ensures NormalizeRoot(NormalizeRoot(url)) == NormalizeRoot(url)
  {
    NormalizedRootIsFixed(NormalizeRoot(url));
  }

  /** However many slashes the URL ends in, the root is the same. */
  lemma NormalizeRootIgnoresTrailingSlashes(url: string, n: nat)
    ensures NormalizeRoot(url + Repeat('/', n)) == NormalizeRoot(url)
  {
    RTrimIgnoresTrailing(url, '/', n);
  }

  /** The trailing-slash table: none, one, three, and the empty URL. */
  lemma TrailingSlashExamples()
    ensures NormalizeRoot("https://example.com") == "https://example.com/"
    ensures NormalizeRoot("https://example.com/") == "https://example.com/"
    ensures NormalizeRoot("https://example.com///") == "https://example.com/"
    ensures NormalizeRoot("") == "/"
  {
    var u := "https://example.com";
    assert u[|u| - 1] == 'm';
    assert RTrim(u, '/') == u;
    NormalizeRootIgnoresTrailingSlashes(u, 1);
    NormalizeRootIgnoresTrailingSlashes(u, 3);
    assert u + Repeat('/', 1) == "https://example.com/";
    assert u + Repeat('/', 3) == "https://example.com///";
  }

  // ---------------------------------------------------------------------------
  // The request URL and its query string

  /**
   * The root without its trailing slashes, one slash, and the endpoint
   * without its leading slashes: exactly one slash at the join.
   */
  function RequestUrl(root: string, endpoint: string): (url: string)
    ensures var j := |RTrim(root, '/')|;
            && j < |url| && url[..j] == root[..j] && (forall i | j <= i < |root| :: root[i] == '/')
            && url[j] == '/' && (j == 0 || url[j - 1] != '/') && (j + 1 == |url| || url[j + 1] != '/')
            && var path := url[j + 1..];
               |path| <= |endpoint| && path == endpoint[|endpoint| - |path|..]
               && forall i | 0 <= i < |endpoint| - |path| :: endpoint[i] == '/'
  {
    var base, path := RTrim(root, '/'), LTrim(endpoint, '/');
    var url := base + "/" + path;
    assert url[..|base|] == base && url[|base| + 1..] == path;
    url
  }

  /** "test", "/test" and "///test" reach the same URL. */
  lemma EndpointLeadingSlashesIgnored(root: string, endpoint: string, n: nat)
    ensures RequestUrl(root, Repeat('/', n) + endpoint) == RequestUrl(root, endpoint)
  {
    LTrimIgnoresLeading(endpoint, '/', n);
  }

  /** Under a normalised root the URL is the root followed by the endpoint's path. */
  lemma RequestUrlUnderRoot(url: string, endpoint: string)
    ensures RequestUrl(NormalizeRoot(url), endpoint) == NormalizeRoot(url) + LTrim(endpoint, '/')
  {
    var root := NormalizeRoot(url);
    assert root == RTrim(url, '/') + "/";
    assert RTrim(root, '/') == RTrim(url, '/') by {
      assert root[..|root| - 1] == RTrim(url, '/');
    }
  }

  /**
   * Appends the query string: after `&` if the URL already has a `?`, after
   * `?` otherwise; even an empty query string is appended.
   */
  function AppendQuery(url: string, query: string): (r: string)
    ensures |r| == |url| + 1 + |query| && r[..|url|] == url && r[|url| + 1..] == query
    ensures r[|url|] in "?&" && (r[|url|] == '?' <==> '?' !in url)
    ensures '?' in r
  {
    var r := url + (if '?' in url then "&" else "?") + query;
    assert r[|url|] in r;
    r
  }

  /** With nothing to add, a URL without a query gets a bare trailing `?`. */
  lemma EmptyQueryLeavesQuestionMark(url: string)
    requires '?' !in url
    ensures AppendQuery(url, BuildQuery(Empty)) == url + "?"
  {
  }

  // ---------------------------------------------------------------------------
  // The request

  /** The headers sent: untouched for GET, with `content-type` forced to the form type otherwise. */
  function RequestHeaders(verb: string, headers: Dict): (r: Dict)
    ensures verb == MethodGet ==> r == headers
    ensures verb != MethodGet ==>
              && OrderedMaps.Get(r, ContentTypeHeader) == Some(FormContentType)
              && (forall k | k != ContentTypeHeader :: OrderedMaps.Get(r, k) == OrderedMaps.Get(headers, k))
              && r.keys == (if ContentTypeHeader in headers.keys then headers.keys else headers.keys + [ContentTypeHeader])
  {
    if verb == MethodGet then headers else OrderedMaps.Put(headers, ContentTypeHeader, FormContentType)
  }

  /** The body sent: none for GET, otherwise the form encoding, which reads back as the body parameters. */
  function RequestBody(verb: string, bodyParameters: Dict): (body: Option<string>)
    ensures body.None? <==> verb == MethodGet
    ensures body.Some? && Plain(bodyParameters) ==> ParseQuery(body.value) == Entries(bodyParameters)
  {
    if verb == MethodGet then None
    else
      var form := BuildQuery(bodyParameters);
      assert Plain(bodyParameters) ==> ParseQuery(form) == Entries(bodyParameters) by {
        if Plain(bodyParameters) { ParseBuildQuery(bodyParameters); }
      }
      Some(form)
  }

  /** What `request` hands to the transport, given the root and the defaults read at the call. */
  function BuildRequest(root: string, defaults: Dict, verb: string, endpoint: string,
                        bodyParameters: Dict, queryParameters: Dict, headers: Dict): (req: HttpRequest)
    ensures req.verb == verb
    ensures verb == MethodGet ==> req.body == None && req.headers == headers
    ensures verb != MethodGet ==>
              && req.body == Some(BuildQuery(bodyParameters))
              && OrderedMaps.Get(req.headers, ContentTypeHeader) == Some(FormContentType)
              && (forall k | k != ContentTypeHeader :: OrderedMaps.Get(req.headers, k) == OrderedMaps.Get(headers, k))
              && req.headers.keys == (if ContentTypeHeader in headers.keys then headers.keys
                                      else headers.keys + [ContentTypeHeader])
  {
    HttpRequest(verb,
                AppendQuery(RequestUrl(root, endpoint), BuildQuery(Merge(defaults, queryParameters))),
                RequestHeaders(verb, headers),
                RequestBody(verb, bodyParameters))
  }

  /**
   * The query string of the URL reads back as the merged parameters: each
   * per-call parameter with its value, each other default with its value, the
   * defaults' order first and the per-call parameters' new keys after.
   */
  lemma RequestQueryIsMerged(root: string, defaults: Dict, verb: string, endpoint: string,
                             bodyParameters: Dict, queryParameters: Dict, headers: Dict)
    requires Plain(Merge(defaults, queryParameters))
    ensures var url := BuildRequest(root, defaults, verb, endpoint, bodyParameters, queryParameters, headers).url;
            var base := RequestUrl(root, endpoint);
            var merged := Merge(defaults, queryParameters);
            && url[..|base|] == base
            && ParseQuery(url[|base| + 1..]) == Entries(merged)
            && merged.keys == defaults.keys + NewKeys(queryParameters.keys, defaults.keys)
            && (forall k | k in queryParameters.keys :: OrderedMaps.Get(merged, k) == OrderedMaps.Get(queryParameters, k))
            && (forall k | k !in queryParameters.keys :: OrderedMaps.Get(merged, k) == OrderedMaps.Get(defaults, k))
  {
    var merged := Merge(defaults, queryParameters);
    RequestCarriesQuery(root, defaults, verb, endpoint, bodyParameters, queryParameters, headers);
    MergeKeys(defaults, queryParameters);
    forall k ensures OrderedMaps.Get(merged, k) == if k in queryParameters.keys then OrderedMaps.Get(queryParameters, k)
                                                   else OrderedMaps.Get(defaults, k) {
      MergeGet(defaults, queryParameters, k);
    }
  }

  /** The URL sent is the base URL, a separator and a query that parses back to the merged parameters. */
  lemma RequestCarriesQuery(root: string, defaults: Dict, verb: string, endpoint: string,
                            bodyParameters: Dict, queryParameters: Dict, headers: Dict)
    requires Plain(Merge(defaults, queryParameters))
    ensures var url := BuildRequest(root, defaults, verb, endpoint, bodyParameters, queryParameters, headers).url;
            var base := RequestUrl(root, endpoint);
            && |base| < |url| && url[..|base|] == base
            && ParseQuery(url[|base| + 1..]) == Entries(Merge(defaults, queryParameters))
  {
    var merged := Merge(defaults, queryParameters);
    var base := RequestUrl(root, endpoint);
    assert BuildRequest(root, defaults, verb, endpoint, bodyParameters, queryParameters, headers).url
           == AppendQuery(base, BuildQuery(merged));
    ParseBuildQuery(merged);
  }

  /**
   * The `getDefaultQueryParameters` override of the time-stamping fixture: the
   * stored defaults plus `time`, the clock's reading in decimal.
   */
  function TimeStamped(stored: Dict, now: nat): (r: Dict)
    ensures OrderedMaps.Get(r, "time") == Some(NatToString(now))
    ensures forall k | k != "time" :: OrderedMaps.Get(r, k) == OrderedMaps.Get(stored, k)
  {
    OrderedMaps.Put(stored, "time", NatToString(now))
  }

  /** The fixture's `array_merge` with the one entry `time` is the same as assigning `time`. */
  lemma TimeStampedIsMerge(stored: Dict, now: nat)
    ensures TimeStamped(stored, now) == Merge(stored, OrderedMap(["time"], map["time" := NatToString(now)]))
  {
    var single: Dict := OrderedMap(["time"], map["time" := NatToString(now)]);
    var merged, stamped := Merge(stored, single), TimeStamped(stored, now);
    MergeKeys(stored, single);
    assert single.keys[1..] == [];
    forall k | k in merged.keys ensures OrderedMaps.Get(merged, k) == OrderedMaps.Get(stamped, k) {
      MergeGet(stored, single, k);
    }
    Extensionality(merged, stamped);
  }

  /** The decimal text of a reading holds neither `&` nor `=`. */
  lemma DigitsArePlain(s: string)
    requires IsDigits(s)
    ensures '&' !in s && '=' !in s
  {
    forall i | 0 <= i < |s| ensures s[i] != '&' && s[i] != '=' {
      assert '0' <= s[i] <= '9';
    }
  }

  /**
   * Defaults are read at every call: under the time-stamping provider two
   * different clock readings send different URLs.
   */
  lemma FreshDefaultsReachTheUrl(root: string, stored: Dict, t1: nat, t2: nat, verb: string,
                                 endpoint: string, bodyParameters: Dict, queryParameters: Dict, headers: Dict)
    requires t1 != t2 && "time" !in queryParameters.keys
    requires Plain(stored) && Plain(queryParameters)
    ensures BuildRequest(root, TimeStamped(stored, t1), verb, endpoint, bodyParameters, queryParameters, headers).url
            != BuildRequest(root, TimeStamped(stored, t2), verb, endpoint, bodyParameters, queryParameters, headers).url
  {
    var s1, s2 := NatToString(t1), NatToString(t2);
    if s1 == s2 { NatToStringInjective(t1, t2); }
    DigitsArePlain(s1);
    DigitsArePlain(s2);
    PlainPut(stored, "time", s1);
    PlainPut(stored, "time", s2);
    PlainMerge(TimeStamped(stored, t1), queryParameters);
    PlainMerge(TimeStamped(stored, t2), queryParameters);
    var m1 := Merge(TimeStamped(stored, t1), queryParameters);
    var m2 := Merge(TimeStamped(stored, t2), queryParameters);
    MergeGet(TimeStamped(stored, t1), queryParameters, "time");
    MergeGet(TimeStamped(stored, t2), queryParameters, "time");
    assert m1 != m2 by {
      assert OrderedMaps.Get(m1, "time") == Some(s1) && OrderedMaps.Get(m2, "time") == Some(s2);
    }
    var base := RequestUrl(root, endpoint);
    var u1 := AppendQuery(base, BuildQuery(m1));
    var u2 := AppendQuery(base, BuildQuery(m2));
    if u1 == u2 {
      assert u1[|base| + 1..] == BuildQuery(m1) && u2[|base| + 1..] == BuildQuery(m2);
      BuildQueryInjective(m1, m2);
    }
  }

  /** `requestData` after the response came back: parse first, then insist on status 200. */
  function DataOutcome(decode: Decoder, response: Response): (r: Result<Json, Exception>)
    ensures r.Success? <==> response.status == 200 && ParseJsonResponse(decode, response).Success?
    ensures r.Success? ==> r == ParseJsonResponse(decode, response)
    ensures ParseJsonResponse(decode, response).Failure? ==> r == ParseJsonResponse(decode, response)
    ensures ParseJsonResponse(decode, response).Success? && response.status != 200 ==>
              r == Failure(NewApiError(response, ParseJsonResponse(decode, response).value))
  {
    match ParseJsonResponse(decode, response)
    case Failure(e) => Failure(e)
    case Success(data) =>
      if response.status != 200 then Failure(NewApiError(response, data)) else Success(data)
  }

  /** A body that is not JSON raises the malformed-response error whatever the status. */
  lemma MalformedBeforeStatus(decode: Decoder, response: Response)
    requires decode(response.body).Failure?
    ensures var r := DataOutcome(decode, response);
            r.Failure? && r.error.MalformedApiResponse? && r.error.GetResponse() == response
  {
  }

  /** A parsed body with a status other than 200 raises `ApiErrorException` with that response and data. */
  lemma NonOkStatusRaisesApiError(decode: Decoder, response: Response)
    requires decode(response.body).Success? && response.status != 200
    ensures var r := DataOutcome(decode, response);
            && r.Failure? && r.error.ApiError?
            && r.error.GetResponse() == response && r.error.GetData() == decode(response.body).value
            && r.error.GetMessage() == ApiErrorMessage(response.status)
  {
  }

  // ---------------------------------------------------------------------------
  // The client

  /** The clock `microtime` reads, in microseconds; only sleeping moves it. */
  class Clock {
    var now: nat

    constructor (start: nat)
      ensures now == start
    {
      now := start;
    }

    /** `usleep($micros)` */
    method Sleep(micros: nat)
      modifies this
      ensures now == old(now) + micros
    {
      now := now + micros;
    }
  }

  class ApiClient {
    var apiRootUrl: string
    var defaultQueryParameters: Dict
    var lastResponse: Option<Response>
    /** `json_decode`, as the parser uses it. */
    const decoder: Decoder
    /** What `getDefaultQueryParameters` makes of the stored defaults at a clock reading (an override's hook). */
    const defaultsProvider: (Dict, nat) -> Dict
    /** The clock an override may read. */
    const clock: Clock
    /** Every request handed to the transport so far, oldest first. */
    ghost var sent: seq<HttpRequest>

    ghost predicate Valid()
      reads this
    {
      IsNormalizedRoot(apiRootUrl)
    }

    /** `new ApiClient($apiUrl)`: the stored defaults are returned as they are, whatever the time. */
    constructor (apiUrl: string, decoder: Decoder)
      ensures Valid() && apiRootUrl == NormalizeRoot(apiUrl)
      ensures defaultQueryParameters == Empty && lastResponse == None && sent == []
      ensures this.decoder == decoder && forall d, t :: defaultsProvider(d, t) == d
    {
      this.decoder := decoder;
      defaultsProvider := (d, t) => d;
      clock := new Clock(0);
      defaultQueryParameters := Empty;
      lastResponse := None;
      sent := [];
      new;
      SetApiRootUrl(apiUrl);
    }

    /** A client whose `getDefaultQueryParameters` is overridden by `provider`, reading `clock`. */
    constructor WithDefaultsProvider(apiUrl: string, decoder: Decoder, provider: (Dict, nat) -> Dict, clock: Clock)
      ensures Valid() && apiRootUrl == NormalizeRoot(apiUrl)
      ensures defaultQueryParameters == Empty && lastResponse == None && sent == []
      ensures this.decoder == decoder && defaultsProvider == provider && this.clock == clock
    {
      this.decoder := decoder;
      defaultsProvider := provider;
      this.clock := clock;
      defaultQueryParameters := Empty;
      lastResponse := None;
      sent := [];
      new;
      SetApiRootUrl(apiUrl);
    }

    /** `getApiRootUrl()` */
    function GetApiRootUrl(): (root: string)
      reads this
      requires Valid()
      ensures IsNormalizedRoot(root)
    {
      apiRootUrl
    }

    /** `setApiRootUrl($apiRootUrl)` */
    method SetApiRootUrl(url: string)
      modifies this`apiRootUrl
      ensures Valid() && apiRootUrl == NormalizeRoot(url)
    {
      apiRootUrl := RTrim(url, '/') + "/";
    }

    /** `getDefaultQueryParameters()`, read afresh by every request. */
    function GetDefaultQueryParameters(): (r: Dict)
      reads this, clock
      ensures (forall d, t :: defaultsProvider(d, t) == d) ==> r == defaultQueryParameters
    {
      defaultsProvider(defaultQueryParameters, clock.now)
    }

    /** `addDefaultQueryParameter($key, $value)` */
    method AddDefaultQueryParameter(key: string, value: string)
      modifies this`defaultQueryParameters
      ensures defaultQueryParameters == OrderedMaps.Put(old(defaultQueryParameters), key, value)
    {
      defaultQueryParameters := OrderedMaps.Put(defaultQueryParameters, key, value);
    }

    /** `removeDefaultQueryParameter($key)` */
    method RemoveDefaultQueryParameter(key: string)
      modifies this`defaultQueryParameters
      ensures defaultQueryParameters == OrderedMaps.Remove(old(defaultQueryParameters), key)
    {
      defaultQueryParameters := OrderedMaps.Remove(defaultQueryParameters, key);
    }

    /** `getLastResponse()`: `None` until a request has come back. */
    function GetLastResponse(): Option<Response>
      reads this
    {
      lastResponse
    }

    /** `parseResponse($response)` */
    function ParseResponse(response: Response): (r: Result<Json, Exception>)
      ensures r.Success? <==> decoder(response.body).Success?
      ensures r.Success? ==> r.value == decoder(response.body).value
      ensures r.Failure? ==> r.error.MalformedApiResponse? && r.error.GetResponse() == response
    {
      ParseJsonResponse(decoder, response)
    }

    /** The request a call with these arguments builds now: the stored root and the defaults read now. */
    function NextRequest(verb: string, endpoint: string, bodyParameters: Dict, queryParameters: Dict,
                         headers: Dict): HttpRequest
      reads this, clock
    {
      BuildRequest(apiRootUrl, GetDefaultQueryParameters(), verb, endpoint, bodyParameters, queryParameters, headers)
    }

    /**
     * The call sent exactly the request built from the root and the defaults
     * read at the call; a response is remembered, a transport failure leaves
     * the last response as it was.
     */
    twostate predicate Dispatched(verb: string, endpoint: string, bodyParameters: Dict,
                                  queryParameters: Dict, headers: Dict, new r: Result<Response, Exception>)
      reads this, clock
    {
      && sent == old(sent) + [old(NextRequest(verb, endpoint, bodyParameters, queryParameters, headers))]
      && (r.Success? ==> lastResponse == Some(r.value))
      && (r.Failure? ==> r.error.Transport? && lastResponse == old(lastResponse))
    }

    /** As Dispatched, and the outcome is the data rule applied to the response now remembered. */
    twostate predicate DispatchedData(verb: string, endpoint: string, bodyParameters: Dict,
                                      queryParameters: Dict, headers: Dict, new r: Result<Json, Exception>)
      reads this, clock
    {
      && sent == old(sent) + [old(NextRequest(verb, endpoint, bodyParameters, queryParameters, headers))]
      && (r.Failure? && r.error.Transport? ==> lastResponse == old(lastResponse))
      && (!(r.Failure? && r.error.Transport?) ==> lastResponse.Some? && r == DataOutcome(decoder, lastResponse.value))
    }

    /** The first half of `request`: the request it builds, before anything is sent. */
    method PrepareRequest(verb: string, endpoint: string, bodyParameters: Dict, queryParameters: Dict, headers: Dict)
      returns (request: HttpRequest)
      ensures request == BuildRequest(apiRootUrl, GetDefaultQueryParameters(), verb, endpoint,
                                      bodyParameters, queryParameters, headers)
    {
      var url := RTrim(apiRootUrl, '/') + "/" + LTrim(endpoint, '/');
      assert url == RequestUrl(apiRootUrl, endpoint);
      var query := Merge(GetDefaultQueryParameters(), queryParameters);
      var requestHeaders := headers;
      var body: Option<string>;
      if verb == MethodGet {
        body := None;
      } else {
        requestHeaders := OrderedMaps.Put(requestHeaders, ContentTypeHeader, FormContentType);
        body := Some(BuildQuery(bodyParameters));
      }
      ghost var path := url;
      url := url + (if '?' in url then "&" else "?") + BuildQuery(query);
      assert url == AppendQuery(path, BuildQuery(query));
      request := HttpRequest(verb, url, requestHeaders, body);
    }

    /** `request($method, $endpoint, $bodyParameters, $queryParameters, $headers)` */
    method Request(verb: string, endpoint: string, bodyParameters: Dict := Empty, queryParameters: Dict := Empty, headers: Dict := Empty)
      returns (r: Result<Response, Exception>)
      modifies this`lastResponse, this`sent
      ensures Dispatched(verb, endpoint, bodyParameters, queryParameters, headers, r)
    {
      ghost var expected := NextRequest(verb, endpoint, bodyParameters, queryParameters, headers);
      assert expected == old(NextRequest(verb, endpoint, bodyParameters, queryParameters, headers));
      var request := PrepareRequest(verb, endpoint, bodyParameters, queryParameters, headers);
      sent := sent + [request];
      ghost var log := sent;
      assert log == old(sent) + [expected];
      var outcome := Send(request);
      match outcome
      case Failure(reason) =>
        r := Failure(Transport(reason));
      case Success(response) =>
        lastResponse := Some(response);
        r := Success(response);
        assert sent == log;
    }

    /** `requestData(...)`: the decoded body of a 200 response, or the error. */
    method RequestData(verb: string, endpoint: string, bodyParameters: Dict := Empty, queryParameters: Dict := Empty, headers: Dict := Empty)
      returns (r: Result<Json, Exception>)
      modifies this`lastResponse, this`sent
      ensures DispatchedData(verb, endpoint, bodyParameters, queryParameters, headers, r)
    {
      var outcome := Request(verb, endpoint, bodyParameters, queryParameters, headers);
      match outcome
      case Failure(e) =>
        r := Failure(e);
      case Success(response) =>
        var parsed := ParseResponse(response);
        match parsed
        case Failure(e) =>
          r := Failure(e);
        case Success(data) =>
          if response.status != 200 {
            r := Failure(NewApiError(response, data));
          } else {
            r := Success(data);
          }
    }

    /** `get($endpoint, $queryParameters, $headers)`: GET with no body parameters. */
    method Get(endpoint: string, queryParameters: Dict := Empty, headers: Dict := Empty) returns (r: Result<Response, Exception>)
      modifies this`lastResponse, this`sent
      ensures Dispatched(MethodGet, endpoint, Empty, queryParameters, headers, r)
    {
      r := Request(MethodGet, endpoint, Empty, queryParameters, headers);
    }

    /** `getData(...)`; the data equals what parsing the last response again gives. */
    method GetData(endpoint: string, queryParameters: Dict := Empty, headers: Dict := Empty) returns (r: Result<Json, Exception>)
      modifies this`lastResponse, this`sent
      ensures DispatchedData(MethodGet, endpoint, Empty, queryParameters, headers, r)
      ensures r.Success? ==> GetLastResponse().Some? && ParseResponse(GetLastResponse().value) == r
    {
      r := RequestData(MethodGet, endpoint, Empty, queryParameters, headers);
    }

    /** `post(...)` */
    method Post(endpoint: string, bodyParameters: Dict := Empty, queryParameters: Dict := Empty, headers: Dict := Empty)
      returns (r: Result<Response, Exception>)
      modifies this`lastResponse, this`sent
      ensures Dispatched(MethodPost, endpoint, bodyParameters, queryParameters, headers, r)
    {
      r := Request(MethodPost, endpoint, bodyParameters, queryParameters, headers);
    }

    /** `postData(...)` */
    method PostData(endpoint: string, bodyParameters: Dict := Empty, queryParameters: Dict := Empty, headers: Dict := Empty)
      returns (r: Result<Json, Exception>)
      modifies this`lastResponse, this`sent
      ensures DispatchedData(MethodPost, endpoint, bodyParameters, queryParameters, headers, r)
    {
      r := RequestData(MethodPost, endpoint, bodyParameters, queryParameters, headers);
    }

    /** `put(...)` */
    method Put(endpoint: string, bodyParameters: Dict := Empty, queryParameters: Dict := Empty, headers: Dict := Empty)
      returns (r: Result<Response, Exception>)
      modifies this`lastResponse, this`sent
      ensures Dispatched(MethodPut, endpoint, bodyParameters, queryParameters, headers, r)
    {
      r := Request(MethodPut, endpoint, bodyParameters, queryParameters, headers);
    }

    /** `putData(...)`, which as written sends POST, not PUT. */
    method PutData(endpoint: string, bodyParameters: Dict := Empty, queryParameters: Dict := Empty, headers: Dict := Empty)
      returns (r: Result<Json, Exception>)
      modifies this`lastResponse, this`sent
      ensures DispatchedData(MethodPost, endpoint, bodyParameters, queryParameters, headers, r)
    {
      r := RequestData(MethodPost, endpoint, bodyParameters, queryParameters, headers);
    }

    /** `patch(...)` */
    method Patch(endpoint: string, bodyParameters: Dict := Empty, queryParameters: Dict := Empty, headers: Dict := Empty)
      returns (r: Result<Response, Exception>)
      modifies this`lastResponse, this`sent
      ensures Dispatched(MethodPatch, endpoint, bodyParameters, queryParameters, headers, r)
    {
      r := Request(MethodPatch, endpoint, bodyParameters, queryParameters, headers);
    }

    /** `patchData(...)`, which as written sends POST, not PATCH. */
    method PatchData(endpoint: string, bodyParameters: Dict := Empty, queryParameters: Dict := Empty, headers: Dict := Empty)
      returns (r: Result<Json, Exception>)
      modifies this`lastResponse, this`sent
      ensures DispatchedData(MethodPost, endpoint, bodyParameters, queryParameters, headers, r)
    {
      r := RequestData(MethodPost, endpoint, bodyParameters, queryParameters, headers);
    }

    /** `delete(...)` */
    method Delete(endpoint: string, bodyParameters: Dict := Empty, queryParameters: Dict := Empty, headers: Dict := Empty)
      returns (r: Result<Response, Exception>)
      modifies this`lastResponse, this`sent
      ensures Dispatched(MethodDelete, endpoint, bodyParameters, queryParameters, headers, r)
    {
      r := Request(MethodDelete, endpoint, bodyParameters, queryParameters, headers);
    }

    /** `deleteData(...)`, which as written sends POST, not DELETE. */
    method DeleteData(endpoint: string, bodyParameters: Dict := Empty, queryParameters: Dict := Empty, headers: Dict := Empty)
      returns (r: Result<Json, Exception>)
      modifies this`lastResponse, this`sent
      ensures DispatchedData(MethodPost, endpoint, bodyParameters, queryParameters, headers, r)
    {
      r := RequestData(MethodPost, endpoint, bodyParameters, queryParameters, headers);
    }

    /** `putData` as its name and the other wrappers intend it: PUT data. */
    method IntendedPutData(endpoint: string, bodyParameters: Dict := Empty, queryParameters: Dict := Empty,
                           headers: Dict := Empty) returns (r: Result<Json, Exception>)
      modifies this`lastResponse, this`sent
      ensures DispatchedData(MethodPut, endpoint, bodyParameters, queryParameters, headers, r)
    {
      r := RequestData(MethodPut, endpoint, bodyParameters, queryParameters, headers);
    }

    /** `patchData` as intended: PATCH data. */
    method IntendedPatchData(endpoint: string, bodyParameters: Dict := Empty, queryParameters: Dict := Empty,
                             headers: Dict := Empty) returns (r: Result<Json, Exception>)
      modifies this`lastResponse, this`sent
      ensures DispatchedData(MethodPatch, endpoint, bodyParameters, queryParameters, headers, r)
    {
      r := RequestData(MethodPatch, endpoint, bodyParameters, queryParameters, headers);
    }

    /** `deleteData` as intended: DELETE data. */
    method IntendedDeleteData(endpoint: string, bodyParameters: Dict := Empty, queryParameters: Dict := Empty,
                              headers: Dict := Empty) returns (r: Result<Json, Exception>)
      modifies this`lastResponse, this`sent
      ensures DispatchedData(MethodDelete, endpoint, bodyParameters, queryParameters, headers, r)
    {
      r := RequestData(MethodDelete, endpoint, bodyParameters, queryParameters, headers);
    }
  }

  /**
   * `put` sends PUT, `putData` as written sends POST, the intended
   * `putData` sends PUT: the three requests logged in that order.
   */
  method PutWrapperVerbs(client: ApiClient, endpoint: string)
    modifies client`lastResponse, client`sent
    ensures |client.sent| == |old(client.sent)| + 3
    ensures var n := |old(client.sent)|;
            && client.sent[n].verb == MethodPut
            && client.sent[n + 1].verb == MethodPost
            && client.sent[n + 2].verb == MethodPut
  {
    var response := client.Put(endpoint);
    var data := client.PutData(endpoint);
    data := client.IntendedPutData(endpoint);
  }

  /** The same for `patch`, `patchData` as written and as intended. */
  method PatchWrapperVerbs(client: ApiClient, endpoint: string)
    modifies client`lastResponse, client`sent
    ensures |client.sent| == |old(client.sent)| + 3
    ensures var n := |old(client.sent)|;
            && client.sent[n].verb == MethodPatch
            && client.sent[n + 1].verb == MethodPost
            && client.sent[n + 2].verb == MethodPatch
  {
    var response := client.Patch(endpoint);
    var data := client.PatchData(endpoint);
    data := client.IntendedPatchData(endpoint);
  }

  /** The same for `delete`, `deleteData` as written and as intended. */
  method DeleteWrapperVerbs(client: ApiClient, endpoint: string)
    modifies client`lastResponse, client`sent
    ensures |client.sent| == |old(client.sent)| + 3
    ensures var n := |old(client.sent)|;
            && client.sent[n].verb == MethodDelete
            && client.sent[n + 1].verb == MethodPost
            && client.sent[n + 2].verb == MethodDelete
  {
    var response := client.Delete(endpoint);
    var data := client.DeleteData(endpoint);
    data := client.IntendedDeleteData(endpoint);
  }

  /**
   * A provider that turns any two different clock readings into two
   * different GET URLs for `endpoint` under `root` and the stored defaults.
   */
  ghost predicate SeparatesReadings(provider: (Dict, nat) -> Dict, root: string, stored: Dict, endpoint: string) {
    forall t, t' | t < t' ::
      BuildRequest(root, provider(stored, t), MethodGet, endpoint, Empty, Empty, Empty).url
      != BuildRequest(root, provider(stored, t'), MethodGet, endpoint, Empty, Empty, Empty).url
  }

  /** The time-stamping override separates readings whenever the stored defaults are plain. */
  lemma TimeStampedSeparatesReadings(root: string, stored: Dict, endpoint: string)
    requires Plain(stored)
    ensures SeparatesReadings(TimeStamped, root, stored, endpoint)
  {
    forall t, t' | t < t'
      ensures BuildRequest(root, TimeStamped(stored, t), MethodGet, endpoint, Empty, Empty, Empty).url
              != BuildRequest(root, TimeStamped(stored, t'), MethodGet, endpoint, Empty, Empty, Empty).url
    {
      FreshDefaultsReachTheUrl(root, stored, t, t', MethodGet, endpoint, Empty, Empty, Empty);
    }
  }

  /** Clock readings, each later than the one before. */
  ghost predicate Increasing(readings: seq<nat>) {
    forall i, j | 0 <= i < j < |readings| :: readings[i] < readings[j]
  }

  /**
   * `log` holds one GET of `endpoint` per clock reading of `readings`, each
   * built from the defaults the provider gave for its reading.
   */
  ghost predicate Matches(log: seq<HttpRequest>, provider: (Dict, nat) -> Dict, root: string, stored: Dict,
                          endpoint: string, readings: seq<nat>) {
    && |log| == |readings|
    && forall i {:trigger log[i]} | 0 <= i < |log| ::
         log[i] == BuildRequest(root, provider(stored, readings[i]), MethodGet, endpoint, Empty, Empty, Empty)
  }

  /** The log of successive GETs at increasing readings. */
  ghost predicate LoggedReadings(log: seq<HttpRequest>, provider: (Dict, nat) -> Dict, root: string, stored: Dict,
                                 endpoint: string, readings: seq<nat>) {
    Increasing(readings) && Matches(log, provider, root, stored, endpoint, readings)
  }

  /**
   * One `get(endpoint)` at a reading later than every earlier one: the log
   * gains the request built for that reading.
   */
  method LoggedGet(client: ApiClient, endpoint: string, ghost root: string, ghost stored: Dict,
                   ghost provider: (Dict, nat) -> Dict, ghost readings: seq<nat>, ghost t: nat)
    returns (r: Result<Response, Exception>)
    requires client.apiRootUrl == root && client.defaultQueryParameters == stored && client.defaultsProvider == provider
    requires client.clock.now == t && (readings == [] || readings[|readings| - 1] < t)
    requires LoggedReadings(client.sent, provider, root, stored, endpoint, readings)
    modifies client`lastResponse, client`sent
    ensures LoggedReadings(client.sent, provider, root, stored, endpoint, readings + [t])
  {
    ghost var request := client.NextRequest(MethodGet, endpoint, Empty, Empty, Empty);
    r := client.Get(endpoint);
    LoggedReadingsSnoc(old(client.sent), request, provider, root, stored, endpoint, readings, t);
  }

  /** A request for a later reading extends the log. */
  lemma LoggedReadingsSnoc(log: seq<HttpRequest>, request: HttpRequest, provider: (Dict, nat) -> Dict, root: string,
                           stored: Dict, endpoint: string, readings: seq<nat>, t: nat)
    requires LoggedReadings(log, provider, root, stored, endpoint, readings)
    requires readings == [] || readings[|readings| - 1] < t
    requires request == BuildRequest(root, provider(stored, t), MethodGet, endpoint, Empty, Empty, Empty)
    ensures LoggedReadings(log + [request], provider, root, stored, endpoint, readings + [t])
  {
    IncreasingSnoc(readings, t);
    MatchesSnoc(log, request, provider, root, stored, endpoint, readings, t);
  }

  /** A reading after the last one keeps the readings increasing. */
  lemma IncreasingSnoc(readings: seq<nat>, t: nat)
    requires Increasing(readings)
    requires readings == [] || readings[|readings| - 1] < t
    ensures Increasing(readings + [t])
  {
    var later := readings + [t];
    forall i, j | 0 <= i < j < |later| ensures later[i] < later[j] {
      if j < |readings| {
        assert later[i] == readings[i] && later[j] == readings[j];
      } else {
        assert later[i] == readings[i] && later[j] == t;
        assert readings[i] <= readings[|readings| - 1];
      }
    }
  }

  /** The request for a new reading, appended, keeps the log matching its readings. */
  lemma MatchesSnoc(log: seq<HttpRequest>, request: HttpRequest, provider: (Dict, nat) -> Dict, root: string,
                    stored: Dict, endpoint: string, readings: seq<nat>, t: nat)
    requires Matches(log, provider, root, stored, endpoint, readings)
    requires request == BuildRequest(root, provider(stored, t), MethodGet, endpoint, Empty, Empty, Empty)
    ensures Matches(log + [request], provider, root, stored, endpoint, readings + [t])
  {
    var log', later := log + [request], readings + [t];
    forall i | 0 <= i < |log'|
      ensures log'[i] == BuildRequest(root, provider(stored, later[i]), MethodGet, endpoint, Empty, Empty, Empty)
    {
      if i < |log| {
        assert log'[i] == log[i] && later[i] == readings[i];
      }
    }
  }

  /** Under a provider that separates readings, the log's URLs are pairwise different. */
  lemma LoggedReadingsApart(log: seq<HttpRequest>, provider: (Dict, nat) -> Dict, root: string, stored: Dict,
                            endpoint: string, readings: seq<nat>)
    requires LoggedReadings(log, provider, root, stored, endpoint, readings)
    requires SeparatesReadings(provider, root, stored, endpoint)
    ensures forall i, j | 0 <= i < j < |log| :: log[i].url != log[j].url
  {
    forall i, j | 0 <= i < j < |log| ensures log[i].url != log[j].url {
      assert readings[i] < readings[j];
    }
  }

  /**
   * Three GETs of `endpoint` from one client, with the clock moved on
   * between them: under a provider that separates readings, three
   * different URLs are sent.
   */
  method VariableDefaultsScenario(apiUrl: string, endpoint: string, decoder: Decoder, provider: (Dict, nat) -> Dict,
                                  clock: Clock)
    returns (client: ApiClient)
    requires SeparatesReadings(provider, NormalizeRoot(apiUrl), Empty, endpoint)
    modifies clock
    ensures |client.sent| == 3
    ensures forall i, j | 0 <= i < j < |client.sent| :: client.sent[i].url != client.sent[j].url
  {
    client := new ApiClient.WithDefaultsProvider(apiUrl, decoder, provider, clock);
    ghost var root := NormalizeRoot(apiUrl);
    ghost var readings: seq<nat> := [];
    var t := clock.now;
    var r := LoggedGet(client, endpoint, root, Empty, provider, readings, t);
    readings := readings + [t];
    clock.Sleep(100);
    t := clock.now;
    r := LoggedGet(client, endpoint, root, Empty, provider, readings, t);
    readings := readings + [t];
    clock.Sleep(100);
    t := clock.now;
    r := LoggedGet(client, endpoint, root, Empty, provider, readings, t);
    readings := readings + [t];
    LoggedReadingsApart(client.sent, provider, root, Empty, endpoint, readings);
  }

  /** The same three GETs under the time-stamping override, from `https://example.com`. */
  method TimeStampedScenario(decoder: Decoder, clock: Clock) returns (client: ApiClient)
    modifies clock
    ensures |client.sent| == 3
    ensures forall i, j | 0 <= i < j < |client.sent| :: client.sent[i].url != client.sent[j].url
  {
    TimeStampedSeparatesReadings(NormalizeRoot("https://example.com"), Empty, "/test");
    client := VariableDefaultsScenario("https://example.com", "/test", decoder, TimeStamped, clock);
  }

  /** Adding a default parameter and then overwriting it, on a client that returns its stored defaults. */
  method AddThenOverwriteDefault(client: ApiClient)
    requires client.defaultQueryParameters == Empty
    requires forall d, t :: client.defaultsProvider(d, t) == d
    modifies client`defaultQueryParameters
    ensures client.defaultQueryParameters == Put(Empty, "hello", "is it me you're looking for?")
  {
    client.AddDefaultQueryParameter("hello", "world");
    assert client.GetDefaultQueryParameters() == OrderedMap(["hello"], map["hello" := "world"]);
    client.AddDefaultQueryParameter("hello", "is it me you're looking for?");
    PutPut(Empty, "hello", "world", "is it me you're looking for?");
  }

  /** Adding, overwriting and removing a default parameter, as a caller sees it. */
  method DefaultParameterScenario(decoder: Decoder) returns (client: ApiClient)
    ensures client.GetDefaultQueryParameters() == Empty
  {
    client := new ApiClient("https://postman-echo.com/", decoder);
    assert client.GetDefaultQueryParameters() == Empty;
    AddThenOverwriteDefault(client);
    assert client.GetDefaultQueryParameters()
           == OrderedMap(["hello"], map["hello" := "is it me you're looking for?"]);
    client.RemoveDefaultQueryParameter("hello");
    RemoveUndoesPut(Empty, "hello", "is it me you're looking for?");
    assert client.GetDefaultQueryParameters() == Empty;
  }
}
