# generic-api-client, modelled in Dafny

A model of the PHP `GenericApiClient` library, a thin wrapper around an HTTP
transport for JSON APIs:

- `ApiClient` keeps a root URL, normalised so that it ends in exactly one `/`.
  It also keeps an ordered array of default query parameters.
- `request` builds the URL: the root, one slash, then the endpoint without its
  leading slashes.
- It merges the defaults (read afresh on every call) with the per-call query
  parameters, as `array_merge` does. The result is appended as a query string
  after `?`, or after `&` if the URL already has a `?`.
- For every verb except GET, the body parameters are form-encoded into the body
  and `content-type` is forced to `application/x-www-form-urlencoded`.
- The request goes to the transport, and the response is remembered as the
  last response.
- The `*Data` calls then decode the body as JSON. A body that is not JSON raises
  `MalformedApiResponseException`; this check comes first. A decoded body whose
  status is not exactly 200 raises `ApiErrorException`, which carries the
  response and the data.
- `JsonParser` turns a `json_decode` failure into a
  `MalformedApiResponseException`. That exception keeps the response, the inner
  exception's code and the inner exception itself. Its message is the inner
  message without its trailing periods, then `. Response body:\n`, then the
  body.

How the model is laid out:

- PHP's string-keyed arrays are `OrderedMaps.Dict`: a sequence of distinct keys
  plus a value map.
  - `Put` models `$a[$k] = $v`: an existing key keeps its position.
  - `Remove` models `unset`.
  - `Merge` models `array_merge`: the second array wins, its new keys go last.
- `http_build_query` is `QueryStrings.BuildQuery`. It is paired with its
  inverse, `ParseQuery`.
- The client is a class, `Client.ApiClient`. Its fields are the ones the PHP
  object updates.
  - Every request it sends is logged in a ghost field, `sent`.
  - The transport, `Http.Send`, may return any response or any transport
    failure.
- `json_decode` is a function the client is given (`Json.Decoder`).
- An override of `getDefaultQueryParameters`, as the time-stamping fixture in
  the tests uses, is a function the client is given too (`defaultsProvider`).
  It receives the stored defaults and the reading of the client's `Clock` at
  the moment of the call. The clock moves only when `Sleep` (`usleep`) is called.
- The variable-defaults test is modelled as a method on one client:
  `VariableDefaultsScenario` makes three `get` calls with the clock moved on in
  between. Under any provider that turns different readings into different
  URLs, it sends three different URLs. `TimeStampedSeparatesReadings` proves
  that the time-stamping fixture is such a provider.
- The `= []` default arguments of `request`, `requestData` and the wrappers are
  `:= Empty` default parameters.

`putData`, `patchData` and `deleteData` send POST rather than their own verbs.
This is listed under "## Findings". The class keeps them as written, and adds
the intended versions beside them.

## Model

| member | source | states |
|---|---|---|
| Strings.RTrim | src/ApiClient.php:54 | `rtrim($s, $c)`: the result is a prefix of the input, does not end in the character, and everything removed was that character |
| Strings.LTrim | src/ApiClient.php:98 | `ltrim($s, $c)`: the result is a suffix of the input, does not start with the character, and everything removed was that character |
| Strings.RTrimIgnoresTrailing | src/ApiClient.php:54 | appending any number of the trimmed character does not change `rtrim`'s result |
| Strings.LTrimIgnoresLeading | src/ApiClient.php:98 | prepending any number of the trimmed character does not change `ltrim`'s result |
| Strings.RTrimKeepsPrefix | src/JsonParser.php:19 | trimming a string whose fixed first part does not end in the character trims only the rest |
| Strings.NatToString | src/Exceptions/ApiErrorException.php:22 | the decimal text of a status: non-empty digits, no leading zero, and it reads back as the same number |
| Strings.NatToStringInjective | src/Exceptions/ApiErrorException.php:22 | different numbers have different decimal texts |
| OrderedMaps.Get | src/ApiClient.php:67 | a key has a value exactly when it is one of the array's keys |
| OrderedMaps.Entries | src/ApiClient.php:112 | the array's key/value pairs, one per key, in key order |
| OrderedMaps.Put | src/ApiClient.php:67 | `$a[$k] = $v`: the key now maps to the value, every other key is unchanged, an existing key keeps its place and a new key goes last |
| OrderedMaps.Remove | src/ApiClient.php:72 | `unset($a[$k])`: the key is gone, every other key keeps its value and its order, and a missing key changes nothing |
| OrderedMaps.Without | src/ApiClient.php:72 | the key order with one key taken out: exactly the other keys remain, and they stay distinct |
| OrderedMaps.RemoveUndoesPut | src/ApiClient.php:65-73 | removing a key that was just added restores the array |
| OrderedMaps.PutPut | src/ApiClient.php:65-68 | adding a key twice keeps only the second value |
| OrderedMaps.Merge | src/ApiClient.php:100-103 | `array_merge($a, $b)` for string keys: each entry of `$b` is assigned onto `$a`, in `$b`'s order; MergeGet and MergeKeys state what that gives |
| OrderedMaps.NewKeys | src/ApiClient.php:100-103 | the keys of the second array that the first lacks, in their order |
| OrderedMaps.MergeGet | src/ApiClient.php:100-103 | `array_merge($a, $b)`: a key of `$b` has `$b`'s value; any other key has `$a`'s value |
| OrderedMaps.MergeKeys | src/ApiClient.php:100-103 | `array_merge($a, $b)` keeps `$a`'s key order and appends `$b`'s new keys in `$b`'s order |
| OrderedMaps.MergeEmpty | src/ApiClient.php:100-103 | merging with an empty array on either side changes nothing |
| OrderedMaps.Extensionality | src/ApiClient.php:67 | two arrays with the same key order and the same values are the same array |
| QueryStrings.SplitJoin | src/ApiClient.php:112 | splitting the joined pieces gives the pieces back, when none of them holds the separator |
| QueryStrings.DecodeEncodePair | src/ApiClient.php:109 | `k=v` reads back as `(k, v)` when the key holds no `=` |
| QueryStrings.BuildQuery | src/ApiClient.php:109 | `http_build_query`: the query string is empty exactly when the array is |
| QueryStrings.ParseBuildQuery | src/ApiClient.php:112 | the query string reads back as the array's entries, in order |
| QueryStrings.BuildQueryInjective | src/ApiClient.php:112 | different arrays give different query strings |
| Exceptions.ApiErrorMessage | src/Exceptions/ApiErrorException.php:22 | "Response code <status> received": the fixed words around the status's decimal digits, which have no leading zero and read back as the status |
| Exceptions.ApiErrorMessageNamesStatus | src/Exceptions/ApiErrorException.php:22 | equal messages come from equal statuses |
| Exceptions.Exception.GetMessage | src/Exceptions/ApiErrorException.php:22 | `getMessage()`: the message the exception was built with; for `ApiErrorException` the status message; NewApiError and NewMalformedApiResponse state what it returns |
| Exceptions.Exception.GetCode | src/Exceptions/MalformedApiResponseException.php:16-26 | `getCode()`: the code passed to the parent constructor; 0 for `ApiErrorException`, which passes none |
| Exceptions.Exception.GetPrevious | src/Exceptions/MalformedApiResponseException.php:16-26 | `getPrevious()`: the previous exception passed to the parent constructor; none for `ApiErrorException` |
| Exceptions.Exception.GetResponse | src/Exceptions/ApiErrorException.php:39-42 | `getResponse()` of either exception (also MalformedApiResponseException.php lines 31-34): the response it was built with |
| Exceptions.Exception.GetData | src/Exceptions/ApiErrorException.php:31-34 | `getData()`: the data it was built with |
| Exceptions.NewApiError | src/Exceptions/ApiErrorException.php:20-42 | the exception returns the response and the data it was built with, has the status message and code 0, and no previous exception |
| Exceptions.NotFoundMessage | src/Exceptions/ApiErrorException.php:22 | a 404 gives "Response code 404 received" |
| Exceptions.NewMalformedApiResponse | src/Exceptions/MalformedApiResponseException.php:9-34 | an `InvalidArgumentException` that returns the response, message, code and previous exception it was built with |
| Exceptions.MalformedApiResponseDefaults | src/Exceptions/MalformedApiResponseException.php:18-20 | by default the message is empty, the code is 0 and there is no previous exception |
| JsonParser.JsonDecode | src/JsonParser.php:26-36 | succeeds exactly when the decoder does, with its value; otherwise an `InvalidArgumentException` with code 0 whose message is "json_decode error: " then the decoder's error |
| JsonParser.WrappedMessage | src/JsonParser.php:19 | the inner message without its trailing periods, then ". Response body:\n", then the body verbatim |
| JsonParser.ParseJsonResponse | src/JsonParser.php:11-24 | succeeds exactly when the body decodes, with the decoded value; otherwise a malformed-response exception with the response, the wrapped message, the inner code and the inner exception as previous |
| JsonParser.ParseFailureMessage | src/JsonParser.php:19 | the whole message is "json_decode error: ", the decoder's error less trailing periods, the marker, then the body |
| JsonParser.ParseDependsOnlyOnBody | src/JsonParser.php:11-24 | two responses with the same body parse alike, apart from the response each exception keeps |
| JsonParser.SyntaxErrorExample | tests/ApiClientE2ETest.php:53-83 | a "Syntax error" body gives a malformed-response exception that keeps the response and whose message starts "json_decode error: Syntax error" |
| Client.NormalizeRoot | src/ApiClient.php:52-55 | the root ends in exactly one slash, and it is the URL with its trailing slashes replaced by that one |
| Client.NormalizedRootIsFixed | src/ApiClient.php:52-55 | a root that already ends in exactly one slash is kept |
| Client.NormalizeRootIdempotent | src/ApiClient.php:52-55 | normalising twice is normalising once |
| Client.NormalizeRootIgnoresTrailingSlashes | src/ApiClient.php:54 | how many trailing slashes the URL has makes no difference |
| Client.TrailingSlashExamples | tests/ApiClientE2ETest.php:179-212 | no, one or three trailing slashes give `https://example.com/`, and the empty URL gives `/` |
| Client.RequestUrl | src/ApiClient.php:97-98 | the root's text up to its trailing slashes, exactly one slash, then the endpoint less its leading slashes |
| Client.EndpointLeadingSlashesIgnored | src/ApiClient.php:97-98 | `test`, `/test` and `///test` reach the same URL |
| Client.RequestUrlUnderRoot | src/ApiClient.php:52-98 | under a normalised root the URL is the root followed by the endpoint's path |
| Client.AppendQuery | src/ApiClient.php:112 | the URL, one separator, then the query string; the separator is `?` exactly when the URL has no `?` yet |
| Client.EmptyQueryLeavesQuestionMark | src/ApiClient.php:112 | with no parameters a URL without a query still gets a trailing `?` |
| Client.RequestHeaders | src/ApiClient.php:105-108 | GET keeps the headers as given; any other verb sets `content-type` to the form type, in place if present and last otherwise, and leaves every other header as it was |
| Client.RequestBody | src/ApiClient.php:105-110 | GET sends no body; any other verb sends a body, which reads back as the body parameters when they hold no `&` or `=` |
| Client.BuildRequest | src/ApiClient.php:105-119 | GET sends no body and the headers as given; other verbs send the form-encoded body and force `content-type`, leaving the other headers and their order as they were |
| Client.RequestQueryIsMerged | src/ApiClient.php:100-112 | the URL's query string reads back as the merged parameters: per-call values win, defaults fill the rest, the defaults' order first |
| Client.TimeStamped | tests/Fixtures/ApiClientWithCustomQueryParametersFixture.php:10-19 | the fixture's override: `time` holds the clock's reading in decimal, every other key keeps its stored value |
| Client.TimeStampedIsMerge | tests/Fixtures/ApiClientWithCustomQueryParametersFixture.php:12-18 | assigning `time` gives the same array as the fixture's `array_merge` with the one-entry array |
| Client.FreshDefaultsReachTheUrl | tests/Fixtures/ApiClientWithCustomQueryParametersFixture.php:10-19 | under the time-stamping override, two different clock readings give two different URLs, for any verb, endpoint, body and headers, and per-call parameters without `time` |
| Client.TimeStampedSeparatesReadings | tests/Fixtures/ApiClientWithCustomQueryParametersFixture.php:10-19 | the time-stamping override turns any two different readings into two different GET URLs, for plain stored defaults |
| Client.DataOutcome | src/ApiClient.php:156-164 | succeeds exactly for a decodable body with status 200; a decode failure is raised whatever the status; a decodable body with any other status raises `ApiErrorException` with the response and the data |
| Client.MalformedBeforeStatus | src/ApiClient.php:158-162 | a body that is not JSON raises the malformed-response exception with the response, even on a non-200 status |
| Client.NonOkStatusRaisesApiError | src/ApiClient.php:160-162 | a decodable body with a status other than 200 raises `ApiErrorException` with that response, the decoded data and "Response code <status> received" |
| Client.Clock.constructor | tests/Fixtures/ApiClientWithCustomQueryParametersFixture.php:16 | the clock `microtime` reads starts at the given reading |
| Client.Clock.Sleep | tests/ApiClientE2ETest.php:240-242 | `usleep($micros)`: the reading moves on by exactly that many microseconds |
| Client.ApiClient.constructor | src/ApiClient.php:34-39 | the root is normalised, no defaults, no last response, nothing sent yet |
| Client.ApiClient.WithDefaultsProvider | tests/Fixtures/ApiClientWithCustomQueryParametersFixture.php:8-19 | as the constructor, with `getDefaultQueryParameters` replaced by the given provider, which reads the given clock |
| Client.ApiClient.GetApiRootUrl | src/ApiClient.php:44-47 | the stored root, which ends in exactly one slash |
| Client.ApiClient.SetApiRootUrl | src/ApiClient.php:52-55 | the stored root becomes the normalised URL |
| Client.ApiClient.GetDefaultQueryParameters | src/ApiClient.php:60-63 | the defaults as read at this call: the provider's answer for the stored defaults and the clock's reading; without an override, the stored defaults themselves |
| Client.ApiClient.AddDefaultQueryParameter | src/ApiClient.php:65-68 | the defaults become the old defaults with the key set to the value |
| Client.ApiClient.RemoveDefaultQueryParameter | src/ApiClient.php:70-73 | the defaults become the old defaults without the key |
| Client.ApiClient.PrepareRequest | src/ApiClient.php:97-119 | builds, step by step from the stored root and the defaults read now, exactly the request BuildRequest describes |
| Client.ApiClient.Request | src/ApiClient.php:90-132 | exactly one request is sent: the one built from the root, the defaults read at the call and the arguments; its response becomes the last response; a transport failure leaves the last response as it was |
| Client.ApiClient.RequestData | src/ApiClient.php:149-165 | sends as Request does; unless the transport failed, the outcome is the data rule applied to the response now remembered |
| Client.ApiClient.Get | src/ApiClient.php:167-173 | a GET request with no body parameters |
| Client.ApiClient.GetData | src/ApiClient.php:175-181 | GET data with no body parameters; on success, `parseResponse(getLastResponse())` gives the same data |
| Client.ApiClient.Post | src/ApiClient.php:183-190 | a POST request |
| Client.ApiClient.PostData | src/ApiClient.php:192-199 | POST data |
| Client.ApiClient.Put | src/ApiClient.php:201-208 | a PUT request |
| Client.ApiClient.PutData | src/ApiClient.php:210-217 | data from a POST request, as written |
| Client.ApiClient.Patch | src/ApiClient.php:219-226 | a PATCH request |
| Client.ApiClient.PatchData | src/ApiClient.php:228-235 | data from a POST request, as written |
| Client.ApiClient.Delete | src/ApiClient.php:237-244 | a DELETE request |
| Client.ApiClient.DeleteData | src/ApiClient.php:246-253 | data from a POST request, as written |
| Client.ApiClient.IntendedPutData | src/ApiClient.php:210-217 | `putData` as intended: data from a PUT request |
| Client.ApiClient.IntendedPatchData | src/ApiClient.php:228-235 | `patchData` as intended: data from a PATCH request |
| Client.ApiClient.IntendedDeleteData | src/ApiClient.php:246-253 | `deleteData` as intended: data from a DELETE request |
| Client.ApiClient.ParseResponse | src/ApiClient.php:263-266 | `parseResponse`: succeeds exactly when the body decodes, with the decoded value; otherwise a malformed-response exception that keeps the response |
| Client.ApiClient.GetLastResponse | src/ApiClient.php:271-274 | the response of the latest request that came back, `None` before any; Request and GetData state what it holds |
| Http.Send | src/ApiClient.php:121-127 | Guzzle's `send` with `http_errors` off: any response, or a transport failure; nothing is promised about which |
| Client.PutWrapperVerbs | src/ApiClient.php:201-217 | `put`, `putData` as written and `putData` as intended log PUT, POST and PUT, in that order |
| Client.PatchWrapperVerbs | src/ApiClient.php:219-235 | `patch`, `patchData` as written and as intended log PATCH, POST and PATCH |
| Client.DeleteWrapperVerbs | src/ApiClient.php:237-253 | `delete`, `deleteData` as written and as intended log DELETE, POST and DELETE |
| Client.LoggedGet | tests/ApiClientE2ETest.php:239-243 | one `get` at a clock reading later than every earlier one appends the GET built from the provider's answer for that reading |
| Client.LoggedReadingsApart | tests/ApiClientE2ETest.php:245-247 | when the provider separates readings, GETs logged at increasing readings have pairwise different URLs |
| Client.VariableDefaultsScenario | tests/ApiClientE2ETest.php:218-248 | three `get` calls on one client, with `usleep(100)` between them, send three requests with pairwise different URLs, whenever the provider separates readings |
| Client.TimeStampedScenario | tests/ApiClientE2ETest.php:218-248 | the same for the time-stamping fixture at `https://example.com` and `/test`: three requests, three different URLs |
| Client.AddThenOverwriteDefault | tests/ApiClientE2ETest.php:33-36 | adding `hello` and then adding it again leaves one entry holding the second value |
| Client.DefaultParameterScenario | tests/ApiClientE2ETest.php:28-39 | the defaults start empty, hold `hello` with the second value after the two adds, and are empty again after the remove |

## Findings

| source | as written | input that shows it | evidently intended | confidence | as-written member | corrected member |
|---|---|---|---|---|---|---|
| src/ApiClient.php:216 | `putData` forwards `METHOD_POST` to `requestData` | any call of `putData`; PutWrapperVerbs shows its logged request has verb POST, where `put` logs PUT | forward `METHOD_PUT`, as `put` does | not executed | Client.PutWrapperVerbs | Client.ApiClient.IntendedPutData |
| src/ApiClient.php:234 | `patchData` forwards `METHOD_POST` to `requestData` | any call of `patchData`; PatchWrapperVerbs shows its logged request has verb POST, where `patch` logs PATCH | forward `METHOD_PATCH`, as `patch` does | not executed | Client.PatchWrapperVerbs | Client.ApiClient.IntendedPatchData |
| src/ApiClient.php:252 | `deleteData` forwards `METHOD_POST` to `requestData` | any call of `deleteData`; DeleteWrapperVerbs shows its logged request has verb POST, where `delete` logs DELETE | forward `METHOD_DELETE`, as `delete` does | not executed | Client.DeleteWrapperVerbs | Client.ApiClient.IntendedDeleteData |

`Client.ApiClient.PutData`, `PatchData` and `DeleteData` model the wrappers as
written. The intended versions sit beside them in the same class.

## Left out

- Guzzle's client and the network are not modelled. `Http.Send` may return any response or any transport failure, and promises nothing about which.
- The response is only its status and body. Reason phrases, response headers and PSR-7 streams are left out: the core reads only the status code and the body.
- Request headers are case-sensitive string keys. PSR-7's case-insensitive header names are part of Guzzle, which is not part of this model.
- `http_build_query` is modelled on flat string arrays with no percent-encoding. Nested arrays, numeric keys and RFC 1738 escaping are left out. The round trip is therefore stated only for arrays whose keys hold no `&` or `=` and whose values hold no `&`; that is what percent-encoding would guarantee.
- `array_merge` renumbering of integer keys is left out: every key is a string.
- `json_decode` and `json_last_error_msg` are not modelled. They are one function the client is given, which returns a value or an error message.
- PHP's `TypeError` when the decoded JSON is a scalar rather than an array is left out. Any decoded value is returned.
- The `$associative` flag of `jsonDecode` is left out: the parser always passes `true`.
- `microtime(true)` returns seconds as a float. The model reads a whole number of microseconds from a `Clock` instead, and writes it in decimal. Only `Sleep` moves the clock, so between two calls it moves exactly as far as the caller sleeps. Float rendering is not modelled, so the test's check that the first query contains `time=1` is not stated.
- Client.VariableDefaultsScenario: the stored defaults stay empty during the three calls, as in the test, and the proof relies on that.
- Client.ApiClient.GetLastResponse: has no contract of its own, since it only returns the field. What the field holds is stated by Request, RequestData and GetData.
- Http.Send: has no contract, since the network decides the outcome.
- `addDefaultHeader`, which one test calls, is not part of `ApiClient.php` and is not modelled.
- Concurrency is left out: the client is modelled as used by one caller at a time.
