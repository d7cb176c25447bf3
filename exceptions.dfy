/**
 * The errors the client throws, as one datatype: every exception is an
 * immutable value, so what its getters return never changes after construction.
 */
module Exceptions {
  import opened Wrappers
  import opened Strings
  import opened Http
  import opened Json

  datatype Exception =
      /** `\InvalidArgumentException`, as `JsonParser::jsonDecode` throws it. */
    | InvalidArgument(message: string, code: int, previous: Option<Exception>)
      /** `MalformedApiResponseException`, a kind of `\InvalidArgumentException` that keeps the response. */
    | MalformedApiResponse(response: Response, message: string, code: int, previous: Option<Exception>)
      /** `ApiErrorException`: a response whose status was not 200, with the data parsed from it. */
    | ApiError(response: Response, data: Json)
      /** A failure of the transport itself (Guzzle's `GuzzleException`), passed through untouched. */
    | Transport(reason: string)
  {
    /** `getMessage()` */
    function GetMessage(): string
      requires !Transport?
    {
      match this
      case InvalidArgument(m, _, _) => m
      case MalformedApiResponse(_, m, _, _) => m
      case ApiError(response, _) => ApiErrorMessage(response.status)
    }

    /** `getCode()`; an `ApiErrorException` is built with PHP's default code 0. */
    function GetCode(): int
      requires !Transport?
    {
      match this
      case InvalidArgument(_, c, _) => c
      case MalformedApiResponse(_, _, c, _) => c
      case ApiError(_, _) => 0
    }

    /** `getPrevious()`; an `ApiErrorException` has no previous exception. */
    function GetPrevious(): Option<Exception>
      requires !Transport?
    {
      match this
      case InvalidArgument(_, _, p) => p
      case MalformedApiResponse(_, _, _, p) => p
      case ApiError(_, _) => None
    }

    /** `getResponse()` of the two exceptions that carry a response. */
    function GetResponse(): Response
      requires ApiError? || MalformedApiResponse?
    {
      response
    }

    /** `ApiErrorException::getData()` */
    function GetData(): Json
      requires ApiError?
    {
      data
    }

    /** `$e instanceof \InvalidArgumentException` */
    predicate IsInvalidArgument() {
      InvalidArgument? || MalformedApiResponse?
    }
  }

  const ApiErrorPrefix: string := "Response code "
  const ApiErrorSuffix: string := " received"

  /** "Response code <status> received": the status in decimal between fixed words. */
  function ApiErrorMessage(status: nat): (m: string)
    ensures |m| > |ApiErrorPrefix| + |ApiErrorSuffix|
    ensures m[..|ApiErrorPrefix|] == ApiErrorPrefix
    ensures m[|m| - |ApiErrorSuffix|..] == ApiErrorSuffix
    ensures var digits := m[|ApiErrorPrefix|..|m| - |ApiErrorSuffix|];
            && IsDigits(digits) && DecimalValue(digits) == status
            && |digits| > 0 && (digits[0] == '0' ==> digits == "0")
  {
    var digits := NatToString(status);
    var m := ApiErrorPrefix + digits + ApiErrorSuffix;
    assert m[|ApiErrorPrefix|..|m| - |ApiErrorSuffix|] == digits;
    m
  }

  /** The message names the status, so different statuses give different messages. */
  lemma ApiErrorMessageNamesStatus(s1: nat, s2: nat)
    requires ApiErrorMessage(s1) == ApiErrorMessage(s2)
    ensures s1 == s2
  {
    var m := ApiErrorMessage(s1);
    assert DecimalValue(m[|ApiErrorPrefix|..|m| - |ApiErrorSuffix|]) == s1;
  }

  /** `new ApiErrorException($response, $data)` */
  function NewApiError(response: Response, data: Json): (e: Exception)
    ensures e.ApiError? && !e.IsInvalidArgument()
    ensures e.GetResponse() == response && e.GetData() == data
    ensures e.GetMessage() == ApiErrorMessage(response.status)
    ensures e.GetCode() == 0 && e.GetPrevious() == None
  {
    ApiError(response, data)
  }

  /** `new MalformedApiResponseException($response, $message = "", $code = 0, $previous = null)` */
  function NewMalformedApiResponse(response: Response, message: string := "", code: int := 0,
                                   previous: Option<Exception> := None): (e: Exception)
    ensures e.MalformedApiResponse? && e.IsInvalidArgument()
    ensures e.GetResponse() == response
    ensures e.GetMessage() == message && e.GetCode() == code && e.GetPrevious() == previous
  {
    MalformedApiResponse(response, message, code, previous)
  }

  /** Built from a response alone, the exception has PHP's defaults: no message, code 0, no previous. */
  lemma MalformedApiResponseDefaults(response: Response)
    ensures var e := NewMalformedApiResponse(response);
            e.GetMessage() == "" && e.GetCode() == 0 && e.GetPrevious() == None
  {
  }

  /** A 404 response raises "Response code 404 received". */
  lemma NotFoundMessage(response: Response, data: Json)
    requires response.status == 404
    ensures NewApiError(response, data).GetMessage() == "Response code 404 received"
  {
    DecimalText404();
    assert ApiErrorMessage(404) == ApiErrorPrefix + "404" + ApiErrorSuffix;
  }

  lemma DecimalText404()
    ensures NatToString(404) == "404"
  {
    assert NatToString(4) == "4";
    assert NatToString(40) == "40";
  }
}
