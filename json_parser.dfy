/**
 * `JsonParser`: decodes a response body and turns a decode failure into a
 * `MalformedApiResponseException` that keeps the response. Both operations are
 * static and stateless; the decoder (`json_decode` and `json_last_error_msg`)
 * is a parameter.
 */
module JsonParser {
  import opened Wrappers
  import opened Strings
  import opened Http
  import opened Json
  import opened Exceptions

  const DecodeErrorPrefix: string := "json_decode error: "
  const BodyMarker: string := ". Response body:\n"

  /** `jsonDecode($json, true)`: the decoded value, or an `\InvalidArgumentException` naming the decoder's error. */
  function JsonDecode(decode: Decoder, json: string): (r: Result<Json, Exception>)
    ensures r.Success? <==> decode(json).Success?
    ensures r.Success? ==> r.value == decode(json).value
    ensures r.Failure? ==> r.error.InvalidArgument? && r.error.GetCode() == 0 && r.error.GetPrevious() == None
    ensures r.Failure? ==> |r.error.message| >= |DecodeErrorPrefix|
                           && r.error.message[..|DecodeErrorPrefix|] == DecodeErrorPrefix
                           && r.error.message[|DecodeErrorPrefix|..] == decode(json).error
  {
    match decode(json)
    case Success(data) => Success(data)
    case Failure(reason) => Failure(InvalidArgument(DecodeErrorPrefix + reason, 0, None))
  }

  /**
   * The message of the rethrown exception: the inner message without its
   * trailing periods, the marker, and the body verbatim.
   */
  function WrappedMessage(inner: string, body: string): (m: string)
    ensures var t := |m| - |BodyMarker| - |body|;
            0 <= t <= |inner|
            && m[..t] == inner[..t] && (t == 0 || m[t - 1] != '.')
            && (forall i | t <= i < |inner| :: inner[i] == '.')
            && m[t..t + |BodyMarker|] == BodyMarker
            && m[t + |BodyMarker|..] == body
  {
    var kept := RTrim(inner, '.');
    var m := kept + BodyMarker + body;
    assert m[..|kept|] == kept && m[|kept|..|kept| + |BodyMarker|] == BodyMarker;
    m
  }

  /**
   * `parseJsonResponse($response)`: the decoded body, or a
   * `MalformedApiResponseException` that keeps the response, takes the inner
   * exception's code and has the inner exception as its previous one.
   */
  function ParseJsonResponse(decode: Decoder, response: Response): (r: Result<Json, Exception>)
    ensures r.Success? <==> decode(response.body).Success?
    ensures r.Success? ==> r.value == decode(response.body).value
    ensures r.Failure? ==>
              var inner := JsonDecode(decode, response.body).error;
              && r.error.MalformedApiResponse? && r.error.IsInvalidArgument()
              && r.error.GetResponse() == response
              && r.error.GetMessage() == WrappedMessage(inner.GetMessage(), response.body)
              && r.error.GetCode() == inner.GetCode()
              && r.error.GetPrevious() == Some(inner)
  {
    match JsonDecode(decode, response.body)
    case Success(data) => Success(data)
    case Failure(e) =>
      Failure(NewMalformedApiResponse(response, WrappedMessage(e.GetMessage(), response.body), e.GetCode(), Some(e)))
  }

  /** The full message: "json_decode error: <decoder message without trailing periods>. Response body:\n<body>". */
  lemma ParseFailureMessage(decode: Decoder, response: Response)
    requires decode(response.body).Failure?
    ensures ParseJsonResponse(decode, response).Failure?
    ensures ParseJsonResponse(decode, response).error.GetMessage()
            == DecodeErrorPrefix + RTrim(decode(response.body).error, '.') + BodyMarker + response.body
  {
    RTrimKeepsPrefix(DecodeErrorPrefix, decode(response.body).error, '.');
  }

  /** The outcome depends on the body alone: only the kept response differs. */
  lemma ParseDependsOnlyOnBody(decode: Decoder, r1: Response, r2: Response)
    requires r1.body == r2.body
    ensures var p1, p2 := ParseJsonResponse(decode, r1), ParseJsonResponse(decode, r2);
            p1.Success? == p2.Success?
            && (p1.Success? ==> p1.value == p2.value)
            && (p1.Failure? ==> p1.error == MalformedApiResponse(r1, p2.error.message, p2.error.code, p2.error.previous))
  {
  }

  /** A body that is not JSON, such as "Hello world\n", gives "json_decode error: Syntax error. Response body:\n" and the body. */
  lemma SyntaxErrorExample(decode: Decoder, response: Response)
    requires decode(response.body) == Failure("Syntax error")
    ensures var p := ParseJsonResponse(decode, response);
            p.Failure? && p.error.MalformedApiResponse? && p.error.GetResponse() == response
            && p.error.GetMessage() == "json_decode error: Syntax error. Response body:\n" + response.body
  {
    ParseFailureMessage(decode, response);
    SyntaxErrorText(response.body);
  }

  lemma SyntaxErrorText(body: string)
    ensures DecodeErrorPrefix + RTrim("Syntax error", '.') + BodyMarker + body
            == "json_decode error: Syntax error. Response body:\n" + body
  {
    assert RTrim("Syntax error", '.') == "Syntax error";
    assert DecodeErrorPrefix + "Syntax error" == "json_decode error: Syntax error";
    assert "json_decode error: Syntax error" + BodyMarker == "json_decode error: Syntax error. Response body:\n";
  }
}
