/** The HTTP values the client exchanges with its transport. */
module Http {
  import opened Wrappers
  import opened OrderedMaps

  // The verbs of `GenericApiClient\Consts\Request`, which is not part of this
  // model; they are taken to be the verbs' own names.
  const MethodGet: string := "GET"
  const MethodPost: string := "POST"
  const MethodPut: string := "PUT"
  const MethodPatch: string := "PATCH"
  const MethodDelete: string := "DELETE"

  const ContentTypeHeader: string := "content-type"
  const FormContentType: string := "application/x-www-form-urlencoded"

  /** A response as the client reads it: its status code and its body text. */
  datatype Response = Response(status: nat, body: string)

  /** What is handed to the transport: `new \GuzzleHttp\Psr7\Request($method, $url, $headers, $body)`. */
  datatype HttpRequest = HttpRequest(verb: string, url: string, headers: Dict, body: Option<string>)

  /**
   * The transport (Guzzle's `send` with `http_errors` off): every HTTP status
   * comes back as a response; only a failure of the transport itself (no
   * connection, a timeout) is an error, given here by its message. Which of
   * these happens is up to the network, so nothing is promised.
   */
  method Send(request: HttpRequest) returns (outcome: Result<Response, string>)
  {
    outcome :| true;
  }
}
