/** The outbound HTTP call as the contract layer sees it. The transport itself is
    not modelled: a request is a value handed to a `send` function supplied by
    the caller, and what comes back is one of the outcomes below. */
module Http {

  const POST := "POST"

  /** Both clients bound every call by an `http.Client` with a 30-second timeout. */
  const CLIENT_TIMEOUT_SECONDS: nat := 30

  datatype Header = Header(name: string, value: string)

  /** A parsed URL (`*url.URL`): everything before the path (scheme, user
      information, host and port) kept as one opaque part, the path, and the
      query as `url.Values`, each key with its list of values. */
  datatype URL = URL(origin: string, path: string, query: map<string, seq<string>>)

  /** A request to be issued: method, target (a plain string or a parsed URL),
      headers in the order they are set, the body before serialisation, and the
      timeout of the client that issues it. */
  datatype Request<U, B> = Request(httpMethod: string, target: U, headers: seq<Header>, body: B, timeoutSeconds: nat)

  /** What issuing a request can lead to. */
  datatype Exchange =
    | NotCreated(cause: string)      // http.NewRequestWithContext refused the request
    | TransportFailed(cause: string) // httpClient.Do failed: network, timeout or cancellation
    | ReadFailed(cause: string)      // io.ReadAll of the response body failed
    | Received(statusCode: int, status: string, body: string)

  /** The `[200, 300)` range both clients treat as success: the codes of the
      2xx class. */
  function IsSuccessStatus(code: int): (b: bool)
    ensures b <==> code / 100 == 2
  {
    200 <= code < 300
  }
}
