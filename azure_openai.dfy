/** The Azure OpenAI chat-completion client: resolving its configuration from the
    environment, building the deployment's chat-completions URL and the request
    payload, and classifying the response. */
module AzureOpenAI {
  import opened Results
  import opened Text
  import opened Http
  import opened Paths
  import opened Environment

  const ENDPOINT_VAR := "AZURE_OPENAI_ENDPOINT"

  /** The required variables, in the order the resolver checks them. */
  const REQUIRED_VARS: seq<string> :=
    ["AZURE_OPENAI_ENDPOINT", "AZURE_OPENAI_DEPLOYMENT", "AZURE_OPENAI_API_VERSION", "AZURE_OPENAI_API_KEY"]

  datatype AzureOpenAIConfig = AzureOpenAIConfig(endpoint: string, deployment: string, apiVersion: string, apiKey: string)

  /** Go's zero value `AzureOpenAIConfig{}`. */
  const ZERO_CONFIG := AzureOpenAIConfig("", "", "", "")

  // ---------------------------------------------------------------------------
  // Configuration

  /** Every variable read and trimmed. */
  function TrimmedSettings(env: map<string, string>): (cfg: AzureOpenAIConfig)
    ensures IsTrimmed(cfg.endpoint) && IsTrimmed(cfg.deployment) && IsTrimmed(cfg.apiVersion) && IsTrimmed(cfg.apiKey)
    ensures ReadFrom(env, RequiredFields(cfg))
  {
    var cfg := AzureOpenAIConfig(
      Setting(env, "AZURE_OPENAI_ENDPOINT"),
      Setting(env, "AZURE_OPENAI_DEPLOYMENT"),
      Setting(env, "AZURE_OPENAI_API_VERSION"),
      Setting(env, "AZURE_OPENAI_API_KEY"));
    assert ReadFrom(env, RequiredFields(cfg)) by {
      var fs := RequiredFields(cfg);
      forall k | 0 <= k < |fs| ensures fs[k].value == Setting(env, fs[k].name) {
        if k == 0 {} else if k == 1 {} else if k == 2 {} else {}
      }
    }
    cfg
  }

  /** The fields the resolver requires, in the order it checks them: all four. */
  function RequiredFields(cfg: AzureOpenAIConfig): (fields: seq<Field>)
    ensures Names(fields) == REQUIRED_VARS
  {
    var fields := [
      Field("AZURE_OPENAI_ENDPOINT", cfg.endpoint),
      Field("AZURE_OPENAI_DEPLOYMENT", cfg.deployment),
      Field("AZURE_OPENAI_API_VERSION", cfg.apiVersion),
      Field("AZURE_OPENAI_API_KEY", cfg.apiKey)];
    assert Names(fields) == REQUIRED_VARS;
    fields
  }

  /** The field of `cfg` that holds the variable `name` (empty for any other name). */
  function VariableValue(cfg: AzureOpenAIConfig, name: string): string {
    if name == "AZURE_OPENAI_ENDPOINT" then cfg.endpoint
    else if name == "AZURE_OPENAI_DEPLOYMENT" then cfg.deployment
    else if name == "AZURE_OPENAI_API_VERSION" then cfg.apiVersion
    else if name == "AZURE_OPENAI_API_KEY" then cfg.apiKey
    else ""
  }

  /** The required-variable checks of `AzureOpenAIConfigFromEnv`: each blank
      field appends its variable's name, in the order the fields are checked. */
  method MissingRequired(cfg: AzureOpenAIConfig) returns (missing: seq<string>)
    ensures missing == MissingNames(RequiredFields(cfg))
  {
    ghost var fs := RequiredFields(cfg);
    // After each check, `missing` holds what the checks so far contributed.
    missing := [];
    if cfg.endpoint == "" {
      missing := missing + ["AZURE_OPENAI_ENDPOINT"];
    }
    assert missing == Blank(fs[0]);
    if cfg.deployment == "" {
      missing := missing + ["AZURE_OPENAI_DEPLOYMENT"];
    }
    assert missing == Blank(fs[0]) + Blank(fs[1]);
    if cfg.apiVersion == "" {
      missing := missing + ["AZURE_OPENAI_API_VERSION"];
    }
    assert missing == Blank(fs[0]) + Blank(fs[1]) + Blank(fs[2]);
    if cfg.apiKey == "" {
      missing := missing + ["AZURE_OPENAI_API_KEY"];
    }
    assert missing == Blank(fs[0]) + Blank(fs[1]) + Blank(fs[2]) + Blank(fs[3]);
    assert fs == [fs[0], fs[1], fs[2], fs[3]];
    MissingNamesOfFour(fs[0], fs[1], fs[2], fs[3]);
  }

  /** `AzureOpenAIConfigFromEnv`: trims every variable, reports every blank one
      at once, and only then checks that the endpoint parses as a URL (`parse`
      stands for `url.Parse`). */
  method AzureOpenAIConfigFromEnv(env: map<string, string>, parse: string -> Result<URL, string>)
    returns (cfg: AzureOpenAIConfig, err: Option<ConfigError>)
    ensures var trimmed := TrimmedSettings(env);
      var missing := MissingNames(RequiredFields(trimmed));
      err == (if missing != [] then Some(MissingConfiguration("Azure OpenAI", missing))
              else if parse(trimmed.endpoint).Failure? then Some(InvalidEndpoint(ENDPOINT_VAR, parse(trimmed.endpoint).error))
              else None)
    ensures cfg == if err.None? then TrimmedSettings(env) else ZERO_CONFIG
  {
    cfg := TrimmedSettings(env);

    var missing := MissingRequired(cfg);
    if |missing| > 0 {
      return ZERO_CONFIG, Some(MissingConfiguration("Azure OpenAI", missing));
    }

    var parsed := parse(cfg.endpoint);
    if parsed.Failure? {
      return ZERO_CONFIG, Some(InvalidEndpoint(ENDPOINT_VAR, parsed.error));
    }

    return cfg, None;
  }

  /** A resolved configuration has all four fields set: nothing is reported
      missing exactly when no field is blank. */
  lemma ResolvedFieldsAllSet(cfg: AzureOpenAIConfig)
    ensures MissingNames(RequiredFields(cfg)) == []
        <==> cfg.endpoint != "" && cfg.deployment != "" && cfg.apiVersion != "" && cfg.apiKey != ""
  {
    var fs := RequiredFields(cfg);
    NoneMissing(fs);
    assert fs[0].value == cfg.endpoint && fs[1].value == cfg.deployment;
    assert fs[2].value == cfg.apiVersion && fs[3].value == cfg.apiKey;
  }

  /** A variable is reported missing exactly when it is one of the four
      required ones and its field is blank. */
  lemma MissingExactlyTheBlankRequired(cfg: AzureOpenAIConfig, name: string)
    ensures name in MissingNames(RequiredFields(cfg)) <==> name in REQUIRED_VARS && VariableValue(cfg, name) == ""
  {
    MissingNamesExact(RequiredFields(cfg));
  }

  /** Over the environment itself: a variable is reported exactly when it is
      one of the four required ones and it is unset or all white space. */
  lemma ReportedExactlyTheBlankVariables(env: map<string, string>, name: string)
    ensures name in MissingNames(RequiredFields(TrimmedSettings(env)))
        <==> name in REQUIRED_VARS && (name !in env || AllSpace(env[name]))
  {
    MissingFromEnvironment(env, RequiredFields(TrimmedSettings(env)), name);
  }

  /** The blank variables are reported in the order ENDPOINT, DEPLOYMENT,
      API_VERSION, API_KEY. */
  lemma MissingInCheckOrder(cfg: AzureOpenAIConfig)
    ensures Embeds(MissingNames(RequiredFields(cfg)), REQUIRED_VARS)
  {
    var fs := RequiredFields(cfg);
    MissingNamesInOrder(fs);
    assert Names(fs) == REQUIRED_VARS;
  }

  // ---------------------------------------------------------------------------
  // The chat-completions target

  const API_VERSION_KEY := "api-version"

  /** `path.Join(endpoint.Path, "/openai/deployments/", deployment, "/chat/completions")`.
      Whatever the endpoint's path and the deployment name, it ends in
      `/chat/completions`. */
  function DeploymentPath(base: string, deployment: string): (p: string)
    ensures HasSuffix(p, "/chat/completions")
  {
    var c := "/chat/completions";
    assert StartsWithOneSlash(c);
    PathJoinOfFour(base, "/openai/deployments/", deployment, c);
    JoinSlashedSuffix(JoinSegment(JoinSegment(base, "/openai/deployments/"), deployment), c);
    PathJoin([base, "/openai/deployments/", deployment, c])
  }

  /** The URL the chat request is sent to: the endpoint with the deployment's
      chat-completions path and `api-version` set to the configured version.
      `q.Set("api-version", …)` replaces whatever the endpoint carried for that
      key by the single configured version and leaves the other keys alone;
      the scheme and host are kept. */
  function ChatTarget(endpoint: URL, cfg: AzureOpenAIConfig): (t: URL)
    ensures t.origin == endpoint.origin
    ensures t.path == DeploymentPath(endpoint.path, cfg.deployment)
    ensures HasSuffix(t.path, "/chat/completions")
    ensures t.query.Keys == endpoint.query.Keys + {API_VERSION_KEY}
    ensures t.query[API_VERSION_KEY] == [cfg.apiVersion]
    ensures forall k :: k in endpoint.query && k != API_VERSION_KEY ==> t.query[k] == endpoint.query[k]
  {
    endpoint.(
      path := DeploymentPath(endpoint.path, cfg.deployment),
      query := endpoint.query[API_VERSION_KEY := [cfg.apiVersion]])
  }

  /** Builds the target by updating the parsed endpoint in place: its path,
      then its query through `q.Set`. */
  method BuildTarget(endpoint: URL, cfg: AzureOpenAIConfig) returns (target: URL)
    ensures target == ChatTarget(endpoint, cfg)
  {
    target := endpoint;
    target := target.(path := DeploymentPath(target.path, cfg.deployment));
    var q := target.query;
    q := q[API_VERSION_KEY := [cfg.apiVersion]];
    target := target.(query := q);
  }

  /** For a deployment name without slashes at its ends, the path is the
      endpoint's path (trailing slashes dropped) followed by
      `/openai/deployments/<deployment>/chat/completions`. */
  lemma DeploymentPathShape(base: string, deployment: string)
    requires IsBareSegment(deployment)
    ensures DeploymentPath(base, deployment)
         == TrimTrailingSlashes(base) + "/openai/deployments/" + deployment + "/chat/completions"
  {
    var p, c := "/openai/deployments/", "/chat/completions";
    assert StartsWithOneSlash(p) && EndsWithOneSlash(p) && StartsWithOneSlash(c);
    PathJoinOfFour(base, p, deployment, c);
    JoinThrough(base, p, deployment, c);
  }

  // ---------------------------------------------------------------------------
  // The request

  datatype ChatMessage = ChatMessage(role: string, content: string)

  /** The body of a chat-completions POST; a temperature of `None` would be
      left out of the JSON. */
  datatype ChatCompletionRequest = ChatCompletionRequest(messages: seq<ChatMessage>, temperature: Option<real>)

  const TEMPERATURE: real := 0.2

  /** The payload: the system prompt, then the user prompt, verbatim, and the
      fixed temperature. */
  function ChatPayload(systemPrompt: string, userPrompt: string): (p: ChatCompletionRequest)
    ensures |p.messages| == 2
    ensures p.messages[0].role == "system" && p.messages[1].role == "user"
    ensures p.temperature.Some?
  {
    ChatCompletionRequest([ChatMessage("system", systemPrompt), ChatMessage("user", userPrompt)], Some(TEMPERATURE))
  }

  /** The prompts reach the payload unchanged: the payload determines them. */
  lemma ChatPayloadKeepsPrompts(systemPrompt: string, userPrompt: string)
    ensures ChatPayload(systemPrompt, userPrompt).messages[0].content == systemPrompt
    ensures ChatPayload(systemPrompt, userPrompt).messages[1].content == userPrompt
    ensures ChatPayload(systemPrompt, userPrompt).temperature == Some(TEMPERATURE)
  {
  }

  /** The POST issued to the chat-completions target. */
  function ChatHttpRequest(cfg: AzureOpenAIConfig, endpoint: URL, systemPrompt: string, userPrompt: string): (r: Request<URL, ChatCompletionRequest>)
    ensures r.httpMethod == POST && r.timeoutSeconds == CLIENT_TIMEOUT_SECONDS == 30
    ensures r.target == ChatTarget(endpoint, cfg)
    ensures r.body == ChatPayload(systemPrompt, userPrompt)
    ensures r.headers == [Header("Content-Type", "application/json"), Header("api-key", cfg.apiKey)]
  {
    Request(
      POST,
      ChatTarget(endpoint, cfg),
      [Header("Content-Type", "application/json"), Header("api-key", cfg.apiKey)],
      ChatPayload(systemPrompt, userPrompt),
      CLIENT_TIMEOUT_SECONDS)
  }

  // ---------------------------------------------------------------------------
  // The response

  datatype Choice = Choice(message: ChatMessage)
  datatype ErrorEnvelope = ErrorEnvelope(message: string)

  /** The decoded response body; `error` is absent unless the service sent one. */
  datatype ChatCompletionResponse = ChatCompletionResponse(choices: seq<Choice>, error: Option<ErrorEnvelope>)
  {
    /** The service's error message, or "" when the response carries no error. */
    function ErrorMessage(): (m: string)
      ensures error.None? ==> m == ""
      ensures error.Some? ==> m == error.value.message
    {
      if error.None? then "" else error.value.message
    }
  }

  datatype ChatError =
    | EndpointParseFailed(cause: string)
    | CreateRequestFailed(cause: string)
    | RequestFailed(cause: string)
    | ReadResponseFailed(cause: string)
    | DecodeFailed(cause: string)
    | UpstreamStatus(status: string, message: string)
    | NoChoices
    | EmptyContent
  {
    /** The text of the error as `fmt.Errorf` or `errors.New` formats it. */
    function Text(): (t: string)
      ensures UpstreamStatus? ==> HasPrefix(t, "azure openai returned " + status) && HasSuffix(t, message)
    {
      match this
      case EndpointParseFailed(cause) => "invalid Azure OpenAI endpoint: " + cause
      case CreateRequestFailed(cause) => "failed to create Azure OpenAI request: " + cause
      case RequestFailed(cause) => "azure openai request failed: " + cause
      case ReadResponseFailed(cause) => "failed to read Azure OpenAI response: " + cause
      case DecodeFailed(cause) => "failed to decode Azure OpenAI response: " + cause
      case UpstreamStatus(status, message) =>
        var p := "azure openai returned " + status;
        assert (p + ": " + message)[..|p|] == p;
        p + ": " + message
      case NoChoices => "azure openai returned no choices"
      case EmptyContent => "azure openai returned empty content"
    }
  }

  /** The message reported for a non-2xx response: the service's trimmed error
      message, or the trimmed raw body when that is blank. */
  function UpstreamMessage(decoded: ChatCompletionResponse, body: string): (msg: string)
    ensures IsTrimmed(msg)
    ensures TrimSpace(decoded.ErrorMessage()) != "" ==> msg == TrimSpace(decoded.ErrorMessage())
    ensures TrimSpace(decoded.ErrorMessage()) == "" ==> msg == TrimSpace(body)
  {
    var msg := TrimSpace(decoded.ErrorMessage());
    if msg == "" then TrimSpace(body) else msg
  }

  /** The reported message is blank only when both the envelope message and
      the body are blank; a response without an envelope reports its body. */
  lemma UpstreamMessageFallback(decoded: ChatCompletionResponse, body: string)
    ensures UpstreamMessage(decoded, body) == "" <==> AllSpace(decoded.ErrorMessage()) && AllSpace(body)
    ensures decoded.error.None? ==> UpstreamMessage(decoded, body) == TrimSpace(body)
  {
    TrimSpaceEmpty(decoded.ErrorMessage());
    TrimSpaceEmpty(body);
  }

  /** Classifies a response that has been read in full. The body is decoded
      first, for every status; then the status is checked; then the first
      choice's trimmed content must be non-empty. */
  function ClassifyChatResponse(statusCode: int, status: string, body: string, decode: string -> Result<ChatCompletionResponse, string>): (r: Result<string, ChatError>)
    ensures decode(body).Failure? ==> r == Failure(DecodeFailed(decode(body).error))
    ensures decode(body).Success? && !IsSuccessStatus(statusCode) ==>
      r == Failure(UpstreamStatus(status, UpstreamMessage(decode(body).value, body)))
    ensures decode(body).Success? && IsSuccessStatus(statusCode) && decode(body).value.choices == [] ==> r == Failure(NoChoices)
    ensures (&& decode(body).Success? && IsSuccessStatus(statusCode) && decode(body).value.choices != []
             && TrimSpace(decode(body).value.choices[0].message.content) == "") ==> r == Failure(EmptyContent)
    ensures r.Success? ==> (
      && decode(body).Success? && IsSuccessStatus(statusCode) && decode(body).value.choices != []
      && r.value == TrimSpace(decode(body).value.choices[0].message.content))
  {
    var decoded := decode(body);
    if decoded.Failure? then Failure(DecodeFailed(decoded.error))
    else if !IsSuccessStatus(statusCode) then Failure(UpstreamStatus(status, UpstreamMessage(decoded.value, body)))
    else if |decoded.value.choices| == 0 then Failure(NoChoices)
    else
      var content := TrimSpace(decoded.value.choices[0].message.content);
      if content == "" then Failure(EmptyContent) else Success(content)
  }

  /** A 2xx response whose first choice has blank content is the empty-content
      error; otherwise the first choice's content is the answer. */
  lemma FirstChoiceDecides(statusCode: int, status: string, body: string, decode: string -> Result<ChatCompletionResponse, string>)
    requires decode(body).Success? && IsSuccessStatus(statusCode) && decode(body).value.choices != []
    ensures var content := decode(body).value.choices[0].message.content;
      && (AllSpace(content) ==> ClassifyChatResponse(statusCode, status, body, decode) == Failure(EmptyContent))
      && (!AllSpace(content) ==> ClassifyChatResponse(statusCode, status, body, decode) == Success(TrimSpace(content)))
  {
    TrimSpaceEmpty(decode(body).value.choices[0].message.content);
  }

  /** A 200 response whose only choice says " hello " answers "hello". */
  lemma TrimmedAnswerExample(body: string, decode: string -> Result<ChatCompletionResponse, string>)
    requires decode(body) == Success(ChatCompletionResponse([Choice(ChatMessage("assistant", " hello "))], None))
    ensures ClassifyChatResponse(200, "200 OK", body, decode) == Success("hello")
  {
    var s := " hello ";
    assert TrimBounds(s, 1, 6);
    TrimSpaceOfBounds(s, 1, 6);
    assert s[1..6] == "hello";
  }

  /** A response whose error envelope says "rate limited" reports that message
      with its status. */
  lemma RateLimitedExample(body: string, decode: string -> Result<ChatCompletionResponse, string>)
    requires decode(body) == Success(ChatCompletionResponse([], Some(ErrorEnvelope("rate limited"))))
    ensures ClassifyChatResponse(429, "429 Too Many Requests", body, decode)
         == Failure(UpstreamStatus("429 Too Many Requests", "rate limited"))
  {
    var m := "rate limited";
    assert IsTrimmed(m);
    TrimSpaceOfTrimmed(m);
  }

  /** Only the first choice is consulted: responses that agree on it (and on
      the error envelope) are classified alike, whatever other choices follow. */
  lemma OnlyFirstChoiceConsulted(
    statusCode: int, status: string, body: string,
    decode1: string -> Result<ChatCompletionResponse, string>, decode2: string -> Result<ChatCompletionResponse, string>)
    requires decode1(body).Success? && decode2(body).Success?
    requires decode1(body).value.error == decode2(body).value.error
    requires decode1(body).value.choices != [] && decode2(body).value.choices != []
    requires decode1(body).value.choices[0] == decode2(body).value.choices[0]
    ensures ClassifyChatResponse(statusCode, status, body, decode1) == ClassifyChatResponse(statusCode, status, body, decode2)
  {
  }

  /** An answer is the first choice's content with only white space removed,
      at both ends; it is never blank and has no white space at either end. */
  lemma AnswerIsTrimmedContent(statusCode: int, status: string, body: string, decode: string -> Result<ChatCompletionResponse, string>)
    requires ClassifyChatResponse(statusCode, status, body, decode).Success?
    ensures var answer := ClassifyChatResponse(statusCode, status, body, decode).value;
      && answer != "" && IsTrimmed(answer)
      && StripsTo(decode(body).value.choices[0].message.content, answer)
  {
    TrimSpaceStrips(decode(body).value.choices[0].message.content);
  }

  /** `AzureOpenAIChatCompletion`: parse the endpoint, build the target and the
      payload, issue the request through `send`, and classify what comes back. */
  method AzureOpenAIChatCompletion(
    cfg: AzureOpenAIConfig, systemPrompt: string, userPrompt: string,
    parse: string -> Result<URL, string>,
    send: Request<URL, ChatCompletionRequest> -> Exchange,
    decode: string -> Result<ChatCompletionResponse, string>) returns (r: Result<string, ChatError>)
    ensures parse(cfg.endpoint).Failure? ==> r == Failure(EndpointParseFailed(parse(cfg.endpoint).error))
    ensures parse(cfg.endpoint).Success? ==> (
      var ex := send(ChatHttpRequest(cfg, parse(cfg.endpoint).value, systemPrompt, userPrompt));
      && (ex.NotCreated? ==> r == Failure(CreateRequestFailed(ex.cause)))
      && (ex.TransportFailed? ==> r == Failure(RequestFailed(ex.cause)))
      && (ex.ReadFailed? ==> r == Failure(ReadResponseFailed(ex.cause)))
      && (ex.Received? ==> r == ClassifyChatResponse(ex.statusCode, ex.status, ex.body, decode)))
  {
    var parsed := parse(cfg.endpoint);
    if parsed.Failure? {
      return Failure(EndpointParseFailed(parsed.error));
    }
    var target := BuildTarget(parsed.value, cfg);
    var payload := ChatPayload(systemPrompt, userPrompt);
    var request := Request(
      POST, target,
      [Header("Content-Type", "application/json"), Header("api-key", cfg.apiKey)],
      payload, CLIENT_TIMEOUT_SECONDS);
    assert request == ChatHttpRequest(cfg, parsed.value, systemPrompt, userPrompt);
    match send(request)
    case NotCreated(cause) => r := Failure(CreateRequestFailed(cause));
    case TransportFailed(cause) => r := Failure(RequestFailed(cause));
    case ReadFailed(cause) => r := Failure(ReadResponseFailed(cause));
    case Received(statusCode, status, body) => r := ClassifyChatResponse(statusCode, status, body, decode);
  }
}
