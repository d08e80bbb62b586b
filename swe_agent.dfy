/** The SWE Agent integration: resolving its configuration from the environment,
    building the job-submission request for a GitHub issue, and classifying the
    response of the `/run` endpoint. */
module SweAgent {
  import opened Results
  import opened Text
  import opened Http
  import opened Environment

  const DEFAULT_ENDPOINT := "http://localhost:8000"
  const ENDPOINT_VAR := "SWE_AGENT_ENDPOINT"

  /** The required variables, in the order the resolver checks them. */
  const REQUIRED_VARS: seq<string> :=
    ["AZURE_OPENAI_API_BASE", "AZURE_OPENAI_API_KEY", "AZURE_OPENAI_MODEL", "AZURE_OPENAI_API_VERSION", "GITHUB_TOKEN"]

  datatype SWEAgentConfig = SWEAgentConfig(
    endpoint: string,
    azureOpenAIAPIBase: string,
    azureOpenAIAPIKey: string,
    azureOpenAIModel: string,
    azureAPIVersion: string,
    gitHubToken: string)

  /** Go's zero value `SWEAgentConfig{}`. */
  const ZERO_CONFIG := SWEAgentConfig("", "", "", "", "", "")

  /** The endpoint the resolver settles on: the trimmed setting, or the local
      default when that is blank. */
  function ResolvedEndpoint(env: map<string, string>): (e: string)
    ensures e != "" && IsTrimmed(e)
    ensures Setting(env, ENDPOINT_VAR) != "" ==> e == Setting(env, ENDPOINT_VAR)
    ensures Setting(env, ENDPOINT_VAR) == "" ==> e == DEFAULT_ENDPOINT
  {
    var e := Setting(env, ENDPOINT_VAR);
    if e == "" then
      DefaultEndpointIsTrimmed();
      DEFAULT_ENDPOINT
    else
      e
  }

  lemma DefaultEndpointIsTrimmed()
    ensures DEFAULT_ENDPOINT != "" && IsTrimmed(DEFAULT_ENDPOINT)
  {
  }

  /** Every variable read and trimmed, before the endpoint is defaulted. */
  function TrimmedSettings(env: map<string, string>): (cfg: SWEAgentConfig)
    ensures IsTrimmed(cfg.endpoint) && IsTrimmed(cfg.azureOpenAIAPIBase) && IsTrimmed(cfg.azureOpenAIAPIKey)
    ensures IsTrimmed(cfg.azureOpenAIModel) && IsTrimmed(cfg.azureAPIVersion) && IsTrimmed(cfg.gitHubToken)
    ensures cfg.endpoint == Setting(env, ENDPOINT_VAR)
    ensures ReadFrom(env, RequiredFields(cfg))
  {
    var cfg := SWEAgentConfig(
      Setting(env, ENDPOINT_VAR),
      Setting(env, "AZURE_OPENAI_API_BASE"),
      Setting(env, "AZURE_OPENAI_API_KEY"),
      Setting(env, "AZURE_OPENAI_MODEL"),
      Setting(env, "AZURE_OPENAI_API_VERSION"),
      Setting(env, "GITHUB_TOKEN"));
    assert ReadFrom(env, RequiredFields(cfg)) by {
      var fs := RequiredFields(cfg);
      forall k | 0 <= k < |fs| ensures fs[k].value == Setting(env, fs[k].name) {
        if k == 0 {} else if k == 1 {} else if k == 2 {} else if k == 3 {} else {}
      }
    }
    cfg
  }

  /** The fields the resolver requires, in the order it checks them. The
      endpoint is not among them: it has a default. */
  function RequiredFields(cfg: SWEAgentConfig): (fields: seq<Field>)
    ensures Names(fields) == REQUIRED_VARS
  {
    var fields := [
      Field("AZURE_OPENAI_API_BASE", cfg.azureOpenAIAPIBase),
      Field("AZURE_OPENAI_API_KEY", cfg.azureOpenAIAPIKey),
      Field("AZURE_OPENAI_MODEL", cfg.azureOpenAIModel),
      Field("AZURE_OPENAI_API_VERSION", cfg.azureAPIVersion),
      Field("GITHUB_TOKEN", cfg.gitHubToken)];
    assert Names(fields) == REQUIRED_VARS;
    fields
  }

  /** The required-variable checks of `SWEAgentConfigFromEnv`: each blank
      field appends its variable's name, in the order the fields are checked. */
  method MissingRequired(cfg: SWEAgentConfig) returns (missing: seq<string>)
    ensures missing == MissingNames(RequiredFields(cfg))
  {
    ghost var fs := RequiredFields(cfg);
    // After each check, `missing` holds what the checks so far contributed.
    missing := [];
    if cfg.azureOpenAIAPIBase == "" {
      missing := missing + ["AZURE_OPENAI_API_BASE"];
    }
    assert missing == Blank(fs[0]);
    if cfg.azureOpenAIAPIKey == "" {
      missing := missing + ["AZURE_OPENAI_API_KEY"];
    }
    assert missing == Blank(fs[0]) + Blank(fs[1]);
    if cfg.azureOpenAIModel == "" {
      missing := missing + ["AZURE_OPENAI_MODEL"];
    }
    assert missing == Blank(fs[0]) + Blank(fs[1]) + Blank(fs[2]);
    if cfg.azureAPIVersion == "" {
      missing := missing + ["AZURE_OPENAI_API_VERSION"];
    }
    assert missing == Blank(fs[0]) + Blank(fs[1]) + Blank(fs[2]) + Blank(fs[3]);
    if cfg.gitHubToken == "" {
      missing := missing + ["GITHUB_TOKEN"];
    }
    assert missing == Blank(fs[0]) + Blank(fs[1]) + Blank(fs[2]) + Blank(fs[3]) + Blank(fs[4]);
    assert fs == [fs[0], fs[1], fs[2], fs[3], fs[4]];
    MissingNamesOfFive(fs[0], fs[1], fs[2], fs[3], fs[4]);
  }

  /** `SWEAgentConfigFromEnv`: trims every variable, defaults the endpoint, then
      reports every blank required variable at once. */
  method SWEAgentConfigFromEnv(env: map<string, string>) returns (cfg: SWEAgentConfig, err: Option<ConfigError>)
    ensures var fields := RequiredFields(TrimmedSettings(env));
      && (err.None? <==> forall k :: 0 <= k < |fields| ==> fields[k].value != "")
      && (err.None? ==> cfg == TrimmedSettings(env).(endpoint := ResolvedEndpoint(env)))
      && (err.Some? ==> cfg == ZERO_CONFIG)
      && (err.Some? ==> err.value == MissingConfiguration("SWE Agent", MissingNames(fields)))
  {
    cfg := TrimmedSettings(env);
    ghost var fields := RequiredFields(cfg);
    if cfg.endpoint == "" {
      cfg := cfg.(endpoint := DEFAULT_ENDPOINT);
    }
    assert RequiredFields(cfg) == fields;

    var missing := MissingRequired(cfg);
    NoneMissing(fields);
    if |missing| > 0 {
      return ZERO_CONFIG, Some(MissingConfiguration("SWE Agent", missing));
    }
    return cfg, None;
  }

  /** The field of `cfg` that holds the variable `name` (empty for any other name). */
  function VariableValue(cfg: SWEAgentConfig, name: string): string {
    if name == ENDPOINT_VAR then cfg.endpoint
    else if name == "AZURE_OPENAI_API_BASE" then cfg.azureOpenAIAPIBase
    else if name == "AZURE_OPENAI_API_KEY" then cfg.azureOpenAIAPIKey
    else if name == "AZURE_OPENAI_MODEL" then cfg.azureOpenAIModel
    else if name == "AZURE_OPENAI_API_VERSION" then cfg.azureAPIVersion
    else if name == "GITHUB_TOKEN" then cfg.gitHubToken
    else ""
  }

  /** A variable is reported missing exactly when it is one of the five required
      ones and its field is blank; the endpoint is never reported. */
  lemma MissingExactlyTheBlankRequired(cfg: SWEAgentConfig, name: string)
    ensures name in MissingNames(RequiredFields(cfg)) <==> name in REQUIRED_VARS && VariableValue(cfg, name) == ""
    ensures ENDPOINT_VAR !in MissingNames(RequiredFields(cfg))
  {
    MissingNamesExact(RequiredFields(cfg));
  }

  /** Over the environment itself: a variable is reported exactly when it is
      one of the five required ones and it is unset or all white space. */
  lemma ReportedExactlyTheBlankVariables(env: map<string, string>, name: string)
    ensures name in MissingNames(RequiredFields(TrimmedSettings(env)))
        <==> name in REQUIRED_VARS && (name !in env || AllSpace(env[name]))
  {
    MissingFromEnvironment(env, RequiredFields(TrimmedSettings(env)), name);
  }

  /** The blank variables are reported in the order API_BASE, API_KEY, MODEL,
      API_VERSION, GITHUB_TOKEN. */
  lemma MissingInCheckOrder(cfg: SWEAgentConfig)
    ensures Embeds(MissingNames(RequiredFields(cfg)), REQUIRED_VARS)
  {
    MissingNamesInOrder(RequiredFields(cfg));
  }

  /** A resolved configuration has no white space at the ends of any value,
      and its endpoint is never empty. */
  lemma ResolvedConfigIsTrimmed(env: map<string, string>)
    ensures var cfg := TrimmedSettings(env).(endpoint := ResolvedEndpoint(env));
      && cfg.endpoint != "" && IsTrimmed(cfg.endpoint)
      && IsTrimmed(cfg.azureOpenAIAPIBase) && IsTrimmed(cfg.azureOpenAIAPIKey) && IsTrimmed(cfg.azureOpenAIModel)
      && IsTrimmed(cfg.azureAPIVersion) && IsTrimmed(cfg.gitHubToken)
  {
  }

  /** The text of a resolver failure tells exactly which required variables
      were blank: two failures read the same only if the same variables were
      blank in both configurations. */
  lemma MissingReportIdentifiesBlanks(cfg1: SWEAgentConfig, cfg2: SWEAgentConfig)
    requires MissingNames(RequiredFields(cfg1)) != [] && MissingNames(RequiredFields(cfg2)) != []
    requires MissingConfiguration("SWE Agent", MissingNames(RequiredFields(cfg1))).Text()
          == MissingConfiguration("SWE Agent", MissingNames(RequiredFields(cfg2))).Text()
    ensures forall n :: n in REQUIRED_VARS ==> (VariableValue(cfg1, n) == "" <==> VariableValue(cfg2, n) == "")
  {
    var m1, m2 := MissingNames(RequiredFields(cfg1)), MissingNames(RequiredFields(cfg2));
    forall n ensures n in m1 <==> n in REQUIRED_VARS && VariableValue(cfg1, n) == "" {
      MissingExactlyTheBlankRequired(cfg1, n);
    }
    forall n ensures n in m2 <==> n in REQUIRED_VARS && VariableValue(cfg2, n) == "" {
      MissingExactlyTheBlankRequired(cfg2, n);
    }
    RequiredNamesArePlain();
    assert PlainNames(m1) by { forall k | 0 <= k < |m1| ensures m1[k] in REQUIRED_VARS { } }
    assert PlainNames(m2) by { forall k | 0 <= k < |m2| ensures m2[k] in REQUIRED_VARS { } }
    MissingTextDeterminesNames("SWE Agent", m1, m2);
  }

  lemma RequiredNamesArePlain()
    ensures forall n :: n in REQUIRED_VARS ==> n != "" && NoComma(n)
  {
  }

  // ---------------------------------------------------------------------------
  // The /run request

  datatype ModelConfig = ModelConfig(name: string, apiBase: string, apiVersion: string, apiKey: string)
  datatype AgentModel = AgentModel(model: ModelConfig)
  datatype ProblemStatement = ProblemStatement(kind: string, gitHubURL: string)
  datatype Repo = Repo(gitHubURL: string)
  datatype AgentEnv = AgentEnv(repo: Repo)
  datatype Actions = Actions(openPR: bool)

  /** The body of a POST to `/run`. */
  datatype RunRequest = RunRequest(
    agent: AgentModel,
    problemStatement: ProblemStatement,
    env: AgentEnv,
    actions: Actions,
    envVars: map<string, string>)

  /** The body of a `/run` response; the job is not interpreted further. */
  datatype RunResponse = RunResponse(jobID: string, status: string, message: string)

  function RepoURL(owner: string, repo: string): (u: string)
    ensures HasPrefix(u, "https://github.com/" + owner + "/") && HasSuffix(u, repo)
    ensures |u| == |"https://github.com/"| + |owner| + 1 + |repo|
  {
    var p := "https://github.com/" + owner + "/";
    assert (p + repo)[..|p|] == p && (p + repo)[|p|..] == repo;
    p + repo
  }

  /** `fmt.Sprintf("https://github.com/%s/%s/issues/%d", owner, repo, issueNumber)`. */
  function IssueURL(owner: string, repo: string, issueNumber: int): (u: string)
    ensures HasPrefix(u, RepoURL(owner, repo) + "/issues/")
  {
    RepoURL(owner, repo) + "/issues/" + IntToDecimal(issueNumber)
  }

  /** The issue URL extends the repository URL, and the issue number can be read
      back from what follows `/issues/`. */
  lemma IssueNumberRecoverable(owner: string, repo: string, issueNumber: int)
    ensures var u := IssueURL(owner, repo, issueNumber);
      var p := RepoURL(owner, repo) + "/issues/";
      && HasPrefix(u, RepoURL(owner, repo))
      && HasPrefix(u, p)
      && u[|p|..] == IntToDecimal(issueNumber)
      && ParseInt(u[|p|..]) == issueNumber
  {
    var u := IssueURL(owner, repo, issueNumber);
    var p := RepoURL(owner, repo) + "/issues/";
    assert u[|p|..] == IntToDecimal(issueNumber);
    assert u[..|RepoURL(owner, repo)|] == p[..|RepoURL(owner, repo)|];
    IntToDecimalRoundTrip(issueNumber);
  }

  /** Issue 42 of acme/widgets. */
  lemma IssueURLExample()
    ensures RepoURL("acme", "widgets") == "https://github.com/acme/widgets"
    ensures IssueURL("acme", "widgets", 42) == "https://github.com/acme/widgets/issues/42"
  {
    assert NatToDecimal(42) == NatToDecimal(4) + [DigitChar(2)] == "42";
  }

  /** Distinct issues of one repository get distinct URLs. */
  lemma IssueURLInjective(owner: string, repo: string, n1: int, n2: int)
    requires IssueURL(owner, repo, n1) == IssueURL(owner, repo, n2)
    ensures n1 == n2
  {
    IssueNumberRecoverable(owner, repo, n1);
    IssueNumberRecoverable(owner, repo, n2);
  }

  /** The request body of `CallSWEAgent` for one issue. */
  function BuildRunRequest(cfg: SWEAgentConfig, owner: string, repo: string, issueNumber: int): (r: RunRequest)
    ensures r.agent.model.name == cfg.azureOpenAIModel
    ensures r.agent.model.apiBase == cfg.azureOpenAIAPIBase
    ensures r.agent.model.apiVersion == cfg.azureAPIVersion
    ensures r.agent.model.apiKey == cfg.azureOpenAIAPIKey
    ensures r.problemStatement.kind == "github" && r.actions.openPR
    ensures r.problemStatement.gitHubURL == IssueURL(owner, repo, issueNumber)
    ensures r.env.repo.gitHubURL == RepoURL(owner, repo)
    ensures HasPrefix(r.problemStatement.gitHubURL, r.env.repo.gitHubURL)
    ensures r.envVars.Keys == {"GITHUB_TOKEN"} && r.envVars["GITHUB_TOKEN"] == cfg.gitHubToken
  {
    IssueNumberRecoverable(owner, repo, issueNumber);
    RunRequest(
      AgentModel(ModelConfig(cfg.azureOpenAIModel, cfg.azureOpenAIAPIBase, cfg.azureAPIVersion, cfg.azureOpenAIAPIKey)),
      ProblemStatement("github", IssueURL(owner, repo, issueNumber)),
      AgentEnv(Repo(RepoURL(owner, repo))),
      Actions(true),
      map["GITHUB_TOKEN" := cfg.gitHubToken])
  }

  /** `strings.TrimSuffix(cfg.Endpoint, "/") + "/run"`. */
  function RunEndpoint(endpoint: string): (target: string)
    ensures HasSuffix(target, "/run")
    ensures !HasSuffix(endpoint, "/") ==> target == endpoint + "/run"
    ensures HasSuffix(endpoint, "/") ==> target == endpoint[..|endpoint| - 1] + "/run"
  {
    TrimSuffix(endpoint, "/") + "/run"
  }

  /** The POST that `CallSWEAgent` issues. */
  function RunHttpRequest(cfg: SWEAgentConfig, owner: string, repo: string, issueNumber: int): (r: Request<string, RunRequest>)
    ensures r.httpMethod == POST && r.timeoutSeconds == CLIENT_TIMEOUT_SECONDS == 30
    ensures r.target == RunEndpoint(cfg.endpoint)
    ensures HasPrefix(r.target, TrimSuffix(cfg.endpoint, "/")) && HasSuffix(r.target, "/run")
    ensures r.headers == [Header("Content-Type", "application/json")]
    ensures r.body == BuildRunRequest(cfg, owner, repo, issueNumber)
  {
    var e := TrimSuffix(cfg.endpoint, "/");
    assert (e + "/run")[..|e|] == e;
    Request(
      POST,
      RunEndpoint(cfg.endpoint),
      [Header("Content-Type", "application/json")],
      BuildRunRequest(cfg, owner, repo, issueNumber),
      CLIENT_TIMEOUT_SECONDS)
  }

  // ---------------------------------------------------------------------------
  // The /run response

  datatype RunError =
    | CreateRequestFailed(cause: string)
    | RequestFailed(cause: string)
    | ReadResponseFailed(cause: string)
    | UpstreamStatus(status: string, body: string)
    | DecodeFailed(cause: string)
  {
    /** The text of the error as `fmt.Errorf` formats it. */
    function Text(): (t: string)
      ensures UpstreamStatus? ==> HasPrefix(t, "SWE Agent returned " + status) && HasSuffix(t, body)
    {
      match this
      case CreateRequestFailed(cause) => "failed to create SWE Agent request: " + cause
      case RequestFailed(cause) => "SWE Agent request failed: " + cause
      case ReadResponseFailed(cause) => "failed to read SWE Agent response: " + cause
      case UpstreamStatus(status, body) =>
        var p := "SWE Agent returned " + status;
        assert (p + ": " + body)[..|p|] == p;
        p + ": " + body
      case DecodeFailed(cause) => "failed to decode SWE Agent response: " + cause
    }
  }

  /** Classifies a response that has been read in full. The status is checked
      first; `decode` (standing for `json.Unmarshal` into RunResponse) is only
      applied to a 2xx body. */
  function ClassifyRunResponse(statusCode: int, status: string, body: string, decode: string -> Result<RunResponse, string>): (r: Result<RunResponse, RunError>)
    ensures !IsSuccessStatus(statusCode) ==> r == Failure(UpstreamStatus(status, body))
    ensures IsSuccessStatus(statusCode) && decode(body).Failure? ==> r == Failure(DecodeFailed(decode(body).error))
    ensures r.Success? <==> IsSuccessStatus(statusCode) && decode(body).Success?
    ensures r.Success? ==> r.value == decode(body).value
  {
    if !IsSuccessStatus(statusCode) then Failure(UpstreamStatus(status, body))
    else
      var decoded := decode(body);
      if decoded.Failure? then Failure(DecodeFailed(decoded.error)) else Success(decoded.value)
  }

  /** A non-2xx response is classified the same whatever the decoder would make
      of its body: decoding is not attempted. */
  lemma StatusCheckedBeforeDecode(
    statusCode: int, status: string, body: string,
    decode1: string -> Result<RunResponse, string>, decode2: string -> Result<RunResponse, string>)
    requires !IsSuccessStatus(statusCode)
    ensures ClassifyRunResponse(statusCode, status, body, decode1) == ClassifyRunResponse(statusCode, status, body, decode2)
  {
  }

  /** `CallSWEAgent`: build the request, issue it through `send`, and classify
      what comes back. */
  function CallSWEAgent(
    cfg: SWEAgentConfig, owner: string, repo: string, issueNumber: int,
    send: Request<string, RunRequest> -> Exchange,
    decode: string -> Result<RunResponse, string>): (r: Result<RunResponse, RunError>)
    ensures var ex := send(RunHttpRequest(cfg, owner, repo, issueNumber));
      && (ex.NotCreated? ==> r == Failure(CreateRequestFailed(ex.cause)))
      && (ex.TransportFailed? ==> r == Failure(RequestFailed(ex.cause)))
      && (ex.ReadFailed? ==> r == Failure(ReadResponseFailed(ex.cause)))
      && (ex.Received? ==> r == ClassifyRunResponse(ex.statusCode, ex.status, ex.body, decode))
      && (ex.Received? && !IsSuccessStatus(ex.statusCode) ==> r == Failure(UpstreamStatus(ex.status, ex.body)))
      && (ex.Received? && IsSuccessStatus(ex.statusCode) && decode(ex.body).Failure? ==>
            r == Failure(DecodeFailed(decode(ex.body).error)))
      && (r.Success? <==> ex.Received? && IsSuccessStatus(ex.statusCode) && decode(ex.body).Success?)
      && (r.Success? ==> r.value == decode(ex.body).value)
  {
    match send(RunHttpRequest(cfg, owner, repo, issueNumber))
    case NotCreated(cause) => Failure(CreateRequestFailed(cause))
    case TransportFailed(cause) => Failure(RequestFailed(cause))
    case ReadFailed(cause) => Failure(ReadResponseFailed(cause))
    case Received(statusCode, status, body) => ClassifyRunResponse(statusCode, status, body, decode)
  }
}
