# External-call contract layer of github-mcp-server

This project models the layer around the two outbound HTTP calls of the
`github` package:

- **The SWE Agent integration.** A job is submitted for a GitHub issue by POSTing to the agent's `/run` endpoint.
- **The Azure OpenAI chat-completion client.** A system prompt and a user prompt are sent to a deployment's `chat/completions` endpoint, and the trimmed answer comes back.

For each call the model covers four things:

- how its configuration is resolved from the environment;
- how the target URL and the request body are built;
- how a response that has been read in full is classified into a result or a distinct error;
- the text of each error.

Modules:

- `Results`: `Option` and `Result`.
- `Text`: the Go string functions the layer relies on:
  - `strings.TrimSpace`, with the white-space set of `unicode.IsSpace`;
  - `strings.Join`;
  - `strings.TrimSuffix`;
  - the `%d` verb.
- `Http`: requests as values, the possible outcomes of issuing one, and the 2xx test.
- `Environment`: `os.Getenv` over a map, and the "report every blank required variable at once" policy the two resolvers share.
- `Paths`: `path.Join` for the segments the chat client joins.
- `SweAgent`: `SWEAgentConfigFromEnv` and `CallSWEAgent`.
- `AzureOpenAI`: `AzureOpenAIConfigFromEnv`, `AzureOpenAIChatCompletion` and `ErrorMessage`.

The two configuration resolvers are methods that grow `missing` one check at a
time, as the Go code does. Each method is proved equal to `MissingNames`, a
recursive definition of the same list. The facts about that list are lemmas:

- exactly the blank required variables are listed;
- they are listed in check order;
- the error text determines the list.

The chat client's URL builder is a method that updates the parsed URL's path
and then its query. Classification and `ErrorMessage` are functions.

The Azure OpenAI client is declared twice in the package with identical text:

- in `pkg/github/azure_openai.go:18-150`;
- in `pkg/github/swe_agent.go:184-316`.

Line `n` of the first file is line `n + 166` of the second. The model defines it
once. The table cites `azure_openai.go`.

Outside inputs are parameters:

- The environment is a `map<string, string>`.
- `url.Parse` is a function `parse` from the endpoint string to a parsed `URL` or an error text.
- `json.Unmarshal` into the response type is a function `decode` from the body to a decoded value or an error text.
- Issuing a request (`http.NewRequestWithContext`, `httpClient.Do`, `io.ReadAll`) is a function `send` from the request value to an `Exchange`. An `Exchange` is one of:
  - the request could not be created;
  - the transport failed;
  - reading the body failed;
  - a status code, a status line and a body.

## Model

| member | source | states |
|---|---|---|
| Text.TrimSpace | pkg/github/swe_agent.go:31-36 | The result has no white space (per `unicode.IsSpace`) at either end and is no longer than the input |
| Text.IsSpace | pkg/github/swe_agent.go:31-36 | Among ASCII characters, exactly tab, line feed, vertical tab, form feed, carriage return and space are white space |
| Text.TrimSpaceStrips | pkg/github/swe_agent.go:31-36 | Trimming removes white space only, and only from the two ends |
| Text.TrimSpaceEmpty | pkg/github/swe_agent.go:40 | A value trims to "" exactly when it is all white space, so a blank variable counts as unset |
| Text.TrimSpaceOfBounds | pkg/github/azure_openai.go:137 | Any cut of leading and trailing white space down to a trimmed remainder is exactly what TrimSpace yields |
| Text.Join | pkg/github/swe_agent.go:61 | Joining no names gives ""; otherwise the text starts with the first name |
| Text.JoinInjective | pkg/github/swe_agent.go:61 | For non-empty, comma-free names, the `", "`-joined text determines the list |
| Text.TrimSuffix | pkg/github/swe_agent.go:153 | With the suffix present, the result followed by the suffix is the input; without it, the input is returned |
| Text.IntToDecimal | pkg/github/swe_agent.go:119 | `%d` output is non-empty decimal digits, preceded by a minus sign exactly for negative numbers, with no leading zero except for 0 itself |
| Text.IntToDecimalRoundTrip | pkg/github/swe_agent.go:119 | Reading back the `%d` rendering of any integer gives that integer |
| Http.IsSuccessStatus | pkg/github/swe_agent.go:172 | A status counts as success exactly when it is in the 2xx class, 200 to 299: 300 is not a success |
| Environment.Getenv | pkg/github/swe_agent.go:31 | A variable that is set reads as its value; an unset one reads as "" |
| Environment.Setting | pkg/github/swe_agent.go:31-36 | The value a resolver reads for a variable (unset reads as "") has no white space at either end |
| Environment.BlankSetting | pkg/github/swe_agent.go:31-45 | A variable reads as blank exactly when it is unset or consists only of white space |
| Environment.MissingFromEnvironment | pkg/github/swe_agent.go:31-59 | For fields that hold the settings of the variables they are named after, a checked variable is reported exactly when it is unset or all white space in the environment |
| Environment.MissingNames | pkg/github/swe_agent.go:44-59 | At most one name is listed per checked field; which names, and in which order, is stated by the three lemmas below |
| Environment.MissingNamesExact | pkg/github/swe_agent.go:44-59 | A name is listed exactly when a checked field with that name is blank |
| Environment.MissingNamesInOrder | pkg/github/swe_agent.go:44-59 | The listed names are the checked names with the set ones left out, in check order |
| Environment.NoneMissing | pkg/github/swe_agent.go:60 | Nothing is listed exactly when every checked field is non-blank |
| Environment.ConfigError.Text | pkg/github/swe_agent.go:61 | A missing-configuration error is exactly "missing <component> configuration: " followed directly by the `", "`-joined names. An invalid-endpoint error (`pkg/github/azure_openai.go:51`) is exactly "invalid <variable>: " followed directly by the cause. In both, the length is the sum of the two parts, so nothing sits between them |
| Environment.MissingTextDeterminesNames | pkg/github/swe_agent.go:61 | Two "missing … configuration" texts of one component are equal only if they list the same plain names in the same order |
| SweAgent.ResolvedEndpoint | pkg/github/swe_agent.go:39-42 | The endpoint is the trimmed setting when that is non-blank, else exactly `http://localhost:8000`; it is never empty and never has white space at its ends |
| SweAgent.TrimmedSettings | pkg/github/swe_agent.go:30-37 | The endpoint is the setting of SWE_AGENT_ENDPOINT, and every required field holds the trimmed value of the very variable it is checked under. Every value has no white space at either end |
| SweAgent.ResolvedConfigIsTrimmed | pkg/github/swe_agent.go:30-42 | Every value of a resolved configuration has no white space at either end, and the endpoint is non-empty |
| SweAgent.RequiredFields | pkg/github/swe_agent.go:44-59 | The checked variables are API_BASE, API_KEY, MODEL, API_VERSION and GITHUB_TOKEN, in that order |
| SweAgent.MissingRequired | pkg/github/swe_agent.go:44-59 | The five successive appends leave `missing` equal to the blank required names in check order |
| SweAgent.SWEAgentConfigFromEnv | pkg/github/swe_agent.go:29-65 | Succeeds exactly when all five required values are non-blank after trimming. On success the config is the trimmed values with the endpoint defaulted. On failure the config is the zero value and the error is "missing SWE Agent configuration" with exactly the blank names |
| SweAgent.MissingExactlyTheBlankRequired | pkg/github/swe_agent.go:44-59 | A variable is reported exactly when it is one of the five required ones and its value is blank; SWE_AGENT_ENDPOINT is never reported |
| SweAgent.ReportedExactlyTheBlankVariables | pkg/github/swe_agent.go:30-59 | Stated over the environment: a variable is reported exactly when it is one of the five required ones and it is unset or all white space |
| SweAgent.MissingInCheckOrder | pkg/github/swe_agent.go:44-59 | The reported names follow the order API_BASE, API_KEY, MODEL, API_VERSION, GITHUB_TOKEN |
| SweAgent.MissingReportIdentifiesBlanks | pkg/github/swe_agent.go:60-62 | Two failures with the same text come from configurations with the same required variables blank |
| SweAgent.IssueURL | pkg/github/swe_agent.go:119 | The issue URL starts with the repository URL followed by `/issues/` |
| SweAgent.IssueNumberRecoverable | pkg/github/swe_agent.go:119-120 | The repository URL is a prefix of the issue URL, and what follows `/issues/` is the `%d` rendering, which reads back as the issue number |
| SweAgent.IssueURLExample | pkg/github/swe_agent.go:119-120 | Issue 42 of acme/widgets is `https://github.com/acme/widgets/issues/42` in repository `https://github.com/acme/widgets` |
| SweAgent.IssueURLInjective | pkg/github/swe_agent.go:119 | Distinct issue numbers of one repository give distinct URLs |
| SweAgent.RepoURL | pkg/github/swe_agent.go:120 | The repository URL is exactly `https://github.com/`, the owner, a slash and the repository name: it starts with the first three, ends with the name, and is no longer than the four together |
| SweAgent.BuildRunRequest | pkg/github/swe_agent.go:122-146 | The body copies model name, base, version and key unchanged, has type "github" and open_pr true, points at the issue and repository URLs, and has exactly one env var, GITHUB_TOKEN, set to the token |
| SweAgent.RunEndpoint | pkg/github/swe_agent.go:153 | The target ends in `/run`. It is endpoint + `/run` when the endpoint has no trailing slash; otherwise exactly one trailing slash is dropped first |
| SweAgent.RunHttpRequest | pkg/github/swe_agent.go:153-160 | The run request is a POST with a 30-second timeout. It is sent to exactly RunEndpoint of the configured endpoint, which drops one trailing slash and appends `/run`. Its only header is `Content-Type: application/json`, and its body is BuildRunRequest's |
| SweAgent.RunError.Text | pkg/github/swe_agent.go:173 | A status error's text starts with "SWE Agent returned " and the status line, and ends with the raw body verbatim |
| SweAgent.ClassifyRunResponse | pkg/github/swe_agent.go:172-181 | A non-2xx status is a status error carrying the status and the raw body. A 2xx body that fails to decode is a decode error. Success happens exactly on 2xx with a successful decode and returns the decoded value unchanged |
| SweAgent.StatusCheckedBeforeDecode | pkg/github/swe_agent.go:172-174 | For a non-2xx status the outcome does not depend on the decoder: no decode is attempted |
| SweAgent.CallSWEAgent | pkg/github/swe_agent.go:118-181 | Request-creation, transport and read failures each give their own error. A received response is classified by ClassifyRunResponse: a non-2xx status gives the status error, a 2xx body that fails to decode gives the decode error, and success happens exactly on 2xx with a successful decode |
| AzureOpenAI.TrimmedSettings | pkg/github/azure_openai.go:26-31 | Every required field holds the trimmed value of the very variable it is checked under, and has no white space at either end |
| AzureOpenAI.RequiredFields | pkg/github/azure_openai.go:33-45 | The checked variables are ENDPOINT, DEPLOYMENT, API_VERSION and API_KEY, in that order |
| AzureOpenAI.MissingRequired | pkg/github/azure_openai.go:33-45 | The four successive appends leave `missing` equal to the blank required names in check order |
| AzureOpenAI.AzureOpenAIConfigFromEnv | pkg/github/azure_openai.go:25-55 | The error is "missing Azure OpenAI configuration" with the blank names whenever any is blank, and the endpoint is parsed only after that. Otherwise a parse failure gives "invalid AZURE_OPENAI_ENDPOINT" with the parser's error, and else there is no error. On success the config is the trimmed values; on any error it is the zero value |
| AzureOpenAI.ResolvedFieldsAllSet | pkg/github/azure_openai.go:33-48 | Nothing is reported exactly when endpoint, deployment, API version and key are all non-blank |
| AzureOpenAI.MissingExactlyTheBlankRequired | pkg/github/azure_openai.go:33-45 | A variable is reported exactly when it is one of the four required ones and its value is blank |
| AzureOpenAI.ReportedExactlyTheBlankVariables | pkg/github/azure_openai.go:26-45 | Stated over the environment: a variable is reported exactly when it is one of the four required ones and it is unset or all white space |
| AzureOpenAI.MissingInCheckOrder | pkg/github/azure_openai.go:33-45 | The reported names follow the order ENDPOINT, DEPLOYMENT, API_VERSION, API_KEY |
| AzureOpenAI.BuildTarget | pkg/github/azure_openai.go:82-85 | Updating the parsed endpoint's path and then its query yields the endpoint with the deployment's chat-completions path and `api-version` set |
| AzureOpenAI.ChatTarget | pkg/github/azure_openai.go:82-85 | The target keeps the endpoint's origin. Its path is DeploymentPath of the endpoint's path and the configured deployment, so it ends in `/chat/completions`. `api-version` maps to exactly the configured version, overwriting any previous values. Every other query key is kept unchanged, and no key is added besides `api-version` |
| Paths.PathJoinOfFour | pkg/github/azure_openai.go:82 | Joining four segments is appending them to the path one at a time |
| Paths.PathJoin | pkg/github/azure_openai.go:82 | The joined path is empty exactly when every segment is empty |
| Paths.JoinSlashed | pkg/github/azure_openai.go:82 | A segment that starts with one slash meets the path at that slash, with the path's trailing slashes dropped |
| Paths.JoinThrough | pkg/github/azure_openai.go:82 | Base, `/x/`, bare segment and `/y` join into TrimTrailingSlashes(base) followed by the three segments |
| AzureOpenAI.DeploymentPath | pkg/github/azure_openai.go:82 | Whatever the endpoint path and deployment, the target path ends in `/chat/completions` |
| AzureOpenAI.DeploymentPathShape | pkg/github/azure_openai.go:82 | For a deployment with no slash at either end, the path is the endpoint's path without trailing slashes, then `/openai/deployments/`, the deployment and `/chat/completions` |
| AzureOpenAI.ChatPayload | pkg/github/azure_openai.go:87-94 | Exactly two messages, role system then role user, and a temperature that is always present |
| AzureOpenAI.ChatPayloadKeepsPrompts | pkg/github/azure_openai.go:87-94 | The two messages carry the system and user prompts verbatim (untrimmed), and the temperature is 0.2 |
| AzureOpenAI.ChatHttpRequest | pkg/github/azure_openai.go:87-107 | The request is a POST with the 30-second timeout, sent to ChatTarget of the parsed endpoint. Its body is ChatPayload with the system prompt first and the user prompt second. It carries exactly two headers: `Content-Type: application/json` and `api-key` set to the configured key |
| AzureOpenAI.ChatCompletionResponse.ErrorMessage | pkg/github/azure_openai.go:145-150 | "" when the response has no error envelope, else the envelope's message |
| AzureOpenAI.ChatError.Text | pkg/github/azure_openai.go:130 | A status error's text starts with "azure openai returned " and the status line, and ends with the chosen message |
| AzureOpenAI.UpstreamMessage | pkg/github/azure_openai.go:125-131 | The message is the trimmed envelope message when non-blank, else the trimmed raw body; it never has white space at its ends |
| AzureOpenAI.UpstreamMessageFallback | pkg/github/azure_openai.go:125-131 | The message is blank exactly when both the envelope message and the body are all white space. Without an envelope, the message is the trimmed body |
| AzureOpenAI.ClassifyChatResponse | pkg/github/azure_openai.go:120-142 | The checks run in this order, each with its own error: decode failure (any status), non-2xx status (with the fallback message), no choices, blank first content. A success is the trimmed content of choice 0 of a decoded 2xx response |
| AzureOpenAI.FirstChoiceDecides | pkg/github/azure_openai.go:133-142 | For a decoded 2xx response with choices: all-white-space first content is the empty-content error, anything else answers its trim |
| AzureOpenAI.OnlyFirstChoiceConsulted | pkg/github/azure_openai.go:133-137 | Responses that agree on the error envelope and the first choice are classified alike, whatever choices follow |
| AzureOpenAI.AnswerIsTrimmedContent | pkg/github/azure_openai.go:137-142 | An answer is never empty, has no white space at its ends, and is the first choice's content with only its end white space removed |
| AzureOpenAI.TrimmedAnswerExample | pkg/github/azure_openai.go:137-142 | A 200 response whose only choice says " hello " answers "hello" |
| AzureOpenAI.RateLimitedExample | pkg/github/azure_openai.go:125-130 | A 429 response whose envelope says "rate limited" is a status error with that status and message |
| AzureOpenAI.AzureOpenAIChatCompletion | pkg/github/azure_openai.go:76-143 | An endpoint that fails to parse is its own error. Otherwise the request issued is the one ChatHttpRequest describes. Creation, transport and read failures each give their own error, and a received response is classified by ClassifyChatResponse |

## Left out

- HTTP transport is left out because it is I/O: building the request object, sending it, closing and reading the body. A request is a value handed to `send`, and each way `send` can fail is its own `Exchange` outcome.
- Context cancellation and the client's 30-second timeout are concurrency and timing. The timeout is kept as the constant `CLIENT_TIMEOUT_SECONDS` in the request value.
- `json.Marshal` of the request bodies is not modelled. The bodies are datatypes, and the marshal-failure branches (`pkg/github/swe_agent.go:148-151`, `pkg/github/azure_openai.go:96-99`) are left out: these struct types cannot fail to marshal.
- `json.Unmarshal` is a foreign library. It is the `decode` parameter, and the response is its decoded value.
- `url.Parse` is a foreign library. It is the `parse` parameter, and a parsed URL keeps only its origin, path and query.
- AzureOpenAI.ChatTarget: the `query` of a parsed URL is what `endpoint.Query()` returns, so `parse` stands for `url.Parse` followed by `Query()`. `Query()` ignores the `ParseQuery` error and drops every pair with a `;` or a malformed `%` escape. So "every other key is kept" holds for the pairs `Query()` returns, not for every pair in the endpoint's raw query text. `q.Encode()` sorting the keys is not modelled either.
- AzureOpenAI.ChatHttpRequest: headers are a sequence of name and value pairs as the code sets them. `http.Header` is a map that canonicalises names, so `api-key` goes out as `Api-Key`, and the sequence's order stands for nothing in Go. Neither the canonical form nor the map is modelled.
- `q.Encode()` and `endpoint.String()` are not modelled, so the target stays a parsed `URL` value.
- Paths.PathJoin: does not model `path.Clean`'s removal of `.` and `..` segments or of doubled slashes inside one segment. It joins segments with exactly one slash at each boundary and skips empty segments. It also keeps a trailing slash of the last segment, which `path.Clean` drops: `path.Join("a", "b/")` is `a/b`, while PathJoin gives `a/b/`. The chat client's last segment is `/chat/completions`, so its path never ends in a slash.
- AzureOpenAI.DeploymentPathShape: states the exact path only for a deployment name with no slash at either end. For other names only the `/chat/completions` suffix is stated, by DeploymentPath.
- AzureOpenAI.ChatPayload: the temperature is the constant 0.2 as a `real`. The float64 representation is not modelled.
- `%w` error wrapping is not modelled. Each error carries the wrapped error's text as a string.
- The status line comes with the response as given. Its relation to the status code is not modelled.
- Bodies and environment values are character sequences. The byte-to-UTF-8 conversion of `string(respBody)` is not modelled.
- `os.Getenv` reads from the map given as the environment.
- The second copy of the Azure OpenAI client in `pkg/github/swe_agent.go:184-316` is not modelled separately. It is modelled once, because its text is identical to `pkg/github/azure_openai.go:18-150`.
