# sunday-llm: the request and decision layers, in Dafny

sunday-llm is a small web service that forwards prompts to a language-model
backend. It talks either to an OpenAI-compatible chat-completions API or to
a local Ollama server. This project models the deterministic layers around
the network calls and proves their properties:

- `WebApi` (`web_api_client.dfy`) models the shared HTTP transport. `WebApiClient` is a class whose header map
  and client configuration are updated in place by `AddHeader`. `Classify` is the pure
  classification of a POST exchange into a parsed JSON value or `PostFailed`.
  The error type and its `Display` texts are here too.
- `OpenAi` (`openai_client.dfy`) models the chat-completions adapter. It covers the constructor's check
  order, the two-message request, and the selection of the first assistant
  answer.
- `Ollama` (`ollama_client.dfy`) models the local-model adapter. It covers the constructor, the
  generation request built from fixed defaults, the response decoder,
  embeddings, and the mapping of errors.
- `Settings` (`settings.dfy`) and `Secrets` (`secrets.dfy`) model the configuration lookups. These are
  first-match searches written as loops, plus the case-insensitive HTTP
  method parser and the `get_public` projections.
- `Wire` (`wire.dfy`) holds the pieces the modules share:
  - a JSON value type;
  - serde's rules for required and optional fields;
  - `u64` and `i64` ranges;
  - ASCII case folding;
  - decimal rendering of status codes.
- `Urls` (`url.dfy`) models the part of the `url` crate the adapters use:
  - `parse` keeps the scheme rule, and for the special schemes (`http`, `https`, `ws`, `wss`, `ftp`) also the host rule and the `//host/path` normalisation;
  - `join` is modelled for absolute paths.
- `Wrappers` (`wrappers.dfy`) holds `Option` and `Result`.

The outside world enters only as parameters:
- The network is a function `network: Exchange -> HttpOutcome`. It maps the client
  configuration, the URL and the JSON body to what happened: a send error, a
  body-read error, or a status with the body text and the result of parsing that text as JSON.
- Whether reqwest can build a client is a parameter `buildError: Option<string>`.

Behaviour of the code that the model keeps:
- `GenerateResponse.context` has no serde default. An Ollama answer without a
  `context` array is therefore rejected as a parse error (`Ollama.ContextIsRequired`).
- The Ollama request has no `skip_serializing_if`. `format` and `suffix` are
  therefore written as JSON `null` when absent, never omitted (`Ollama.GenerateRequestWire`).
- `add_header` inserts the header before it rebuilds the client. If the rebuild
  fails, the map holds the new header while the old client stays in use, so
  the two no longer agree (`WebApi.WebApiClient.AddHeader`).
- The OpenAI adapter computes a `format` from its `json` flag and never uses
  it (`OpenAi.JsonFlagIgnored`).

## Model

| member | source | states |
|---|---|---|
| WebApi.DisplayInjective | src/web_api_client.rs:23-38 | two errors that display the same are the same variant with the same message, so the prefix identifies the variant |
| WebApi.ParseHeaderName | src/web_api_client.rs:77-79 | a header name is accepted iff it is a nonempty RFC 9110 token, and it is stored lower-cased with its length kept |
| WebApi.HeaderNameCaseInsensitive | src/web_api_client.rs:77-85 | two spellings that differ only in ASCII case name the same map entry, so inserting one overwrites the other |
| WebApi.HeaderNameCanonical | src/web_api_client.rs:77-85 | a stored name parses back to itself |
| WebApi.StandardHeaderNames | src/web_api_client.rs:53-56 | "Content-Type" and "Authorization" are valid names whose keys are "content-type" and "authorization" |
| WebApi.BearerValueValid | src/web_api_client.rs:81-83 | "Bearer " followed by a key is a valid header value iff the key is |
| WebApi.Classify | src/web_api_client.rs:118-143 | send errors, body-read errors, non-2xx statuses and unparsable JSON each become `PostFailed` with their own message, and never any other variant; the parsed value is returned iff the status is 2xx and the JSON parsed |
| WebApi.StatusDigits | src/web_api_client.rs:135-138 | the non-2xx error text is the prefix, the status code's digits at a fixed offset, the reason and the body, in that order |
| WebApi.ErrorStatusReported | src/web_api_client.rs:135-138 | a non-2xx error's display carries the three-digit status code, readable back as that number, and ends with the raw body text |
| WebApi.WebApiClient.constructor | src/web_api_client.rs:50-70 | the header map holds exactly `content-type: application/json`; the user agent is the app name, a space and the version; both timeouts are stored as given; the client matches this state and follows no redirects |
| WebApi.WebApiClient.GetClient | src/web_api_client.rs:91-111 | the configuration carries the user agent and headers with redirects disabled; it has a connect timeout iff one is stored and an overall timeout iff one is stored; a failed build is `ClientCreationError("Failed to create HTTP client: …")` |
| WebApi.WebApiClient.AddHeader | src/web_api_client.rs:72-89 | an invalid name or value gives `HeaderCreationError` and changes nothing; otherwise `headers[name] := value` with every other entry kept; it succeeds iff the client rebuild succeeds, and then the client matches the headers; a failed rebuild keeps the new header and the old client |
| WebApi.WebApiClient.PostRequest | src/web_api_client.rs:113-144 | the exchange goes through the current client; every failure is `PostFailed`; a success is the parsed body of a 2xx response |
| OpenAi.DisplayInjective | src/openai_client.rs:16-24 | the three display prefixes tell the variants apart, so equal displays mean equal errors |
| OpenAi.DecodeChatMessage | src/openai_client.rs:45-49 | a message decodes iff it is an object whose `role` and `content` are strings, and the decoded fields are those strings |
| OpenAi.ChatMessageRoundTrip | src/openai_client.rs:45-49 | a serialised message deserialises to itself |
| OpenAi.DecodeChoice | src/openai_client.rs:57-61 | a choice decodes iff it has an `i64` `index` and a decodable `message` |
| OpenAi.DecodeChoices | src/openai_client.rs:63-66 | the choices decode iff every element does, and the order and length are kept |
| OpenAi.DecodeChatCompletionResponse | src/openai_client.rs:63-66 | a response decodes iff it is an object whose `choices` array decodes element by element, and its choices are those elements' decodings |
| OpenAi.ChatRequest | src/openai_client.rs:154-166 | the request has the given model and exactly two messages: system with the system prompt, then user with the prompt |
| OpenAi.FindAssistant | src/openai_client.rs:192-196 | the result is the first index whose role is "assistant", and none iff no choice has that role |
| OpenAi.OpenAiClient.New | src/openai_client.rs:74-123 | an absent or empty key fails first with `InvalidApiKey("API key cannot be empty")`; then a header failure gives `InvalidApiKey` with the transport's message; then a base-URL failure gives `InvalidInput`; success holds `authorization: Bearer <key>` beside `content-type`, with the given timeouts |
| OpenAi.OpenAiClient.Answer | src/openai_client.rs:142-190 | a join failure is `InvalidInput("Invalid URL: …")`; a transport failure is `CompletionFailed("POST request failed: " + its display)`; a shape mismatch is `CompletionFailed`; otherwise the decoded response of the post |
| OpenAi.OpenAiClient.ChatCompletion | src/openai_client.rs:135-205 | the result is the content of the first assistant choice; it succeeds iff the answer decodes and has an assistant choice; otherwise it fails with `CompletionFailed("No assistant response found")` or the earlier error |
| OpenAi.OpenAiClient.Generate | src/openai_client.rs:124-133 | returns exactly what `ChatCompletion` returns for the same arguments |
| OpenAi.JsonFlagIgnored | src/openai_client.rs:142 | the `json` flag does not change the result |
| OpenAi.FirstAssistantNotFirstChoice | src/openai_client.rs:192-204 | for a 2xx answer whose choices are a user message and then an assistant "hello", the result is "hello" |
| Ollama.FormatFor | src/ollama_client.rs:120 | the format is `Some("json")` iff JSON output is asked for |
| Ollama.GenerateRequestDefaults | src/ollama_client.rs:22-35 | every generation request has raw and stream off, temperature 0.3, keep-alive "10m" and no suffix; model and prompt are copied; the system prompt is always present |
| Ollama.GenerateRequestWire | src/ollama_client.rs:8-19 | the request always has the same nine keys, and an absent `format` or `suffix` is written as `null` |
| Ollama.JsonOnlyChangesFormat | src/ollama_client.rs:120-139 | the `json` flag changes only the `format` field of the request |
| Ollama.DecodeGenerateResponse | src/ollama_client.rs:38-52 | a decoded response requires the four text and flag fields and `context`, and carries their values |
| Ollama.DecodeMetrics | src/ollama_client.rs:46-51 | each metric is the decoded optional field of the same name |
| Ollama.GenerateResponseRoundTrip | src/ollama_client.rs:38-52 | a serialised response deserialises to itself |
| Ollama.ContextIsRequired | src/ollama_client.rs:45 | no answer without `context` decodes; when the fields before it are well-formed, the error is "missing field `context`" |
| Ollama.MetricsMayBeAbsent | src/ollama_client.rs:44-51 | in any answer that decodes, each optional field that is absent or `null` decodes as `None` |
| Ollama.MinimalAnswerDecodes | src/ollama_client.rs:38-52 | an answer of the four required texts and flag and an empty `context` decodes, with every optional field `None` |
| Ollama.AsNumbers | src/ollama_client.rs:62 | the embedding vector decodes iff every element is a number, with order and length kept |
| Ollama.DecodeEmbeddingResponse | src/ollama_client.rs:60-63 | an embedding response decodes iff its `_embedding` field is an array of numbers, and keeps its length |
| Ollama.OllamaClient.New | src/ollama_client.rs:72-111 | an absent key is the empty key and `Bearer ` is still added; a header failure gives `InvalidApiKey` before the URL is parsed; a URL failure gives `InvalidInput`; success holds both headers and the timeouts |
| Ollama.OllamaClient.Generate | src/ollama_client.rs:113-153 | a join failure is `InvalidInput`; a transport error passes through unchanged; a shape mismatch is `ParseError("Failed to parse generate response: …")`; a success is the decoded answer itself |
| Ollama.OllamaClient.Embeddings | src/ollama_client.rs:155-188 | sends `{model, prompt: text}` with the same mapping of errors, and a shape mismatch is `ParseError("Failed to parse response: …")` |
| Settings.Method.From | src/settings.rs:14-24 | a text gives the method whose lower-case name equals its lower-cased form; any other text fails with "Invalid HTTP method" |
| Settings.MethodFromAnyCasing | src/settings.rs:14-20 | any casing of a method's name parses to that method |
| Settings.MethodNameRoundTrip | src/settings.rs:14-20 | every method's name parses back to that method |
| Settings.MethodFromExamples | src/settings.rs:14-21 | "GET", "Post", "pUT" and "DELETE" parse; "PATCH" fails |
| Settings.GetPublicDropsOnlyPath | src/settings.rs:43-52 | `get_public` copies server, template and both prompts, and two configurations project equally iff those four fields agree |
| Settings.Settings.GetEndpointByPath | src/settings.rs:72-82 | returns the public view of the first endpoint whose path equals the query; fails with NotFound "Endpoint … not found" iff none matches |
| Settings.Settings.GetServerConfigByName | src/settings.rs:84-94 | returns an exact copy of the first server whose name equals the query; fails with NotFound "Server … not found" iff none matches |
| Secrets.GetPublicFieldForField | src/secrets.rs:54-62 | `get_public` copies name and value, so two entries project equally iff they are equal |
| Secrets.Secrets.GetByName | src/secrets.rs:41-51 | returns the first entry whose name equals the query, so later duplicates are shadowed; the result's name is the query; fails with NotFound "Secret … not found" iff none matches |
| Urls.ParseUrl | src/openai_client.rs:109-117 | in this model, a URL parses iff the text before its first colon is a scheme and, for a special scheme, a nonempty host follows; the scheme is stored in lower case; a special URL is normalised to `//host/path`; the error is "relative URL without a base" or "empty host" |
| Urls.SpecialRest | src/ollama_client.rs:97-105 | what follows a special scheme's colon becomes `//`, the host and a path starting with `/`, and an empty host is an error |
| Urls.EmptyHostRejected | src/ollama_client.rs:97-105 | a special scheme followed only by slashes (`http://`) fails with "empty host" |
| Urls.MissingSlashesNormalised | src/ollama_client.rs:97-105 | a special scheme followed by a bare host (`http:host:1`) parses as `//host/` |
| Urls.Join | src/openai_client.rs:144-152 | an absolute path joins onto a hierarchical base by keeping scheme and authority; joining onto a cannot-be-a-base URL fails with "relative URL with a cannot-be-a-base base" |
| Urls.SpecialBaseJoins | src/ollama_client.rs:122-127 | any parsed special URL joins with an absolute path, keeping scheme and `//host`; so with an `http` or `https` base, the "Invalid URL" error of `generate` cannot occur |
| Wire.DecimalRoundTrip | src/web_api_client.rs:135-138 | a status code's decimal text reads back as the code |
| Wire.Optional | src/ollama_client.rs:44-51 | an `Option` field that is absent or `null` decodes as `None`, and any other value is decoded as the inner type |
| Wire.OptionalJson | src/ollama_client.rs:8-19 | `None` serialises as `null`, never as a missing key |

## Left out

- Asynchronous I/O is not modelled: the `.await`s, the actual HTTP exchange and the body read. An `HttpOutcome` value given by the `network` parameter stands for them.
- Parsing JSON text (`serde_json::from_str`) is not modelled. Its result is part of the outcome.
- `Settings::load`, `Secrets::load` and `read_config` are not modelled: they read a file and parse TOML with a foreign parser.
- Logging (`debug!`, `info!`) has no effect on results and is not modelled.
- `WebApi.WebApiClient.constructor`: the source panics (`expect`) when the first client build fails. The model takes that build to succeed.
- `WebApi.AppName`, `WebApi.AppVersion`: these come from compile-time `env!` values and are left as unspecified strings.
- The canonical reason phrase of a status (reqwest's table) is not computed. It is carried in `Status` as given.
- The `http` crate's header limits are not modelled: lengths and the exact error texts of `InvalidHeaderName` and `InvalidHeaderValue`. The model checks the RFC 9110 token rule for names (section 5.6.2) and the crate's byte rule for values, and uses one fixed text for each error.
- Case folding is ASCII only, as the `http` crate does for names. `Settings.Method.From` uses ASCII folding where the source uses Unicode `to_lowercase`, so non-ASCII inputs that fold to a method name are not covered.
- Reqwest's internal merging of default headers and its redirect machinery are not modelled. Only the configuration the builder receives is modelled.
- `Duration::from_secs` is not modelled: timeouts stay whole seconds.
- Floats are not interpreted. The temperature is the literal `0.3` as text, and embedding values are the JSON numbers as received.
- Urls.ParseUrl: a simplified model of the WHATWG rules the `url` crate follows. It accepts some inputs the crate rejects and does not normalise what it keeps:
  - ports and host characters are not validated: a bad port, a forbidden host character or a malformed IP address is accepted;
  - hosts are not lower-cased, percent-decoded or converted with IDNA;
  - paths are kept as written: no dot-segment removal or percent-encoding;
  - backslashes are treated as slashes only before the host;
  - leading and trailing spaces and control characters are not stripped;
  - `file` is treated as a non-special scheme, so its text after the colon is kept as it is.
- Urls.Join: only absolute paths are modelled, which are all the adapters use.
- Deserialisation covers serde's object form with its missing-field rule. It does not cover the sequence form of a struct, duplicate keys, or serde's exact wording for type errors.
- Decoders report the first bad field in declaration order. serde reads the object's keys in map order, stops at the first type error, and reports a missing field only after every present field has decoded. With several bad fields, the `ParseError` or `CompletionFailed` message can therefore name a different field than the source's. For example, `{"created_at": 1, "response": "r", "done": true, "context": []}` is rejected in both, but the model names the missing `model` where serde names `created_at`.
- `NewChatCompletion` in src/openai_client.rs and its `Default` are never used by the adapter, so they are not modelled.
- Choosing a backend from a server's `api_type` is not part of these source files, so it is not part of this model.
- `Settings.Settings.GetEndpointByPath`, `Settings.Settings.GetServerConfigByName`, `Secrets.Secrets.GetByName`: these lookups take `&self` in the source. The model makes them methods on immutable values, so "the settings are unchanged" holds by construction and is not stated as a contract.
