/**
 * The OpenAI-compatible chat adapter (src/openai_client.rs): a non-empty
 * API key is mandatory; `generate` sends a system message and a user
 * message to the chat-completions path and answers with the content of the
 * first choice whose role is "assistant".
 */
module OpenAi {
  import opened Wrappers
  import opened Wire
  import opened Urls
  import WebApi
  import Settings

  datatype OpenAiClientError =
    | InvalidApiKey(msg: string)
    | InvalidInput(msg: string)
    | CompletionFailed(msg: string)
  {
    /** The fixed text `Display` writes in front of the message. */
    function Prefix(): string {
      match this
      case InvalidApiKey(_) => "Invalid API Key: "
      case InvalidInput(_) => "Invalid Input: "
      case CompletionFailed(_) => "Completion Failed: "
    }

    /** `impl Display for OpenAiClientError`. */
    function ToString(): string {
      Prefix() + msg
    }
  }

  /** The displayed text determines the variant and its message. */
  lemma DisplayInjective(a: OpenAiClientError, b: OpenAiClientError)
    ensures a.ToString() == b.ToString() ==> a == b
  {
    var pa, pb := a.Prefix(), b.Prefix();
    if pa != pb {
      var k := if pa[0] != pb[0] then 0 else 8;
      assert a.ToString()[k] == pa[k] && b.ToString()[k] == pb[k];
    } else if a.ToString() == b.ToString() {
      assert a.msg == a.ToString()[|pa|..] == b.ToString()[|pb|..] == b.msg;
    }
  }

  // ---------------------------------------------------------------------------
  // Wire shapes

  datatype ChatMessage = ChatMessage(role: string, content: string) {
    /** The derived `Serialize`. */
    function ToJson(): Json {
      Object(map["role" := Str(role), "content" := Str(content)])
    }
  }

  /** The derived `Deserialize` of `ChatMessage`, for the JSON object form. */
  function DecodeChatMessage(j: Json, name: string): (r: Result<ChatMessage, string>)
    ensures r.Success? <==>
      j.Object? && "role" in j.fields && j.fields["role"].Str? && "content" in j.fields && j.fields["content"].Str?
    ensures r.Success? ==> j.fields["role"] == Str(r.value.role) && j.fields["content"] == Str(r.value.content)
  {
    if !j.Object? then Failure(InvalidType(name))
    else
      var role :- Required(j.fields, "role", AsString);
      var content :- Required(j.fields, "content", AsString);
      Success(ChatMessage(role, content))
  }

  /** A serialized message deserializes to itself. */
  lemma ChatMessageRoundTrip(m: ChatMessage, name: string)
    ensures DecodeChatMessage(m.ToJson(), name) == Success(m)
  {
    var f := m.ToJson().fields;
    assert f["role"] == Str(m.role) && f["content"] == Str(m.content);
  }

  datatype ChatCompletionRequest = ChatCompletionRequest(model: string, messages: seq<ChatMessage>) {
    /** The derived `Serialize`. */
    function ToJson(): Json {
      Object(map["model" := Str(model), "messages" := Array(seq(|messages|, k requires 0 <= k < |messages| => messages[k].ToJson()))])
    }
  }

  datatype ChatCompletionChoice = ChatCompletionChoice(index: int, message: ChatMessage)

  datatype ChatCompletionResponse = ChatCompletionResponse(choices: seq<ChatCompletionChoice>)

  /** The derived `Deserialize` of `ChatCompletionChoice`: an `i64` index and a message. */
  function DecodeChoice(j: Json): (r: Result<ChatCompletionChoice, string>)
    ensures r.Success? <==>
      j.Object? && "index" in j.fields && AsI64(j.fields["index"], "index").Success? &&
      "message" in j.fields && DecodeChatMessage(j.fields["message"], "message").Success?
    ensures r.Success? ==> InI64(r.value.index) && j.fields["index"] == Num(Int(r.value.index))
    ensures r.Success? ==> "message" in j.fields && DecodeChatMessage(j.fields["message"], "message") == Success(r.value.message)
  {
    if !j.Object? then Failure(InvalidType("choices"))
    else
      var index :- Required(j.fields, "index", AsI64);
      var message :- Required(j.fields, "message", DecodeChatMessage);
      Success(ChatCompletionChoice(index, message))
  }

  function DecodeChoices(items: seq<Json>): (r: Result<seq<ChatCompletionChoice>, string>)
    ensures r.Success? <==> forall k :: 0 <= k < |items| ==> DecodeChoice(items[k]).Success?
    ensures r.Success? ==> |r.value| == |items| && forall k :: 0 <= k < |items| ==> DecodeChoice(items[k]) == Success(r.value[k])
  {
    if items == [] then Success([])
    else
      var c :- DecodeChoice(items[0]);
      var cs :- DecodeChoices(items[1..]);
      Success([c] + cs)
  }

  /** The derived `Deserialize` of `ChatCompletionResponse`: an object whose `choices` is an array of choices. */
  function DecodeChatCompletionResponse(j: Json): (r: Result<ChatCompletionResponse, string>)
    ensures r.Success? <==>
      j.Object? && "choices" in j.fields && j.fields["choices"].Array? &&
      forall k :: 0 <= k < |j.fields["choices"].items| ==> DecodeChoice(j.fields["choices"].items[k]).Success?
    ensures r.Success? ==> |r.value.choices| == |j.fields["choices"].items|
    ensures r.Success? ==> DecodeChoices(j.fields["choices"].items) == Success(r.value.choices)
  {
    if !j.Object? then Failure(InvalidType("ChatCompletionResponse"))
    else if "choices" !in j.fields then Failure(MissingField("choices"))
    else if !j.fields["choices"].Array? then Failure(InvalidType("choices"))
    else
      var cs :- DecodeChoices(j.fields["choices"].items);
      Success(ChatCompletionResponse(cs))
  }

  // ---------------------------------------------------------------------------
  // Request construction and answer selection

  const ChatCompletionsPath := "/v1/chat/completions"
  const Assistant := "assistant"

  /** The chat request: the model, then exactly a system message and a user message, in that order. */
  function ChatRequest(model: string, systemPrompt: string, prompt: string): (req: ChatCompletionRequest)
    ensures req.model == model && |req.messages| == 2
    ensures req.messages[0].role == "system" && req.messages[0].content == systemPrompt
    ensures req.messages[1].role == "user" && req.messages[1].content == prompt
  {
    ChatCompletionRequest(model, [ChatMessage("system", systemPrompt), ChatMessage("user", prompt)])
  }

  /** `choices.iter().find(|o| o.message.role == "assistant")`, as the index of the choice found. */
  function FindAssistant(choices: seq<ChatCompletionChoice>): (r: Option<nat>)
    ensures r.Some? ==>
      r.value < |choices| && choices[r.value].message.role == Assistant &&
      forall j :: 0 <= j < r.value ==> choices[j].message.role != Assistant
    ensures r.None? <==> forall j :: 0 <= j < |choices| ==> choices[j].message.role != Assistant
  {
    if choices == [] then None
    else if choices[0].message.role == Assistant then Some(0)
    else match FindAssistant(choices[1..])
      case None => None
      case Some(i) => Some(i + 1)
  }

  // ---------------------------------------------------------------------------
  // The adapter

  class OpenAiClient {
    const authApiClient: WebApi.WebApiClient
    const baseUrl: Url

    constructor (authApiClient: WebApi.WebApiClient, baseUrl: Url)
      ensures this.authApiClient == authApiClient && this.baseUrl == baseUrl
    {
      this.authApiClient := authApiClient;
      this.baseUrl := baseUrl;
    }

    /**
     * `OpenAiClient::new`: the key must be present and non-empty; then the
     * Authorization header is added; then the base URL is parsed. The
     * second build of the transport's client may fail with `buildError`.
     */
    static method New(setting: Settings.ServerConfig, apiKey: Option<string>, buildError: Option<string>)
      returns (r: Result<OpenAiClient, OpenAiClientError>)
      ensures apiKey.GetOr("") == "" ==> r == Failure(InvalidApiKey("API key cannot be empty"))
      ensures apiKey.GetOr("") != "" && !WebApi.ValidHeaderValue(apiKey.value) ==>
        r == Failure(InvalidApiKey("Failed to add header to WebApiClient: " +
          WebApi.HeaderCreationError("Invalid header value for `Authorization`: " + WebApi.InvalidHeaderValueText).ToString()))
      ensures apiKey.GetOr("") != "" && WebApi.ValidHeaderValue(apiKey.value) && buildError.Some? ==>
        r == Failure(InvalidApiKey("Failed to add header to WebApiClient: " +
          WebApi.ClientCreationError("Failed to create HTTP client: " + buildError.value).ToString()))
      ensures apiKey.GetOr("") != "" && WebApi.ValidHeaderValue(apiKey.value) && buildError.None? ==>
        (r.Failure? <==> ParseUrl(setting.baseApiUrl).Failure?) &&
        (r.Failure? ==> r.error == InvalidInput("Failed to parse base API URL (" + setting.baseApiUrl + "): " + ParseUrl(setting.baseApiUrl).error))
      ensures r.Success? ==> fresh(r.value) && fresh(r.value.authApiClient)
      ensures r.Success? ==> apiKey.Some? && r.value.baseUrl == ParseUrl(setting.baseApiUrl).value
      ensures r.Success? ==>
        r.value.authApiClient.headers == map[WebApi.ContentType := "application/json", WebApi.Authorization := WebApi.Bearer + apiKey.value]
      ensures r.Success? ==> r.value.authApiClient.ClientCurrent() && r.value.authApiClient.client.redirect == WebApi.NoRedirects
      ensures r.Success? ==>
        r.value.authApiClient.connectionTimeout == setting.connectionTimeout &&
        r.value.authApiClient.deadlineTimeout == setting.deadlineTimeout
    {
      if apiKey.GetOr("") == "" {
        return Failure(InvalidApiKey("API key cannot be empty"));
      }
      var key := apiKey.value;
      var api := new WebApi.WebApiClient(setting.connectionTimeout, setting.deadlineTimeout);
      WebApi.StandardHeaderNames();
      WebApi.BearerValueValid(key);
      assert "Invalid header value for `" + "Authorization" + "`: " == "Invalid header value for `Authorization`: ";
      var added := api.AddHeader("Authorization", WebApi.Bearer + key, buildError);
      if added.Failure? {
        return Failure(InvalidApiKey("Failed to add header to WebApiClient: " + added.error.ToString()));
      }
      match ParseUrl(setting.baseApiUrl) {
        case Failure(e) =>
          return Failure(InvalidInput("Failed to parse base API URL (" + setting.baseApiUrl + "): " + e));
        case Success(url) =>
          var client := new OpenAiClient(api, url);
          return Success(client);
      }
    }

    /**
     * The chat endpoint's answer, decoded, or the first failure on the way:
     * an unjoinable URL is `InvalidInput`; a failed POST and an answer of the
     * wrong shape are both `CompletionFailed`.
     */
    function Answer(model: string, systemPrompt: string, prompt: string, network: WebApi.Exchange -> WebApi.HttpOutcome): (r: Result<ChatCompletionResponse, OpenAiClientError>)
      reads authApiClient
      ensures Join(baseUrl, ChatCompletionsPath).Failure? ==> r == Failure(InvalidInput("Invalid URL: " + CannotBeABase))
      ensures Join(baseUrl, ChatCompletionsPath).Success? ==>
        var post := authApiClient.PostRequest(Join(baseUrl, ChatCompletionsPath).value, ChatRequest(model, systemPrompt, prompt).ToJson(), network);
        (post.Failure? ==> r == Failure(CompletionFailed("POST request failed: " + post.error.ToString()))) &&
        (post.Success? && DecodeChatCompletionResponse(post.value).Failure? ==>
          r == Failure(CompletionFailed("Failed to parse chat_completion response: " + DecodeChatCompletionResponse(post.value).error))) &&
        (post.Success? ==> (r.Success? <==> DecodeChatCompletionResponse(post.value).Success?)) &&
        (r.Success? ==> post.Success? && DecodeChatCompletionResponse(post.value) == Success(r.value))
      ensures r.Failure? ==> r.error.CompletionFailed? || r.error.InvalidInput?
    {
      match Join(baseUrl, ChatCompletionsPath)
      case Failure(e) => Failure(InvalidInput("Invalid URL: " + e))
      case Success(url) =>
        match authApiClient.PostRequest(url, ChatRequest(model, systemPrompt, prompt).ToJson(), network)
        case Failure(e) => Failure(CompletionFailed("POST request failed: " + e.ToString()))
        case Success(v) =>
          match DecodeChatCompletionResponse(v)
          case Failure(e) => Failure(CompletionFailed("Failed to parse chat_completion response: " + e))
          case Success(parsed) => Success(parsed)
    }

    /**
     * `chat_completion`: the content of the first assistant choice of the
     * answer. With no assistant choice the call fails; it never returns an
     * empty string in its place. The `json` flag is not used.
     */
    function ChatCompletion(model: string, systemPrompt: string, prompt: string, json: bool, network: WebApi.Exchange -> WebApi.HttpOutcome): (r: Result<string, OpenAiClientError>)
      reads authApiClient
      ensures Answer(model, systemPrompt, prompt, network).Failure? ==> r == Failure(Answer(model, systemPrompt, prompt, network).error)
      ensures r.Success? ==>
        var choices := Answer(model, systemPrompt, prompt, network).value.choices;
        Answer(model, systemPrompt, prompt, network).Success? &&
        exists i :: 0 <= i < |choices| && choices[i].message.role == Assistant &&
          (forall j :: 0 <= j < i ==> choices[j].message.role != Assistant) &&
          r.value == choices[i].message.content
      ensures Answer(model, systemPrompt, prompt, network).Success? ==>
        var choices := Answer(model, systemPrompt, prompt, network).value.choices;
        (r.Success? <==> exists i :: 0 <= i < |choices| && choices[i].message.role == Assistant) &&
        (r.Failure? ==> r.error == CompletionFailed("No assistant response found"))
    {
      match Answer(model, systemPrompt, prompt, network)
      case Failure(e) => Failure(e)
      case Success(parsed) =>
        match FindAssistant(parsed.choices)
        case None => Failure(CompletionFailed("No assistant response found"))
        case Some(i) => Success(parsed.choices[i].message.content)
    }

    /** `generate`: exactly what `chat_completion` answers for the same arguments. */
    function Generate(model: string, systemPrompt: string, prompt: string, json: bool, network: WebApi.Exchange -> WebApi.HttpOutcome): (r: Result<string, OpenAiClientError>)
      reads authApiClient
      ensures r == ChatCompletion(model, systemPrompt, prompt, json, network)
    {
      ChatCompletion(model, systemPrompt, prompt, json, network)
    }
  }

  /** The `json` flag has no effect on what the chat adapter sends or answers. */
  lemma JsonFlagIgnored(c: OpenAiClient, model: string, systemPrompt: string, prompt: string, network: WebApi.Exchange -> WebApi.HttpOutcome)
    ensures c.Generate(model, systemPrompt, prompt, true, network) == c.Generate(model, systemPrompt, prompt, false, network)
  {
  }

  function ChoiceJson(index: int, role: string, content: string): Json {
    Object(map["index" := Num(Int(index)), "message" := ChatMessage(role, content).ToJson()])
  }

  /** A user choice followed by an assistant choice, as a chat endpoint might answer. */
  function UserThenAssistant(): Json {
    Object(map["choices" := Array([ChoiceJson(0, "user", "echo"), ChoiceJson(1, "assistant", "hello")])])
  }

  /**
   * The first assistant choice wins even when it is not at index 0: given
   * the answer above with status 200, the adapter returns "hello".
   */
  lemma FirstAssistantNotFirstChoice(c: OpenAiClient, model: string, systemPrompt: string, prompt: string, json: bool,
                                     network: WebApi.Exchange -> WebApi.HttpOutcome)
    requires Join(c.baseUrl, ChatCompletionsPath).Success?
    requires network(WebApi.Exchange(c.authApiClient.client, Join(c.baseUrl, ChatCompletionsPath).value, ChatRequest(model, systemPrompt, prompt).ToJson()))
      == WebApi.Responded(WebApi.Status(200, Some("OK")), "", Success(UserThenAssistant()))
    ensures c.Generate(model, systemPrompt, prompt, json, network) == Success("hello")
  {
    var user, assistant := ChatMessage("user", "echo"), ChatMessage("assistant", "hello");
    ChatMessageRoundTrip(user, "message");
    ChatMessageRoundTrip(assistant, "message");
    var items := UserThenAssistant().fields["choices"].items;
    assert DecodeChoice(items[0]) == Success(ChatCompletionChoice(0, user));
    assert DecodeChoice(items[1]) == Success(ChatCompletionChoice(1, assistant));
    var parsed := DecodeChatCompletionResponse(UserThenAssistant());
    assert parsed.Success?;
    assert parsed.value.choices == [ChatCompletionChoice(0, user), ChatCompletionChoice(1, assistant)];
    assert FindAssistant(parsed.value.choices) == Some(1);
  }
}
