/**
 * The local-model adapter (src/ollama_client.rs): the API key is optional
 * (absent means empty, and the bearer header is added all the same);
 * `generate` sends a request with fixed defaults to the generation path
 * and returns the decoded response unmodified; `_embeddings` does the same
 * for the embeddings path.
 */
module Ollama {
  import opened Wrappers
  import opened Wire
  import opened Urls
  import opened WebApi
  import Settings

  // ---------------------------------------------------------------------------
  // The generation request

  datatype GenerateRequest = GenerateRequest(
    model: string,
    prompt: string,
    system: Option<string>,
    raw: bool,
    stream: bool,
    temperature: Option<Number>,
    suffix: Option<string>,
    format: Option<string>,
    keepAlive: Option<string>)
  {
    /** The derived `Serialize`: every field is written, a `None` as `null`. */
    function ToJson(): Json {
      Object(map[
        "model" := Str(model),
        "prompt" := Str(prompt),
        "system" := OptionalJson(system, (s: string) => Str(s)),
        "raw" := Bool(raw),
        "stream" := Bool(stream),
        "temperature" := OptionalJson(temperature, (n: Number) => Num(n)),
        "suffix" := OptionalJson(suffix, (s: string) => Str(s)),
        "format" := OptionalJson(format, (s: string) => Str(s)),
        "keep_alive" := OptionalJson(keepAlive, (s: string) => Str(s))])
    }
  }

  /** The `f32` literal 0.3, kept as its text. */
  const Temperature := Float("0.3")

  /** `impl Default for GenerateRequest`. */
  const DefaultGenerateRequest := GenerateRequest("", "", None, false, false, Some(Temperature), None, None, Some("10m"))

  /** The `format` field: the JSON-mode marker exactly when JSON output is asked for. */
  function FormatFor(json: bool): (f: Option<string>)
    ensures f.Some? <==> json
    ensures f.Some? ==> f.value == "json"
  {
    if json then Some("json") else None
  }

  /** The request `generate` sends: the given texts over the defaults. */
  function NewGenerateRequest(model: string, systemPrompt: string, prompt: string, json: bool): GenerateRequest {
    DefaultGenerateRequest.(model := model, system := Some(systemPrompt), prompt := prompt, format := FormatFor(json))
  }

  /**
   * Every generation request is non-raw and non-streaming, with temperature
   * 0.3, keep-alive "10m" and no suffix; it carries the model and prompt
   * unchanged and always a system prompt, even an empty one.
   */
  lemma GenerateRequestDefaults(model: string, systemPrompt: string, prompt: string, json: bool)
    ensures var q := NewGenerateRequest(model, systemPrompt, prompt, json);
      !q.raw && !q.stream && q.temperature == Some(Temperature) && q.keepAlive == Some("10m") && q.suffix.None? &&
      q.model == model && q.prompt == prompt && q.system == Some(systemPrompt) &&
      (q.format.Some? <==> json)
  {
  }

  /**
   * On the wire the request always has the same nine keys; `format` is the
   * string "json" or an explicit `null`, never a missing key.
   */
  lemma GenerateRequestWire(model: string, systemPrompt: string, prompt: string, json: bool)
    ensures var j := NewGenerateRequest(model, systemPrompt, prompt, json).ToJson();
      j.fields.Keys == {"model", "prompt", "system", "raw", "stream", "temperature", "suffix", "format", "keep_alive"} &&
      j.fields["format"] == (if json then Str("json") else Null) &&
      j.fields["system"] == Str(systemPrompt) &&
      j.fields["suffix"] == Null &&
      j.fields["raw"] == Bool(false) && j.fields["stream"] == Bool(false) &&
      j.fields["temperature"] == Num(Temperature) && j.fields["keep_alive"] == Str("10m")
  {
  }

  // ---------------------------------------------------------------------------
  // The generation response

  datatype GenerateResponse = GenerateResponse(
    model: string,
    createdAt: string,
    response: string,
    done: bool,
    doneReason: Option<string>,
    context: seq<u64>,
    totalDuration: Option<u64>,
    loadDuration: Option<u64>,
    promptEvalCount: Option<u64>,
    promptEvalDuration: Option<u64>,
    evalCount: Option<u64>,
    evalDuration: Option<u64>)
  {
    /** The derived `Serialize`. */
    function ToJson(): Json {
      Object(map[
        "model" := Str(model),
        "created_at" := Str(createdAt),
        "response" := Str(response),
        "done" := Bool(done),
        "done_reason" := OptionalJson(doneReason, (s: string) => Str(s)),
        "context" := U64Array(context),
        "total_duration" := OptionalJson(totalDuration, U64Json),
        "load_duration" := OptionalJson(loadDuration, U64Json),
        "prompt_eval_count" := OptionalJson(promptEvalCount, U64Json),
        "prompt_eval_duration" := OptionalJson(promptEvalDuration, U64Json),
        "eval_count" := OptionalJson(evalCount, U64Json),
        "eval_duration" := OptionalJson(evalDuration, U64Json)])
    }
  }

  function U64Json(x: u64): Json {
    Num(Int(x as int))
  }

  /**
   * The derived `Deserialize` of `GenerateResponse`, for the JSON object
   * form: the four texts, `done` and `context` are required; every other
   * field may be missing or null.
   */
  function DecodeGenerateResponse(j: Json): (r: Result<GenerateResponse, string>)
    ensures r.Success? ==>
      j.Object? && "model" in j.fields && "created_at" in j.fields && "response" in j.fields &&
      "done" in j.fields && "context" in j.fields
    ensures r.Success? ==>
      j.fields["model"] == Str(r.value.model) && j.fields["created_at"] == Str(r.value.createdAt) &&
      j.fields["response"] == Str(r.value.response) && j.fields["done"] == Bool(r.value.done) &&
      j.fields["context"] == U64Array(r.value.context)
  {
    if !j.Object? then Failure(InvalidType("GenerateResponse"))
    else
      var f := j.fields;
      var model :- Required(f, "model", AsString);
      var createdAt :- Required(f, "created_at", AsString);
      var response :- Required(f, "response", AsString);
      var done :- Required(f, "done", AsBool);
      var doneReason :- Optional(f, "done_reason", AsString);
      var context :- Required(f, "context", AsU64Array);
      var m :- DecodeMetrics(f);
      Success(GenerateResponse(model, createdAt, response, done, doneReason, context, m.0, m.1, m.2, m.3, m.4, m.5))
  }

  /** The six optional timing and count fields of a `GenerateResponse`, in declaration order. */
  type Metrics = (Option<u64>, Option<u64>, Option<u64>, Option<u64>, Option<u64>, Option<u64>)

  function DecodeMetrics(f: map<string, Json>): (r: Result<Metrics, string>)
    ensures r.Success? ==>
      Optional(f, "total_duration", AsU64) == Success(r.value.0) &&
      Optional(f, "load_duration", AsU64) == Success(r.value.1) &&
      Optional(f, "prompt_eval_count", AsU64) == Success(r.value.2) &&
      Optional(f, "prompt_eval_duration", AsU64) == Success(r.value.3) &&
      Optional(f, "eval_count", AsU64) == Success(r.value.4) &&
      Optional(f, "eval_duration", AsU64) == Success(r.value.5)
  {
    var totalDuration :- Optional(f, "total_duration", AsU64);
    var loadDuration :- Optional(f, "load_duration", AsU64);
    var promptEvalCount :- Optional(f, "prompt_eval_count", AsU64);
    var promptEvalDuration :- Optional(f, "prompt_eval_duration", AsU64);
    var evalCount :- Optional(f, "eval_count", AsU64);
    var evalDuration :- Optional(f, "eval_duration", AsU64);
    Success((totalDuration, loadDuration, promptEvalCount, promptEvalDuration, evalCount, evalDuration))
  }

  lemma {:induction false} U64ItemsRoundTrip(xs: seq<u64>, name: string)
    ensures AsU64Items(U64Array(xs).items, name) == Success(xs)
  {
    if xs != [] {
      U64ItemsRoundTrip(xs[1..], name);
      assert U64Array(xs).items[1..] == U64Array(xs[1..]).items;
      assert [xs[0]] + xs[1..] == xs;
    }
  }

  lemma OptionalU64RoundTrip(o: Option<u64>, f: map<string, Json>, name: string)
    requires name in f && f[name] == OptionalJson(o, U64Json)
    ensures Optional(f, name, AsU64) == Success(o)
  {
  }

  lemma MetricsRoundTrip(g: GenerateResponse)
    ensures DecodeMetrics(g.ToJson().fields) ==
      Success((g.totalDuration, g.loadDuration, g.promptEvalCount, g.promptEvalDuration, g.evalCount, g.evalDuration))
  {
    var f := g.ToJson().fields;
    OptionalU64RoundTrip(g.totalDuration, f, "total_duration");
    OptionalU64RoundTrip(g.loadDuration, f, "load_duration");
    OptionalU64RoundTrip(g.promptEvalCount, f, "prompt_eval_count");
    OptionalU64RoundTrip(g.promptEvalDuration, f, "prompt_eval_duration");
    OptionalU64RoundTrip(g.evalCount, f, "eval_count");
    OptionalU64RoundTrip(g.evalDuration, f, "eval_duration");
  }

  /** The decoder, stated field by field: each field decodes to the value's own. */
  lemma DecodeFieldwise(f: map<string, Json>, g: GenerateResponse)
    requires Required(f, "model", AsString) == Success(g.model)
    requires Required(f, "created_at", AsString) == Success(g.createdAt)
    requires Required(f, "response", AsString) == Success(g.response)
    requires Required(f, "done", AsBool) == Success(g.done)
    requires Optional(f, "done_reason", AsString) == Success(g.doneReason)
    requires Required(f, "context", AsU64Array) == Success(g.context)
    requires DecodeMetrics(f) ==
      Success((g.totalDuration, g.loadDuration, g.promptEvalCount, g.promptEvalDuration, g.evalCount, g.evalDuration))
    ensures DecodeGenerateResponse(Object(f)) == Success(g)
  {
  }

  /** A serialized response deserializes to itself. */
  lemma GenerateResponseRoundTrip(g: GenerateResponse)
    ensures DecodeGenerateResponse(g.ToJson()) == Success(g)
  {
    var f := g.ToJson().fields;
    assert f["model"] == Str(g.model) && f["created_at"] == Str(g.createdAt);
    assert f["response"] == Str(g.response) && f["done"] == Bool(g.done);
    assert f["done_reason"] == OptionalJson(g.doneReason, (s: string) => Str(s));
    assert f["context"] == U64Array(g.context);
    U64ItemsRoundTrip(g.context, "context");
    MetricsRoundTrip(g);
    DecodeFieldwise(f, g);
  }

  /**
   * `context` has no default: no answer without it decodes. When every field
   * before it is well-formed, the error names `context`.
   */
  lemma ContextIsRequired(j: Json)
    requires j.Object? && "context" !in j.fields
    ensures DecodeGenerateResponse(j).Failure?
    ensures
      var f := j.fields;
      "model" in f && f["model"].Str? && "created_at" in f && f["created_at"].Str? &&
      "response" in f && f["response"].Str? && "done" in f && f["done"].Bool? &&
      Optional(f, "done_reason", AsString).Success? ==>
        DecodeGenerateResponse(j) == Failure(MissingField("context"))
  {
  }

  /** In any answer that decodes, an optional field that is absent or `null` decodes as `None`. */
  lemma MetricsMayBeAbsent(j: Json)
    requires DecodeGenerateResponse(j).Success?
    ensures var f := j.fields; var g := DecodeGenerateResponse(j).value;
      ("done_reason" !in f || f["done_reason"] == Null ==> g.doneReason.None?) &&
      ("total_duration" !in f || f["total_duration"] == Null ==> g.totalDuration.None?) &&
      ("load_duration" !in f || f["load_duration"] == Null ==> g.loadDuration.None?) &&
      ("prompt_eval_count" !in f || f["prompt_eval_count"] == Null ==> g.promptEvalCount.None?) &&
      ("prompt_eval_duration" !in f || f["prompt_eval_duration"] == Null ==> g.promptEvalDuration.None?) &&
      ("eval_count" !in f || f["eval_count"] == Null ==> g.evalCount.None?) &&
      ("eval_duration" !in f || f["eval_duration"] == Null ==> g.evalDuration.None?)
  {
  }

  /** An answer of only the four required texts and flag and an empty `context` decodes, with every metric `None`. */
  lemma MinimalAnswerDecodes(model: string, createdAt: string, response: string, done: bool)
    ensures var j := Object(map["model" := Str(model), "created_at" := Str(createdAt), "response" := Str(response),
        "done" := Bool(done), "context" := Array([])]);
      DecodeGenerateResponse(j) == Success(GenerateResponse(model, createdAt, response, done, None, [], None, None, None, None, None, None))
  {
    var f := map["model" := Str(model), "created_at" := Str(createdAt), "response" := Str(response),
      "done" := Bool(done), "context" := Array([])];
    assert AsU64Array(f["context"], "context") == Success([]);
    assert "done_reason" !in f && "total_duration" !in f && "load_duration" !in f;
    assert "prompt_eval_count" !in f && "prompt_eval_duration" !in f && "eval_count" !in f && "eval_duration" !in f;
  }

  // ---------------------------------------------------------------------------
  // Embeddings

  datatype EmbeddingRequest = EmbeddingRequest(model: string, prompt: string) {
    /** The derived `Serialize`. */
    function ToJson(): Json {
      Object(map["model" := Str(model), "prompt" := Str(prompt)])
    }
  }

  /** The embedding vector; its `f32` values are kept as the JSON numbers they came from. */
  datatype EmbeddingResponse = EmbeddingResponse(embedding: seq<Number>)

  function AsNumbers(items: seq<Json>, name: string): (r: Result<seq<Number>, string>)
    ensures r.Success? <==> forall k :: 0 <= k < |items| ==> items[k].Num?
    ensures r.Success? ==> |r.value| == |items| && forall k :: 0 <= k < |items| ==> items[k] == Num(r.value[k])
  {
    if items == [] then Success([])
    else if !items[0].Num? then Failure(InvalidType(name))
    else
      var ns :- AsNumbers(items[1..], name);
      Success([items[0].n] + ns)
  }

  /** The derived `Deserialize` of `EmbeddingResponse`: its one field is named `_embedding`. */
  function DecodeEmbeddingResponse(j: Json): (r: Result<EmbeddingResponse, string>)
    ensures r.Success? <==>
      j.Object? && "_embedding" in j.fields && j.fields["_embedding"].Array? &&
      forall k :: 0 <= k < |j.fields["_embedding"].items| ==> j.fields["_embedding"].items[k].Num?
    ensures r.Success? ==> |r.value.embedding| == |j.fields["_embedding"].items|
  {
    if !j.Object? then Failure(InvalidType("EmbeddingResponse"))
    else if "_embedding" !in j.fields then Failure(MissingField("_embedding"))
    else if !j.fields["_embedding"].Array? then Failure(InvalidType("_embedding"))
    else
      var ns :- AsNumbers(j.fields["_embedding"].items, "_embedding");
      Success(EmbeddingResponse(ns))
  }

  // ---------------------------------------------------------------------------
  // The adapter

  const GeneratePath := "/api/generate"
  const EmbeddingsPath := "/api/embeddings"

  class OllamaClient {
    const authApiClient: WebApiClient
    const baseUrl: Url

    constructor (authApiClient: WebApiClient, baseUrl: Url)
      ensures this.authApiClient == authApiClient && this.baseUrl == baseUrl
    {
      this.authApiClient := authApiClient;
      this.baseUrl := baseUrl;
    }

    /**
     * `OllamaClient::new`: an absent key is the empty key and the bearer
     * header is added regardless; then the base URL is parsed. The second
     * build of the transport's client may fail with `buildError`.
     */
    static method New(setting: Settings.ServerConfig, apiKey: Option<string>, buildError: Option<string>)
      returns (r: Result<OllamaClient, WebApiClientError>)
      ensures !ValidHeaderValue(apiKey.GetOr("")) ==>
        r == Failure(InvalidApiKey("Failed to add header to WebApiClient: " +
          HeaderCreationError("Invalid header value for `Authorization`: " + InvalidHeaderValueText).ToString()))
      ensures ValidHeaderValue(apiKey.GetOr("")) && buildError.Some? ==>
        r == Failure(InvalidApiKey("Failed to add header to WebApiClient: " +
          ClientCreationError("Failed to create HTTP client: " + buildError.value).ToString()))
      ensures ValidHeaderValue(apiKey.GetOr("")) && buildError.None? ==>
        (r.Failure? <==> ParseUrl(setting.baseApiUrl).Failure?) &&
        (r.Failure? ==> r.error == InvalidInput("Failed to parse base API URL (" + setting.baseApiUrl + "): " + ParseUrl(setting.baseApiUrl).error))
      ensures r.Success? ==> fresh(r.value) && fresh(r.value.authApiClient)
      ensures r.Success? ==> r.value.baseUrl == ParseUrl(setting.baseApiUrl).value
      ensures r.Success? ==>
        r.value.authApiClient.headers == map[ContentType := "application/json", Authorization := Bearer + apiKey.GetOr("")]
      ensures r.Success? ==> r.value.authApiClient.ClientCurrent() && r.value.authApiClient.client.redirect == NoRedirects
      ensures r.Success? ==>
        r.value.authApiClient.connectionTimeout == setting.connectionTimeout &&
        r.value.authApiClient.deadlineTimeout == setting.deadlineTimeout
    {
      var key := apiKey.GetOr("");
      var api := new WebApiClient(setting.connectionTimeout, setting.deadlineTimeout);
      StandardHeaderNames();
      BearerValueValid(key);
      assert "Invalid header value for `" + "Authorization" + "`: " == "Invalid header value for `Authorization`: ";
      var added := api.AddHeader("Authorization", Bearer + key, buildError);
      if added.Failure? {
        return Failure(InvalidApiKey("Failed to add header to WebApiClient: " + added.error.ToString()));
      }
      match ParseUrl(setting.baseApiUrl) {
        case Failure(e) =>
          return Failure(InvalidInput("Failed to parse base API URL (" + setting.baseApiUrl + "): " + e));
        case Success(url) =>
          var client := new OllamaClient(api, url);
          return Success(client);
      }
    }

    /**
     * `generate`: an unjoinable URL is `InvalidInput`; a transport error is
     * passed on unchanged; an answer that is not a `GenerateResponse` is
     * `ParseError`; otherwise the decoded answer is returned as it is.
     */
    function Generate(model: string, systemPrompt: string, prompt: string, json: bool, network: Exchange -> HttpOutcome): (r: Result<GenerateResponse, WebApiClientError>)
      reads authApiClient
      ensures Join(baseUrl, GeneratePath).Failure? ==> r == Failure(InvalidInput("Invalid URL: " + CannotBeABase))
      ensures Join(baseUrl, GeneratePath).Success? ==>
        var post := authApiClient.PostRequest(Join(baseUrl, GeneratePath).value, NewGenerateRequest(model, systemPrompt, prompt, json).ToJson(), network);
        (post.Failure? ==> r == Failure(post.error)) &&
        (post.Success? ==> (r.Success? <==> DecodeGenerateResponse(post.value).Success?)) &&
        (post.Success? && DecodeGenerateResponse(post.value).Failure? ==>
          r == Failure(ParseError("Failed to parse generate response: " + DecodeGenerateResponse(post.value).error))) &&
        (r.Success? ==> post.Success? && DecodeGenerateResponse(post.value) == Success(r.value))
      ensures r.Failure? ==> r.error.InvalidInput? || r.error.PostFailed? || r.error.ParseError?
    {
      match Join(baseUrl, GeneratePath)
      case Failure(e) => Failure(InvalidInput("Invalid URL: " + e))
      case Success(url) =>
        var value :- authApiClient.PostRequest(url, NewGenerateRequest(model, systemPrompt, prompt, json).ToJson(), network);
        match DecodeGenerateResponse(value)
        case Failure(e) => Failure(ParseError("Failed to parse generate response: " + e))
        case Success(parsed) => Success(parsed)
    }

    /** `_embeddings`: the same mapping of errors for the embeddings request `{model, prompt: text}`. */
    function Embeddings(model: string, text: string, network: Exchange -> HttpOutcome): (r: Result<EmbeddingResponse, WebApiClientError>)
      reads authApiClient
      ensures Join(baseUrl, EmbeddingsPath).Failure? ==> r == Failure(InvalidInput("Invalid URL: " + CannotBeABase))
      ensures Join(baseUrl, EmbeddingsPath).Success? ==>
        var post := authApiClient.PostRequest(Join(baseUrl, EmbeddingsPath).value, EmbeddingRequest(model, text).ToJson(), network);
        (post.Failure? ==> r == Failure(post.error)) &&
        (post.Success? ==> (r.Success? <==> DecodeEmbeddingResponse(post.value).Success?)) &&
        (post.Success? && DecodeEmbeddingResponse(post.value).Failure? ==>
          r == Failure(ParseError("Failed to parse response: " + DecodeEmbeddingResponse(post.value).error))) &&
        (r.Success? ==> post.Success? && DecodeEmbeddingResponse(post.value) == Success(r.value))
      ensures r.Failure? ==> r.error.InvalidInput? || r.error.PostFailed? || r.error.ParseError?
    {
      match Join(baseUrl, EmbeddingsPath)
      case Failure(e) => Failure(InvalidInput("Invalid URL: " + e))
      case Success(url) =>
        var value :- authApiClient.PostRequest(url, EmbeddingRequest(model, text).ToJson(), network);
        match DecodeEmbeddingResponse(value)
        case Failure(e) => Failure(ParseError("Failed to parse response: " + e))
        case Success(parsed) => Success(parsed)
    }
  }

  /** `json` changes only the `format` field of what `generate` sends. */
  lemma JsonOnlyChangesFormat(model: string, systemPrompt: string, prompt: string)
    ensures NewGenerateRequest(model, systemPrompt, prompt, true).(format := None) == NewGenerateRequest(model, systemPrompt, prompt, false)
    ensures NewGenerateRequest(model, systemPrompt, prompt, true).format == Some("json")
  {
  }
}
