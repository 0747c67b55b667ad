/**
 * The gateway's settings (src/settings.rs): the HTTP method names, the
 * endpoint and server records, and the first-match lookups over them.
 * Loading the settings from a TOML file is not part of this model.
 */
module Settings {
  import opened Wrappers
  import opened Wire

  datatype Method = Get | Post | Put | Delete {
    /** The lower-case spelling that names this method. */
    function Name(): string {
      match this
      case Get => "get"
      case Post => "post"
      case Put => "put"
      case Delete => "delete"
    }

    /**
     * `impl From<&str> for Method`: the text is lower-cased and matched
     * against the four names; the source panics on any other text, which
     * is the failure result here.
     */
    static function From(text: string): (r: Result<Method, string>)
      ensures r.Success? ==> Lower(text) == r.value.Name()
      ensures r.Failure? <==> forall m: Method :: Lower(text) != m.Name()
      ensures r.Failure? ==> r.error == "Invalid HTTP method"
    {
      var lower := Lower(text);
      if lower == "get" then Success(Get)
      else if lower == "post" then Success(Post)
      else if lower == "put" then Success(Put)
      else if lower == "delete" then Success(Delete)
      else Failure("Invalid HTTP method")
    }
  }

  /** Any casing of a method's name parses to that method, and only to it. */
  lemma MethodFromAnyCasing(m: Method, s: string)
    requires Lower(s) == m.Name()
    ensures Method.From(s) == Success(m)
  {
  }

  /** Each method's own name parses back to it. */
  lemma MethodNameRoundTrip(m: Method)
    ensures Method.From(m.Name()) == Success(m)
  {
    LowerOfLower(m.Name());
  }

  lemma MethodFromExamples()
    ensures Method.From("GET") == Success(Get)
    ensures Method.From("Post") == Success(Post)
    ensures Method.From("pUT") == Success(Put)
    ensures Method.From("DELETE") == Success(Delete)
    ensures Method.From("PATCH").Failure?
  {
    assert Lower("GET") == "get";
    assert Lower("Post") == "post";
    assert Lower("pUT") == "put";
    assert Lower("DELETE") == "delete";
    assert Lower("PATCH") == "patch";
  }

  /** What callers see of an endpoint: everything but its path. */
  datatype Endpoint = Endpoint(server: string, template: string, systemPrompt: string, userPrompt: string)

  datatype EndpointConfig = EndpointConfig(path: string, template: string, server: string, systemPrompt: string, userPrompt: string) {
    /** `EndpointConfig::get_public`. */
    function GetPublic(): Endpoint {
      Endpoint(server, template, systemPrompt, userPrompt)
    }
  }

  /** The public view keeps every field but the path unchanged, and depends on nothing else. */
  lemma GetPublicDropsOnlyPath(a: EndpointConfig, b: EndpointConfig)
    ensures a.GetPublic() == b.GetPublic() <==>
      a.server == b.server && a.template == b.template &&
      a.systemPrompt == b.systemPrompt && a.userPrompt == b.userPrompt
    ensures a.GetPublic().server == a.server && a.GetPublic().template == a.template
    ensures a.GetPublic().systemPrompt == a.systemPrompt && a.GetPublic().userPrompt == a.userPrompt
  {
  }

  /** One backend: its name, model, API type, base URL, secret reference and timeouts in seconds. */
  datatype ServerConfig = ServerConfig(
    name: string,
    model: string,
    apiType: string,
    baseApiUrl: string,
    secret: Option<string>,
    connectionTimeout: Option<u64>,
    deadlineTimeout: Option<u64>)

  datatype Settings = Settings(servers: seq<ServerConfig>, endpoints: seq<EndpointConfig>) {

    /** `get_endpoint_by_path`: the public view of the first endpoint whose path is `path`. */
    method GetEndpointByPath(path: string) returns (r: Result<Endpoint, IoError>)
      ensures r.Success? <==> exists i :: 0 <= i < |endpoints| && endpoints[i].path == path
      ensures r.Success? ==>
        exists i :: 0 <= i < |endpoints| && endpoints[i].path == path &&
          (forall j :: 0 <= j < i ==> endpoints[j].path != path) &&
          r.value == endpoints[i].GetPublic()
      ensures r.Failure? ==> r.error == IoError(NotFound, "Endpoint " + path + " not found")
    {
      for i := 0 to |endpoints|
        invariant forall j :: 0 <= j < i ==> endpoints[j].path != path
      {
        if endpoints[i].path == path {
          return Success(endpoints[i].GetPublic());
        }
      }
      return Failure(IoError(NotFound, "Endpoint " + path + " not found"));
    }

    /** `get_server_config_by_name`: a copy of the first server whose name is `name`. */
    method GetServerConfigByName(name: string) returns (r: Result<ServerConfig, IoError>)
      ensures r.Success? <==> exists i :: 0 <= i < |servers| && servers[i].name == name
      ensures r.Success? ==>
        exists i :: 0 <= i < |servers| && servers[i].name == name &&
          (forall j :: 0 <= j < i ==> servers[j].name != name) &&
          r.value == servers[i]
      ensures r.Failure? ==> r.error == IoError(NotFound, "Server " + name + " not found")
    {
      for i := 0 to |servers|
        invariant forall j :: 0 <= j < i ==> servers[j].name != name
      {
        if servers[i].name == name {
          return Success(servers[i]);
        }
      }
      return Failure(IoError(NotFound, "Server " + name + " not found"));
    }
  }
}
