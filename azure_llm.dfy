/**
 * commom/azure_llm.py: how `azure_llm_chat` turns the process environment and the
 * requested model into the URL it posts to, the request it sends and the metadata it
 * returns next to the answer. The environment is a map (it already holds what
 * `load_dotenv` read); the HTTP exchange itself is not modelled, so the answer text
 * is a parameter.
 */
module AzureLlm {
  import opened Wrappers
  import opened Text

  const KeyVar: string := "AZURE_OPENAI_KEY"
  const EndpointVar: string := "AZURE_OPENAI_ENDPOINT"
  const DeploymentVar: string := "AZURE_OPENAI_DEPLOYMENT"
  const ApiVersionVar: string := "AZURE_OPENAI_API_VERSION"

  const DefaultDeployment: string := "gpt-4o"
  const DefaultApiVersion: string := "2025-01-01-preview"

  /** The path segment that marks an endpoint as already complete. */
  const DeploymentsSegment: string := "/deployments/"

  const MaxTokens: nat := 1200
  const TimeoutSeconds: nat := 60

  /** `RuntimeError("AZURE_OPENAI_KEY ou AZURE_OPENAI_ENDPOINT manquant dans .env")`. */
  datatype LlmError = MissingCredentials

  /** The resolved settings; `url` is the final value of `endpoint`. */
  datatype Settings = Settings(apiKey: string, url: string, deployment: string, apiVersion: string)

  /** The POST that is sent: URL, headers, `max_tokens` and the timeout. */
  datatype Request = Request(url: string, headers: seq<(string, string)>, maxTokens: nat, timeoutSeconds: nat)

  /** `os.getenv(name, default)`. */
  function GetEnv(env: map<string, string>, name: string, default: string): string {
    if name in env then env[name] else default
  }

  /** `model or "gpt-4o"`: an absent or empty model name falls back to the default. */
  function ModelOrDefault(model: Option<string>): string {
    if model.Some? && model.value != "" then model.value else DefaultDeployment
  }

  /** The endpoint with its trailing slashes removed. */
  function Endpoint(env: map<string, string>): string {
    RStripChar(GetEnv(env, EndpointVar, ""), '/')
  }

  /** The deployment: the environment variable whenever it is set, even to the empty string. */
  function Deployment(env: map<string, string>, model: Option<string>): string {
    GetEnv(env, DeploymentVar, ModelOrDefault(model))
  }

  /** The URL posted to: the endpoint itself when it already names a deployment, else the built chat-completions URL. */
  function CompletionsUrl(endpoint: string, deployment: string, apiVersion: string): string {
    if Contains(endpoint, DeploymentsSegment) then endpoint
    else endpoint + "/openai" + DeploymentsSegment + deployment + "/chat/completions" + "?api-version=" + apiVersion
  }

  /** Lines 20-33 of `azure_llm_chat`. */
  function Resolve(env: map<string, string>, model: Option<string>): Result<Settings, LlmError> {
    var endpoint := Endpoint(env);
    var deployment := Deployment(env, model);
    var apiVersion := GetEnv(env, ApiVersionVar, DefaultApiVersion);
    if KeyVar !in env || env[KeyVar] == "" || endpoint == "" then Err(MissingCredentials)
    else Ok(Settings(env[KeyVar], CompletionsUrl(endpoint, deployment, apiVersion), deployment, apiVersion))
  }

  /** The request built from resolved settings. */
  function Prepare(env: map<string, string>, model: Option<string>): Result<Request, LlmError> {
    match Resolve(env, model)
    case Err(e) => Err(e)
    case Ok(s) => Ok(Request(s.url, [("api-key", s.apiKey), ("Content-Type", "application/json")], MaxTokens, TimeoutSeconds))
  }

  /** The pair returned by `azure_llm_chat`, given the content of the first choice of the reply. */
  function Chat(env: map<string, string>, model: Option<string>, content: string): Result<(string, map<string, string>), LlmError> {
    match Resolve(env, model)
    case Err(e) => Err(e)
    case Ok(s) => Ok((content, map["x-llm-endpoint" := s.url, "x-llm-deployment" := s.deployment]))
  }

  /** `rstrip("/")` leaves nothing exactly when the text is made of slashes only. */
  lemma EmptyAfterStripIffSlashes(s: string)
    ensures RStripChar(s, '/') == "" <==> forall k :: 0 <= k < |s| ==> s[k] == '/'
  {
    var r := RStripChar(s, '/');
    if r != "" {
      assert s[|r| - 1] == r[|r| - 1] != '/';
    }
  }

  /**
   * The call fails exactly when the key is unset or empty, or the endpoint is unset or
   * made of slashes only.
   */
  lemma ResolveFailsIff(env: map<string, string>, model: Option<string>)
    ensures Resolve(env, model).Err?
        <==> || KeyVar !in env || env[KeyVar] == ""
             || (forall k :: 0 <= k < |GetEnv(env, EndpointVar, "")| ==> GetEnv(env, EndpointVar, "")[k] == '/')
  {
    EmptyAfterStripIffSlashes(GetEnv(env, EndpointVar, ""));
  }

  /**
   * The deployment is the environment variable when it is set, else the requested model
   * when it is a non-empty name, else `gpt-4o`; the API version defaults likewise.
   */
  lemma DeploymentPrecedence(env: map<string, string>, model: Option<string>)
    requires Resolve(env, model).Ok?
    ensures var s := Resolve(env, model).value;
            && (DeploymentVar in env ==> s.deployment == env[DeploymentVar])
            && (DeploymentVar !in env && model.Some? && model.value != "" ==> s.deployment == model.value)
            && (DeploymentVar !in env && (model.None? || model.value == "") ==> s.deployment == DefaultDeployment)
            && (ApiVersionVar in env ==> s.apiVersion == env[ApiVersionVar])
            && (ApiVersionVar !in env ==> s.apiVersion == DefaultApiVersion)
            && s.apiKey == env[KeyVar] != ""
  {
  }

  /**
   * The URL: the slash-trimmed endpoint (a non-empty prefix of the variable, not ending with
   * a slash) verbatim when it already contains `/deployments/`, otherwise that endpoint
   * followed by the chat-completions path of the deployment and the API version.
   */
  lemma UrlShape(env: map<string, string>, model: Option<string>)
    requires Resolve(env, model).Ok?
    ensures var s := Resolve(env, model).value;
            var e := Endpoint(env);
            && e != "" && e[|e| - 1] != '/'
            && GetEnv(env, EndpointVar, "")[..|e|] == e
            && (Contains(e, DeploymentsSegment) ==> s.url == e)
            && (!Contains(e, DeploymentsSegment) ==>
                  s.url == e + "/openai" + DeploymentsSegment + s.deployment + "/chat/completions" + "?api-version=" + s.apiVersion)
  {
  }

  /** Whatever the endpoint, the URL posted to names a deployment. */
  lemma UrlNamesDeployment(env: map<string, string>, model: Option<string>)
    requires Resolve(env, model).Ok?
    ensures Contains(Resolve(env, model).value.url, DeploymentsSegment)
  {
    var s := Resolve(env, model).value;
    var e := Endpoint(env);
    if !Contains(e, DeploymentsSegment) {
      var pre := e + "/openai";
      var at := |pre|;
      OccursAtEnd(pre, DeploymentsSegment);
      OccursExtend(pre + DeploymentsSegment, s.deployment, DeploymentsSegment, at);
      OccursExtend(pre + DeploymentsSegment + s.deployment, "/chat/completions", DeploymentsSegment, at);
      OccursExtend(pre + DeploymentsSegment + s.deployment + "/chat/completions", "?api-version=", DeploymentsSegment, at);
      OccursExtend(pre + DeploymentsSegment + s.deployment + "/chat/completions" + "?api-version=", s.apiVersion,
                   DeploymentsSegment, at);
      ContainsAt(s.url, DeploymentsSegment, at);
    }
  }

  /**
   * Feeding the URL back as the endpoint reproduces it, provided it does not end with a
   * slash (it can only do so through an API version that ends with one).
   */
  lemma UrlIsFixedPoint(env: map<string, string>, model: Option<string>)
    requires Resolve(env, model).Ok?
    requires var u := Resolve(env, model).value.url; u[|u| - 1] != '/'
    ensures Resolve(env[EndpointVar := Resolve(env, model).value.url], model).Ok?
    ensures Resolve(env[EndpointVar := Resolve(env, model).value.url], model).value.url == Resolve(env, model).value.url
  {
    var u := Resolve(env, model).value.url;
    var env2 := env[EndpointVar := u];
    UrlNamesDeployment(env, model);
    assert Endpoint(env2) == u;
  }

  /** The request goes to the resolved URL with the key in the `api-key` header, 1200 tokens at most and a 60 s timeout. */
  lemma RequestCarriesKey(env: map<string, string>, model: Option<string>)
    ensures Prepare(env, model).Ok? <==> Resolve(env, model).Ok?
    ensures Prepare(env, model).Ok? ==>
              var r := Prepare(env, model).value;
              && r.url == Resolve(env, model).value.url
              && ("api-key", env[KeyVar]) in r.headers
              && r.maxTokens == 1200 && r.timeoutSeconds == 60
  {
    if Prepare(env, model).Ok? {
      assert Prepare(env, model).value.headers[0] == ("api-key", env[KeyVar]);
    }
  }

  /** The metadata names the URL actually posted to and the resolved deployment. */
  lemma MetadataEchoesSettings(env: map<string, string>, model: Option<string>, content: string)
    ensures Chat(env, model, content).Ok? <==> Resolve(env, model).Ok?
    ensures Chat(env, model, content).Ok? ==>
              var (answer, meta) := Chat(env, model, content).value;
              && answer == content
              && meta.Keys == {"x-llm-endpoint", "x-llm-deployment"}
              && meta["x-llm-endpoint"] == Resolve(env, model).value.url
              && meta["x-llm-deployment"] == Resolve(env, model).value.deployment
  {
  }
}
