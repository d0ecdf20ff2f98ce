/**
 * The tail of the search tool: the built request is posted upstream and the
 * answer is picked out of the reply. The HTTP exchange itself is a parameter:
 * the model sees only its outcome (a transport failure, or a status code with
 * the raw body and, when the body decodes, the decoded reply).
 */
module SearchExecutor {
  import opened Basics
  import opened JsonValue
  import opened Numbers
  import opened SearchRequest
  import opened RequestBuilder

  datatype Choice = Choice(message: ChatMessage, finishReason: string)

  datatype Usage = Usage(promptTokens: int, completionTokens: int, totalTokens: int)

  /** The decoded chat-completion reply. */
  datatype ChatResponse = ChatResponse(
    id: string,
    objectType: string,
    created: int,
    model: string,
    choices: seq<Choice>,
    usage: Usage)

  /**
   * The outcome of one POST: either the request never got a response, or it
   * got `status` with `body`; `decoded` is the body decoded as a reply, or
   * None when it is not one.
   */
  datatype Exchange =
    | TransportFailure(cause: string)
    | Received(status: int, body: string, decoded: Option<ChatResponse>)

  datatype ExecError =
    | TransportError(cause: string)
    | UpstreamError(status: int, body: string)
    | DecodeError
    | NoContent

  /** Why the tool call failed: the request could not be built, or the search could not be run. */
  datatype ToolError = BuildFailed(reason: BuildError) | SearchFailed(cause: ExecError)

  const StatusOK := 200

  /**
   * The answer in a reply: an error for any status but 200 (carrying the
   * status and body), then for a body that does not decode, then for a reply
   * without choices; otherwise the first choice's content.
   */
  function ExtractAnswer(status: int, body: string, decoded: Option<ChatResponse>): (r: Result<string, ExecError>)
    ensures r.Ok? <==> status == StatusOK && decoded.Some? && decoded.value.choices != []
    ensures r.Ok? ==> r.value == decoded.value.choices[0].message.content
  {
    if status != StatusOK then Err(UpstreamError(status, body))
    else if decoded.None? then Err(DecodeError)
    else if |decoded.value.choices| == 0 then Err(NoContent)
    else Ok(decoded.value.choices[0].message.content)
  }

  /** The result of `performPerplexityChat` for one exchange. */
  function Execute(x: Exchange): (r: Result<string, ExecError>)
    ensures x.TransportFailure? ==> r == Err(TransportError(x.cause))
    ensures x.Received? ==> r == ExtractAnswer(x.status, x.body, x.decoded)
  {
    match x
    case TransportFailure(cause) => Err(TransportError(cause))
    case Received(status, body, decoded) => ExtractAnswer(status, body, decoded)
  }

  /**
   * What the handler returns for `args` under `cfg` when `post` performs the
   * exchange for the API key and request it is given.
   */
  function Handle(args: Args, cfg: Config, post: (string, ChatRequest) -> Exchange): (r: Result<string, ToolError>)
    ensures Build(args, cfg).Err? ==> r == Err(BuildFailed(Build(args, cfg).error))
    ensures r.Ok? <==> Build(args, cfg).Ok? && Execute(post(cfg.apiKey, Build(args, cfg).value)).Ok?
  {
    match Build(args, cfg)
    case Err(e) => Err(BuildFailed(e))
    case Ok(req) =>
      match Execute(post(cfg.apiKey, req))
      case Err(e) => Err(SearchFailed(e))
      case Ok(text) => Ok(text)
  }

  /**
   * The search tool's handler: build the request, then post it and extract
   * the answer; `warned` reports the stderr warning about DEFAULT_MAX_TOKENS.
   */
  method HandleSearchTool(args: Args, cfg: Config, post: (string, ChatRequest) -> Exchange)
    returns (r: Result<string, ToolError>, warned: bool)
    ensures r == Handle(args, cfg, post)
    ensures warned <==>
              && cfg.apiKey != "" && QueryOf(args).Some?
              && cfg.envMaxTokens != "" && ParseInt(cfg.envMaxTokens).None?
  {
    var built;
    built, warned := BuildRequest(args, cfg);
    if built.Err? {
      return Err(BuildFailed(built.error)), warned;
    }
    var answer := Execute(post(cfg.apiKey, built.value));
    if answer.Err? {
      return Err(SearchFailed(answer.error)), warned;
    }
    r := Ok(answer.value);
  }

  /** A status other than 200 is an error with that status and body, whatever the body decodes to. */
  lemma NonOkStatusIsUpstreamError(status: int, body: string, decoded: Option<ChatResponse>)
    requires status != StatusOK
    ensures ExtractAnswer(status, body, decoded) == Err(UpstreamError(status, body))
  {
  }

  /** A 200 reply is an error exactly when it does not decode or has no choices, and which one is fixed. */
  lemma OkStatusFailures(body: string, decoded: Option<ChatResponse>)
    ensures decoded.None? ==> ExtractAnswer(StatusOK, body, decoded) == Err(DecodeError)
    ensures decoded.Some? && decoded.value.choices == [] ==> ExtractAnswer(StatusOK, body, decoded) == Err(NoContent)
  {
  }

  /** Only the first choice matters: later choices, and the rest of the reply, never change the answer. */
  lemma FirstChoiceOnly(body: string, resp1: ChatResponse, resp2: ChatResponse)
    requires resp1.choices != [] && resp2.choices != []
    requires resp1.choices[0].message.content == resp2.choices[0].message.content
    ensures ExtractAnswer(StatusOK, body, Some(resp1)) == ExtractAnswer(StatusOK, body, Some(resp2))
  {
  }

  /**
   * A call whose request cannot be built fails with that build error and
   * never depends on the exchange; otherwise its outcome is that of the
   * exchange for the built request.
   */
  lemma HandleOutcome(args: Args, cfg: Config, post: (string, ChatRequest) -> Exchange)
    ensures Build(args, cfg).Err? ==> Handle(args, cfg, post) == Err(BuildFailed(Build(args, cfg).error))
    ensures Build(args, cfg).Ok? ==>
              (Handle(args, cfg, post).Ok? <==> Execute(post(cfg.apiKey, Build(args, cfg).value)).Ok?)
    ensures Build(args, cfg).Ok? && Handle(args, cfg, post).Ok? ==>
              Handle(args, cfg, post).value == Execute(post(cfg.apiKey, Build(args, cfg).value)).value
    ensures Build(args, cfg).Ok? && Handle(args, cfg, post).Err? ==>
              Handle(args, cfg, post) == Err(SearchFailed(Execute(post(cfg.apiKey, Build(args, cfg).value)).error))
  {
  }

  /** The exchange is only ever handed the configured API key and the built request. */
  lemma HandleUsesBuiltRequest(args: Args, cfg: Config, post1: (string, ChatRequest) -> Exchange,
                               post2: (string, ChatRequest) -> Exchange)
    requires Build(args, cfg).Ok? ==>
               post1(cfg.apiKey, Build(args, cfg).value) == post2(cfg.apiKey, Build(args, cfg).value)
    ensures Handle(args, cfg, post1) == Handle(args, cfg, post2)
  {
  }

  /** A built request answered by a 200 reply with choices yields the first choice's content. */
  lemma AnswerIsFirstChoice(args: Args, cfg: Config, post: (string, ChatRequest) -> Exchange)
    requires Build(args, cfg).Ok?
    requires var x := post(cfg.apiKey, Build(args, cfg).value);
      x.Received? && x.status == StatusOK && x.decoded.Some? && x.decoded.value.choices != []
    ensures Handle(args, cfg, post)
            == Ok(post(cfg.apiKey, Build(args, cfg).value).decoded.value.choices[0].message.content)
  {
  }

  /** Upstream rate limiting surfaces as a search failure carrying 429 and the body. */
  lemma RateLimitedExample(args: Args, cfg: Config)
    requires Build(args, cfg).Ok?
    ensures Handle(args, cfg, (key, req) => Received(429, "rate limited", None))
            == Err(SearchFailed(UpstreamError(429, "rate limited")))
  {
  }
}
