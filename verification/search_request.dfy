/**
 * The outbound chat request, the process configuration it is built from, and
 * `Build`: a declarative statement of the request the search tool's handler
 * builds from an argument bag, each field resolved by its precedence chain
 * (caller argument, then environment override, then hard-coded default).
 */
module SearchRequest {
  import opened Basics
  import opened JsonValue
  import opened Numbers
  import opened ModelNames

  datatype ChatMessage = ChatMessage(role: string, content: string)

  datatype WebSearchOptions = WebSearchOptions(searchContextSize: string)

  /**
   * The request sent upstream. A field the source leaves at Go's zero value is
   * omitted on the wire: the empty recency filter, a false flag. The two
   * pointer/slice fields that may be nil are Options.
   */
  datatype ChatRequest = ChatRequest(
    model: string,
    messages: seq<ChatMessage>,
    maxTokens: int,
    temperature: real,
    topP: real,
    searchDomainFilter: Option<seq<string>>,
    returnImages: bool,
    returnRelatedQuestions: bool,
    searchRecencyFilter: string,
    topK: int,
    stream: bool,
    presencePenalty: real,
    frequencyPenalty: real,
    hasResponseFormat: bool,
    webSearchOptions: Option<WebSearchOptions>)

  /**
   * Process configuration, read from the environment by the source. The empty
   * string stands for an unset variable, as `os.Getenv` reports it.
   */
  datatype Config = Config(
    apiKey: string,               // PERPLEXITY_API_KEY
    envModel: string,             // PERPLEXITY_MODEL
    envMaxTokens: string,         // DEFAULT_MAX_TOKENS
    envSearchContextSize: string) // DEFAULT_SEARCH_CONTEXT_SIZE

  datatype BuildError = MissingApiKey | InvalidQuery | InvalidModel(model: string)

  const DefaultMaxTokens := 2000
  const DefaultTemperature := 0.2
  const DefaultTopP := 0.9
  const DefaultTopK := 0
  const DefaultPresencePenalty := 0.0
  const DefaultFrequencyPenalty := 1.0
  const DefaultSearchContextSize := "medium"

  /** The values a caller may give `web_search_options.search_context_size`. */
  const ContextSizes: seq<string> := ["low", "medium", "high"]

  /** The query, when it is a non-empty string. */
  function QueryOf(args: Args): Option<string> {
    match StringArg(args, "query")
    case Some(q) => if q != "" then Some(q) else None
    case None => None
  }

  /** The caller's `model` argument, when it is a non-empty string (validated or not). */
  function CallerModel(args: Args): Option<string> {
    match StringArg(args, "model")
    case Some(m) => if m != "" then Some(m) else None
    case None => None
  }

  /** PERPLEXITY_MODEL when set (trusted, not checked against the closed set), "sonar-pro" otherwise. */
  function EnvModel(cfg: Config): string {
    if cfg.envModel != "" then cfg.envModel else ModelSonarPro
  }

  function ResolveModel(args: Args, cfg: Config): string {
    match CallerModel(args)
    case Some(m) => m
    case None => EnvModel(cfg)
  }

  /** DEFAULT_MAX_TOKENS when it scans as an integer, 2000 otherwise. */
  function EnvMaxTokens(cfg: Config): int {
    if cfg.envMaxTokens == "" then DefaultMaxTokens
    else match ParseInt(cfg.envMaxTokens)
      case Some(n) => n
      case None => DefaultMaxTokens
  }

  /** An integer argument (sent as a float64 and truncated), or `default`. */
  function ResolveInt(args: Args, key: string, default: int): int {
    match NumberArg(args, key)
    case Some(x) => TruncToInt(x)
    case None => default
  }

  /** A float64 argument, or `default` when it is absent or not a number. */
  function ResolveReal(args: Args, key: string, default: real): real {
    match NumberArg(args, key)
    case Some(x) => x
    case None => default
  }

  /** A boolean argument, or `default` when it is absent or not a boolean. */
  function ResolveFlag(args: Args, key: string, default: bool): bool {
    match BoolArg(args, key)
    case Some(b) => b
    case None => default
  }

  /** A domain-filter element: its text when it is a string, "" otherwise. */
  function DomainAt(v: Value): string {
    if v.VString? then v.str else ""
  }

  /** The filter rebuilt position by position, as long as its input. */
  function DomainFilterOf(elems: seq<Value>): seq<string> {
    seq(|elems|, i requires 0 <= i < |elems| => DomainAt(elems[i]))
  }

  /** The domain filter from a non-empty array argument, or `default`. */
  function ResolveDomainFilter(args: Args, default: Option<seq<string>>): Option<seq<string>> {
    match ArrayArg(args, "search_domain_filter")
    case Some(elems) => if |elems| > 0 then Some(DomainFilterOf(elems)) else default
    case None => default
  }

  /** A non-empty string `search_recency_filter`, or `default`; its value is not checked. */
  function ResolveRecencyFilter(args: Args, default: string): string {
    match StringArg(args, "search_recency_filter")
    case Some(f) => if f != "" then f else default
    case None => default
  }

  /** `web_search_options.search_context_size`, when it is one of the accepted values. */
  function CallerContextSize(args: Args): Option<string> {
    match ObjectArg(args, "web_search_options")
    case Some(options) =>
      (match StringArg(options, "search_context_size")
       case Some(size) => if size in ContextSizes then Some(size) else None
       case None => None)
    case None => None
  }

  /** DEFAULT_SEARCH_CONTEXT_SIZE when set (taken as it is), "medium" otherwise. */
  function EnvContextSize(cfg: Config): string {
    if cfg.envSearchContextSize != "" then cfg.envSearchContextSize else DefaultSearchContextSize
  }

  function ResolveContextSize(args: Args, default: string): string {
    match CallerContextSize(args)
    case Some(size) => size
    case None => default
  }

  /** True when `args` holds an object under `response_format`. */
  function HasResponseFormat(args: Args): bool {
    ObjectArg(args, "response_format").Some?
  }

  /** Final step: a request for the offline model carries no search parameters. */
  function OfflineNormalize(req: ChatRequest): (r: ChatRequest)
    ensures req.model != ModelR1 ==> r == req
    ensures r.model == ModelR1 ==>
              && r.searchDomainFilter.None? && !r.returnImages && !r.returnRelatedQuestions
              && r.searchRecencyFilter == "" && r.webSearchOptions.None?
    ensures r.model == req.model && r.messages == req.messages && r.maxTokens == req.maxTokens
      && r.temperature == req.temperature && r.topP == req.topP && r.topK == req.topK
      && r.stream == req.stream && r.presencePenalty == req.presencePenalty
      && r.frequencyPenalty == req.frequencyPenalty && r.hasResponseFormat == req.hasResponseFormat
  {
    if req.model == ModelR1 then
      req.(searchDomainFilter := None, returnImages := false, returnRelatedQuestions := false,
           searchRecencyFilter := "", webSearchOptions := None)
    else req
  }

  /** The request every field of which has been resolved, before normalisation. */
  function Resolved(args: Args, cfg: Config, query: string): ChatRequest {
    ChatRequest(
      model := ResolveModel(args, cfg),
      messages := [ChatMessage("user", query)],
      maxTokens := ResolveInt(args, "max_tokens", EnvMaxTokens(cfg)),
      temperature := ResolveReal(args, "temperature", DefaultTemperature),
      topP := ResolveReal(args, "top_p", DefaultTopP),
      searchDomainFilter := ResolveDomainFilter(args, None),
      returnImages := ResolveFlag(args, "return_images", false),
      returnRelatedQuestions := ResolveFlag(args, "return_related_questions", false),
      searchRecencyFilter := ResolveRecencyFilter(args, ""),
      topK := ResolveInt(args, "top_k", DefaultTopK),
      stream := ResolveFlag(args, "stream", false),
      presencePenalty := ResolveReal(args, "presence_penalty", DefaultPresencePenalty),
      frequencyPenalty := ResolveReal(args, "frequency_penalty", DefaultFrequencyPenalty),
      hasResponseFormat := HasResponseFormat(args),
      webSearchOptions := Some(WebSearchOptions(ResolveContextSize(args, EnvContextSize(cfg)))))
  }

  /**
   * The outcome of building a request: the missing API key is reported first,
   * then an unusable query, then a caller model outside the closed set.
   */
  function Build(args: Args, cfg: Config): (r: Result<ChatRequest, BuildError>)
    ensures r.Ok? <==>
              && cfg.apiKey != "" && QueryOf(args).Some?
              && (CallerModel(args).None? || CallerModel(args).value in ValidModels)
    ensures r.Ok? ==> r.value.messages == [ChatMessage("user", QueryOf(args).value)]
  {
    if cfg.apiKey == "" then Err(MissingApiKey)
    else if QueryOf(args).None? then Err(InvalidQuery)
    else if CallerModel(args).Some? && CallerModel(args).value !in ValidModels then
      Err(InvalidModel(CallerModel(args).value))
    else Ok(OfflineNormalize(Resolved(args, cfg, QueryOf(args).value)))
  }
}
