/**
 * The request-building part of the search tool's handler, step by step: the
 * local request value is created from the defaults and then overwritten field
 * by field, as the source does.
 */
module RequestBuilder {
  import opened Basics
  import opened JsonValue
  import opened Numbers
  import opened ModelNames
  import opened SearchRequest

  /**
   * Rebuilds `search_domain_filter`: a buffer as long as the input, zero
   * filled, in which every string element is written at its own index. A
   * non-string position keeps "" (the filter is not compacted).
   */
  method BuildDomainFilter(elems: seq<Value>) returns (filter: seq<string>)
    ensures |filter| == |elems|
    ensures forall i :: 0 <= i < |elems| ==>
              filter[i] == (if elems[i].VString? then elems[i].str else "")
    ensures filter == DomainFilterOf(elems)
  {
    var buffer := new string[|elems|](_ => "");
    for i := 0 to |elems|
      invariant forall j :: 0 <= j < i ==> buffer[j] == DomainAt(elems[j])
      invariant forall j :: i <= j < |elems| ==> buffer[j] == ""
    {
      if elems[i].VString? {
        buffer[i] := elems[i].str;
      }
    }
    filter := buffer[..];
  }

  /**
   * The defaults after the environment overrides: DEFAULT_MAX_TOKENS when it
   * scans as an integer (a warning otherwise), PERPLEXITY_MODEL and
   * DEFAULT_SEARCH_CONTEXT_SIZE when set.
   */
  method EnvironmentDefaults(cfg: Config) returns (maxTokens: int, model: string, contextSize: string, warned: bool)
    ensures maxTokens == EnvMaxTokens(cfg) && model == EnvModel(cfg) && contextSize == EnvContextSize(cfg)
    ensures warned <==> cfg.envMaxTokens != "" && ParseInt(cfg.envMaxTokens).None?
  {
    maxTokens, model, contextSize, warned := DefaultMaxTokens, ModelSonarPro, DefaultSearchContextSize, false;
    if cfg.envMaxTokens != "" {
      var parsed := ParseInt(cfg.envMaxTokens);
      if parsed.Some? {
        maxTokens := parsed.value;
      } else {
        warned := true;
      }
    }
    if cfg.envModel != "" {
      model := cfg.envModel;
    }
    if cfg.envSearchContextSize != "" {
      contextSize := cfg.envSearchContextSize;
    }
  }

  /**
   * The request before any caller argument is applied: one user message
   * carrying the query, and every other field at its default after the
   * environment overrides.
   */
  method InitialRequest(cfg: Config, query: string) returns (req: ChatRequest, warned: bool)
    ensures req == ChatRequest(EnvModel(cfg), [ChatMessage("user", query)], EnvMaxTokens(cfg),
                               DefaultTemperature, DefaultTopP, None, false, false, "", DefaultTopK, false,
                               DefaultPresencePenalty, DefaultFrequencyPenalty, false,
                               Some(WebSearchOptions(EnvContextSize(cfg))))
    ensures warned <==> cfg.envMaxTokens != "" && ParseInt(cfg.envMaxTokens).None?
  {
    var defaultMaxTokens, defaultModel, defaultSearchContextSize;
    defaultMaxTokens, defaultModel, defaultSearchContextSize, warned := EnvironmentDefaults(cfg);
    req := ChatRequest(
      model := defaultModel,
      messages := [ChatMessage("user", query)],
      maxTokens := defaultMaxTokens,
      temperature := DefaultTemperature,
      topP := DefaultTopP,
      searchDomainFilter := None,
      returnImages := false,
      returnRelatedQuestions := false,
      searchRecencyFilter := "",
      topK := DefaultTopK,
      stream := false,
      presencePenalty := DefaultPresencePenalty,
      frequencyPenalty := DefaultFrequencyPenalty,
      hasResponseFormat := false,
      webSearchOptions := Some(WebSearchOptions(defaultSearchContextSize)));
  }

  /** `max_tokens`, `temperature` and `top_p`, each when it is a number. */
  method ApplySamplingArgs(args: Args, req: ChatRequest) returns (out: ChatRequest)
    ensures out == req.(maxTokens := ResolveInt(args, "max_tokens", req.maxTokens),
                        temperature := ResolveReal(args, "temperature", req.temperature),
                        topP := ResolveReal(args, "top_p", req.topP))
  {
    out := req;
    var maxTokens := NumberArg(args, "max_tokens");
    if maxTokens.Some? {
      out := out.(maxTokens := TruncToInt(maxTokens.value));
    }
    var temperature := NumberArg(args, "temperature");
    if temperature.Some? {
      out := out.(temperature := temperature.value);
    }
    var topP := NumberArg(args, "top_p");
    if topP.Some? {
      out := out.(topP := topP.value);
    }
  }

  /**
   * `search_domain_filter` when it is a non-empty array, the two return flags
   * when they are booleans, and `search_recency_filter` when it is a non-empty
   * string.
   */
  method ApplySearchArgs(args: Args, req: ChatRequest) returns (out: ChatRequest)
    ensures out == req.(searchDomainFilter := ResolveDomainFilter(args, req.searchDomainFilter),
                        returnImages := ResolveFlag(args, "return_images", req.returnImages),
                        returnRelatedQuestions := ResolveFlag(args, "return_related_questions", req.returnRelatedQuestions),
                        searchRecencyFilter := ResolveRecencyFilter(args, req.searchRecencyFilter))
  {
    out := req;
    var domainFilter := ArrayArg(args, "search_domain_filter");
    if domainFilter.Some? && |domainFilter.value| > 0 {
      var filter := BuildDomainFilter(domainFilter.value);
      out := out.(searchDomainFilter := Some(filter));
    }
    var returnImages := BoolArg(args, "return_images");
    if returnImages.Some? {
      out := out.(returnImages := returnImages.value);
    }
    var returnRelatedQuestions := BoolArg(args, "return_related_questions");
    if returnRelatedQuestions.Some? {
      out := out.(returnRelatedQuestions := returnRelatedQuestions.value);
    }
    var recencyFilter := StringArg(args, "search_recency_filter");
    if recencyFilter.Some? && recencyFilter.value != "" {
      out := out.(searchRecencyFilter := recencyFilter.value);
    }
  }

  /**
   * `top_k` and the two penalties when they are numbers, `stream` when it is a
   * boolean, and the response-format marker when `response_format` is an object.
   */
  method ApplyTuningArgs(args: Args, req: ChatRequest) returns (out: ChatRequest)
    ensures out == req.(topK := ResolveInt(args, "top_k", req.topK),
                        stream := ResolveFlag(args, "stream", req.stream),
                        presencePenalty := ResolveReal(args, "presence_penalty", req.presencePenalty),
                        frequencyPenalty := ResolveReal(args, "frequency_penalty", req.frequencyPenalty),
                        hasResponseFormat := req.hasResponseFormat || HasResponseFormat(args))
  {
    out := req;
    var topK := NumberArg(args, "top_k");
    if topK.Some? {
      out := out.(topK := TruncToInt(topK.value));
    }
    var stream := BoolArg(args, "stream");
    if stream.Some? {
      out := out.(stream := stream.value);
    }
    var presencePenalty := NumberArg(args, "presence_penalty");
    if presencePenalty.Some? {
      out := out.(presencePenalty := presencePenalty.value);
    }
    var frequencyPenalty := NumberArg(args, "frequency_penalty");
    if frequencyPenalty.Some? {
      out := out.(frequencyPenalty := frequencyPenalty.value);
    }
    if ObjectArg(args, "response_format").Some? {
      out := out.(hasResponseFormat := true);
    }
  }

  /**
   * `web_search_options.search_context_size` replaces the context size of the
   * request's options when it is "low", "medium" or "high"; any other value,
   * or a missing or non-object `web_search_options`, leaves it as it is.
   */
  method ApplyWebSearchOptions(args: Args, req: ChatRequest) returns (out: ChatRequest)
    requires req.webSearchOptions.Some?
    ensures out == req.(webSearchOptions :=
                          Some(WebSearchOptions(ResolveContextSize(args, req.webSearchOptions.value.searchContextSize))))
  {
    out := req;
    var webSearchOptions := ObjectArg(args, "web_search_options");
    if webSearchOptions.Some? {
      var size := StringArg(webSearchOptions.value, "search_context_size");
      if size.Some? && size.value != "" {
        if size.value == "low" || size.value == "medium" || size.value == "high" {
          out := out.(webSearchOptions := Some(out.webSearchOptions.value.(searchContextSize := size.value)));
        }
      }
    }
  }

  /**
   * Validates the arguments and builds the request. `warned` reports the
   * warning the source prints when DEFAULT_MAX_TOKENS is set but does not scan
   * as an integer; it is only reached once the key and the query are accepted.
   */
  method BuildRequest(args: Args, cfg: Config) returns (r: Result<ChatRequest, BuildError>, warned: bool)
    ensures r == Build(args, cfg)
    ensures warned <==>
              && cfg.apiKey != "" && QueryOf(args).Some?
              && cfg.envMaxTokens != "" && ParseInt(cfg.envMaxTokens).None?
  {
    warned := false;
    if cfg.apiKey == "" {
      return Err(MissingApiKey), warned;
    }
    var query := StringArg(args, "query");
    if query.None? || query.value == "" {
      return Err(InvalidQuery), warned;
    }

    var req;
    req, warned := InitialRequest(cfg, query.value);

    var model := StringArg(args, "model");
    if model.Some? && model.value != "" {
      var valid := IsValidModel(model.value);
      if valid {
        req := req.(model := model.value);
      } else {
        return Err(InvalidModel(model.value)), warned;
      }
    }

    req := ApplySamplingArgs(args, req);
    req := ApplySearchArgs(args, req);
    req := ApplyTuningArgs(args, req);
    req := ApplyWebSearchOptions(args, req);
    assert req == Resolved(args, cfg, query.value);

    if req.model == ModelR1 {
      req := req.(searchDomainFilter := None, returnImages := false, returnRelatedQuestions := false,
                  searchRecencyFilter := "", webSearchOptions := None);
    }
    r := Ok(req);
  }
}
