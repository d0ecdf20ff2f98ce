/**
 * What the request builder promises, stated over `Build` in terms of the raw
 * argument bag and configuration.
 */
module BuilderProperties {
  import opened Basics
  import opened JsonValue
  import opened Numbers
  import opened ModelNames
  import opened SearchRequest

  /** True when `args` holds a non-empty string under "query". */
  predicate HasQuery(args: Args) {
    "query" in args && args["query"].VString? && args["query"].str != ""
  }

  /**
   * The only failures, in the order they are checked: a missing API key, then
   * a query that is absent, not a string or empty, then a caller model outside
   * the closed set. Nothing else makes the builder fail.
   */
  lemma BuildFailures(args: Args, cfg: Config)
    ensures cfg.apiKey == "" ==> Build(args, cfg) == Err(MissingApiKey)
    ensures cfg.apiKey != "" && !HasQuery(args) ==> Build(args, cfg) == Err(InvalidQuery)
    ensures Build(args, cfg).Err? <==>
              || cfg.apiKey == ""
              || !HasQuery(args)
              || ("model" in args && args["model"].VString? && args["model"].str != ""
                  && args["model"].str !in ValidModels)
  {
  }

  /** Every built request carries exactly one message: the query, from the user. */
  lemma SingleUserMessage(args: Args, cfg: Config)
    requires Build(args, cfg).Ok?
    ensures HasQuery(args)
    ensures Build(args, cfg).value.messages == [ChatMessage("user", args["query"].str)]
  {
  }

  /**
   * A non-empty string `model` argument is accepted exactly when it is one of
   * the six identifiers, and then it is the request's model.
   */
  lemma CallerModelChecked(args: Args, cfg: Config, m: string)
    requires cfg.apiKey != "" && HasQuery(args)
    requires "model" in args && args["model"] == VString(m) && m != ""
    ensures Build(args, cfg).Ok? <==> m in ValidModels
    ensures Build(args, cfg).Ok? ==> Build(args, cfg).value.model == m
    ensures m !in ValidModels ==> Build(args, cfg) == Err(InvalidModel(m))
  {
  }

  /**
   * Without a usable `model` argument the request uses PERPLEXITY_MODEL, or
   * "sonar-pro" when that is unset, and never checks it against the closed set.
   */
  lemma EnvironmentModelTrusted(args: Args, cfg: Config)
    requires cfg.apiKey != "" && HasQuery(args)
    requires "model" !in args || !args["model"].VString? || args["model"].str == ""
    ensures Build(args, cfg).Ok?
    ensures Build(args, cfg).value.model == (if cfg.envModel != "" then cfg.envModel else ModelSonarPro)
  {
  }

  /** An identifier outside the closed set, rejected from a caller, passes when it comes from the environment. */
  lemma EnvironmentModelExample()
    ensures Build(map["query" := VString("q"), "model" := VString("gpt-4")], Config("key", "", "", ""))
            == Err(InvalidModel("gpt-4"))
    ensures var r := Build(map["query" := VString("q")], Config("key", "gpt-4", "", ""));
      r.Ok? && r.value.model == "gpt-4"
  {
    var bare := map["query" := VString("q")];
    var withModel := bare["model" := VString("gpt-4")];
    assert HasQuery(bare) && HasQuery(withModel) && "model" !in bare;
    assert "gpt-4" !in ValidModels;
    CallerModelChecked(withModel, Config("key", "", "", ""), "gpt-4");
    EnvironmentModelTrusted(bare, Config("key", "gpt-4", "", ""));
  }

  /** With no overrides at all, every field takes its hard-coded default. */
  lemma DefaultsWithoutOverrides(q: string, key: string)
    requires q != "" && key != ""
    ensures Build(map["query" := VString(q)], Config(key, "", "", ""))
            == Ok(ChatRequest("sonar-pro", [ChatMessage("user", q)], 2000, 0.2, 0.9, None, false, false,
                              "", 0, false, 0.0, 1.0, false, Some(WebSearchOptions("medium"))))
  {
  }

  /**
   * Max tokens: a numeric `max_tokens` argument (truncated toward zero) wins;
   * otherwise DEFAULT_MAX_TOKENS when it scans as an integer; otherwise 2000.
   */
  lemma MaxTokensPrecedence(args: Args, cfg: Config)
    requires Build(args, cfg).Ok?
    ensures "max_tokens" in args && args["max_tokens"].VNumber? ==>
              Build(args, cfg).value.maxTokens == TruncToInt(args["max_tokens"].num)
    ensures ("max_tokens" !in args || !args["max_tokens"].VNumber?) && ParseInt(cfg.envMaxTokens).Some? ==>
              Build(args, cfg).value.maxTokens == ParseInt(cfg.envMaxTokens).value
    ensures ("max_tokens" !in args || !args["max_tokens"].VNumber?) && ParseInt(cfg.envMaxTokens).None? ==>
              Build(args, cfg).value.maxTokens == 2000
  {
  }

  /** DEFAULT_MAX_TOKENS="5000" gives 5000, and a caller's 100 overrides it. */
  lemma MaxTokensExample(q: string)
    requires q != ""
    ensures var r := Build(map["query" := VString(q)], Config("key", "", "5000", ""));
      r.Ok? && r.value.maxTokens == 5000
    ensures var r := Build(map["query" := VString(q), "max_tokens" := VNumber(100.0)], Config("key", "", "5000", ""));
      r.Ok? && r.value.maxTokens == 100
    ensures var r := Build(map["query" := VString(q)], Config("key", "", "lots", ""));
      r.Ok? && r.value.maxTokens == 2000
  {
    assert IntToDecimal(5000) + "" == "5000";
    ParseIntRoundTrip(5000, "");
    var bare := map["query" := VString(q)];
    var withArg := bare["max_tokens" := VNumber(100.0)];
    var env := Config("key", "", "5000", "");
    var bad := Config("key", "", "lots", "");
    assert HasQuery(bare) && HasQuery(withArg);
    assert "model" !in bare && "model" !in withArg && "max_tokens" !in bare;
    EnvironmentModelTrusted(bare, env);
    EnvironmentModelTrusted(withArg, env);
    EnvironmentModelTrusted(bare, bad);
    MaxTokensPrecedence(bare, env);
    MaxTokensPrecedence(withArg, env);
    MaxTokensPrecedence(bare, bad);
  }

  /**
   * Each optional scalar takes the caller's value when it has the expected JSON
   * type, and its default otherwise.
   */
  lemma ScalarArguments(args: Args, cfg: Config)
    requires Build(args, cfg).Ok?
    ensures var req := Build(args, cfg).value;
      && req.temperature == (if "temperature" in args && args["temperature"].VNumber? then args["temperature"].num else 0.2)
      && req.topP == (if "top_p" in args && args["top_p"].VNumber? then args["top_p"].num else 0.9)
      && req.topK == (if "top_k" in args && args["top_k"].VNumber? then TruncToInt(args["top_k"].num) else 0)
      && req.presencePenalty == (if "presence_penalty" in args && args["presence_penalty"].VNumber? then args["presence_penalty"].num else 0.0)
      && req.frequencyPenalty == (if "frequency_penalty" in args && args["frequency_penalty"].VNumber? then args["frequency_penalty"].num else 1.0)
      && req.stream == ("stream" in args && args["stream"] == VBool(true))
      && req.hasResponseFormat == ("response_format" in args && args["response_format"].VObject?)
  {
  }

  /**
   * For a search model, the two return flags are true only when the caller
   * passes the boolean true, and the recency filter is the caller's string
   * when it is one (the empty string leaves the default, which is also empty).
   */
  lemma SearchFlagArguments(args: Args, cfg: Config)
    requires Build(args, cfg).Ok? && Build(args, cfg).value.model != ModelR1
    ensures var req := Build(args, cfg).value;
      && req.returnImages == ("return_images" in args && args["return_images"] == VBool(true))
      && req.returnRelatedQuestions == ("return_related_questions" in args && args["return_related_questions"] == VBool(true))
      && req.searchRecencyFilter
         == (if "search_recency_filter" in args && args["search_recency_filter"].VString?
             then args["search_recency_filter"].str else "")
  {
  }

  /**
   * Build reads the argument bag only through these views, so two bags that
   * agree on all of them build the same outcome.
   */
  predicate SameViews(a1: Args, a2: Args) {
    && QueryOf(a1) == QueryOf(a2)
    && CallerModel(a1) == CallerModel(a2)
    && NumberArg(a1, "max_tokens") == NumberArg(a2, "max_tokens")
    && NumberArg(a1, "temperature") == NumberArg(a2, "temperature")
    && NumberArg(a1, "top_p") == NumberArg(a2, "top_p")
    && NumberArg(a1, "top_k") == NumberArg(a2, "top_k")
    && NumberArg(a1, "presence_penalty") == NumberArg(a2, "presence_penalty")
    && NumberArg(a1, "frequency_penalty") == NumberArg(a2, "frequency_penalty")
    && BoolArg(a1, "return_images") == BoolArg(a2, "return_images")
    && BoolArg(a1, "return_related_questions") == BoolArg(a2, "return_related_questions")
    && BoolArg(a1, "stream") == BoolArg(a2, "stream")
    && ResolveDomainFilter(a1, None) == ResolveDomainFilter(a2, None)
    && ResolveRecencyFilter(a1, "") == ResolveRecencyFilter(a2, "")
    && HasResponseFormat(a1) == HasResponseFormat(a2)
    && CallerContextSize(a1) == CallerContextSize(a2)
  }

  lemma SameViewsSameBuild(a1: Args, a2: Args, cfg: Config)
    requires SameViews(a1, a2)
    ensures Build(a1, cfg) == Build(a2, cfg)
  {
    if cfg.apiKey != "" && QueryOf(a1).Some? {
      assert Resolved(a1, cfg, QueryOf(a1).value) == Resolved(a2, cfg, QueryOf(a2).value);
    }
  }

  /**
   * A non-empty array `search_domain_filter` yields a filter as long as the
   * array, holding each string at its own index and "" wherever the element is
   * not a string; anything else leaves the filter absent.
   */
  lemma DomainFilterShape(args: Args, cfg: Config)
    requires Build(args, cfg).Ok? && Build(args, cfg).value.model != ModelR1
    ensures var filter := Build(args, cfg).value.searchDomainFilter;
      if "search_domain_filter" in args && args["search_domain_filter"].VArray?
         && args["search_domain_filter"].elems != []
      then
        var elems := args["search_domain_filter"].elems;
        && filter.Some? && |filter.value| == |elems|
        && forall i :: 0 <= i < |elems| ==>
             filter.value[i] == (if elems[i].VString? then elems[i].str else "")
      else filter.None?
  {
  }

  /** ["a.com", 42, "b.com"] is stored as ["a.com", "", "b.com"]: the gap is kept. */
  lemma DomainFilterExample(q: string)
    requires q != ""
    ensures var r := Build(map["query" := VString(q),
                               "search_domain_filter" := VArray([VString("a.com"), VNumber(42.0), VString("b.com")])],
                           Config("key", "", "", ""));
      r.Ok? && r.value.searchDomainFilter == Some(["a.com", "", "b.com"])
  {
    var elems := [VString("a.com"), VNumber(42.0), VString("b.com")];
    var args := map["query" := VString(q), "search_domain_filter" := VArray(elems)];
    var cfg := Config("key", "", "", "");
    assert HasQuery(args) && "model" !in args;
    EnvironmentModelTrusted(args, cfg);
    DomainFilterShape(args, cfg);
    var filter := Build(args, cfg).value.searchDomainFilter.value;
    assert filter[0] == "a.com" && filter[1] == "" && filter[2] == "b.com";
    assert filter == ["a.com", "", "b.com"];
  }

  /**
   * Every request for a search model carries web-search options. Their context
   * size is the caller's `web_search_options.search_context_size` when that is
   * "low", "medium" or "high"; otherwise DEFAULT_SEARCH_CONTEXT_SIZE, taken
   * unchecked, when set; otherwise "medium".
   */
  lemma SearchContextSizeResolution(args: Args, cfg: Config)
    requires Build(args, cfg).Ok? && Build(args, cfg).value.model != ModelR1
    ensures Build(args, cfg).value.webSearchOptions.Some?
    ensures var size := Build(args, cfg).value.webSearchOptions.value.searchContextSize;
      if "web_search_options" in args && args["web_search_options"].VObject?
         && "search_context_size" in args["web_search_options"].fields
         && args["web_search_options"].fields["search_context_size"].VString?
         && args["web_search_options"].fields["search_context_size"].str in ContextSizes
      then size == args["web_search_options"].fields["search_context_size"].str
      else size == (if cfg.envSearchContextSize != "" then cfg.envSearchContextSize else "medium")
  {
  }

  /** "ultra" is ignored and "high" is taken. */
  lemma SearchContextSizeExample(q: string)
    requires q != ""
    ensures var r := Build(map["query" := VString(q),
                               "web_search_options" := VObject(map["search_context_size" := VString("ultra")])],
                           Config("key", "", "", ""));
      r.Ok? && r.value.webSearchOptions == Some(WebSearchOptions("medium"))
    ensures var r := Build(map["query" := VString(q),
                               "web_search_options" := VObject(map["search_context_size" := VString("high")])],
                           Config("key", "", "", ""));
      r.Ok? && r.value.webSearchOptions == Some(WebSearchOptions("high"))
  {
    var cfg := Config("key", "", "", "");
    var ultra := map["query" := VString(q),
                     "web_search_options" := VObject(map["search_context_size" := VString("ultra")])];
    var high := map["query" := VString(q),
                    "web_search_options" := VObject(map["search_context_size" := VString("high")])];
    assert HasQuery(ultra) && "model" !in ultra && HasQuery(high) && "model" !in high;
    assert "ultra" !in ContextSizes && "high" in ContextSizes;
    EnvironmentModelTrusted(ultra, cfg);
    EnvironmentModelTrusted(high, cfg);
    SearchContextSizeResolution(ultra, cfg);
    SearchContextSizeResolution(high, cfg);
  }

  /**
   * A request for the offline model, whether the model came from the caller or
   * the environment, carries no search parameters; its other fields are
   * resolved exactly as for any model.
   */
  lemma OfflineRequestHasNoSearchParameters(args: Args, cfg: Config)
    requires Build(args, cfg).Ok? && Build(args, cfg).value.model == ModelR1
    ensures var req := Build(args, cfg).value;
      && req.searchDomainFilter.None? && !req.returnImages && !req.returnRelatedQuestions
      && req.searchRecencyFilter == "" && req.webSearchOptions.None?
    ensures var req := Build(args, cfg).value;
      var resolved := Resolved(args, cfg, args["query"].str);
      && req.maxTokens == resolved.maxTokens && req.temperature == resolved.temperature
      && req.topP == resolved.topP && req.topK == resolved.topK && req.stream == resolved.stream
      && req.presencePenalty == resolved.presencePenalty
      && req.frequencyPenalty == resolved.frequencyPenalty
      && req.hasResponseFormat == resolved.hasResponseFormat
  {
  }

  /**
   * The views of the argument bag that survive offline normalisation: the
   * search arguments (domain filter, images, related questions, recency,
   * web-search options) are not among them.
   */
  predicate SameNonSearchViews(a1: Args, a2: Args) {
    && QueryOf(a1) == QueryOf(a2)
    && CallerModel(a1) == CallerModel(a2)
    && NumberArg(a1, "max_tokens") == NumberArg(a2, "max_tokens")
    && NumberArg(a1, "temperature") == NumberArg(a2, "temperature")
    && NumberArg(a1, "top_p") == NumberArg(a2, "top_p")
    && NumberArg(a1, "top_k") == NumberArg(a2, "top_k")
    && NumberArg(a1, "presence_penalty") == NumberArg(a2, "presence_penalty")
    && NumberArg(a1, "frequency_penalty") == NumberArg(a2, "frequency_penalty")
    && BoolArg(a1, "stream") == BoolArg(a2, "stream")
    && HasResponseFormat(a1) == HasResponseFormat(a2)
  }

  /**
   * For the offline model the search arguments cannot change the outcome: any
   * bag that agrees with an r1-1776 bag outside them builds the same request.
   */
  lemma OfflineSameNonSearchViews(a1: Args, a2: Args, cfg: Config)
    requires SameNonSearchViews(a1, a2)
    requires Build(a2, cfg).Ok? && Build(a2, cfg).value.model == ModelR1
    ensures Build(a1, cfg) == Build(a2, cfg)
  {
    var q := QueryOf(a2).value;
    var r1, r2 := Resolved(a1, cfg, q), Resolved(a2, cfg, q);
    assert r1.model == r2.model == ModelR1;
    assert OfflineNormalize(r1) == OfflineNormalize(r2);
  }
}
