# perplexity-mcp-go: the search tool's request builder and answer extraction

This project models the `perplexity_search` tool handler of the Perplexity MCP
server, written in Go. It covers two pieces.

The first is the request builder in `handleSearchTool`. It takes the caller's
loosely typed argument bag and the process environment. It checks the API key,
the query and the model. It then fills a `PerplexityChatRequest` from a
precedence chain: hard-coded defaults, then environment overrides
(`DEFAULT_MAX_TOKENS`, `PERPLEXITY_MODEL`, `DEFAULT_SEARCH_CONTEXT_SIZE`), then
the caller's arguments. Finally it strips the search parameters when the
offline model `r1-1776` is selected.

The second is the end of `performPerplexityChat`. It picks the answer text out
of the upstream reply, or reports why there is none.

Modules:

- `Basics`: `Option` and `Result`.
- `JsonValue`: the decoded JSON argument bag and its typed lookups. These
  mirror Go's `args[key].(T)` type assertions.
- `ModelNames`: the six model identifiers and the handler's linear search over
  them.
- `Numbers`: Go's `int(float64)` truncation and `fmt.Sscanf("%d")`. A decimal
  printer is given as the inverse of the latter.
- `SearchRequest`: the request, the configuration and `Build`. `Build` is a
  declarative statement of the outcome, resolving each field from its
  precedence chain.
- `RequestBuilder`: the handler's steps, written imperatively. A local request
  value is created and then overwritten field by field. The domain filter is
  filled by index into a buffer. Each step is proved against `SearchRequest`.
- `BuilderProperties`: the properties of the builder, stated over `Build`.
- `SearchExecutor`: answer extraction and the handler as a whole. The HTTP
  exchange is a parameter.

The domain filter follows the code. The source allocates the filter at the
full length of the input array and writes only the string elements. A
non-string element therefore leaves `""` at its position and the filter is not
compacted: `["a.com", 42, "b.com"]` becomes `["a.com", "", "b.com"]`.

## Model

| member | source | states |
|---|---|---|
| ModelNames.IsValidModel | main.go:224-237 | The handler's loop with its flag and early exit reports true exactly when the name is one of the six identifiers of main.go:17-31. |
| Numbers.TruncToInt | main.go:247-249 | Go's `int(float64)` drops the fractional part toward zero. The result is within one of `x`, on the side of zero. |
| Numbers.DigitRun | main.go:186 | The scanned digit run is a prefix of digits, and the character after it (if any) is not a digit. |
| Numbers.ParseInt | main.go:185-189 | `Sscanf("%d")` fails on empty text and on text that does not start with a sign or a digit. Without a minus sign it never yields a negative number. |
| Numbers.NatToDecimal | main.go:185-189 | The decimal rendering of a natural number is a non-empty run of digits. It is the inverse used by the round trip below. |
| Numbers.DecimalValue | main.go:185-189 | The digits of a rendered number read back as that number. |
| Numbers.DigitRunOfDigits | main.go:185-189 | The scan of a rendered number stops exactly at its end, whatever non-digit text follows. |
| Numbers.ScanDigitRun | main.go:185-189 | Scanning digits followed by a non-digit yields the value of those digits. |
| Numbers.ParseDecimal | main.go:185-189 | A non-negative rendering followed by non-digit text scans back to the number. |
| Numbers.ParseMinusDecimal | main.go:185-189 | A minus sign and a rendering scan back to the negated number. |
| Numbers.ParseIntRoundTrip | main.go:185-189 | Every integer, rendered in decimal and followed by nothing or by a non-digit, scans back to itself: a numeric `DEFAULT_MAX_TOKENS` is read as written. |
| SearchRequest.Build | main.go:158-323 | The reference outcome every builder property is stated over. It succeeds exactly when the key is set, the query is a non-empty string and any non-empty string model is in the set, and then the request carries the query as its single user message. |
| SearchRequest.OfflineNormalize | main.go:315-323 | For `r1-1776`, the domain filter, both return flags, the recency filter and the web-search options are cleared, and every other field is kept. Any other model's request is left unchanged. |
| RequestBuilder.BuildDomainFilter | main.go:259-267 | The zero-filled buffer, filled by index in a loop, has the input's length. It holds each string element at its own index and `""` elsewhere. |
| RequestBuilder.EnvironmentDefaults | main.go:171-197 | Max tokens is 2000, replaced by `DEFAULT_MAX_TOKENS` when that scans as an integer. The model is `PERPLEXITY_MODEL` or `sonar-pro`. The context size is `DEFAULT_SEARCH_CONTEXT_SIZE` or `medium`. A warning is raised exactly when `DEFAULT_MAX_TOKENS` is set but does not scan. |
| RequestBuilder.InitialRequest | main.go:199-222 | The initial request holds one user message with the query, the defaults after environment overrides, and web-search options holding the default context size. |
| RequestBuilder.ApplySamplingArgs | main.go:246-257 | `max_tokens` (truncated), `temperature` and `top_p` are overwritten only by numeric arguments. |
| RequestBuilder.ApplySearchArgs | main.go:259-282 | The domain filter is replaced only by a non-empty array. The two return flags are replaced only by booleans. The recency filter is replaced only by a non-empty string. |
| RequestBuilder.ApplyTuningArgs | main.go:284-303 | `top_k` (truncated) and the penalties are overwritten only by numbers, and `stream` only by a boolean. The response-format marker is set only by an object. |
| RequestBuilder.ApplyWebSearchOptions | main.go:305-313 | The context size is replaced only by `low`, `medium` or `high` inside a `web_search_options` object. |
| RequestBuilder.BuildRequest | main.go:158-323 | The step-by-step handler yields exactly the outcome `Build` states. Its warning fires exactly when the key and query pass and `DEFAULT_MAX_TOKENS` is set but unparseable. |
| BuilderProperties.BuildFailures | main.go:160-168 | A missing API key fails first, then a bad query. The build fails exactly on those or on a non-empty string model outside the set. A mistyped optional argument never fails it. |
| BuilderProperties.SingleUserMessage | main.go:200-207 | Every built request has exactly one message, from `user`, carrying the query. |
| BuilderProperties.CallerModelChecked | main.go:225-244 | A non-empty string model is accepted exactly when it is in the set, and then it is the request's model. Otherwise it fails naming that model. |
| BuilderProperties.EnvironmentModelTrusted | main.go:191-193 | Without a usable model argument, the request uses `PERPLEXITY_MODEL` (or `sonar-pro`) unchecked, and building succeeds. |
| BuilderProperties.EnvironmentModelExample | main.go:191-244 | `gpt-4` is rejected as a caller's model but used as the environment's. |
| BuilderProperties.DefaultsWithoutOverrides | main.go:171-222 | With only a query and a key, the request is exactly the hard-coded defaults. |
| BuilderProperties.MaxTokensPrecedence | main.go:172-189 | Max tokens comes from a numeric argument (truncated), else from a scannable `DEFAULT_MAX_TOKENS`, else it is 2000. |
| BuilderProperties.MaxTokensExample | main.go:185-189 | `DEFAULT_MAX_TOKENS=5000` gives 5000. A caller's 100 overrides it. `lots` falls back to 2000. |
| BuilderProperties.ScalarArguments | main.go:251-303 | Temperature, `top_p`, `top_k` (truncated), both penalties, `stream` and the response-format marker each take the caller's value when it has the expected JSON type, and their default otherwise. |
| BuilderProperties.SearchFlagArguments | main.go:269-282 | For a search model, `return_images` and `return_related_questions` are set only by a boolean argument, and the recency filter is the caller's string when the argument is one, else empty. |
| BuilderProperties.SameViewsSameBuild | main.go:158-323 | The outcome depends on the bag only through the typed lookups. A mistyped argument therefore acts exactly like an absent one. |
| BuilderProperties.DomainFilterShape | main.go:259-267 | For a search model, a non-empty array gives a filter of the same length, with strings in place and `""` elsewhere. Anything else leaves the filter absent. |
| BuilderProperties.DomainFilterExample | main.go:259-267 | `["a.com", 42, "b.com"]` becomes `["a.com", "", "b.com"]`. |
| BuilderProperties.SearchContextSizeResolution | main.go:182-313 | A search model always has web-search options. Their size is the caller's when it is `low`, `medium` or `high`, else the unchecked environment value, else `medium`. |
| BuilderProperties.SearchContextSizeExample | main.go:305-313 | `ultra` is ignored, giving `medium`, and `high` is taken. |
| BuilderProperties.OfflineRequestHasNoSearchParameters | main.go:315-323 | An `r1-1776` request, whether the model came from the caller or the environment, has no search parameters. Its other scalars are resolved as for any model. |
| BuilderProperties.OfflineSameNonSearchViews | main.go:315-323 | For `r1-1776` no search argument can change the outcome. Bags that agree outside them build the same request. |
| SearchExecutor.ExtractAnswer | main.go:361-377 | There is an answer exactly when the status is 200, the body decodes and there is at least one choice. The answer is the first choice's content. |
| SearchExecutor.Execute | main.go:354-377 | A transport failure is reported as such. A received reply goes through answer extraction. |
| SearchExecutor.Handle | main.go:158-331 | The reference outcome of the whole handler. A build failure is returned as such, and the call succeeds exactly when the request builds and the exchange for it yields an answer. |
| SearchExecutor.HandleSearchTool | main.go:325-331 | The handler's outcome is the build error, or the search error, or the answer, as `Handle` states. Its warning is that of the builder. |
| SearchExecutor.NonOkStatusIsUpstreamError | main.go:361-365 | Any status but 200 is an error carrying the status and the body, whatever the body holds. |
| SearchExecutor.OkStatusFailures | main.go:367-375 | A 200 reply that does not decode is a decode error. One with no choices is a no-content error. |
| SearchExecutor.FirstChoiceOnly | main.go:372-377 | Replies whose first choices have the same content give the same answer: later choices are ignored. |
| SearchExecutor.HandleOutcome | main.go:158-331 | A build failure is returned as such whatever the exchange would do. Otherwise the call succeeds exactly when the exchange yields an answer, and it returns that answer or the wrapped search error. |
| SearchExecutor.HandleUsesBuiltRequest | main.go:325-359 | The outcome depends on the exchange only through the configured key and the built request. |
| SearchExecutor.AnswerIsFirstChoice | main.go:325-377 | A built request answered with 200 and at least one choice returns the first choice's content. |
| SearchExecutor.RateLimitedExample | main.go:361-365 | A 429 reply becomes a search failure carrying 429 and its body. |

## Left out

- `main` and the MCP server bootstrap over stdio (main.go:380-397) are process lifecycle and transport. They are not modelled.
- `buildSearchTool` (main.go:95-155) is a declarative schema built with library calls. Its enums, such as the recency values, are not enforced by the handler, and the model does not enforce them either.
- Environment reads become the `Config` record. An unset variable is the empty string, as `os.Getenv` reports it. The stderr warning becomes the boolean `warned`.
- JSON marshalling, `omitempty` and the HTTP exchange are not modelled (main.go:337-370). That covers headers, `client.Do`, reading and decoding the body. The exchange is a parameter yielding a transport failure or a status, the body and the decoded reply. `ResponseFormat` is kept only as a present/absent marker, because the handler always sends an empty object.
- The serialisation and request-construction errors (main.go:338-347) cannot occur for this request type and a constant URL. They have no case in the model.
- Temperature, `top_p` and the penalties are Go float64 values that are only copied, so they are modelled as reals. NaN, infinities and the overflow of `int(float64)` are not modelled.
- Numbers.ParseInt: leading white space, which `Sscanf` skips, is not modelled. Values beyond 64 bits, which `Sscanf` rejects, are accepted by the model.
- Context cancellation (the handler's `ctx`) is ignored, as the handler ignores it.
- The error messages are modelled as error cases with their data (the status and body, the rejected model), not as formatted strings.
