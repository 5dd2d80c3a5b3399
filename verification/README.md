# steam-curator-langchain: the review pipeline, modelled in Dafny

steam-curator-langchain rates a Steam game from its user reviews. A
pipeline of three stages does the work:

1. A **filter** does two things:
   - It drops reviews that are too short or whose author played too little.
   - It asks a chat model whether each remaining review is worth keeping.
2. A **summariser** groups the kept reviews into fixed-size windows. It asks the model for one structured summary per window, with one field per game aspect.
3. An **aggregation fan-out** runs one branch per aspect:
   - It collects that aspect's text from every window summary.
   - It asks the model for a score.
   - It retries on malformed answers.

Small helpers handle the rest:
- reading the app id and the title from a store URL;
- removing duplicate reviews by recommendation id;
- the output parser that is meant to strip the model's `<think>…</think>` block before parsing.

The model treats the parts it cannot see as parameters:
- **The chat model** is an oracle, `Llm = (Prompt, nat) -> string`. The `nat` is the sample number, so a retried call can get a different answer.
- **A backend** (`ChainUtils.Backend`) maps each chat client built from the registry to its oracle.
- **The library's structured-output parser** is a parameter, `OutputParsers.StructuredOutput`. Some properties assume `WellBehaved`: a successful parse holds every declared field, and a failed one raises `OutputParserException`.

On top of these abstractions, the rest of the pipeline follows the Python code on immutable values. Reviews are well-formed records, so the errors a malformed review would raise are not modelled (see `Reviews.Review` under "## Left out"). The oracle always returns text: it never raises a connection, timeout or API error. It is also a function, so the same prompt and sample number always give the same text. "## Left out" names the contracts that rest on this.
- `Chain.invoke` lays a chain's outputs over its inputs.
- `batch` runs its inputs in order and raises the first failure.
- `with_retry` retries only `OutputParserException`. `stop_after_attempt=n` allows n attempts for n ≥ 1, and one attempt for a negative n. The n = 0 case is under "## Left out".
- `RunnableParallel` nests each branch's output under its aspect.
- The Python primitives the code relies on are written out, following Python's own rules:
  - `str.strip` uses the full `str.isspace` set;
  - `str.find`;
  - slicing with negative and out-of-range bounds;
  - `str.split(" ")`;
  - `str.join`;
  - `str.replace`;
  - base-10 `int()`;
  - `range` with a step.

Modules follow the source files:

| Module | Source file |
|---|---|
| `FilterChains` | `chains/filter_chains.py` |
| `SummarizationChains` | `chains/summarization_chains.py` |
| `AggregationChains` | `chains/aggregation_chains.py` |
| `OutputParsers` | `output_parsers.py` |
| `ModelRegistry` | `model_registry.py` |
| `Prompts` | `prompts/*.py` (only the aspect keys) |
| `SteamUtils` | `steam_utils.py` |
| `ChainUtils` | `chain_utils.py` |

Supporting modules:
- `Text`: Python's string primitives.
- `Sequences`: subsequences, filtering, flattening, `range`.
- `Runnables`: the chain-library behaviour listed above.
- `Json`: parsed records.
- `Reviews`: the review record.
- `Results`: errors, `Option`, `Result`.

## Model

| member | source | states |
|---|---|---|
| FilterChains.NewDeterministicFilterChain | chains/filter_chains.py:23-26 | By default a review needs at least 5 words and 300 minutes (5 * 60) of playtime. |
| FilterChains.WordCount | chains/filter_chains.py:28-29 | The word count of `len(text.split(" "))` is the number of space characters plus one. Tabs and newlines do not separate words. |
| FilterChains.WordCountExamples | chains/filter_chains.py:28-29 | The empty review counts as one word. `"a\tb\nc"` is one word. Two adjacent spaces make an empty word, so `"a  b"` is three. |
| FilterChains.TooSmallIffFewSpaces | chains/filter_chains.py:28-29 | A review is too small exactly when its space count plus one is below `min_words`. |
| FilterChains.Playtime | chains/filter_chains.py:31-34 | Playtime is the author's `playtime_at_review`. It is 36000 when the author or the field is missing. |
| FilterChains.MissingPlaytimeNeverTooLow | chains/filter_chains.py:31-34 | Under the default thresholds, a review without playtime data is never rejected for playtime. |
| FilterChains.BoundaryReviewKept | chains/filter_chains.py:28-34 | Both comparisons are strict. A review with exactly `min_words` words and exactly `min_playtime` minutes passes and is kept. |
| FilterChains.FilterReviews | chains/filter_chains.py:36-41 | The output is an order-preserving subsequence of the input and never longer. It keeps every copy of each passing review and no copy of any failing one. |
| FilterChains.FilterReviewsIdempotent | chains/filter_chains.py:36-41 | Filtering already filtered reviews changes nothing. |
| FilterChains.DeterministicCall | chains/filter_chains.py:36-41 | `_call` raises `KeyError` without `reviews`. Otherwise its only output, `filtered_reviews`, holds the passing reviews. |
| FilterChains.NewLlmFilterChain | chains/filter_chains.py:57-70 | The default template is the fluff-filter prompt, and the parser is stored as given. |
| FilterChains.ReviewPrompt | chains/filter_chains.py:74-83 | Each review is asked about in one human message with exactly two variables: its text and the parser's format instructions. |
| FilterChains.KeepApprovedKeeps | chains/filter_chains.py:78-86 | The LLM filter succeeds exactly when every review's verdict parses. It then returns the order-preserving selection of reviews whose `keep_review` is truthy. A missing key means discard. |
| FilterChains.KeepApprovedFirstFailure | chains/filter_chains.py:80-83 | A failing run raises the error of the first review whose verdict failed. Every verdict before it succeeded. |
| FilterChains.LlmFilterCall | chains/filter_chains.py:72-86 | The loop asks the model once per review, in input order. It stops at the first failure, which belongs to the last review asked. Its result is the pure definition's. |
| FilterChains.LlmFilterCallOn | chains/filter_chains.py:72-86 | `_call` raises `KeyError` without `reviews`. Otherwise it raises the LLM filter's error when a verdict fails, and on success its only output, `filtered_reviews`, holds the approved reviews. |
| SummarizationChains.NewSummarizationChain | chains/summarization_chains.py:25-44 | Default window size is 12, thinking is off, and the template is the summarisation prompt. |
| SummarizationChains.SystemMessage | chains/summarization_chains.py:48-50 | The system message is empty exactly when thinking is enabled. Otherwise it is `/no_think`. |
| SummarizationChains.Batches | chains/summarization_chains.py:55 | Batching fails exactly when the window size is 0, with `ValueError`, because `range` refuses step 0. |
| SummarizationChains.BatchesNegative | chains/summarization_chains.py:55 | A negative window size yields no windows. |
| SummarizationChains.BatchesCount | chains/summarization_chains.py:55 | For window size B ≥ 1 and L reviews there are ceil(L / B) windows, and none exactly when L is 0. |
| SummarizationChains.BatchesWindow | chains/summarization_chains.py:55 | Window k is the slice of reviews from k·B up to k·B + B, cut at the end of the list. |
| SummarizationChains.BatchesSizes | chains/summarization_chains.py:55 | Every window but the last holds exactly B reviews. The last holds between 1 and B. |
| SummarizationChains.BatchesLastWindow | chains/summarization_chains.py:55 | The full windows and the last one add up to the number of reviews. |
| SummarizationChains.BatchesFlatten | chains/summarization_chains.py:55 | Concatenating the windows in order gives back the review list exactly. |
| SummarizationChains.BatchTexts | chains/summarization_chains.py:58 | Each window's `review_texts` is the `"\n\n"`-join of its reviews' texts, in order. |
| SummarizationChains.BatchesKeepAllText | chains/summarization_chains.py:55-58 | Joining the windows' texts with `"\n\n"` gives the join of all review texts. No text is lost or reordered by windowing. |
| SummarizationChains.WindowVars | chains/summarization_chains.py:56-61 | Each window is invoked with exactly `review_texts` and `format_instructions`. |
| SummarizationChains.SummarizeWith | chains/summarization_chains.py:55-63 | For any batch runner: window size 0 raises `ValueError`. A runner failure is raised as is. A count mismatch raises `AssertionError`. Otherwise the runner's summaries are returned. |
| SummarizationChains.LostSummaryTripsAssertion | chains/summarization_chains.py:62 | A runner that returns no summaries for a non-empty review list trips the assertion. |
| SummarizationChains.SummarizeOnePerWindow | chains/summarization_chains.py:55-63 | With the library's `batch`, summarisation succeeds exactly when every window's invocation does. Summary k is then window k's parsed answer, one per window, so the assertion never fires. |
| SummarizationChains.SummarizeIsBatch | chains/summarization_chains.py:56-62 | The summariser with the library's `batch` is that batch over the window inputs. The count check never intervenes. |
| SummarizationChains.SummarizationCall | chains/summarization_chains.py:46-63 | `_call` raises `KeyError` without `filtered_reviews`. Otherwise it yields only `batch_summaries` or the summariser's error. |
| AggregationChains.Project | chains/aggregation_chains.py:37-38 | The projection succeeds exactly when every summary holds the aspect, and otherwise raises `KeyError(aspect)`. It keeps the length, and element i is summary i's value under the aspect. |
| AggregationChains.Strings | chains/aggregation_chains.py:44 | `str.join` accepts the projected values exactly when all are strings, and otherwise raises `TypeError`. |
| AggregationChains.SummaryTexts | chains/aggregation_chains.py:38-44 | A missing aspect raises `KeyError(aspect)`. No summaries give `""`. |
| AggregationChains.SummaryTextsJoin | chains/aggregation_chains.py:38-44 | `summary_texts` is the `"\n\n"`-join of the summaries' aspect texts, in order. |
| AggregationChains.SummaryTextsNonInterference | chains/aggregation_chains.py:38-44 | Summaries that agree on the aspect give the same `summary_texts`, whatever they hold under other keys. |
| AggregationChains.ScorePrompt | chains/aggregation_chains.py:39-44 | The scorer is invoked with exactly `summary_texts` and `format_instructions`. |
| AggregationChains.Aggregate | chains/aggregation_chains.py:36-45 | The scorer's result is the parsed answer to the joined texts. A projection or join error is raised before the model is asked. |
| AggregationChains.AggregationCall | chains/aggregation_chains.py:36-45 | `_call` reads `summary_aspect` first, then `batch_summaries`, raising `KeyError` for the first one missing. Otherwise its outputs are the parsed record. |
| AggregationChains.AggregationOutputsDeclared | chains/aggregation_chains.py:15-19 | With the aggregation schema and a well-behaved parser, every successful call yields the declared outputs `aggregate_score` and `score_explanation`. |
| AggregationChains.SummarizationSchemaNames | output_parsers.py:42-67 | The five summary fields are, in order, the first five aggregation aspects. The sixth aspect, `challenge`, is none of them. |
| AggregationChains.ChallengeAspectMissing | chains/aggregation_chains.py:38 | A summary with exactly the summary schema's fields serves five aspects. For `challenge` it raises `KeyError`. |
| AggregationChains.CorrectedSchemaNames | output_parsers.py:42-67 | The corrected summary schema lists every aggregation aspect, in order. |
| AggregationChains.CorrectedSchemaCoversAspects | chains/aggregation_chains.py:38-44 | Summaries holding every corrected-schema field as a string give every aspect its `summary_texts`. |
| OutputParsers.SchemaFields | output_parsers.py:33-75 | The three schemas' field names and types. The summary fields are exactly the five listed, without `challenge` or `artstyle`. |
| OutputParsers.FromResponseSchemas | output_parsers.py:13-16 | The parser's default tags are `<think>` and `</think>`. |
| OutputParsers.RemoveThinkingTokens | output_parsers.py:18-27 | As written, the cleaner returns `text.strip()` for every input, because the tag-free `ret` is discarded. |
| OutputParsers.RemoveThinkingTokensShape | output_parsers.py:18-27 | The cleaned text has no outer whitespace and is a contiguous block of its input starting at its first non-space character. Cleaning twice is cleaning once. |
| OutputParsers.TagsSurvive | output_parsers.py:21-26 | Every occurrence of a tag (a marker with non-space ends) in the input is still present in the output, shifted by the leading whitespace removed. |
| OutputParsers.ThinkingBlockSurvives | output_parsers.py:23-26 | A padded reply opening with a thinking block comes back with the block, tags and all. |
| OutputParsers.RemoveThinkingBlockDropsBlock | output_parsers.py:23-25 | The corrected cleaner turns a reply made of one leading thinking block plus an answer into the answer alone. |
| OutputParsers.Parse | output_parsers.py:29-30 | The library parser sees the reply with only its outer whitespace removed. |
| OutputParsers.ThinkingBlockReachesParser | output_parsers.py:18-30 | On a reply opening with a thinking block, the corrected parse sees only the answer. The parse as written sees the block too. |
| OutputParsers.ParseHoldsSchema | output_parsers.py:29-30 | With a well-behaved library, a successful parse holds every schema field and a failure is a parser error. |
| ModelRegistry.RegistryNames | model_registry.py:14-34 | The registry holds exactly the fourteen listed model names, and not the empty name. |
| ModelRegistry.ServedByPartition | model_registry.py:14-34 | Every registered name is served by exactly one client class. The three classes' name sets are pairwise disjoint and together make up the registry. |
| ModelRegistry.OllamaModels | model_registry.py:15-23 | The eight local models are served by `ChatOllama`. |
| ModelRegistry.HostedModels | model_registry.py:25-33 | Four models are served by `ChatOpenAI` and two by `ChatGoogleGenerativeAI`. |
| ModelRegistry.ThinkingModelsRegistered | model_registry.py:8-12 | Every thinking model is a registered Ollama model. |
| Prompts.AggregationPrompt | prompts/aggregation_prompts.py:1-112 | An aspect has a scoring template exactly when it is one of the prompt keys. Any other key raises `KeyError`. |
| Prompts.AggregationAspectsDistinct | prompts/aggregation_prompts.py:1-112 | There are six distinct aspect keys, including `challenge` and not `artstyle`, which is commented out. |
| SteamUtils.IdStart | steam_utils.py:25 | The id starts just past the first `app/`. When there is none, `find` gives -1 and the start is 3. |
| SteamUtils.GameIdFromUrl | steam_utils.py:15-27 | Reading the id fails only with `ValueError`. |
| SteamUtils.GameIdCanonical | steam_utils.py:25-27 | Digits between the first `app/` and the next `/` read as their value. |
| SteamUtils.GameIdWithoutTrailingSlash | steam_utils.py:25-27 | With no `/` after the id, `end` is -1 and the slice drops the last digit. A one-digit id then fails. |
| SteamUtils.BareGameIdLosesDigit | steam_utils.py:25-27 | `https://store.steampowered.com/app/730` reads as 73. |
| SteamUtils.GameIdWithoutAppMarker | steam_utils.py:25-27 | Without `app/` the id is read from index 3 up to the next `/`. |
| SteamUtils.GameIdRejectsNonDigits | steam_utils.py:27 | A letter or other non-digit, non-sign, non-space character in the id slice makes `int()` raise `ValueError`. |
| SteamUtils.DefaultGameId | steam_utils.py:173 | The default game URL yields app id 730. |
| SteamUtils.SearchTitle | steam_utils.py:40 | The search finds the leftmost position where the title pattern matches, or reports none when no position matches. |
| SteamUtils.GameTitleFromUrl | steam_utils.py:30-45 | The title is `""` exactly when the pattern does not match. With `replace_underscore` it is the capture with every `_` turned into a space, so it holds no `_` and keeps the capture's length. Without it, it is the capture itself. |
| SteamUtils.GameTitleCanonical | steam_utils.py:40-42 | After the first `/app/<digits>/`, the title is the lazy capture up to the next `/`. |
| SteamUtils.NoMatchWithoutPath | steam_utils.py:40 | The pattern cannot match before the first `/app/`. |
| SteamUtils.DefaultGameTitle | steam_utils.py:40-42 | The default URL gives `CounterStrike_Global_Offensive`, or `CounterStrike Global Offensive` with underscores replaced. |
| SteamUtils.DedupShape | steam_utils.py:121-129 | De-duplication gives an order-preserving subsequence with pairwise-distinct ids. It keeps every input id, and each kept review is its id's first occurrence. |
| SteamUtils.DedupIdempotent | steam_utils.py:121-129 | Reviews with distinct ids are unchanged. De-duplicating twice is de-duplicating once. |
| SteamUtils.DedupLength | steam_utils.py:121-131 | The output length is the number of distinct ids, so the reported count of removed duplicates is the input length minus that number. |
| SteamUtils.RemoveDuplicateReviews | steam_utils.py:121-129 | The loop with its `seen` set computes the pure de-duplication: a subsequence with distinct ids and the same id set. |
| ChainUtils.GetLanguageModel | chain_utils.py:13-17 | A client is built exactly for registered names, of the registered class. Any other name raises `ValueError` naming it. |
| ChainUtils.LanguageModelLookup | chain_utils.py:13-17 | The empty name and `gpt-4` are rejected. The pipeline's default models are Ollama clients. |
| ChainUtils.GetBlurb | chain_utils.py:20-36 | The blurb is the chosen model's unparsed answer to the blurb prompt for the review. An unregistered model is an error. |
| ChainUtils.GetFilterChain | chain_utils.py:39-63 | The filter is built exactly for a registered model. It has the default rules and the filter schema's parser. |
| ChainUtils.Rename | chain_utils.py:59-60 | A remap step passes one value on under a new key, and raises `KeyError` when the old key is absent. |
| ChainUtils.FilterChainFeedsLlmStage | chain_utils.py:59-62 | Through the two renames, the LLM stage receives exactly the rule-based stage's `filtered_reviews`. |
| ChainUtils.FilterChainKeeps | chain_utils.py:39-63 | The filter chain succeeds exactly when every review that passed the rules gets a parsed verdict. It then yields the reviews both filters kept, in order. |
| ChainUtils.GetSummarizationChainWith | chain_utils.py:66-84 | The summariser is built exactly for a registered model, with the given window size and thinking off. |
| ChainUtils.GetSummarizationChain | chain_utils.py:66-83 | The summariser is built exactly when the model name is registered; otherwise the registry's `ValueError` is raised. It uses that name's client and parses with the juice summarisation schema. It keeps the juice prompt and the given window size, with thinking disabled. |
| ChainUtils.GetAggregationChain | chain_utils.py:87-113 | One branch per prompt key, in order. Each has its own aspect's template, the aggregation parser, the one model and the given attempt limit. |
| ChainUtils.FanOutScoresChallenge | chain_utils.py:99-112 | Every built fan-out has six branches, and the last one scores `challenge`. |
| ChainUtils.BranchInput | chain_utils.py:102-104 | Each branch's remap passes `batch_summaries` on unchanged and binds `summary_aspect` to the branch's own aspect. |
| ChainUtils.BranchRetries | chain_utils.py:105-110 | A branch makes between one and `num_retries` tries when `num_retries` ≥ 1, and exactly one for a negative `num_retries`. Every try before the last raised a parser error. The branch's outcome is the last try's. |
| ChainUtils.RunAll | chain_utils.py:112 | The fan-out succeeds exactly when every branch does. It then has one output per aspect. Otherwise it raises some branch's error. |
| ChainUtils.RunAllOutputs | chain_utils.py:112 | With distinct aspects, each branch's output sits under its own aspect. |
| ChainUtils.RunAggregationChain | chain_utils.py:112 | The fan-out's only output key is `branches`, which holds the per-aspect outputs. |
| ChainUtils.BranchMissingAspect | chain_utils.py:102-110 | A branch given a summary without its aspect raises `KeyError`. It is not retried. |
| ChainUtils.ChallengeBranchFails | chain_utils.py:102-110 | Given a summary holding exactly the summarisation schema's fields, the `challenge` branch raises `KeyError("challenge")`. |
| ChainUtils.MakeCompleteChainWith | chain_utils.py:116-138 | The pipeline is built exactly when all three model names are registered. The first bad name, in stage order, is the one reported. |
| ChainUtils.MakeCompleteChain | chain_utils.py:116-138 | The pipeline is built exactly when all three model names are registered. Otherwise the error names the first unregistered one, in filter, summariser, aggregation order. The summariser parses with the juice summarisation schema and the given window size. Every aggregation branch gets two attempts. |
| ChainUtils.DefaultCompleteChainBuilt | chain_utils.py:116-120 | The defaults are always built: rules 5 and 300, windows of 12, and six branches with 2 attempts each. |
| ChainUtils.CompleteChainStages | chain_utils.py:137 | The stages compose as filter, then summarise, then aggregate. Each stage sees the previous stage's output, and a stage's failure ends the run with its error. |
| ChainUtils.LlmFilterErrors | chains/filter_chains.py:80-83 | With a well-behaved parser, the LLM filter fails only with a parser error. |
| ChainUtils.SummariesHoldSchema | chains/summarization_chains.py:56-63 | With a well-behaved parser, every summary holds every schema field. The summariser fails only with `ValueError` or a parser error. |
| ChainUtils.AggregationNoKeyError | chains/aggregation_chains.py:38 | When every branch's aspect is in every summary, the fan-out never raises `KeyError`. |
| ChainUtils.PipelineNoKeyError | chain_utils.py:137 | With well-behaved parsers and a summary schema covering every branch's aspect, the pipeline never raises `KeyError`. |
| ChainUtils.CorrectedPipelineNoKeyError | chain_utils.py:116-138 | A pipeline built with the corrected summary schema never raises `KeyError` on a review list. |
| Runnables.BatchInvoke | chains/summarization_chains.py:56-61 | `batch` returns one result per input, in order. It fails exactly when some input's invocation fails, with that error. |
| Runnables.AttemptLimit | chain_utils.py:109 | `stop_after_attempt(n)` allows n attempts for n ≥ 1, and one attempt for a negative n. |
| Runnables.WithRetryOutcome | chain_utils.py:105-110 | The retry wrapper's outcome is its last attempt's. That attempt is made within the limit, and every earlier attempt raised a parser error. |
| Runnables.WithRetrySucceeds | chain_utils.py:109 | The retry wrapper succeeds exactly when some attempt within the limit succeeds and only parser errors come before it. |
| Runnables.WithRetryStopsOnOtherErrors | chain_utils.py:109 | An error other than a parser error is raised at once, without retrying. |
| Runnables.FlakyAttemptNeedsThree | chain_utils.py:87-109 | Two parser errors and then a success: success needs 3 attempts, and the default 2 raises the parser error. |
| Runnables.InvokeChain | chain_utils.py:137 | Invoking a chain lays its outputs over its inputs. A `_call` error is raised unchanged. |
| Text.StripShape | output_parsers.py:20 | `strip()` leaves no outer whitespace, keeps a contiguous block of the input and is idempotent. |
| Text.StripIsCore | output_parsers.py:20 | Everything `strip()` removes is whitespace: all characters before and after the kept block. |
| Text.StripKeepsMarker | output_parsers.py:20-22 | `strip()` keeps any occurrence of a marker with non-space ends, shifted by the removed prefix. |
| Text.Find | output_parsers.py:21-22 | `find` returns -1 exactly when the pattern does not occur at or after the start. Otherwise it returns the first occurrence. |
| Text.PySlice | steam_utils.py:27 | Python slicing counts negative bounds from the end, clamps out-of-range bounds and gives `[]` for crossed bounds. |
| Text.SplitCount | chains/filter_chains.py:29 | `split(sep)` gives one more part than the number of separators. |
| Text.SplitJoin | chains/filter_chains.py:29 | Joining the parts of `split(sep)` with the separator gives back the text. No part contains it. |
| Text.JoinLength | chains/summarization_chains.py:58 | A join is as long as its parts plus one separator between each pair. |
| Text.ReplaceChar | steam_utils.py:42 | `replace` keeps the length and changes exactly the replaced character. |
| Text.ParseInt | steam_utils.py:27 | `int()` succeeds exactly on an optionally signed run of decimal digits within whitespace, and otherwise raises `ValueError`. The value is that of the digits, negated after a `-`. |
| Text.ParseShowNat | steam_utils.py:27 | `int(str(n)) == n` for every natural number n. |
| Text.ParseIntRejects | steam_utils.py:27 | Any character that is not a digit, sign or whitespace makes `int()` fail. |
| Sequences.FilterIsSubsequence | chains/filter_chains.py:36-41 | Filtering keeps the kept elements in their original order. |
| Sequences.FilterMembership | chains/filter_chains.py:36-41 | An element survives filtering exactly when it is in the input and satisfies the test. |
| Sequences.FilterIdempotent | chains/filter_chains.py:36-41 | Filtering twice by one test is filtering once. |
| Sequences.Range | chains/summarization_chains.py:55 | `range(start, stop, step)` lists `start + k·step` while before `stop`, and is empty exactly when `start` is not before `stop`. |
| Sequences.RangeLength | chains/summarization_chains.py:55 | With a positive step, `range` has ceil((stop − start) / step) elements. |

## Left out

- The HTTP requests to the Steam store and review API, the cursor and pagination loop, and `get_game_details` (steam_utils.py:48-119, 138-168). These are network I/O. Only the de-duplication at steam_utils.py:121-131 is modelled, as a function of the fetched list. The log message at 130-131 is reduced to the count it reports (`SteamUtils.DedupLength`).
- The command-line entry points and the JSON file writes: steam_utils.py:171-184, `run_chains_local.py` and `get_filtered_reviews_local.py`. These are argument parsing and file I/O. Only the default `--game_url` is used, as `SteamUtils.DefaultGameUrl`.
- `rag_qa.py` and `eval_rag_qa.py`. These are embeddings, vector search, an interactive loop and QA evaluation against external services. They also call helpers that the `chain_utils.py` shown does not define.
- `EMBEDDING_CLASS_MAP` (model_registry.py:36-44). No modelled operation reads it.
- The chat clients, the prompt rendering of `ChatPromptTemplate`, and the internals of `StructuredOutputParser`. The model is an oracle, and the library parser is the `StructuredOutput` parameter. Some lemmas assume `WellBehaved` of it.
- The prompt and schema description prose. Templates are named constants, and schemas keep only field names and types.
- The `temperature` arguments, and with them sampling. With temperature 0.7 the real client may answer the same prompt differently on each call. The oracle is a function of the prompt and the sample number, so the model does not capture two identical calls giving different answers.
- Errors raised by the chat clients themselves: connection failures, timeouts, API and rate-limit errors. The oracle always returns text. In the source such an error is not an `OutputParserException`, so `with_retry` would not retry it and it would escape the pipeline.
- ChainUtils.LlmFilterErrors: the filter can fail only with a parser error because the oracle never raises. A client error from `filter_chain.invoke` would also end the LLM filter.
- ChainUtils.SummariesHoldSchema: the summariser fails only with `ValueError` or a parser error because the oracle never raises. A client error inside `batch` would also end it.
- FilterChains.KeepApprovedKeeps: "succeeds exactly when every verdict parses" holds because the oracle never raises. A client error on any review would also end the filter.
- Json.Value: JSON numbers with a fraction or exponent are exact reals, not IEEE doubles. Rounding is not modelled. The pipeline only tests them for truthiness, where `0.0` is false in both.
- `verbose=True` and the logging calls. These are output only.
- The order in which `batch` and `RunnableParallel` run their work. They may run concurrently. When several calls fail, the model raises the first one's error in input order, while the library may raise another. `RunAll` and `BatchInvoke` state only that the error comes from some failing call.
- The library's check of declared input and output keys on `Chain.invoke`. Missing inputs are modelled where the `_call` bodies index them, and raise `KeyError` there.
- Reviews.Review: a review always has string `review` and `recommendationid` fields, and `author` is absent or an object whose `playtime_at_review` is absent or an integer. The Steam review API sends reviews of this shape. The model therefore cannot raise what the source raises on a malformed review:
  - `KeyError('review')` at chains/filter_chains.py:39 and :82, and at chains/summarization_chains.py:58;
  - `KeyError('recommendationid')` at steam_utils.py:125;
  - `AttributeError` for `"author": null` and `TypeError` for `"playtime_at_review": null` at chains/filter_chains.py:33-34.
  As a result `FilterReviews`, `KeepApproved`, `Texts` and `Dedup` never fail.
- Runnables.AttemptLimit: `stop_after_attempt=0` is given one attempt. In the library, 0 sets no stop condition at all, so a parser error is retried without bound and the branch may never finish. The model's retry loop is a terminating function, so `get_aggregation_chain(model, 0)` is modelled only up to its first attempt.
- Text.ParseInt: Python's `int()` also accepts underscores between digits and non-ASCII decimal digits. The model accepts only ASCII digits with an optional sign, inside `str.isspace` whitespace.
- SteamUtils.GameIdFromUrl: its own contract states only the error kind. The value it reads is stated by `GameIdCanonical`, `GameIdWithoutTrailingSlash`, `GameIdWithoutAppMarker` and `GameIdRejectsNonDigits`, one URL shape each.
- SteamUtils.SearchTitle: `\d` and `.` follow Python's `re` only on ASCII digits and non-newline characters. Unicode digits are not treated as `\d`.
- Score weighting or capping, grouping of reviews, and a fallback to unfiltered reviews when few survive. The code shown has none of these, so none is modelled.

## Findings

| source | as written | input that shows it | evidently intended | confidence | as-written member | corrected member |
|---|---|---|---|---|---|---|
| output_parsers.py:42-67 against prompts/aggregation_prompts.py:95 and chains/aggregation_chains.py:38 | The summary schema has five fields, and `challenge` is not among them. The aggregation fan-out still builds a `challenge` branch, which reads `x["challenge"]` from every summary. | A summary record holding exactly the five schema fields, passed to the `challenge` branch: `x["challenge"]` raises `KeyError("challenge")`. The retry wrapper does not catch it, so the whole fan-out fails. | A summary schema with one field per aggregation aspect, `challenge` included. | not executed | ChainUtils.ChallengeBranchFails | ChainUtils.CorrectedPipelineNoKeyError |
| output_parsers.py:18-27 | `_remove_thinking_tokens` builds the tag-free `ret` and then returns `cleaned_text`. The thinking block is therefore never removed. | `" <think>t</think>{...} "` returns `"<think>t</think>{...}"`, tags and all. | Return the stripped text without the span from the open tag through the end of the close tag. | not executed | OutputParsers.ThinkingBlockSurvives | OutputParsers.RemoveThinkingBlockDropsBlock |

For the first row, `AggregationChains.ChallengeAspectMissing` and `ChainUtils.FanOutScoresChallenge` show the same gap at the projection and at the wiring. `AggregationChains.CorrectedSchemaCoversAspects` states the corrected projection. For the second row, `OutputParsers.ThinkingBlockReachesParser` compares what the library parser sees under each cleaner.

The id reader's loss of the last digit when a URL has no trailing slash (`SteamUtils.BareGameIdLosesDigit`) follows directly from `find` returning -1. It is modelled as written and not listed as a finding.
