/** The wiring of the pipeline: choosing a chat model by name, building the
    three stages, and composing them as filter, then summarise, then
    aggregate, with one retried aggregation branch per aspect.

    The chat clients are not modelled: a `Backend` gives, for the client
    built for a model, the model's answers.
 */
module ChainUtils {
  import opened Results
  import opened Json
  import opened Reviews
  import opened Prompts
  import opened OutputParsers
  import opened Runnables
  import opened ModelRegistry
  import opened Sequences
  import opened FilterChains
  import opened SummarizationChains
  import opened AggregationChains

  /** A chat client: its class and the model name it was built for. */
  datatype LanguageModel = LanguageModel(cls: LlmClass, model: string)

  /** What the client built for a model answers. */
  type Backend = LanguageModel -> Llm

  /** `get_language_model(model)`: the client of the model's registered
      class, or `ValueError` for a name that is not registered. */
  function GetLanguageModel(model: string): (r: Result<LanguageModel>)
    ensures r.Ok? <==> model in LlmClassMap
    ensures r.Ok? ==> r.value.cls == LlmClassMap[model] && r.value.model == model
    ensures r.Err? ==> r.error == ValueError("Unrecognized language model: " + model)
  {
    if model !in LlmClassMap then Err(ValueError("Unrecognized language model: " + model))
    else Ok(LanguageModel(LlmClassMap[model], model))
  }

  /** Only registered names yield a client: the empty name and a name
      differing from a registered one are rejected, and the defaults the
      pipeline uses are served by Ollama. */
  lemma LanguageModelLookup()
    ensures GetLanguageModel("") == Err(ValueError("Unrecognized language model: "))
    ensures GetLanguageModel("gpt-4").Err? && GetLanguageModel("gpt-4").error.ValueError?
    ensures GetLanguageModel("gemma3:4b") == Ok(LanguageModel(ChatOllama, "gemma3:4b"))
    ensures GetLanguageModel("qwen2.5:7b") == Ok(LanguageModel(ChatOllama, "qwen2.5:7b"))
    ensures GetLanguageModel("gemma3:12b") == Ok(LanguageModel(ChatOllama, "gemma3:12b"))
    ensures GetLanguageModel("gpt-4.1-mini") == Ok(LanguageModel(ChatOpenAI, "gpt-4.1-mini"))
  {
    RegistryNames();
  }

  /** The model `get_blurb` uses unless told otherwise. */
  const DefaultBlurbModel: string := "qwen2.5:7b"

  /** `get_blurb(review_text, model)`: the model's raw answer to the blurb
      prompt for the review text; the string output parser returns it
      unchanged. */
  function GetBlurb(backend: Backend, reviewText: string, model: string): (r: Result<string>)
    ensures r.Ok? <==> model in LlmClassMap
    ensures r.Ok? ==>
      r.value == backend(LanguageModel(LlmClassMap[model], model))(Prompt([Human(BlurbPrompt)], map["review_text" := reviewText]), 0)
  {
    var lm :- GetLanguageModel(model);
    Ok(backend(lm)(Prompt([Human(BlurbPrompt)], map["review_text" := reviewText]), 0))
  }

  // ---------------------------------------------------------------------
  // The filter stage
  // ---------------------------------------------------------------------

  /** `deterministic_filter | remap_output | remap_input | llm_filter`. */
  datatype FilterPipeline = FilterPipeline(deterministic: DeterministicFilterChain, llmFilter: LlmFilterChain)

  /** `get_filter_chain(model)`. */
  function GetFilterChain(backend: Backend, lib: StructuredOutput, model: string): (r: Result<FilterPipeline>)
    ensures r.Ok? <==> model in LlmClassMap
    ensures r.Err? ==> r.error == GetLanguageModel(model).error
    ensures r.Ok? ==> r.value.deterministic == NewDeterministicFilterChain()
    ensures r.Ok? ==> r.value.llmFilter.llm == backend(GetLanguageModel(model).value)
    ensures r.Ok? ==> r.value.llmFilter.template == FluffFilterPrompt
    ensures r.Ok? ==> r.value.llmFilter.parser.schemas == FilterChainSchemas && r.value.llmFilter.parser.lib == lib
  {
    var lm :- GetLanguageModel(model);
    Ok(FilterPipeline(NewDeterministicFilterChain(), NewLlmFilterChain(backend(lm), FilterChainParser(lib))))
  }

  /** A `RunnableLambda` that moves the value under `source` to a fresh
      dictionary under `target`, dropping everything else. */
  function Rename(x: Context, source: string, target: string): (r: Result<Context>)
    ensures source !in x ==> r == Err(KeyError(source))
    ensures source in x ==> r.Ok? && r.value.Keys == {target} && r.value[target] == x[source]
  {
    if source !in x then Err(KeyError(source)) else Ok(map[target := x[source]])
  }

  /** The filter stage invoked on a dictionary. */
  function RunFilterChain(p: FilterPipeline, inputs: Context): Result<Context> {
    var afterRules :- InvokeChain(d => DeterministicCall(p.deterministic, d), inputs);
    var remapped :- Rename(afterRules, "filtered_reviews", "remapped_reviews");
    var llmInputs :- Rename(remapped, "remapped_reviews", "reviews");
    InvokeChain(d => LlmFilterCallOn(p.llmFilter, d), llmInputs)
  }

  /** After the rules stage and the two renames, the LLM stage is invoked
      on the reviews the rules let through, under `reviews` alone. */
  lemma FilterChainReachesLlm(p: FilterPipeline, inputs: Context)
    requires GetReviews(inputs, "reviews").Ok?
    ensures RunFilterChain(p, inputs)
         == InvokeChain(d => LlmFilterCallOn(p.llmFilter, d), map["reviews" := ReviewList(FilterReviews(p.deterministic, inputs["reviews"].reviews))])
  {
  }

  /** The LLM stage receives exactly the reviews the rules let through,
      under `reviews`, and nothing else; the stage's result holds those
      reviews and the ones the model kept. A missing `reviews` key is a
      `KeyError`. */
  lemma FilterChainFeedsLlmStage(p: FilterPipeline, inputs: Context)
    ensures "reviews" !in inputs ==> RunFilterChain(p, inputs) == Err(KeyError("reviews"))
    ensures GetReviews(inputs, "reviews").Ok? ==>
      var passed := FilterReviews(p.deterministic, inputs["reviews"].reviews);
      match RunLlmFilter(p.llmFilter, passed)
      case Ok(kept) => RunFilterChain(p, inputs) == Ok(map["reviews" := ReviewList(passed), "filtered_reviews" := ReviewList(kept)])
      case Err(e) => RunFilterChain(p, inputs) == Err(e)
  {
    if GetReviews(inputs, "reviews").Ok? {
      var passed := FilterReviews(p.deterministic, inputs["reviews"].reviews);
      var llmInputs := map["reviews" := ReviewList(passed)];
      FilterChainReachesLlm(p, inputs);
      assert llmInputs["reviews"].reviews == passed;
      match RunLlmFilter(p.llmFilter, passed)
      case Ok(kept) =>
        assert LlmFilterCallOn(p.llmFilter, llmInputs) == Ok(map["filtered_reviews" := ReviewList(kept)]);
        assert llmInputs + map["filtered_reviews" := ReviewList(kept)]
            == map["reviews" := ReviewList(passed), "filtered_reviews" := ReviewList(kept)];
      case Err(e) =>
        assert LlmFilterCallOn(p.llmFilter, llmInputs) == Err(e);
    }
  }

  /** End to end, the filter stage keeps exactly the reviews that pass the
      rules and that the model then approves, in their original order. */
  lemma FilterChainKeeps(p: FilterPipeline, reviews: seq<Review>)
    ensures var r := RunFilterChain(p, map["reviews" := ReviewList(reviews)]);
      && (r.Ok? <==> forall i :: 0 <= i < |FilterReviews(p.deterministic, reviews)| ==>
                       Judge(p.llmFilter, FilterReviews(p.deterministic, reviews)[i]).Ok?)
      && (r.Ok? ==>
            r.value["filtered_reviews"] == ReviewList(Filter(Filter(reviews, PassesBy(p.deterministic)), KeptBy(JudgeBy(p.llmFilter)))))
  {
    var inputs := map["reviews" := ReviewList(reviews)];
    var passed := FilterReviews(p.deterministic, reviews);
    FilterChainFeedsLlmStage(p, inputs);
    KeepApprovedKeeps(JudgeBy(p.llmFilter), passed);
    forall i | 0 <= i < |passed|
      ensures JudgeBy(p.llmFilter)(passed[i]) == Judge(p.llmFilter, passed[i])
    {
      JudgeByApplies(p.llmFilter, passed[i]);
    }
  }

  // ---------------------------------------------------------------------
  // The summarisation stage
  // ---------------------------------------------------------------------

  /** `get_summarization_chain(model, batch_size)` built with the given
      summary schema; the source uses `JUICE_SUMMARIZATION_CHAIN_SCHEMAS`. */
  function GetSummarizationChainWith(backend: Backend, lib: StructuredOutput, schemas: seq<ResponseSchema>,
                                     model: string, batchSize: int): (r: Result<SummarizationChain>)
    ensures r.Ok? <==> model in LlmClassMap
    ensures r.Err? ==> r.error == GetLanguageModel(model).error
    ensures r.Ok? ==> r.value.llm == backend(GetLanguageModel(model).value)
    ensures r.Ok? ==> r.value.parser == FromResponseSchemas(lib, schemas)
    ensures r.Ok? ==> r.value.template == JuiceSummarizationPrompt
    ensures r.Ok? ==> r.value.batchSize == batchSize && !r.value.enableThinking
  {
    var lm :- GetLanguageModel(model);
    Ok(SummarizationChain(backend(lm), FromResponseSchemas(lib, schemas), JuiceSummarizationPrompt, batchSize, false))
  }

  /** `get_summarization_chain(model, batch_size)`. */
  function GetSummarizationChain(backend: Backend, lib: StructuredOutput, model: string, batchSize: int): (r: Result<SummarizationChain>)
    ensures r.Ok? <==> model in LlmClassMap
    ensures r.Err? ==> r.error == GetLanguageModel(model).error
    ensures r.Ok? ==> r.value.llm == backend(GetLanguageModel(model).value)
    ensures r.Ok? ==> r.value.parser == JuiceSummarizationChainParser(lib)
    ensures r.Ok? ==> r.value.parser.schemas == JuiceSummarizationChainSchemas
    ensures r.Ok? ==> r.value.template == JuiceSummarizationPrompt
    ensures r.Ok? ==> r.value.batchSize == batchSize && !r.value.enableThinking
  {
    GetSummarizationChainWith(backend, lib, JuiceSummarizationChainSchemas, model, batchSize)
  }

  // ---------------------------------------------------------------------
  // The aggregation stage
  // ---------------------------------------------------------------------

  /** The number of attempts `get_aggregation_chain` allows each branch
      unless told otherwise. */
  const DefaultNumRetries: int := 2

  /** One branch of the fan-out: the aspect it scores and its chain. */
  datatype Branch = Branch(aspect: string, chain: AggregationChain)

  /** `RunnableParallel(branches=aggregation_branches)`, with the attempt
      limit every branch's retry wrapper was given. */
  datatype AggregationFanOut = AggregationFanOut(branches: seq<Branch>, numRetries: int)

  /** `get_aggregation_chain(model, num_retries)`: one branch per key of
      the aggregation prompts, in their order, each with its own aspect's
      template. */
  function GetAggregationChain(backend: Backend, lib: StructuredOutput, model: string, numRetries: int): (r: Result<AggregationFanOut>)
    ensures r.Ok? <==> model in LlmClassMap
    ensures r.Err? ==> r.error == GetLanguageModel(model).error
    ensures r.Ok? ==> |r.value.branches| == |AggregationAspects| && r.value.numRetries == numRetries
    ensures r.Ok? ==> forall i :: 0 <= i < |AggregationAspects| ==>
      && r.value.branches[i].aspect == AggregationAspects[i]
      && AggregationPrompt(AggregationAspects[i]) == Ok(r.value.branches[i].chain.template)
      && r.value.branches[i].chain.parser == JuiceAggregationChainParser(lib)
      && r.value.branches[i].chain.llm == backend(GetLanguageModel(model).value)
  {
    var lm :- GetLanguageModel(model);
    var parser := JuiceAggregationChainParser(lib);
    Ok(AggregationFanOut(MapSeq(AggregationAspects, a => Branch(a, AggregationChain(backend(lm), parser, JuiceAggregationPrompt(a)))), numRetries))
  }

  /** The branch's input remap: `batch_summaries` passed on unchanged and
      `summary_aspect` bound to the branch's own aspect. */
  function BranchInput(aspect: string, x: Context): (r: Result<Context>)
    ensures "batch_summaries" !in x ==> r == Err(KeyError("batch_summaries"))
    ensures "batch_summaries" in x ==> r.Ok? && r.value.Keys == {"batch_summaries", "summary_aspect"}
    ensures "batch_summaries" in x ==> r.value["batch_summaries"] == x["batch_summaries"] && r.value["summary_aspect"] == TextSlot(aspect)
  {
    if "batch_summaries" !in x then Err(KeyError("batch_summaries"))
    else Ok(map["batch_summaries" := x["batch_summaries"], "summary_aspect" := TextSlot(aspect)])
  }

  /** The `k`-th try of the branch's chain: the chain invoked on the
      `k`-th model sample. */
  function TryBranch(c: AggregationChain, input: Context, k: nat): Result<Context> {
    InvokeChain(d => AggregationCall(c, d, k), input)
  }

  /** The tries of the branch's chain, by number. */
  function BranchAttempt(c: AggregationChain, input: Context): nat -> Result<Context> {
    (k: nat) => TryBranch(c, input, k)
  }

  /** One branch: `remap_input | chain.with_retry(stop_after_attempt=n,
      retry_if_exception_type=[OutputParserException])`. */
  function RunBranch(b: Branch, numRetries: int, x: Context): Result<Context> {
    var input :- BranchInput(b.aspect, x);
    WithRetry(BranchAttempt(b.chain, input), numRetries)
  }

  /** A branch whose input holds `batch_summaries` is the retry loop over
      its chain's tries on the remapped input. */
  lemma RunBranchRetries(b: Branch, numRetries: int, x: Context)
    requires "batch_summaries" in x
    ensures RunBranch(b, numRetries, x)
         == WithRetry(BranchAttempt(b.chain, map["batch_summaries" := x["batch_summaries"], "summary_aspect" := TextSlot(b.aspect)]), numRetries)
  {
  }

  /** The branch's outcome is that of its last try, every try it made before
      that raised a parser error, it made at most the allowed number of
      tries, and each try saw the branch's own aspect. */
  lemma BranchRetries(b: Branch, numRetries: int, x: Context)
    requires "batch_summaries" in x
    ensures var input := map["batch_summaries" := x["batch_summaries"], "summary_aspect" := TextSlot(b.aspect)];
      var n := AttemptsFrom(BranchAttempt(b.chain, input), 0, AttemptLimit(numRetries));
      && 1 <= n <= AttemptLimit(numRetries)
      && RunBranch(b, numRetries, x) == TryBranch(b.chain, input, n - 1)
      && (forall k: nat :: k < n - 1 ==> Retryable(TryBranch(b.chain, input, k)))
  {
    var input := map["batch_summaries" := x["batch_summaries"], "summary_aspect" := TextSlot(b.aspect)];
    var attempt := BranchAttempt(b.chain, input);
    assert RunBranch(b, numRetries, x) == WithRetry(attempt, numRetries) by {
      RunBranchRetries(b, numRetries, x);
    }
    WithRetryOutcome(attempt, numRetries);
    var n := AttemptsFrom(attempt, 0, AttemptLimit(numRetries));
    assert attempt(n - 1) == TryBranch(b.chain, input, n - 1);
    forall k: nat | k < n - 1
      ensures Retryable(TryBranch(b.chain, input, k))
    {
      assert attempt(k) == TryBranch(b.chain, input, k);
    }
  }

  /** The branches run in order under `run`; the first failure is raised,
      and otherwise each branch's output is kept under its aspect. */
  function RunAll(branches: seq<Branch>, run: Branch -> Result<Context>): (r: Result<map<string, Slot>>)
    ensures r.Ok? <==> forall i :: 0 <= i < |branches| ==> run(branches[i]).Ok?
    ensures r.Ok? ==> r.value.Keys == set i | 0 <= i < |branches| :: branches[i].aspect
    ensures r.Err? ==> exists i :: 0 <= i < |branches| && run(branches[i]) == Err(r.error)
  {
    if |branches| == 0 then Ok(map[])
    else
      var out :- run(branches[0]);
      var rest :- RunAll(branches[1..], run);
      assert forall i :: 1 <= i < |branches| ==> branches[i] == branches[1..][i - 1];
      Ok(rest[branches[0].aspect := Nested(out)])
  }

  /** With distinct aspects, each branch's output sits under its own
      aspect. */
  lemma {:induction false} RunAllOutputs(branches: seq<Branch>, run: Branch -> Result<Context>)
    requires forall i, j :: 0 <= i < j < |branches| ==> branches[i].aspect != branches[j].aspect
    requires RunAll(branches, run).Ok?
    ensures forall i :: 0 <= i < |branches| ==> RunAll(branches, run).value[branches[i].aspect] == Nested(run(branches[i]).value)
  {
    if |branches| > 0 {
      RunAllOutputs(branches[1..], run);
      forall i | 1 <= i < |branches|
        ensures branches[i].aspect != branches[0].aspect && branches[i] == branches[1..][i - 1]
      {
      }
    }
  }

  /** Every branch of the fan-out, run on the same input dictionary. */
  function BranchesOn(numRetries: int, x: Context): Branch -> Result<Context> {
    b => RunBranch(b, numRetries, x)
  }

  /** The fan-out invoked on a dictionary: the outputs of all branches,
      nested under `branches`. */
  function RunAggregationChain(f: AggregationFanOut, x: Context): (r: Result<Context>)
    ensures r.Ok? ==> r.value.Keys == {"branches"} && r.value["branches"].Nested?
    ensures r.Ok? <==> RunAll(f.branches, BranchesOn(f.numRetries, x)).Ok?
    ensures r.Ok? ==> r.value["branches"].fields == RunAll(f.branches, BranchesOn(f.numRetries, x)).value
    ensures r.Err? ==> r.error == RunAll(f.branches, BranchesOn(f.numRetries, x)).error
  {
    var outs :- RunAll(f.branches, BranchesOn(f.numRetries, x));
    Ok(map["branches" := Nested(outs)])
  }

  // ---------------------------------------------------------------------
  // The complete chain
  // ---------------------------------------------------------------------

  /** `filter_chain | summarization_chain | aggregation_chain`. */
  datatype CompleteChain = CompleteChain(filter: FilterPipeline, summarization: SummarizationChain, aggregation: AggregationFanOut)

  /** `make_complete_chain(...)` with the given summary schema: the three
      stages are built in order, so the first unregistered model name is
      the one reported. */
  function MakeCompleteChainWith(backend: Backend, lib: StructuredOutput, summarySchemas: seq<ResponseSchema>,
                                 filterModel: string, summarizationModel: string, aggregationModel: string,
                                 batchSize: int): (r: Result<CompleteChain>)
    ensures r.Ok? <==> filterModel in LlmClassMap && summarizationModel in LlmClassMap && aggregationModel in LlmClassMap
    ensures filterModel !in LlmClassMap ==> r == Err(GetLanguageModel(filterModel).error)
    ensures filterModel in LlmClassMap && summarizationModel !in LlmClassMap ==> r == Err(GetLanguageModel(summarizationModel).error)
    ensures filterModel in LlmClassMap && summarizationModel in LlmClassMap && aggregationModel !in LlmClassMap ==>
      r == Err(GetLanguageModel(aggregationModel).error)
    ensures r.Ok? ==> r.value.summarization.batchSize == batchSize && r.value.summarization.parser.schemas == summarySchemas
    ensures r.Ok? ==> r.value.aggregation.numRetries == DefaultNumRetries
  {
    var filter :- GetFilterChain(backend, lib, filterModel);
    var summarization :- GetSummarizationChainWith(backend, lib, summarySchemas, summarizationModel, batchSize);
    var aggregation :- GetAggregationChain(backend, lib, aggregationModel, DefaultNumRetries);
    Ok(CompleteChain(filter, summarization, aggregation))
  }

  /** `make_complete_chain(filter_model, summarization_model,
      aggregation_model, summarization_batch_size)`. */
  function MakeCompleteChain(backend: Backend, lib: StructuredOutput, filterModel: string, summarizationModel: string,
                             aggregationModel: string, batchSize: int): (r: Result<CompleteChain>)
    ensures r.Ok? <==> filterModel in LlmClassMap && summarizationModel in LlmClassMap && aggregationModel in LlmClassMap
    ensures filterModel !in LlmClassMap ==> r == Err(GetLanguageModel(filterModel).error)
    ensures filterModel in LlmClassMap && summarizationModel !in LlmClassMap ==> r == Err(GetLanguageModel(summarizationModel).error)
    ensures filterModel in LlmClassMap && summarizationModel in LlmClassMap && aggregationModel !in LlmClassMap ==>
      r == Err(GetLanguageModel(aggregationModel).error)
    ensures r.Ok? ==> r.value.summarization.parser == JuiceSummarizationChainParser(lib)
    ensures r.Ok? ==> r.value.summarization.parser.schemas == JuiceSummarizationChainSchemas
    ensures r.Ok? ==> r.value.summarization.batchSize == batchSize
    ensures r.Ok? ==> r.value.aggregation.numRetries == DefaultNumRetries
  {
    MakeCompleteChainWith(backend, lib, JuiceSummarizationChainSchemas, filterModel, summarizationModel, aggregationModel, batchSize)
  }

  /** The default models and window size of `make_complete_chain`. */
  const DefaultFilterModel: string := "gemma3:4b"
  const DefaultSummarizationModel: string := "qwen2.5:7b"
  const DefaultAggregationModel: string := "gemma3:12b"
  const DefaultSummarizationBatchSize: int := 12

  /** `make_complete_chain()`. */
  function MakeDefaultCompleteChain(backend: Backend, lib: StructuredOutput): Result<CompleteChain> {
    MakeCompleteChain(backend, lib, DefaultFilterModel, DefaultSummarizationModel, DefaultAggregationModel, DefaultSummarizationBatchSize)
  }

  /** The defaults are all registered, so the default chain is always
      built: its filter keeps the default thresholds, its windows hold 12
      reviews, and its six branches each get two attempts. */
  lemma DefaultCompleteChainBuilt(backend: Backend, lib: StructuredOutput)
    ensures MakeDefaultCompleteChain(backend, lib).Ok?
    ensures var c := MakeDefaultCompleteChain(backend, lib).value;
      && c.filter.deterministic == DeterministicFilterChain(5, 300)
      && c.summarization.batchSize == 12
      && |c.aggregation.branches| == 6 && c.aggregation.numRetries == 2
      && c.filter.llmFilter.llm == backend(LanguageModel(ChatOllama, "gemma3:4b"))
      && c.summarization.llm == backend(LanguageModel(ChatOllama, "qwen2.5:7b"))
  {
    LanguageModelLookup();
  }

  /** The summariser's output laid over the filter's output. */
  lemma StageOutputsAdded(reviews: Slot, filtered: Slot, summaries: Slot)
    ensures map["reviews" := reviews, "filtered_reviews" := filtered] + map["batch_summaries" := summaries]
         == map["reviews" := reviews, "filtered_reviews" := filtered, "batch_summaries" := summaries]
  {
  }

  /** The complete chain invoked on a dictionary. */
  function RunCompleteChain(c: CompleteChain, inputs: Context): Result<Context> {
    var filtered :- RunFilterChain(c.filter, inputs);
    var summarized :- InvokeChain(d => SummarizationCall(c.summarization, d), filtered);
    RunAggregationChain(c.aggregation, summarized)
  }

  /** The stages run in the order filter, summarise, aggregate: the
      summariser sees the reviews both filters kept, and every aggregation
      branch sees the summariser's windows' summaries; a failure in a stage
      ends the run with that stage's error. */
  lemma CompleteChainStages(c: CompleteChain, reviews: seq<Review>)
    ensures var r := RunCompleteChain(c, map["reviews" := ReviewList(reviews)]);
      var passed := FilterReviews(c.filter.deterministic, reviews);
      match RunLlmFilter(c.filter.llmFilter, passed)
      case Err(e) => r == Err(e)
      case Ok(kept) =>
        match Summarize(c.summarization, kept)
        case Err(e) => r == Err(e)
        case Ok(summaries) =>
          r == RunAggregationChain(c.aggregation,
                 map["reviews" := ReviewList(passed), "filtered_reviews" := ReviewList(kept), "batch_summaries" := RecordList(summaries)])
  {
    var inputs := map["reviews" := ReviewList(reviews)];
    var passed := FilterReviews(c.filter.deterministic, reviews);
    FilterChainFeedsLlmStage(c.filter, inputs);
    if RunLlmFilter(c.filter.llmFilter, passed).Ok? {
      var kept := RunLlmFilter(c.filter.llmFilter, passed).value;
      var filtered := map["reviews" := ReviewList(passed), "filtered_reviews" := ReviewList(kept)];
      assert RunFilterChain(c.filter, inputs) == Ok(filtered);
      if Summarize(c.summarization, kept).Ok? {
        var summaries := Summarize(c.summarization, kept).value;
        assert SummarizationCall(c.summarization, filtered) == Ok(map["batch_summaries" := RecordList(summaries)]);
        StageOutputsAdded(ReviewList(passed), ReviewList(kept), RecordList(summaries));
      }
    }
  }

  // ---------------------------------------------------------------------
  // The `challenge` branch and the summary schema
  // ---------------------------------------------------------------------

  /** A branch handed a summary that lacks its aspect raises `KeyError`
      for the aspect on its first try, and the retry wrapper passes the
      error on without trying again. */
  lemma BranchMissingAspect(b: Branch, numRetries: int, x: Context)
    requires GetRecords(x, "batch_summaries").Ok?
    requires exists i :: 0 <= i < |x["batch_summaries"].records| && b.aspect !in x["batch_summaries"].records[i]
    ensures RunBranch(b, numRetries, x) == Err(KeyError(b.aspect))
  {
    var input := map["batch_summaries" := x["batch_summaries"], "summary_aspect" := TextSlot(b.aspect)];
    RunBranchRetries(b, numRetries, x);
    WithRetryStopsOnOtherErrors(BranchAttempt(b.chain, input), numRetries);
  }

  /** The last branch of every fan-out the pipeline builds scores
      `challenge`. */
  lemma FanOutScoresChallenge(backend: Backend, lib: StructuredOutput, model: string, numRetries: int, f: AggregationFanOut)
    requires GetAggregationChain(backend, lib, model, numRetries) == Ok(f)
    ensures |f.branches| == 6 && f.branches[5].aspect == "challenge"
  {
    SummarizationSchemaNames();
  }

  /** As written, a `challenge` branch handed a summary holding exactly the
      summarisation schema's fields raises `KeyError`, whatever the model
      answers. */
  lemma ChallengeBranchFails(b: Branch, numRetries: int)
    requires b.aspect == "challenge"
    ensures RunBranch(b, numRetries, map["batch_summaries" := RecordList([SchemaSummary(JuiceSummarizationChainSchemas)])])
         == Err(KeyError("challenge"))
  {
    SummarizationSchemaNames();
    var s := SchemaSummary(JuiceSummarizationChainSchemas);
    assert "challenge" !in s;
    var x := map["batch_summaries" := RecordList([s])];
    assert x["batch_summaries"].records[0] == s;
    BranchMissingAspect(b, numRetries, x);
  }

  /** The scoring step on summaries that all hold the aspect fails only
      with a `TypeError` or a parser error. */
  lemma AggregateNoKeyError(c: AggregationChain, summaries: seq<Record>, aspect: string, k: nat)
    requires WellBehaved(c.parser.lib)
    requires forall i :: 0 <= i < |summaries| ==> aspect in summaries[i]
    ensures Aggregate(c, summaries, aspect, k).Err? ==>
      Aggregate(c, summaries, aspect, k).error.TypeError? || Aggregate(c, summaries, aspect, k).error.OutputParserError?
  {
    if SummaryTexts(summaries, aspect).Ok? {
      ParseHoldsSchema(c.parser, c.llm(ScorePrompt(c, SummaryTexts(summaries, aspect).value), k));
    }
  }

  /** One try of a branch on summaries that all hold its aspect never
      raises `KeyError`. */
  lemma TryBranchNoKeyError(c: AggregationChain, aspect: string, summaries: seq<Record>, k: nat)
    requires WellBehaved(c.parser.lib)
    requires forall i :: 0 <= i < |summaries| ==> aspect in summaries[i]
    ensures var input := map["batch_summaries" := RecordList(summaries), "summary_aspect" := TextSlot(aspect)];
      TryBranch(c, input, k).Err? ==> !TryBranch(c, input, k).error.KeyError?
  {
    var input := map["batch_summaries" := RecordList(summaries), "summary_aspect" := TextSlot(aspect)];
    AggregateNoKeyError(c, summaries, aspect, k);
    assert GetText(input, "summary_aspect") == Ok(aspect);
    assert GetRecords(input, "batch_summaries") == Ok(summaries);
    assert AggregationCall(c, input, k).Err? ==> AggregationCall(c, input, k).error == Aggregate(c, summaries, aspect, k).error;
  }

  /** A branch on summaries that all hold its aspect never raises
      `KeyError`. */
  lemma RunBranchNoKeyError(b: Branch, numRetries: int, x: Context, summaries: seq<Record>)
    requires "batch_summaries" in x && x["batch_summaries"] == RecordList(summaries)
    requires WellBehaved(b.chain.parser.lib)
    requires forall i :: 0 <= i < |summaries| ==> b.aspect in summaries[i]
    ensures RunBranch(b, numRetries, x).Err? ==> !RunBranch(b, numRetries, x).error.KeyError?
  {
    BranchRetries(b, numRetries, x);
    var input := map["batch_summaries" := x["batch_summaries"], "summary_aspect" := TextSlot(b.aspect)];
    var n := AttemptsFrom(BranchAttempt(b.chain, input), 0, AttemptLimit(numRetries));
    TryBranchNoKeyError(b.chain, b.aspect, summaries, n - 1);
  }

  /** A fan-out whose every branch's aspect is in every summary never
      raises `KeyError`. */
  lemma AggregationNoKeyError(f: AggregationFanOut, x: Context, summaries: seq<Record>)
    requires "batch_summaries" in x && x["batch_summaries"] == RecordList(summaries)
    requires forall i :: 0 <= i < |f.branches| ==> WellBehaved(f.branches[i].chain.parser.lib)
    requires forall i, j :: 0 <= i < |f.branches| && 0 <= j < |summaries| ==> f.branches[i].aspect in summaries[j]
    ensures RunAggregationChain(f, x).Err? ==> !RunAggregationChain(f, x).error.KeyError?
  {
    if RunAggregationChain(f, x).Err? {
      var run := BranchesOn(f.numRetries, x);
      var e := RunAll(f.branches, run).error;
      var i :| 0 <= i < |f.branches| && run(f.branches[i]) == Err(e);
      RunBranchNoKeyError(f.branches[i], f.numRetries, x, summaries);
    }
  }

  /** The LLM filter fails only with a parser error. */
  lemma LlmFilterErrors(f: LlmFilterChain, reviews: seq<Review>)
    requires WellBehaved(f.parser.lib)
    ensures RunLlmFilter(f, reviews).Err? ==> RunLlmFilter(f, reviews).error.OutputParserError?
  {
    if RunLlmFilter(f, reviews).Err? {
      KeepApprovedFirstFailure(JudgeBy(f), reviews);
      var i :| 0 <= i < |reviews| && JudgeBy(f)(reviews[i]) == Err(RunLlmFilter(f, reviews).error);
      JudgeByApplies(f, reviews[i]);
      ParseHoldsSchema(f.parser, f.llm(ReviewPrompt(f, reviews[i]), 0));
    }
  }

  /** Every summary holds every field of the summariser's schema, and the
      summariser fails only on a zero window size or a parser error. */
  lemma SummariesHoldSchema(c: SummarizationChain, reviews: seq<Review>)
    requires WellBehaved(c.parser.lib)
    ensures Summarize(c, reviews).Err? ==> Summarize(c, reviews).error.ValueError? || Summarize(c, reviews).error.OutputParserError?
    ensures Summarize(c, reviews).Ok? ==> forall k, j :: 0 <= k < |Summarize(c, reviews).value| && 0 <= j < |c.parser.schemas| ==>
      c.parser.schemas[j].name in Summarize(c, reviews).value[k]
  {
    if c.batchSize != 0 {
      SummarizeOnePerWindow(c, reviews);
      var w := Batches(reviews, c.batchSize).value;
      if Summarize(c, reviews).Ok? {
        forall k | 0 <= k < |Summarize(c, reviews).value|
          ensures forall j :: 0 <= j < |c.parser.schemas| ==> c.parser.schemas[j].name in Summarize(c, reviews).value[k]
        {
          ParseHoldsSchema(c.parser, c.llm(Prompt(Messages(c), WindowVars(c, w[k])), 0));
        }
      } else {
        var k :| 0 <= k < |w| && Invoke(c.llm, c.parser, Messages(c), WindowVars(c, w[k]), 0) == Err(Summarize(c, reviews).error);
        ParseHoldsSchema(c.parser, c.llm(Prompt(Messages(c), WindowVars(c, w[k])), 0));
      }
    }
  }

  /** Every summary holds every field of the schema. */
  predicate HoldFields(summaries: seq<Record>, schemas: seq<ResponseSchema>) {
    forall k, j :: 0 <= k < |summaries| && 0 <= j < |schemas| ==> schemas[j].name in summaries[k]
  }

  /** The summary schema declares a field named after each branch's
      aspect. */
  predicate DeclaresAspects(schemas: seq<ResponseSchema>, branches: seq<Branch>) {
    forall i :: 0 <= i < |branches| ==> exists j :: 0 <= j < |schemas| && schemas[j].name == branches[i].aspect
  }

  /** Summaries that hold every field of the summariser's schema hold
      every branch's aspect when the schema declares each of them. */
  lemma SummariesHoldAspects(c: SummarizationChain, f: AggregationFanOut, summaries: seq<Record>)
    requires HoldFields(summaries, c.parser.schemas)
    requires DeclaresAspects(c.parser.schemas, f.branches)
    ensures forall i, k :: 0 <= i < |f.branches| && 0 <= k < |summaries| ==> f.branches[i].aspect in summaries[k]
  {
    forall i, k | 0 <= i < |f.branches| && 0 <= k < |summaries|
      ensures f.branches[i].aspect in summaries[k]
    {
      assert exists j :: 0 <= j < |c.parser.schemas| && c.parser.schemas[j].name == f.branches[i].aspect;
      var j :| 0 <= j < |c.parser.schemas| && c.parser.schemas[j].name == f.branches[i].aspect;
      assert c.parser.schemas[j].name in summaries[k];
    }
  }

  /** The stages after the filters: summarising the kept reviews and
      scoring the summaries raise no `KeyError` when the summary schema
      declares every branch's aspect. */
  lemma SummarizeAggregateNoKeyError(c: CompleteChain, passed: seq<Review>, kept: seq<Review>)
    requires WellBehaved(c.summarization.parser.lib)
    requires forall i :: 0 <= i < |c.aggregation.branches| ==> WellBehaved(c.aggregation.branches[i].chain.parser.lib)
    requires DeclaresAspects(c.summarization.parser.schemas, c.aggregation.branches)
    ensures Summarize(c.summarization, kept).Err? ==> !Summarize(c.summarization, kept).error.KeyError?
    ensures Summarize(c.summarization, kept).Ok? ==>
      var x := map["reviews" := ReviewList(passed), "filtered_reviews" := ReviewList(kept),
                   "batch_summaries" := RecordList(Summarize(c.summarization, kept).value)];
      RunAggregationChain(c.aggregation, x).Err? ==> !RunAggregationChain(c.aggregation, x).error.KeyError?
  {
    if Summarize(c.summarization, kept).Ok? {
      var summaries := Summarize(c.summarization, kept).value;
      var x := map["reviews" := ReviewList(passed), "filtered_reviews" := ReviewList(kept), "batch_summaries" := RecordList(summaries)];
      assert HoldFields(summaries, c.summarization.parser.schemas) by {
        SummariesHoldSchema(c.summarization, kept);
      }
      SummariesHoldAspects(c.summarization, c.aggregation, summaries);
      AggregationNoKeyError(c.aggregation, x, summaries);
    } else {
      SummariesHoldSchema(c.summarization, kept);
    }
  }

  /** A complete chain whose parsers are all well behaved, and whose
      summary schema declares every branch's aspect, never raises
      `KeyError` on a review list. */
  lemma PipelineNoKeyError(c: CompleteChain, reviews: seq<Review>)
    requires WellBehaved(c.filter.llmFilter.parser.lib) && WellBehaved(c.summarization.parser.lib)
    requires forall i :: 0 <= i < |c.aggregation.branches| ==> WellBehaved(c.aggregation.branches[i].chain.parser.lib)
    requires DeclaresAspects(c.summarization.parser.schemas, c.aggregation.branches)
    ensures RunCompleteChain(c, map["reviews" := ReviewList(reviews)]).Err? ==>
      !RunCompleteChain(c, map["reviews" := ReviewList(reviews)]).error.KeyError?
  {
    var r := RunCompleteChain(c, map["reviews" := ReviewList(reviews)]);
    var passed := FilterReviews(c.filter.deterministic, reviews);
    var filtered := RunLlmFilter(c.filter.llmFilter, passed);
    if filtered.Err? {
      assert r == Err(filtered.error) by { CompleteChainStages(c, reviews); }
      LlmFilterErrors(c.filter.llmFilter, passed);
    } else {
      var kept := filtered.value;
      var summarized := Summarize(c.summarization, kept);
      SummarizeAggregateNoKeyError(c, passed, kept);
      if summarized.Err? {
        assert r == Err(summarized.error) by { CompleteChainStages(c, reviews); }
      } else {
        var x := map["reviews" := ReviewList(passed), "filtered_reviews" := ReviewList(kept),
                     "batch_summaries" := RecordList(summarized.value)];
        assert r == RunAggregationChain(c.aggregation, x) by { CompleteChainStages(c, reviews); }
      }
    }
  }

  /** A chain built by `make_complete_chain` uses the one library parser
      throughout, the given summary schema, and one branch per aggregation
      aspect in order. */
  lemma BuiltChainShape(backend: Backend, lib: StructuredOutput, summarySchemas: seq<ResponseSchema>, filterModel: string,
                        summarizationModel: string, aggregationModel: string, batchSize: int)
    requires MakeCompleteChainWith(backend, lib, summarySchemas, filterModel, summarizationModel, aggregationModel, batchSize).Ok?
    ensures var c := MakeCompleteChainWith(backend, lib, summarySchemas, filterModel, summarizationModel, aggregationModel, batchSize).value;
      && c.filter.llmFilter.parser.lib == lib
      && c.summarization.parser == FromResponseSchemas(lib, summarySchemas)
      && |c.aggregation.branches| == |AggregationAspects|
      && forall i :: 0 <= i < |AggregationAspects| ==>
           c.aggregation.branches[i].aspect == AggregationAspects[i] && c.aggregation.branches[i].chain.parser.lib == lib
  {
  }

  /** With the corrected summary schema and a well-behaved library parser,
      the complete chain never raises `KeyError` on a review list: every
      summary holds every aggregation aspect. */
  lemma CorrectedPipelineNoKeyError(backend: Backend, lib: StructuredOutput, filterModel: string, summarizationModel: string,
                                    aggregationModel: string, batchSize: int, c: CompleteChain, reviews: seq<Review>)
    requires WellBehaved(lib)
    requires MakeCompleteChainWith(backend, lib, CorrectedSummarizationSchemas, filterModel, summarizationModel, aggregationModel, batchSize) == Ok(c)
    ensures RunCompleteChain(c, map["reviews" := ReviewList(reviews)]).Err? ==>
      !RunCompleteChain(c, map["reviews" := ReviewList(reviews)]).error.KeyError?
  {
    BuiltChainShape(backend, lib, CorrectedSummarizationSchemas, filterModel, summarizationModel, aggregationModel, batchSize);
    CorrectedSchemaNames();
    var schemas := c.summarization.parser.schemas;
    assert DeclaresAspects(schemas, c.aggregation.branches) by {
      forall i | 0 <= i < |c.aggregation.branches|
        ensures exists j :: 0 <= j < |schemas| && schemas[j].name == c.aggregation.branches[i].aspect
      {
        assert schemas[i].name == c.aggregation.branches[i].aspect;
      }
    }
    PipelineNoKeyError(c, reviews);
  }
}
