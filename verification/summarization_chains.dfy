/** `SummarizationChain`: the filtered reviews are cut into fixed-size
    windows, each window's texts are joined into one prompt, the model
    summarises every window, and there must be one summary per window.
 */
module SummarizationChains {
  import opened Results
  import opened Json
  import opened Text
  import opened Sequences
  import opened Reviews
  import opened Prompts
  import opened OutputParsers
  import opened Runnables

  const DefaultBatchSize: int := 12

  const SummarizationInputKeys: seq<string> := ["filtered_reviews"]
  const SummarizationOutputKeys: seq<string> := ["batch_summaries"]

  /** The separator between review texts in a window. */
  const ReviewSeparator: string := "\n\n"

  datatype SummarizationChain = SummarizationChain(
    llm: Llm,
    parser: ThinkingParser,
    template: Template,
    batchSize: int,
    enableThinking: bool)

  /** `SummarizationChain(llm, output_parser)` with its defaults: the juice
      summarisation prompt, windows of 12 reviews, thinking disabled. */
  function NewSummarizationChain(llm: Llm, parser: ThinkingParser): (c: SummarizationChain)
    ensures c.template == JuiceSummarizationPrompt && c.parser == parser
    ensures c.batchSize == 12 && !c.enableThinking
  {
    SummarizationChain(llm, parser, JuiceSummarizationPrompt, DefaultBatchSize, false)
  }

  /** The system message: empty when thinking is enabled, the `/no_think`
      switch otherwise. */
  function SystemMessage(enableThinking: bool): (text: string)
    ensures enableThinking <==> text == ""
    ensures !enableThinking ==> text == "/no_think"
  {
    if enableThinking then "" else "/no_think"
  }

  /** The chat prompt: the system message, then the summarisation template. */
  function Messages(c: SummarizationChain): seq<Message> {
    [System(SystemMessage(c.enableThinking)), Human(c.template)]
  }

  // ---------------------------------------------------------------------
  // Windows
  // ---------------------------------------------------------------------

  /** The slices `reviews[i : i + b]` for each start `i`, in order. */
  function Slices(reviews: seq<Review>, starts: seq<int>, b: int): (w: seq<seq<Review>>)
    ensures |w| == |starts|
    ensures forall k :: 0 <= k < |starts| ==> w[k] == PySlice(reviews, starts[k], starts[k] + b)
  {
    seq(|starts|, k requires 0 <= k < |starts| => PySlice(reviews, starts[k], starts[k] + b))
  }

  /** `[reviews[i : i + b] for i in range(0, len(reviews), b)]`; `range`
      rejects a zero step with `ValueError`. */
  function Batches(reviews: seq<Review>, b: int): (r: Result<seq<seq<Review>>>)
    ensures r.Err? <==> b == 0
    ensures r.Err? ==> r.error.ValueError?
  {
    if b == 0 then Err(ValueError("range() arg 3 must not be zero"))
    else Ok(Slices(reviews, Range(0, |reviews|, b), b))
  }

  function Min(a: int, b: int): int {
    if a <= b then a else b
  }

  /** A negative window size gives no windows at all, whatever the input. */
  lemma BatchesNegative(reviews: seq<Review>, b: int)
    requires b < 0
    ensures Batches(reviews, b) == Ok([])
  {
    assert |Range(0, |reviews|, b)| == 0;
    assert |Batches(reviews, b).value| == 0;
  }

  /** Multiplying by a non-negative factor keeps the order. */
  lemma {:induction false} MulMonotone(x: int, y: int, b: int)
    requires x <= y && b >= 0
    ensures x * b <= y * b
    decreases y - x
  {
    if x < y {
      MulMonotone(x, y - 1, b);
      assert y * b == (y - 1) * b + b;
    }
  }

  /** The only whole number of windows `q` with `(q - 1) * b < n <= q * b`
      is ceil(n / b). */
  lemma CeilDivUnique(q: int, n: int, b: int)
    requires b > 0 && q >= 0 && n >= 0
    requires (q - 1) * b < n <= q * b
    ensures q == (n + b - 1) / b
  {
    var d := (n + b - 1) / b;
    var m := (n + b - 1) % b;
    assert d * b + m == n + b - 1 && 0 <= m < b;
    if q < d {
      MulMonotone(q, d - 1, b);
    } else if q > d {
      MulMonotone(d, q - 1, b);
    }
  }

  /** There are ceil(L / b) windows for L reviews, so empty input gives
      none. */
  lemma BatchesCount(reviews: seq<Review>, b: int)
    requires b > 0
    ensures Batches(reviews, b).Ok?
    ensures var n := |Batches(reviews, b).value|;
      && (|reviews| == 0 <==> n == 0)
      && (n - 1) * b < |reviews| <= n * b
      && n == (|reviews| + b - 1) / b
  {
    var n := |Range(0, |reviews|, b)|;
    assert |Batches(reviews, b).value| == n;
    if |reviews| > 0 {
      RangeLength(0, |reviews|, b);
    }
    CeilDivUnique(n, |reviews|, b);
  }

  /** Window `k` holds the reviews from position `k * b` up to `k * b + b`,
      cut short at the end of the input. */
  lemma BatchesWindow(reviews: seq<Review>, b: int, k: int)
    requires b > 0
    requires 0 <= k < |Batches(reviews, b).value|
    ensures 0 <= k * b < |reviews|
    ensures Batches(reviews, b).value[k] == reviews[k * b .. Min(k * b + b, |reviews|)]
  {
    var starts := Range(0, |reviews|, b);
    assert starts[k] == k * b;
    MulMonotone(0, k, b);
  }

  /** One more window starts one window size further on. */
  lemma MulSucc(k: int, b: int)
    ensures (k + 1) * b == k * b + b
  {
  }

  /** Every window but the last holds exactly `b` reviews. */
  lemma BatchesFullWindow(reviews: seq<Review>, b: int, k: int)
    requires b > 0
    requires 0 <= k < |Batches(reviews, b).value| - 1
    ensures |Batches(reviews, b).value[k]| == b
  {
    BatchesWindow(reviews, b, k);
    BatchesWindow(reviews, b, k + 1);
    MulSucc(k, b);
  }

  /** The last window holds between 1 and `b` reviews and ends the input. */
  lemma BatchesLastWindow(reviews: seq<Review>, b: int)
    requires b > 0
    requires |Batches(reviews, b).value| > 0
    ensures var w := Batches(reviews, b).value;
      1 <= |w[|w| - 1]| <= b && (|w| - 1) * b + |w[|w| - 1]| == |reviews|
  {
    var n := |Batches(reviews, b).value|;
    BatchesCount(reviews, b);
    BatchesWindow(reviews, b, n - 1);
    MulSucc(n - 1, b);
  }

  /** Every window but the last holds exactly `b` reviews and the last
      holds between 1 and `b`. */
  lemma BatchesSizes(reviews: seq<Review>, b: int)
    requires b > 0
    ensures Batches(reviews, b).Ok?
    ensures var w := Batches(reviews, b).value;
      && (forall k :: 0 <= k < |w| - 1 ==> |w[k]| == b)
      && (|w| > 0 ==> 1 <= |w[|w| - 1]| <= b)
  {
    var w := Batches(reviews, b).value;
    forall k | 0 <= k < |w| - 1
      ensures |w[k]| == b
    {
      BatchesFullWindow(reviews, b, k);
    }
    if |w| > 0 {
      BatchesLastWindow(reviews, b);
    }
  }

  /** The windows before `j` cover the first `j * b` reviews, or all of
      them once `j` reaches the number of windows. */
  lemma FlattenPrefixStep(reviews: seq<Review>, b: int, j: int)
    requires b > 0
    requires 0 <= j < |Batches(reviews, b).value|
    ensures 0 <= j * b < |reviews|
    ensures var w := Batches(reviews, b).value;
      reviews[..j * b] + w[j] == reviews[..Min((j + 1) * b, |reviews|)]
  {
    BatchesWindow(reviews, b, j);
    MulSucc(j, b);
  }

  /** Concatenating the windows in order gives back the input exactly. */
  lemma BatchesFlatten(reviews: seq<Review>, b: int)
    requires b > 0
    ensures Batches(reviews, b).Ok?
    ensures Flatten(Batches(reviews, b).value) == reviews
  {
    BatchesCount(reviews, b);
    var w := Batches(reviews, b).value;
    var n := |w|;
    var j := 0;
    while j < n
      invariant 0 <= j <= n
      invariant Flatten(w[..j]) == reviews[..Min(j * b, |reviews|)]
    {
      FlattenPrefixStep(reviews, b, j);
      FlattenSnoc(w, j);
      j := j + 1;
    }
    assert w[..n] == w;
  }

  // ---------------------------------------------------------------------
  // Window texts
  // ---------------------------------------------------------------------

  /** A window's `review_texts`: its reviews' texts joined by a blank line. */
  function BatchText(batch: seq<Review>): string {
    Join(ReviewSeparator, Texts(batch))
  }

  /** The `review_texts` of every window, in order. */
  function BatchTexts(w: seq<seq<Review>>): (texts: seq<string>)
    ensures |texts| == |w|
    ensures forall k :: 0 <= k < |w| ==> texts[k] == BatchText(w[k])
  {
    if |w| == 0 then [] else [BatchText(w[0])] + BatchTexts(w[1..])
  }

  /** Joining the window texts of non-empty windows with a blank line gives
      exactly the join of all review texts of the flattened windows: no text
      is dropped, repeated or reordered by the windowing. */
  lemma {:induction false} BatchTextsJoin(w: seq<seq<Review>>)
    requires |w| > 0
    requires forall k :: 0 <= k < |w| ==> |w[k]| > 0
    ensures Join(ReviewSeparator, BatchTexts(w)) == Join(ReviewSeparator, Texts(Flatten(w)))
  {
    if |w| == 1 {
      assert Flatten(w) == w[0] + Flatten(w[1..]);
      assert Flatten(w) == w[0];
    } else {
      var rest := w[1..];
      BatchTextsJoin(rest);
      assert Flatten(w) == w[0] + Flatten(rest);
      TextsAppend(w[0], Flatten(rest));
      assert Flatten(rest) == rest[0] + Flatten(rest[1..]);
      JoinAppend(ReviewSeparator, Texts(w[0]), Texts(Flatten(rest)));
      assert BatchTexts(w)[1..] == BatchTexts(rest);
    }
  }

  /** The windows' texts, joined once more by a blank line, are all the
      review texts of the input joined by a blank line. */
  lemma BatchesKeepAllText(reviews: seq<Review>, b: int)
    requires b > 0
    ensures Batches(reviews, b).Ok?
    ensures Join(ReviewSeparator, BatchTexts(Batches(reviews, b).value)) == Join(ReviewSeparator, Texts(reviews))
  {
    BatchesCount(reviews, b);
    if |reviews| == 0 {
      assert Batches(reviews, b).value == [];
      assert Texts(reviews) == [];
      return;
    }
    BatchesSizes(reviews, b);
    BatchesFlatten(reviews, b);
    var w := Batches(reviews, b).value;
    assert forall k :: 0 <= k < |w| ==> |w[k]| > 0;
    BatchTextsJoin(w);
  }

  // ---------------------------------------------------------------------
  // _call
  // ---------------------------------------------------------------------

  /** The variables of the prompt for one window. */
  function WindowVars(c: SummarizationChain, batch: seq<Review>): (vars: map<string, string>)
    ensures vars.Keys == {"review_texts", "format_instructions"}
    ensures vars["review_texts"] == BatchText(batch)
    ensures vars["format_instructions"] == FormatInstructions(c.parser)
  {
    map["review_texts" := BatchText(batch), "format_instructions" := FormatInstructions(c.parser)]
  }

  /** The batch of prompt variables: one entry per window, in order. */
  function BatchInputs(c: SummarizationChain, w: seq<seq<Review>>): (inputs: seq<map<string, string>>)
    ensures |inputs| == |w|
    ensures forall k :: 0 <= k < |w| ==> inputs[k] == WindowVars(c, w[k])
  {
    if |w| == 0 then [] else [WindowVars(c, w[0])] + BatchInputs(c, w[1..])
  }

  /** What `chain.batch` returns for a list of prompt variables. */
  type BatchRunner = seq<map<string, string>> -> Result<seq<Record>>

  /** `_call` with `chain.batch` given as `run`: the windows are built
      (a zero window size raises `ValueError`), run as one batch, and the
      number of results must equal the number of windows. */
  function SummarizeWith(run: BatchRunner, c: SummarizationChain, reviews: seq<Review>): (r: Result<seq<Record>>)
    ensures c.batchSize == 0 ==> r.Err? && r.error.ValueError?
    ensures c.batchSize != 0 && run(BatchInputs(c, Batches(reviews, c.batchSize).value)).Err? ==>
      r == run(BatchInputs(c, Batches(reviews, c.batchSize).value))
    ensures c.batchSize != 0 && run(BatchInputs(c, Batches(reviews, c.batchSize).value)).Ok? ==>
      var outs := run(BatchInputs(c, Batches(reviews, c.batchSize).value)).value;
      if |outs| == |Batches(reviews, c.batchSize).value| then r == Ok(outs) else r == Err(AssertionError)
  {
    var w :- Batches(reviews, c.batchSize);
    var outs :- run(BatchInputs(c, w));
    if |outs| != |w| then Err(AssertionError) else Ok(outs)
  }

  /** `(prompt | llm | parser).batch` for this chain's prompt. */
  function RunBatch(c: SummarizationChain): BatchRunner {
    inputs => BatchInvoke(c.llm, c.parser, Messages(c), inputs)
  }

  /** `SummarizationChain._call` on the review list. */
  function Summarize(c: SummarizationChain, reviews: seq<Review>): Result<seq<Record>> {
    SummarizeWith(RunBatch(c), c, reviews)
  }

  /** With the library's in-order batch the count assertion never fails:
      the summaries are exactly the model's parsed answers, one per window
      and in window order, and the call fails only when the window size is
      zero or some window's answer does not parse. */
  lemma SummarizeOnePerWindow(c: SummarizationChain, reviews: seq<Review>)
    requires c.batchSize != 0
    ensures var w := Batches(reviews, c.batchSize).value;
      && (Summarize(c, reviews).Ok? <==> forall k :: 0 <= k < |w| ==> Invoke(c.llm, c.parser, Messages(c), WindowVars(c, w[k]), 0).Ok?)
      && (Summarize(c, reviews).Ok? ==>
            |Summarize(c, reviews).value| == |w|
            && forall k :: 0 <= k < |w| ==> Invoke(c.llm, c.parser, Messages(c), WindowVars(c, w[k]), 0) == Ok(Summarize(c, reviews).value[k]))
      && (Summarize(c, reviews).Err? ==>
            exists k :: 0 <= k < |w| && Invoke(c.llm, c.parser, Messages(c), WindowVars(c, w[k]), 0) == Err(Summarize(c, reviews).error))
  {
    var w := Batches(reviews, c.batchSize).value;
    SummarizeIsBatch(c, reviews);
    WindowsBatch(c, w);
  }

  /** With a non-zero window size, summarising is the library's batch over
      the windows' prompt variables. */
  lemma SummarizeIsBatch(c: SummarizationChain, reviews: seq<Review>)
    requires c.batchSize != 0
    ensures Summarize(c, reviews) == BatchInvoke(c.llm, c.parser, Messages(c), BatchInputs(c, Batches(reviews, c.batchSize).value))
  {
    var inputs := BatchInputs(c, Batches(reviews, c.batchSize).value);
    assert RunBatch(c)(inputs) == BatchInvoke(c.llm, c.parser, Messages(c), inputs);
  }

  /** The library's batch over the windows' prompt variables, stated window
      by window. */
  lemma WindowsBatch(c: SummarizationChain, w: seq<seq<Review>>)
    ensures var r := BatchInvoke(c.llm, c.parser, Messages(c), BatchInputs(c, w));
      && (r.Ok? <==> forall k :: 0 <= k < |w| ==> Invoke(c.llm, c.parser, Messages(c), WindowVars(c, w[k]), 0).Ok?)
      && (r.Ok? ==> |r.value| == |w| && forall k :: 0 <= k < |w| ==> Invoke(c.llm, c.parser, Messages(c), WindowVars(c, w[k]), 0) == Ok(r.value[k]))
      && (r.Err? ==> exists k :: 0 <= k < |w| && Invoke(c.llm, c.parser, Messages(c), WindowVars(c, w[k]), 0) == Err(r.error))
  {
    var inputs := BatchInputs(c, w);
    var r := BatchInvoke(c.llm, c.parser, Messages(c), inputs);
    if r.Err? {
      var k :| 0 <= k < |inputs| && Invoke(c.llm, c.parser, Messages(c), inputs[k], 0) == Err(r.error);
      assert inputs[k] == WindowVars(c, w[k]);
    }
  }

  /** A batch runner that loses a result trips the count assertion. */
  lemma LostSummaryTripsAssertion(c: SummarizationChain, reviews: seq<Review>, run: BatchRunner)
    requires c.batchSize > 0 && |reviews| > 0
    requires run(BatchInputs(c, Batches(reviews, c.batchSize).value)) == Ok([])
    ensures SummarizeWith(run, c, reviews) == Err(AssertionError)
  {
    BatchesCount(reviews, c.batchSize);
  }

  /** `SummarizationChain._call` on its input dictionary. */
  function SummarizationCall(c: SummarizationChain, inputs: Context): (r: Result<Context>)
    ensures "filtered_reviews" !in inputs ==> r == Err(KeyError("filtered_reviews"))
    ensures r.Ok? ==> r.value.Keys == {"batch_summaries"} && r.value["batch_summaries"].RecordList?
    ensures GetReviews(inputs, "filtered_reviews").Ok? ==>
      match Summarize(c, inputs["filtered_reviews"].reviews)
      case Ok(summaries) => r == Ok(map["batch_summaries" := RecordList(summaries)])
      case Err(e) => r == Err(e)
  {
    var reviews :- GetReviews(inputs, "filtered_reviews");
    var summaries :- Summarize(c, reviews);
    Ok(map["batch_summaries" := RecordList(summaries)])
  }
}
