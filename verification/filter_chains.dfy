/** The two review filters: the rule-based `DeterministicFilterChain`
    (too few words, too little playtime) and the `LLMFilterChain`, which
    asks the language model whether to keep each review.
 */
module FilterChains {
  import opened Results
  import opened Json
  import opened Text
  import opened Sequences
  import opened Reviews
  import opened Prompts
  import opened OutputParsers
  import opened Runnables

  // ---------------------------------------------------------------------
  // DeterministicFilterChain
  // ---------------------------------------------------------------------

  const DefaultMinWords: int := 5
  const DefaultMinPlaytime: int := 5 * 60

  /** The playtime assumed when a review does not report one. */
  const MissingPlaytime: int := 36000

  const DeterministicInputKeys: seq<string> := ["reviews"]
  const DeterministicOutputKeys: seq<string> := ["filtered_reviews"]

  datatype DeterministicFilterChain = DeterministicFilterChain(minWords: int, minPlaytime: int)

  /** `DeterministicFilterChain()` with its default thresholds. */
  function NewDeterministicFilterChain(): (c: DeterministicFilterChain)
    ensures c.minWords == 5 && c.minPlaytime == 300
  {
    DeterministicFilterChain(DefaultMinWords, DefaultMinPlaytime)
  }

  /** `len(text.split(" "))`: only the space character separates words. */
  function WordCount(text: string): (n: nat)
    ensures n == Count(text, ' ') + 1
  {
    SplitCount(text, ' ');
    |Split(text, ' ')|
  }

  /** `is_review_too_small`. */
  predicate IsReviewTooSmall(c: DeterministicFilterChain, text: string) {
    WordCount(text) < c.minWords
  }

  /** `review_data.get("author", {}).get("playtime_at_review", 36000)`. */
  function Playtime(r: Review): (minutes: int)
    ensures r.author.None? ==> minutes == MissingPlaytime
    ensures r.author.Some? && r.author.value.playtimeAtReview.None? ==> minutes == MissingPlaytime
    ensures r.author.Some? && r.author.value.playtimeAtReview.Some? ==> minutes == r.author.value.playtimeAtReview.value
  {
    match r.author
    case None => MissingPlaytime
    case Some(a) =>
      match a.playtimeAtReview
      case None => MissingPlaytime
      case Some(p) => p
  }

  /** `is_playtime_too_low`. */
  predicate IsPlaytimeTooLow(c: DeterministicFilterChain, r: Review) {
    Playtime(r) < c.minPlaytime
  }

  /** The test a review must pass to stay in `_call`'s output. */
  predicate Passes(c: DeterministicFilterChain, r: Review) {
    !IsReviewTooSmall(c, r.review) && !IsPlaytimeTooLow(c, r)
  }

  function PassesBy(c: DeterministicFilterChain): Review -> bool {
    r => Passes(c, r)
  }

  /** The loop of `DeterministicFilterChain._call`: the reviews that pass
      both tests, unmodified and in their original order. */
  function FilterReviews(c: DeterministicFilterChain, reviews: seq<Review>): (kept: seq<Review>)
    ensures |kept| <= |reviews|
    ensures IsSubsequence(kept, reviews)
    ensures forall x :: multiset(kept)[x] == if Passes(c, x) then multiset(reviews)[x] else 0
    ensures forall i :: 0 <= i < |kept| ==> Passes(c, kept[i])
  {
    FilterIsSubsequence(reviews, PassesBy(c));
    FilterCounts(reviews, PassesBy(c));
    Filter(reviews, PassesBy(c))
  }

  /** `DeterministicFilterChain._call` on its input dictionary. */
  function DeterministicCall(c: DeterministicFilterChain, inputs: Context): (r: Result<Context>)
    ensures "reviews" !in inputs ==> r == Err(KeyError("reviews"))
    ensures r.Ok? ==> r.value.Keys == {"filtered_reviews"}
    ensures GetReviews(inputs, "reviews").Ok? ==>
      r == Ok(map["filtered_reviews" := ReviewList(FilterReviews(c, inputs["reviews"].reviews))])
  {
    var reviews :- GetReviews(inputs, "reviews");
    Ok(map["filtered_reviews" := ReviewList(FilterReviews(c, reviews))])
  }

  /** Word counting sees only spaces: the empty text is one word, and tabs
      and newlines do not split. */
  lemma WordCountExamples()
    ensures WordCount("") == 1
    ensures WordCount("a\tb\nc") == 1
    ensures WordCount("a  b") == 3
  {
    assert Count("a  b", ' ') == 2 by {
      assert "a  b"[1..] == "  b";
      assert "  b"[1..] == " b";
      assert " b"[1..] == "b";
      assert "b"[1..] == "";
    }
    assert Count("a\tb\nc", ' ') == 0 by {
      assert "a\tb\nc"[1..] == "\tb\nc";
      assert "\tb\nc"[1..] == "b\nc";
      assert "b\nc"[1..] == "\nc";
      assert "\nc"[1..] == "c";
      assert "c"[1..] == "";
    }
  }

  /** A review is too small exactly when it has fewer than `min_words - 1`
      spaces. */
  lemma TooSmallIffFewSpaces(c: DeterministicFilterChain, text: string)
    ensures IsReviewTooSmall(c, text) <==> Count(text, ' ') + 1 < c.minWords
  {
  }

  /** Both thresholds are inclusive: a review exactly at them is kept. */
  lemma BoundaryReviewKept(c: DeterministicFilterChain, r: Review)
    requires Count(r.review, ' ') + 1 == c.minWords
    requires Playtime(r) == c.minPlaytime
    ensures Passes(c, r)
    ensures r in FilterReviews(c, [r])
  {
  }

  /** Under the default thresholds a review that reports no playtime is
      never rejected for playtime. */
  lemma MissingPlaytimeNeverTooLow(r: Review)
    requires r.author.None? || r.author.value.playtimeAtReview.None?
    ensures !IsPlaytimeTooLow(NewDeterministicFilterChain(), r)
  {
  }

  /** Filtering an already filtered list changes nothing. */
  lemma FilterReviewsIdempotent(c: DeterministicFilterChain, reviews: seq<Review>)
    ensures FilterReviews(c, FilterReviews(c, reviews)) == FilterReviews(c, reviews)
  {
    FilterIdempotent(reviews, PassesBy(c));
  }

  // ---------------------------------------------------------------------
  // LLMFilterChain
  // ---------------------------------------------------------------------

  const LlmFilterInputKeys: seq<string> := ["reviews"]
  const LlmFilterOutputKeys: seq<string> := ["filtered_reviews"]

  datatype LlmFilterChain = LlmFilterChain(llm: Llm, parser: ThinkingParser, template: Template)

  /** `LLMFilterChain(llm, output_parser)` with the default fluff-filter
      prompt. */
  function NewLlmFilterChain(llm: Llm, parser: ThinkingParser): (f: LlmFilterChain)
    ensures f.template == FluffFilterPrompt && f.parser == parser
  {
    LlmFilterChain(llm, parser, FluffFilterPrompt)
  }

  /** The prompt issued for one review: its text and the parser's format
      instructions. */
  function ReviewPrompt(f: LlmFilterChain, r: Review): (p: Prompt)
    ensures p.messages == [Human(f.template)]
    ensures p.vars.Keys == {"review_text", "format_instructions"}
    ensures p.vars["review_text"] == r.review
  {
    Prompt([Human(f.template)], map["review_text" := r.review, "format_instructions" := FormatInstructions(f.parser)])
  }

  /** The parsed verdict of the model on one review. */
  function Judge(f: LlmFilterChain, r: Review): Result<Record> {
    Parse(f.parser, f.llm(ReviewPrompt(f, r), 0))
  }

  /** A verdict function: the parsed model output for each review. */
  type Verdicts = Review -> Result<Record>

  function JudgeBy(f: LlmFilterChain): Verdicts {
    r => Judge(f, r)
  }

  lemma JudgeByApplies(f: LlmFilterChain, r: Review)
    ensures JudgeBy(f)(r) == Judge(f, r)
  {
  }

  /** `filter_output.get("keep_review", False)` is truthy. */
  predicate KeepFlag(out: Record) {
    Truthy(Get(out, "keep_review", Bool(false)))
  }

  /** The verdict on `r` parsed and said to keep it. */
  predicate Kept(judge: Verdicts, r: Review) {
    judge(r).Ok? && KeepFlag(judge(r).value)
  }

  function KeptBy(judge: Verdicts): Review -> bool {
    r => Kept(judge, r)
  }

  /** What one review contributes to the output, given its parsed verdict. */
  function Selected(out: Record, r: Review): (part: seq<Review>)
    ensures part == (if KeepFlag(out) then [r] else [])
  {
    if KeepFlag(out) then [r] else []
  }

  /** The loop of `LLMFilterChain._call` under the verdicts `judge`; a parse
      failure on any review is raised. */
  function KeepApproved(judge: Verdicts, reviews: seq<Review>): Result<seq<Review>> {
    if |reviews| == 0 then Ok([])
    else
      var out :- judge(reviews[0]);
      var rest :- KeepApproved(judge, reviews[1..]);
      Ok(Selected(out, reviews[0]) + rest)
  }

  /** The loop of `LLMFilterChain._call`, with the model's verdicts. */
  function RunLlmFilter(f: LlmFilterChain, reviews: seq<Review>): Result<seq<Review>> {
    KeepApproved(JudgeBy(f), reviews)
  }

  /** The LLM filter succeeds exactly when every review's verdict parses,
      and then it keeps exactly the reviews whose verdict has a truthy
      `keep_review`, in their original order. */
  lemma {:induction false} KeepApprovedKeeps(judge: Verdicts, reviews: seq<Review>)
    ensures KeepApproved(judge, reviews).Ok? <==> forall i :: 0 <= i < |reviews| ==> judge(reviews[i]).Ok?
    ensures KeepApproved(judge, reviews).Ok? ==> KeepApproved(judge, reviews).value == Filter(reviews, KeptBy(judge))
  {
    if |reviews| > 0 {
      var tail := reviews[1..];
      KeepApprovedKeeps(judge, tail);
      assert forall i :: 1 <= i < |reviews| ==> reviews[i] == tail[i - 1];
      if judge(reviews[0]).Ok? && KeepApproved(judge, tail).Ok? {
        assert KeptBy(judge)(reviews[0]) == KeepFlag(judge(reviews[0]).value);
      }
    }
  }

  /** When the LLM filter fails, it raises the parse failure of the first
      review whose verdict did not parse. */
  lemma {:induction false} KeepApprovedFirstFailure(judge: Verdicts, reviews: seq<Review>)
    requires KeepApproved(judge, reviews).Err?
    ensures exists i :: 0 <= i < |reviews| && judge(reviews[i]) == Err(KeepApproved(judge, reviews).error)
                      && forall j :: 0 <= j < i ==> judge(reviews[j]).Ok?
  {
    var e := KeepApproved(judge, reviews).error;
    if judge(reviews[0]).Err? {
      assert judge(reviews[0]) == Err(e);
    } else {
      var tail := reviews[1..];
      KeepApprovedFirstFailure(judge, tail);
      var i :| 0 <= i < |tail| && judge(tail[i]) == Err(e) && forall j :: 0 <= j < i ==> judge(tail[j]).Ok?;
      assert judge(reviews[i + 1]) == Err(e);
      forall j | 0 <= j < i + 1
        ensures judge(reviews[j]).Ok?
      {
        if j > 0 {
          assert reviews[j] == tail[j - 1];
        }
      }
    }
  }

  /** `kept ++ r`: the outcome of a run that already kept `kept` and then
      ran on into `r`. */
  function Prepend(kept: seq<Review>, r: Result<seq<Review>>): (p: Result<seq<Review>>)
    ensures p.Ok? <==> r.Ok?
    ensures r.Err? ==> p == r
    ensures r.Ok? ==> |p.value| == |kept| + |r.value|
  {
    if r.Ok? then Ok(kept + r.value) else r
  }

  /** Prepending nothing changes nothing, and two prepends are one. */
  lemma PrependTwice(a: seq<Review>, b: seq<Review>, r: Result<seq<Review>>)
    ensures Prepend([], r) == r
    ensures Prepend(a, Prepend(b, r)) == Prepend(a + b, r)
  {
    if r.Ok? {
      assert [] + r.value == r.value;
      assert a + (b + r.value) == (a + b) + r.value;
    }
  }

  /** One unfolding of the loop on a non-empty list. */
  lemma KeepApprovedCons(judge: Verdicts, reviews: seq<Review>)
    requires |reviews| > 0
    ensures judge(reviews[0]).Err? ==> KeepApproved(judge, reviews) == Err(judge(reviews[0]).error)
    ensures judge(reviews[0]).Ok? ==>
      KeepApproved(judge, reviews) == Prepend(Selected(judge(reviews[0]).value, reviews[0]), KeepApproved(judge, reviews[1..]))
  {
  }

  /** The loop invariant of `LlmFilterCall` carried over one review. */
  lemma KeepApprovedStep(judge: Verdicts, reviews: seq<Review>, i: nat, kept: seq<Review>)
    requires i < |reviews|
    requires KeepApproved(judge, reviews) == Prepend(kept, KeepApproved(judge, reviews[i..]))
    ensures judge(reviews[i]).Err? ==> KeepApproved(judge, reviews) == Err(judge(reviews[i]).error)
    ensures judge(reviews[i]).Ok? ==>
      KeepApproved(judge, reviews)
        == Prepend(kept + Selected(judge(reviews[i]).value, reviews[i]), KeepApproved(judge, reviews[i + 1..]))
  {
    var tail := reviews[i..];
    assert tail[0] == reviews[i];
    assert tail[1..] == reviews[i + 1..];
    KeepApprovedCons(judge, tail);
    if judge(reviews[i]).Ok? {
      PrependTwice(kept, Selected(judge(reviews[i]).value, reviews[i]), KeepApproved(judge, reviews[i + 1..]));
    }
  }

  /** The prompts sent for a list of reviews, one per review, in order. */
  function PromptsFor(f: LlmFilterChain, reviews: seq<Review>): (prompts: seq<Prompt>)
    ensures |prompts| == |reviews|
    ensures forall i :: 0 <= i < |reviews| ==> prompts[i] == ReviewPrompt(f, reviews[i])
  {
    if |reviews| == 0 then [] else PromptsFor(f, reviews[..|reviews| - 1]) + [ReviewPrompt(f, reviews[|reviews| - 1])]
  }

  /** One more review, one more prompt. */
  lemma PromptsForStep(f: LlmFilterChain, reviews: seq<Review>, i: nat)
    requires i < |reviews|
    ensures PromptsFor(f, reviews[..i + 1]) == PromptsFor(f, reviews[..i]) + [ReviewPrompt(f, reviews[i])]
  {
    assert reviews[..i + 1][..i] == reviews[..i];
  }

  /** `LLMFilterChain._call`'s loop, recording each prompt it sends: the
      model is asked once per review, in input order, until the first
      verdict that fails to parse. */
  method LlmFilterCall(f: LlmFilterChain, reviews: seq<Review>) returns (issued: seq<Prompt>, result: Result<seq<Review>>)
    ensures result == RunLlmFilter(f, reviews)
    ensures result.Ok? ==> |issued| == |reviews|
    ensures result.Err? ==> 1 <= |issued| <= |reviews| && Judge(f, reviews[|issued| - 1]) == Err(result.error)
    ensures |issued| <= |reviews|
    ensures issued == PromptsFor(f, reviews[..|issued|])
  {
    var judge := JudgeBy(f);
    var kept: seq<Review> := [];
    issued := [];
    var i := 0;
    assert reviews[0..] == reviews;
    PrependTwice([], [], KeepApproved(judge, reviews));
    while i < |reviews|
      invariant 0 <= i <= |reviews|
      invariant |issued| == i
      invariant issued == PromptsFor(f, reviews[..i])
      invariant KeepApproved(judge, reviews) == Prepend(kept, KeepApproved(judge, reviews[i..]))
    {
      var prompt := ReviewPrompt(f, reviews[i]);
      PromptsForStep(f, reviews, i);
      issued := issued + [prompt];
      var out := Judge(f, reviews[i]);
      JudgeByApplies(f, reviews[i]);
      KeepApprovedStep(judge, reviews, i, kept);
      if out.Err? {
        result := Err(out.error);
        return;
      }
      kept := kept + Selected(out.value, reviews[i]);
      i := i + 1;
    }
    assert reviews[i..] == [];
    assert kept + [] == kept;
    result := Ok(kept);
  }

  /** `LLMFilterChain._call` on its input dictionary. */
  function LlmFilterCallOn(f: LlmFilterChain, inputs: Context): (r: Result<Context>)
    ensures "reviews" !in inputs ==> r == Err(KeyError("reviews"))
    ensures r.Ok? ==> r.value.Keys == {"filtered_reviews"}
    ensures GetReviews(inputs, "reviews").Ok? ==>
      match RunLlmFilter(f, inputs["reviews"].reviews)
      case Ok(kept) => r == Ok(map["filtered_reviews" := ReviewList(kept)])
      case Err(e) => r == Err(e)
  {
    var reviews :- GetReviews(inputs, "reviews");
    var kept :- RunLlmFilter(f, reviews);
    Ok(map["filtered_reviews" := ReviewList(kept)])
  }
}
