/** `AggregationChain`: for one aspect, the aspect's entry is taken from
    every window summary, the entries are joined by a blank line, and the
    model scores the aspect from them.
 */
module AggregationChains {
  import opened Results
  import opened Json
  import opened Text
  import opened Prompts
  import opened OutputParsers
  import opened Runnables

  const AggregationInputKeys: seq<string> := ["batch_summaries", "summary_aspect"]
  const AggregationOutputKeys: seq<string> := ["aggregate_score", "score_explanation"]

  /** The separator between aspect summaries. */
  const SummarySeparator: string := "\n\n"

  datatype AggregationChain = AggregationChain(llm: Llm, parser: ThinkingParser, template: Template)

  /** `[x[summary_aspect] for x in batch_summaries]`: raises `KeyError` for
      the first summary that lacks the aspect. */
  function Project(summaries: seq<Record>, aspect: string): (r: Result<seq<Value>>)
    ensures r.Ok? <==> forall i :: 0 <= i < |summaries| ==> aspect in summaries[i]
    ensures r.Err? ==> r.error == KeyError(aspect)
    ensures r.Ok? ==> |r.value| == |summaries| && forall i :: 0 <= i < |summaries| ==> r.value[i] == summaries[i][aspect]
  {
    if |summaries| == 0 then Ok([])
    else if aspect !in summaries[0] then Err(KeyError(aspect))
    else
      var rest :- Project(summaries[1..], aspect);
      assert forall i :: 1 <= i < |summaries| ==> summaries[i] == summaries[1..][i - 1];
      Ok([summaries[0][aspect]] + rest)
  }

  /** The strings of a list of values; `str.join` raises `TypeError` on the
      first value that is not a string. */
  function Strings(values: seq<Value>): (r: Result<seq<string>>)
    ensures r.Ok? <==> forall i :: 0 <= i < |values| ==> values[i].Str?
    ensures r.Err? ==> r.error.TypeError?
    ensures r.Ok? ==> |r.value| == |values| && forall i :: 0 <= i < |values| ==> values[i] == Str(r.value[i])
  {
    if |values| == 0 then Ok([])
    else if !values[0].Str? then Err(TypeError("sequence item: expected str instance"))
    else
      var rest :- Strings(values[1..]);
      assert forall i :: 1 <= i < |values| ==> values[i] == values[1..][i - 1];
      Ok([values[0].s] + rest)
  }

  /** `'\n\n'.join(summaries)` after the projection: a missing aspect is
      reported before any non-string entry, since the list is built before
      it is joined. */
  function SummaryTexts(summaries: seq<Record>, aspect: string): (r: Result<string>)
    ensures Project(summaries, aspect).Err? ==> r == Err(KeyError(aspect))
    ensures |summaries| == 0 ==> r == Ok("")
  {
    var values :- Project(summaries, aspect);
    var texts :- Strings(values);
    Ok(Join(SummarySeparator, texts))
  }

  /** `summary_texts` is the blank-line join of the aspect entries, in
      window order, exactly when every summary holds the aspect as a
      string. */
  lemma SummaryTextsJoin(summaries: seq<Record>, aspect: string, texts: seq<string>)
    requires |texts| == |summaries|
    requires forall i :: 0 <= i < |summaries| ==> aspect in summaries[i] && summaries[i][aspect] == Str(texts[i])
    ensures SummaryTexts(summaries, aspect) == Ok(Join(SummarySeparator, texts))
  {
    var values := Project(summaries, aspect).value;
    assert Strings(values).value == texts;
  }

  /** Values under any other key never matter: two summary lists that agree
      on the aspect entry yield the same `summary_texts`, or the same error. */
  lemma SummaryTextsNonInterference(a: seq<Record>, b: seq<Record>, aspect: string)
    requires |a| == |b|
    requires forall i :: 0 <= i < |a| ==> (aspect in a[i] <==> aspect in b[i])
    requires forall i :: 0 <= i < |a| && aspect in a[i] ==> a[i][aspect] == b[i][aspect]
    ensures SummaryTexts(a, aspect) == SummaryTexts(b, aspect)
  {
    if Project(a, aspect).Ok? {
      assert Project(a, aspect).value == Project(b, aspect).value;
    }
  }

  /** The prompt issued: the aspect's template alone, with the joined
      summaries and the parser's format instructions. */
  function ScorePrompt(c: AggregationChain, summaryTexts: string): (p: Prompt)
    ensures p.messages == [Human(c.template)]
    ensures p.vars.Keys == {"summary_texts", "format_instructions"}
    ensures p.vars["summary_texts"] == summaryTexts
  {
    Prompt([Human(c.template)], map["summary_texts" := summaryTexts, "format_instructions" := FormatInstructions(c.parser)])
  }

  /** The scoring step on the `draw`-th model sample. */
  function Aggregate(c: AggregationChain, summaries: seq<Record>, aspect: string, draw: nat): (r: Result<Record>)
    ensures SummaryTexts(summaries, aspect).Err? ==> r == Err(SummaryTexts(summaries, aspect).error)
    ensures SummaryTexts(summaries, aspect).Ok? ==>
      r == Parse(c.parser, c.llm(ScorePrompt(c, SummaryTexts(summaries, aspect).value), draw))
  {
    var texts :- SummaryTexts(summaries, aspect);
    Invoke(c.llm, c.parser, [Human(c.template)], ScorePrompt(c, texts).vars, draw)
  }

  /** `AggregationChain._call` on its input dictionary, on the `draw`-th
      model sample: `summary_aspect` is read first, then
      `batch_summaries`; the parsed record is the output. */
  function AggregationCall(c: AggregationChain, inputs: Context, draw: nat): (r: Result<Context>)
    ensures "summary_aspect" !in inputs ==> r == Err(KeyError("summary_aspect"))
    ensures "summary_aspect" in inputs && inputs["summary_aspect"].TextSlot? && "batch_summaries" !in inputs ==>
      r == Err(KeyError("batch_summaries"))
    ensures GetText(inputs, "summary_aspect").Ok? && GetRecords(inputs, "batch_summaries").Ok? ==>
      match Aggregate(c, inputs["batch_summaries"].records, inputs["summary_aspect"].text, draw)
      case Ok(record) => r == Ok(FromRecord(record))
      case Err(e) => r == Err(e)
  {
    var aspect :- GetText(inputs, "summary_aspect");
    var summaries :- GetRecords(inputs, "batch_summaries");
    var record :- Aggregate(c, summaries, aspect, draw);
    Ok(FromRecord(record))
  }

  /** With a well-behaved library and the aggregation schema, a successful
      call outputs both declared output keys. */
  lemma AggregationOutputsDeclared(c: AggregationChain, inputs: Context, draw: nat)
    requires c.parser.schemas == JuiceAggregationChainSchemas && WellBehaved(c.parser.lib)
    requires AggregationCall(c, inputs, draw).Ok?
    ensures forall k :: k in AggregationOutputKeys ==> k in AggregationCall(c, inputs, draw).value
  {
    var aspect := inputs["summary_aspect"].text;
    var summaries := inputs["batch_summaries"].records;
    var texts := SummaryTexts(summaries, aspect).value;
    ParseHoldsSchema(c.parser, c.llm(ScorePrompt(c, texts), draw));
    SchemaFields();
  }

  // ---------------------------------------------------------------------
  // The aspect missing from the summarisation schema
  // ---------------------------------------------------------------------

  /** A summary holding exactly the summarisation schema's fields, with
      string values. */
  function SchemaSummary(schemas: seq<ResponseSchema>): (r: Record)
    ensures r.Keys == set i | 0 <= i < |schemas| :: schemas[i].name
  {
    map i | 0 <= i < |schemas| :: schemas[i].name := Str("")
  }

  /** The summarisation schema as written names the first five aggregation
      aspects, in order, and not the sixth, `challenge`. */
  lemma SummarizationSchemaNames()
    ensures |JuiceSummarizationChainSchemas| == 5 && AggregationAspects[5] == "challenge"
    ensures forall i :: 0 <= i < 5 ==> JuiceSummarizationChainSchemas[i].name == AggregationAspects[i]
    ensures forall i :: 0 <= i < 5 ==> JuiceSummarizationChainSchemas[i].name != "challenge"
  {
  }

  /** As written, the summarisation schema has no `challenge` field, so a
      summary holding exactly its fields makes the `challenge` branch raise
      `KeyError`, while every other aspect goes through. */
  lemma ChallengeAspectMissing()
    ensures "challenge" in AggregationAspects
    ensures SummaryTexts([SchemaSummary(JuiceSummarizationChainSchemas)], "challenge") == Err(KeyError("challenge"))
    ensures forall i :: 0 <= i < 5 ==> SummaryTexts([SchemaSummary(JuiceSummarizationChainSchemas)], AggregationAspects[i]).Ok?
  {
    var s := SchemaSummary(JuiceSummarizationChainSchemas);
    SummarizationSchemaNames();
    assert "challenge" !in s.Keys;
    assert AggregationAspects[5] in AggregationAspects;
    forall i | 0 <= i < 5
      ensures SummaryTexts([s], AggregationAspects[i]).Ok?
    {
      assert AggregationAspects[i] in s;
      assert Strings(Project([s], AggregationAspects[i]).value).Ok?;
    }
  }

  /** The summarisation schema with the `challenge` field the aggregation
      step needs. */
  const CorrectedSummarizationSchemas: seq<ResponseSchema> :=
    JuiceSummarizationChainSchemas + [ResponseSchema("challenge", StringField)]

  /** The corrected schema declares the aggregation aspects, in order, as
      its first fields. */
  lemma CorrectedSchemaNames()
    ensures |AggregationAspects| <= |CorrectedSummarizationSchemas|
    ensures forall i :: 0 <= i < |AggregationAspects| ==> CorrectedSummarizationSchemas[i].name == AggregationAspects[i]
  {
  }

  /** With the corrected schema, every aggregation aspect is a schema field,
      so a summary holding every schema field as a string serves every
      aspect's branch. */
  lemma CorrectedSchemaCoversAspects(summaries: seq<Record>)
    requires forall i, j :: 0 <= i < |summaries| && 0 <= j < |CorrectedSummarizationSchemas| ==>
      CorrectedSummarizationSchemas[j].name in summaries[i] && summaries[i][CorrectedSummarizationSchemas[j].name].Str?
    ensures forall a :: a in AggregationAspects ==> SummaryTexts(summaries, a).Ok?
  {
    forall a | a in AggregationAspects
      ensures SummaryTexts(summaries, a).Ok?
    {
      var j :| 0 <= j < |AggregationAspects| && AggregationAspects[j] == a;
      assert CorrectedSummarizationSchemas[j].name == a;
      assert Strings(Project(summaries, a).value).Ok?;
    }
  }
}
