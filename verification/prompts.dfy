/** The prompt templates of the pipeline. Their prose is not modelled: a
    template is identified by name, and the aggregation templates by the
    aspect they score. */
module Prompts {
  import opened Results

  datatype Template =
    | FluffFilterPrompt
    | JuiceSummarizationPrompt
    | JuiceAggregationPrompt(aspect: string)
    | BlurbPrompt

  /** The keys of `JUICE_AGGREGATION_PROMPTS`, in declaration order. The
      `artstyle` entry is commented out in the source and is not a key. */
  const AggregationAspects: seq<string> := [
    "lore_worldbuilding_atmosphere",
    "exploration",
    "gameplay_mechanics",
    "emotional_engagement",
    "bloat_grinding",
    "challenge"
  ]

  /** `JUICE_AGGREGATION_PROMPTS[aspect]`: the aspect's own template, or a
      `KeyError` for a name that is not an aggregation aspect. */
  function AggregationPrompt(aspect: string): (r: Result<Template>)
    ensures aspect in AggregationAspects <==> r.Ok?
    ensures r.Ok? ==> r.value == JuiceAggregationPrompt(aspect)
    ensures r.Err? ==> r.error == KeyError(aspect)
  {
    if aspect in AggregationAspects then Ok(JuiceAggregationPrompt(aspect)) else Err(KeyError(aspect))
  }

  /** The six aspect keys are pairwise distinct, so the fan-out has six
      branches. */
  lemma AggregationAspectsDistinct()
    ensures |AggregationAspects| == 6
    ensures forall i, j :: 0 <= i < j < |AggregationAspects| ==> AggregationAspects[i] != AggregationAspects[j]
    ensures "challenge" in AggregationAspects && "artstyle" !in AggregationAspects
  {
  }
}
