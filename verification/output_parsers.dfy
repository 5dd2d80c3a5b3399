/** The structured-output parsers: the three response schemas and the
    parser that first cleans the model's text and then hands it to the
    library's structured-output parser.

    The library parser itself (JSON extraction, format instructions) is
    not modelled: it is a parameter `StructuredOutput`, of which the model
    assumes only what `WellBehaved` states.
 */
module OutputParsers {
  import opened Results
  import opened Json
  import opened Text

  datatype FieldType = StringField | IntegerField

  /** A `ResponseSchema`: a field name and its declared type (the
      description prose is not modelled). */
  datatype ResponseSchema = ResponseSchema(name: string, fieldType: FieldType)

  /** The field names of a schema list, in order. */
  function Names(schemas: seq<ResponseSchema>): (names: seq<string>)
    ensures |names| == |schemas|
    ensures forall i :: 0 <= i < |schemas| ==> names[i] == schemas[i].name
  {
    if |schemas| == 0 then [] else [schemas[0].name] + Names(schemas[1..])
  }

  /** `FILTER_CHAIN_SCHEMAS`. */
  const FilterChainSchemas: seq<ResponseSchema> := [
    ResponseSchema("keep_review", StringField),
    ResponseSchema("explanation", StringField)
  ]

  /** `JUICE_SUMMARIZATION_CHAIN_SCHEMAS`, as written: five aspects; the
      `artstyle` entry is commented out and there is no `challenge`. */
  const JuiceSummarizationChainSchemas: seq<ResponseSchema> := [
    ResponseSchema("lore_worldbuilding_atmosphere", StringField),
    ResponseSchema("exploration", StringField),
    ResponseSchema("gameplay_mechanics", StringField),
    ResponseSchema("emotional_engagement", StringField),
    ResponseSchema("bloat_grinding", StringField)
  ]

  /** `JUICE_AGGREGATION_CHAIN_SCHEMAS`. */
  const JuiceAggregationChainSchemas: seq<ResponseSchema> := [
    ResponseSchema("aggregate_score", IntegerField),
    ResponseSchema("score_explanation", StringField)
  ]

  /** The three schema lists declare exactly these fields. */
  lemma SchemaFields()
    ensures Names(FilterChainSchemas) == ["keep_review", "explanation"]
    ensures Names(JuiceSummarizationChainSchemas)
         == ["lore_worldbuilding_atmosphere", "exploration", "gameplay_mechanics",
             "emotional_engagement", "bloat_grinding"]
    ensures "challenge" !in Names(JuiceSummarizationChainSchemas)
    ensures "artstyle" !in Names(JuiceSummarizationChainSchemas)
    ensures Names(JuiceAggregationChainSchemas) == ["aggregate_score", "score_explanation"]
    ensures JuiceAggregationChainSchemas[0].fieldType == IntegerField
    ensures JuiceAggregationChainSchemas[1].fieldType == StringField
  {
  }

  /** The library's `StructuredOutputParser`, given by its two operations:
      parsing a text against a schema list, and rendering the format
      instructions for a schema list. */
  datatype StructuredOutput = StructuredOutput(
    parse: (seq<ResponseSchema>, string) -> Result<Record>,
    formatInstructions: seq<ResponseSchema> -> string)

  /** What the model assumes of the library parser: a successful parse
      holds every declared field, and a failed one raises
      `OutputParserException`. */
  ghost predicate WellBehaved(lib: StructuredOutput) {
    forall schemas: seq<ResponseSchema>, text: string ::
      match lib.parse(schemas, text)
      case Ok(record) => forall i :: 0 <= i < |schemas| ==> schemas[i].name in record
      case Err(e) => e.OutputParserError?
  }

  /** `ThinkingStructuredOutputParser`. */
  datatype ThinkingParser = ThinkingParser(
    openTag: string,
    closeTag: string,
    schemas: seq<ResponseSchema>,
    lib: StructuredOutput)

  /** `ThinkingStructuredOutputParser.from_response_schemas(schemas)`: the
      default tags `<think>` and `</think>`. */
  function FromResponseSchemas(lib: StructuredOutput, schemas: seq<ResponseSchema>): (p: ThinkingParser)
    ensures p.openTag == "<think>" && p.closeTag == "</think>"
    ensures p.schemas == schemas && p.lib == lib
  {
    ThinkingParser("<think>", "</think>", schemas, lib)
  }

  /** `FILTER_CHAIN_PARSER`. */
  function FilterChainParser(lib: StructuredOutput): (p: ThinkingParser)
    ensures p == FromResponseSchemas(lib, FilterChainSchemas)
  {
    FromResponseSchemas(lib, FilterChainSchemas)
  }

  /** `JUICE_SUMMARIZATION_CHAIN_PARSER`. */
  function JuiceSummarizationChainParser(lib: StructuredOutput): (p: ThinkingParser)
    ensures p == FromResponseSchemas(lib, JuiceSummarizationChainSchemas)
  {
    FromResponseSchemas(lib, JuiceSummarizationChainSchemas)
  }

  /** `JUICE_AGGREGATION_CHAIN_PARSER`. */
  function JuiceAggregationChainParser(lib: StructuredOutput): (p: ThinkingParser)
    ensures p == FromResponseSchemas(lib, JuiceAggregationChainSchemas)
  {
    FromResponseSchemas(lib, JuiceAggregationChainSchemas)
  }

  /** `_remove_thinking_tokens`, as written: it strips the text, locates
      the tags in the unstripped text, builds the tag-free `ret` and then
      returns the stripped text, so the thinking block is never removed. */
  function RemoveThinkingTokens(p: ThinkingParser, text: string): (r: string)
    ensures r == Strip(text)
  {
    var cleaned := Strip(text);
    var start := Find(text, p.openTag, 0);
    var end := Find(text, p.closeTag, 0);
    if start != -1 && end != -1 then
      var ret := PySlice(cleaned, 0, start) + PySlice(cleaned, end + |p.closeTag|, |cleaned|);
      cleaned
    else
      cleaned
  }

  /** The cleaner's result has no outer whitespace, is a contiguous block of
      its input, and cleaning twice is cleaning once. */
  lemma RemoveThinkingTokensShape(p: ThinkingParser, text: string)
    ensures var r := RemoveThinkingTokens(p, text);
      && (|r| > 0 ==> !IsSpace(r[0]) && !IsSpace(r[|r| - 1]))
      && Lead(text) + |r| <= |text|
      && r == text[Lead(text) .. Lead(text) + |r|]
      && RemoveThinkingTokens(p, r) == r
  {
    StripShape(text);
    assert RemoveThinkingTokens(p, Strip(text)) == Strip(Strip(text));
  }

  /** Any occurrence in the input of a marker that starts and ends with a
      non-whitespace character — such as `<think>` or `</think>` — is still
      present, at the shifted position, in the cleaner's output. */
  lemma TagsSurvive(p: ThinkingParser, text: string, tag: string, k: int)
    requires |tag| > 0 && !IsSpace(tag[0]) && !IsSpace(tag[|tag| - 1])
    requires OccursAt(text, tag, k)
    ensures OccursAt(RemoveThinkingTokens(p, text), tag, k - Lead(text))
  {
    StripKeepsMarker(text, tag, k);
  }

  /** A reply that opens with a thinking block comes back with that block,
      tags and all, and loses only its outer whitespace. This holds for the
      default tags, whose first character `<` is not whitespace. */
  lemma ThinkingBlockSurvives(p: ThinkingParser, thought: string, answer: string)
    requires |p.openTag| > 0 && !IsSpace(p.openTag[0])
    requires |answer| > 0 && !IsSpace(answer[|answer| - 1])
    ensures RemoveThinkingTokens(p, " " + p.openTag + thought + p.closeTag + answer + " ")
         == p.openTag + thought + p.closeTag + answer
  {
    var core := p.openTag + thought + p.closeTag + answer;
    assert " " + p.openTag + thought + p.closeTag + answer + " " == " " + core + " ";
    StripPadded(core);
  }

  /** The evident intent of `_remove_thinking_tokens`: locate both tags in
      the stripped text and return it without the span from the first open
      tag through the end of the first close tag. */
  function RemoveThinkingBlock(p: ThinkingParser, text: string): string {
    var cleaned := Strip(text);
    var start := Find(cleaned, p.openTag, 0);
    var end := Find(cleaned, p.closeTag, 0);
    if start != -1 && end != -1 then
      PySlice(cleaned, 0, start) + PySlice(cleaned, end + |p.closeTag|, |cleaned|)
    else
      cleaned
  }

  /** With the corrected cleaner, a reply made of one leading thinking
      block followed by an answer comes back as the answer alone. */
  lemma RemoveThinkingBlockDropsBlock(p: ThinkingParser, thought: string, answer: string)
    requires |p.openTag| > 0
    requires forall k :: 0 <= k < |p.openTag| + |thought| ==> !OccursAt(p.openTag + thought + p.closeTag + answer, p.closeTag, k)
    requires Strip(p.openTag + thought + p.closeTag + answer) == p.openTag + thought + p.closeTag + answer
    ensures RemoveThinkingBlock(p, p.openTag + thought + p.closeTag + answer) == answer
  {
    var text := p.openTag + thought + p.closeTag + answer;
    var e := |p.openTag| + |thought|;
    assert text[..|p.openTag|] == p.openTag;
    assert OccursAt(text, p.openTag, 0);
    assert text[e .. e + |p.closeTag|] == p.closeTag;
    assert OccursAt(text, p.closeTag, e);
    assert Find(text, p.closeTag, 0) == e;
    assert text[e + |p.closeTag| ..] == answer;
  }

  /** `parse`: the library parser applied to the cleaned text. */
  function Parse(p: ThinkingParser, text: string): (r: Result<Record>)
    ensures r == p.lib.parse(p.schemas, Strip(text))
  {
    p.lib.parse(p.schemas, RemoveThinkingTokens(p, text))
  }

  /** `parse` with the corrected cleaner: the library parser applied to the
      text without its thinking block. */
  function ParseWithoutThinking(p: ThinkingParser, text: string): Result<Record> {
    p.lib.parse(p.schemas, RemoveThinkingBlock(p, text))
  }

  /** On a reply that opens with a thinking block, the corrected parser
      sees only the answer, while the parser as written sees the block
      too. */
  lemma ThinkingBlockReachesParser(p: ThinkingParser, thought: string, answer: string)
    requires |p.openTag| > 0
    requires forall k :: 0 <= k < |p.openTag| + |thought| ==> !OccursAt(p.openTag + thought + p.closeTag + answer, p.closeTag, k)
    requires Strip(p.openTag + thought + p.closeTag + answer) == p.openTag + thought + p.closeTag + answer
    ensures ParseWithoutThinking(p, p.openTag + thought + p.closeTag + answer) == p.lib.parse(p.schemas, answer)
    ensures Parse(p, p.openTag + thought + p.closeTag + answer) == p.lib.parse(p.schemas, p.openTag + thought + p.closeTag + answer)
  {
    RemoveThinkingBlockDropsBlock(p, thought, answer);
  }

  /** `get_format_instructions()`: rendered by the library from the same
      schema list the parser checks against. */
  function FormatInstructions(p: ThinkingParser): string {
    p.lib.formatInstructions(p.schemas)
  }

  /** With a well-behaved library, every successful parse holds each field
      of the parser's schema, and every failure is a parser error. */
  lemma ParseHoldsSchema(p: ThinkingParser, text: string)
    requires WellBehaved(p.lib)
    ensures Parse(p, text).Ok? ==> forall i :: 0 <= i < |p.schemas| ==> p.schemas[i].name in Parse(p, text).value
    ensures Parse(p, text).Err? ==> Parse(p, text).error.OutputParserError?
  {
    var r := p.lib.parse(p.schemas, Strip(text));
    assert match r
      case Ok(record) => forall i :: 0 <= i < |p.schemas| ==> p.schemas[i].name in record
      case Err(e) => e.OutputParserError?;
  }
}
