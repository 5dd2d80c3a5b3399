/** The pieces of the chain library the pipeline is built from: prompts,
    the language model as an oracle, `prompt | llm | parser` invocation,
    `batch`, `with_retry`, and the dictionaries chains pass along.
 */
module Runnables {
  import opened Results
  import opened Json
  import opened Reviews
  import opened Prompts
  import opened OutputParsers

  /** One message of a chat prompt: a fixed system text, or a human
      message rendered from a template. */
  datatype Message = System(text: string) | Human(template: Template)

  /** A chat prompt together with the variables it is rendered with. */
  datatype Prompt = Prompt(messages: seq<Message>, vars: map<string, string>)

  /** The language model: the completion text it returns for a prompt on
      its `draw`-th sampling. Stages call it with draw 0; a retry draws
      again. */
  type Llm = (Prompt, nat) -> string

  /** `(prompt | llm | parser).invoke(vars)` on the given draw. */
  function Invoke(llm: Llm, parser: ThinkingParser, messages: seq<Message>, vars: map<string, string>, draw: nat): Result<Record> {
    Parse(parser, llm(Prompt(messages, vars), draw))
  }

  /** `(prompt | llm | parser).batch(inputs)`: one invocation per input,
      results in input order; the first failure is raised. */
  function BatchInvoke(llm: Llm, parser: ThinkingParser, messages: seq<Message>, inputs: seq<map<string, string>>): (r: Result<seq<Record>>)
    ensures r.Ok? ==> |r.value| == |inputs|
    ensures r.Ok? ==> forall i :: 0 <= i < |inputs| ==> Invoke(llm, parser, messages, inputs[i], 0) == Ok(r.value[i])
    ensures r.Err? ==> exists i :: 0 <= i < |inputs| && Invoke(llm, parser, messages, inputs[i], 0) == Err(r.error)
    ensures (forall i :: 0 <= i < |inputs| ==> Invoke(llm, parser, messages, inputs[i], 0).Ok?) ==> r.Ok?
  {
    if |inputs| == 0 then Ok([])
    else
      var first :- Invoke(llm, parser, messages, inputs[0], 0);
      var rest :- BatchInvoke(llm, parser, messages, inputs[1..]);
      Ok([first] + rest)
  }

  // ---------------------------------------------------------------------
  // with_retry
  // ---------------------------------------------------------------------

  /** Whether `with_retry(retry_if_exception_type=[OutputParserException])`
      tries again after this outcome. */
  predicate Retryable<T>(r: Result<T>) {
    r.Err? && r.error.OutputParserError?
  }

  /** The number of attempts `stop_after_attempt(n)` allows: n attempts
      for a positive n, and one for a negative n, since the stop condition
      already holds after the first attempt. For n = 0 the library sets no
      stop at all; that case is given one attempt here. */
  function AttemptLimit(stopAfterAttempt: int): (k: nat)
    ensures k >= 1
    ensures stopAfterAttempt >= 1 ==> k == stopAfterAttempt
    ensures stopAfterAttempt < 0 ==> k == 1
  {
    if stopAfterAttempt < 1 then 1 else stopAfterAttempt
  }

  /** Attempts from number `k` on, given the outcome of each attempt. */
  function RetryFrom<T>(attempt: nat -> Result<T>, k: nat, limit: nat): Result<T>
    requires k < limit
    decreases limit - k
  {
    if !Retryable(attempt(k)) || k + 1 >= limit then attempt(k)
    else RetryFrom(attempt, k + 1, limit)
  }

  /** `runnable.with_retry(stop_after_attempt=n,
      retry_if_exception_type=[OutputParserException])`, where `attempt(k)`
      is the outcome of the `k`-th try. */
  function WithRetry<T>(attempt: nat -> Result<T>, stopAfterAttempt: int): Result<T> {
    RetryFrom(attempt, 0, AttemptLimit(stopAfterAttempt))
  }

  /** How many attempts the retry loop makes. */
  function AttemptsFrom<T>(attempt: nat -> Result<T>, k: nat, limit: nat): (n: nat)
    requires k < limit
    ensures k < n <= limit
    decreases limit - k
  {
    if !Retryable(attempt(k)) || k + 1 >= limit then k + 1
    else AttemptsFrom(attempt, k + 1, limit)
  }

  /** The retry loop makes `n` attempts, at least one and at most the
      limit; every attempt before the last raised a parser error; the
      outcome is the last attempt's; and if attempts were left, that last
      outcome was not a parser error. */
  lemma {:induction false} RetryOutcome<T>(attempt: nat -> Result<T>, k: nat, limit: nat)
    requires k < limit
    ensures var n := AttemptsFrom(attempt, k, limit);
      && RetryFrom(attempt, k, limit) == attempt(n - 1)
      && (forall j :: k <= j < n - 1 ==> Retryable(attempt(j)))
      && (n < limit ==> !Retryable(attempt(n - 1)))
    decreases limit - k
  {
    if Retryable(attempt(k)) && k + 1 < limit {
      RetryOutcome(attempt, k + 1, limit);
    }
  }

  /** The retry wrapper's outcome is that of its last attempt, made within
      the limit after parser errors only. */
  lemma WithRetryOutcome<T>(attempt: nat -> Result<T>, stopAfterAttempt: int)
    ensures var n := AttemptsFrom(attempt, 0, AttemptLimit(stopAfterAttempt));
      && 1 <= n <= AttemptLimit(stopAfterAttempt)
      && WithRetry(attempt, stopAfterAttempt) == attempt(n - 1)
      && forall j :: 0 <= j < n - 1 ==> Retryable(attempt(j))
  {
    RetryOutcome(attempt, 0, AttemptLimit(stopAfterAttempt));
  }

  /** The retry wrapper succeeds exactly when some attempt within the limit
      succeeds after only parser errors before it. */
  lemma WithRetrySucceeds<T>(attempt: nat -> Result<T>, stopAfterAttempt: int)
    ensures WithRetry(attempt, stopAfterAttempt).Ok?
        <==> exists k :: 0 <= k < AttemptLimit(stopAfterAttempt) && attempt(k).Ok?
                      && forall j :: 0 <= j < k ==> Retryable(attempt(j))
  {
    var limit := AttemptLimit(stopAfterAttempt);
    RetryOutcome(attempt, 0, limit);
    var n := AttemptsFrom(attempt, 0, limit);
    if exists k :: 0 <= k < limit && attempt(k).Ok? && forall j :: 0 <= j < k ==> Retryable(attempt(j)) {
      var k :| 0 <= k < limit && attempt(k).Ok? && forall j :: 0 <= j < k ==> Retryable(attempt(j));
      assert n - 1 == k;
    }
  }

  /** The pass-through of an error that is not a parser error: it is
      raised on the first attempt, without retrying. */
  lemma WithRetryStopsOnOtherErrors<T>(attempt: nat -> Result<T>, stopAfterAttempt: int)
    requires attempt(0).Err? && !attempt(0).error.OutputParserError?
    ensures WithRetry(attempt, stopAfterAttempt) == attempt(0)
  {
  }

  /** An attempt that fails to parse twice and then succeeds. */
  function FlakyAttempt(k: nat): Result<int> {
    if k < 2 then Err(OutputParserError("malformed")) else Ok(7)
  }

  /** With three attempts allowed the third try's result comes through;
      with two (the pipeline's default) the second parser error is raised. */
  lemma FlakyAttemptNeedsThree()
    ensures WithRetry(FlakyAttempt, 3) == Ok(7)
    ensures WithRetry(FlakyAttempt, 2) == Err(OutputParserError("malformed"))
    ensures WithRetry(FlakyAttempt, 1) == Err(OutputParserError("malformed"))
  {
    assert RetryFrom(FlakyAttempt, 2, 3) == Ok(7);
    assert RetryFrom(FlakyAttempt, 1, 3) == Ok(7);
    assert RetryFrom(FlakyAttempt, 1, 2) == Err(OutputParserError("malformed"));
  }

  // ---------------------------------------------------------------------
  // Chain dictionaries
  // ---------------------------------------------------------------------

  /** A value held in a chain's input or output dictionary. */
  datatype Slot =
    | ReviewList(reviews: seq<Review>)
    | RecordList(records: seq<Record>)
    | TextSlot(text: string)
    | Parsed(value: Value)
    | Nested(fields: map<string, Slot>)

  /** The dictionary a chain is invoked with and returns. */
  type Context = map<string, Slot>

  /** `ctx[key]` read as a review list. */
  function GetReviews(ctx: Context, key: string): (r: Result<seq<Review>>)
    ensures r.Ok? <==> key in ctx && ctx[key].ReviewList?
    ensures r.Ok? ==> r.value == ctx[key].reviews
    ensures key !in ctx ==> r == Err(KeyError(key))
  {
    if key !in ctx then Err(KeyError(key))
    else if ctx[key].ReviewList? then Ok(ctx[key].reviews)
    else Err(TypeError(key))
  }

  /** `ctx[key]` read as a list of parsed records. */
  function GetRecords(ctx: Context, key: string): (r: Result<seq<Record>>)
    ensures r.Ok? <==> key in ctx && ctx[key].RecordList?
    ensures r.Ok? ==> r.value == ctx[key].records
    ensures key !in ctx ==> r == Err(KeyError(key))
  {
    if key !in ctx then Err(KeyError(key))
    else if ctx[key].RecordList? then Ok(ctx[key].records)
    else Err(TypeError(key))
  }

  /** `ctx[key]` read as a string. */
  function GetText(ctx: Context, key: string): (r: Result<string>)
    ensures r.Ok? <==> key in ctx && ctx[key].TextSlot?
    ensures r.Ok? ==> r.value == ctx[key].text
    ensures key !in ctx ==> r == Err(KeyError(key))
  {
    if key !in ctx then Err(KeyError(key))
    else if ctx[key].TextSlot? then Ok(ctx[key].text)
    else Err(TypeError(key))
  }

  /** A parsed record as a chain's output dictionary. */
  function FromRecord(record: Record): (ctx: Context)
    ensures ctx.Keys == record.Keys
    ensures forall k :: k in record ==> ctx[k] == Parsed(record[k])
  {
    map k | k in record :: Parsed(record[k])
  }

  /** `Chain.invoke(inputs)`: the chain's `_call` outputs laid over its
      inputs. */
  function InvokeChain(call: Context -> Result<Context>, inputs: Context): (r: Result<Context>)
    ensures call(inputs).Err? ==> r == Err(call(inputs).error)
    ensures call(inputs).Ok? ==> r.Ok? && r.value.Keys == inputs.Keys + call(inputs).value.Keys
    ensures call(inputs).Ok? ==> forall k :: k in call(inputs).value ==> r.value[k] == call(inputs).value[k]
    ensures call(inputs).Ok? ==> forall k :: k in inputs && k !in call(inputs).value ==> r.value[k] == inputs[k]
  {
    var outputs :- call(inputs);
    Ok(inputs + outputs)
  }
}
