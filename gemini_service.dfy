/**
 * The provider-facing service: the retry policy, the error classification, the
 * suggestions fallback, the stage transcript of the compile request and the
 * accumulation of a streamed answer. The provider itself is a script: the
 * outcome of attempt k is `fn(k)`, and a stream is its chunks followed by an
 * optional failure.
 */
module GeminiService {
  import opened Types
  import opened Text
  import Config

  datatype Error = Error(message: string)
  datatype Outcome<+T> = Ok(value: T) | Err(error: Error)

  const ApiKeyInvalid: string := "API_KEY_INVALID"
  const DefaultMaxRetries: int := 3
  const DefaultBaseDelay: int := 1000

  // ---------------------------------------------------------------------------
  // withRetry
  // ---------------------------------------------------------------------------

  function Pow2(n: nat): (p: nat)
    ensures p >= 1
  {
    if n == 0 then 1 else 2 * Pow2(n - 1)
  }

  /** A failure that the retry loop tries again after: anything but the invalid-key error. */
  predicate Retryable<T>(o: Outcome<T>) {
    o.Err? && o.error.message != ApiKeyInvalid
  }

  /** What one call of `withRetry` produces: its result, the waits it made, and how often it called `fn`. */
  datatype RetryRun<+T> = RetryRun(result: Outcome<T>, delays: seq<int>, calls: nat)

  /** The attempt loop from attempt number `attempt` on. */
  function RetryFrom<T>(fn: nat -> Outcome<T>, maxRetries: int, baseDelay: int, attempt: nat): RetryRun<T>
    decreases maxRetries - attempt
  {
    if attempt > maxRetries then RetryRun(Err(Error("Unreachable")), [], 0)
    else match fn(attempt)
      case Ok(v) => RetryRun(Ok(v), [], 1)
      case Err(e) =>
        if e.message == ApiKeyInvalid || attempt == maxRetries then RetryRun(Err(e), [], 1)
        else
          var rest := RetryFrom(fn, maxRetries, baseDelay, attempt + 1);
          RetryRun(rest.result, [baseDelay * Pow2(attempt)] + rest.delays, rest.calls + 1)
  }

  function Retry<T>(fn: nat -> Outcome<T>, maxRetries: int, baseDelay: int): RetryRun<T> {
    RetryFrom(fn, maxRetries, baseDelay, 0)
  }

  /** The waits before attempts 1..k: `baseDelay * 2^j` after the failure of attempt j. */
  function Backoff(baseDelay: int, k: nat): (d: seq<int>)
    ensures |d| == k && forall j :: 0 <= j < k ==> d[j] == baseDelay * Pow2(j)
  {
    seq(k, j requires 0 <= j < k => baseDelay * Pow2(j))
  }

  /** Attempts a..k-1 all failed in a retryable way. */
  ghost predicate RetryableUpTo<T>(fn: nat -> Outcome<T>, a: nat, k: nat) {
    forall j: nat :: a <= j < k ==> Retryable(fn(j))
  }

  lemma {:induction false} RetryFromStopsAt<T>(fn: nat -> Outcome<T>, maxRetries: int, baseDelay: int, a: nat, k: nat)
    requires a <= k <= maxRetries
    requires RetryableUpTo(fn, a, k)
    requires k == maxRetries || !Retryable(fn(k))
    ensures RetryFrom(fn, maxRetries, baseDelay, a).result == fn(k)
    ensures RetryFrom(fn, maxRetries, baseDelay, a).calls == k - a + 1
    ensures RetryFrom(fn, maxRetries, baseDelay, a).delays == seq(k - a, j requires 0 <= j < k - a => baseDelay * Pow2(a + j))
    decreases k - a
  {
    if a < k {
      assert Retryable(fn(a));
      RetryFromStopsAt(fn, maxRetries, baseDelay, a + 1, k);
      var rest := RetryFrom(fn, maxRetries, baseDelay, a + 1);
      var tail := seq(k - (a + 1), j requires 0 <= j < k - (a + 1) => baseDelay * Pow2(a + 1 + j));
      assert rest.delays == tail;
      assert [baseDelay * Pow2(a)] + tail == seq(k - a, j requires 0 <= j < k - a => baseDelay * Pow2(a + j));
    }
  }

  /**
   * The loop stops at the first attempt k that succeeds or fails with the
   * invalid-key error, or at the last allowed attempt: it returns that attempt's
   * own outcome, has called `fn` exactly k+1 times (so not after a success), and
   * waited `baseDelay * 2^j` after each earlier failure j.
   */
  lemma RetryStopsAt<T>(fn: nat -> Outcome<T>, maxRetries: int, baseDelay: int, k: nat)
    requires k <= maxRetries
    requires RetryableUpTo(fn, 0, k)
    requires k == maxRetries || !Retryable(fn(k))
    ensures Retry(fn, maxRetries, baseDelay) == RetryRun(fn(k), Backoff(baseDelay, k), k + 1)
  {
    RetryFromStopsAt(fn, maxRetries, baseDelay, 0, k);
  }

  lemma {:induction false} RetryFromBounds<T>(fn: nat -> Outcome<T>, maxRetries: int, baseDelay: int, a: nat)
    requires a <= maxRetries
    ensures 1 <= RetryFrom(fn, maxRetries, baseDelay, a).calls <= maxRetries - a + 1
    ensures |RetryFrom(fn, maxRetries, baseDelay, a).delays| == RetryFrom(fn, maxRetries, baseDelay, a).calls - 1
    decreases maxRetries - a
  {
    match fn(a)
    case Ok(_) =>
    case Err(e) =>
      if e.message != ApiKeyInvalid && a != maxRetries {
        RetryFromBounds(fn, maxRetries, baseDelay, a + 1);
      }
  }

  /** `fn` is called at least once and at most maxRetries+1 times, with one wait between neighbouring calls. */
  lemma RetryBounds<T>(fn: nat -> Outcome<T>, maxRetries: int, baseDelay: int)
    requires maxRetries >= 0
    ensures 1 <= Retry(fn, maxRetries, baseDelay).calls <= maxRetries + 1
    ensures |Retry(fn, maxRetries, baseDelay).delays| == Retry(fn, maxRetries, baseDelay).calls - 1
  {
    RetryFromBounds(fn, maxRetries, baseDelay, 0);
  }

  /** With a negative retry budget the loop body never runs and the fall-through error is thrown. */
  lemma RetryNoBudget<T>(fn: nat -> Outcome<T>, maxRetries: int, baseDelay: int)
    requires maxRetries < 0
    ensures Retry(fn, maxRetries, baseDelay) == RetryRun(Err(Error("Unreachable")), [], 0)
  {
  }

  /** The invalid-key error on the first attempt is rethrown at once: one call, no wait. */
  lemma InvalidKeyNotRetried<T>(fn: nat -> Outcome<T>, maxRetries: int, baseDelay: int)
    requires maxRetries >= 0
    requires fn(0).Err? && fn(0).error.message == ApiKeyInvalid
    ensures Retry(fn, maxRetries, baseDelay) == RetryRun(fn(0), [], 1)
  {
    RetryStopsAt(fn, maxRetries, baseDelay, 0);
  }

  function Sum(s: seq<int>): int
    decreases |s|
  {
    if s == [] then 0 else Sum(s[..|s| - 1]) + s[|s| - 1]
  }

  /** The total wait before attempt k is baseDelay * (2^k - 1). */
  lemma {:induction false} BackoffTotal(baseDelay: int, k: nat)
    ensures Sum(Backoff(baseDelay, k)) == baseDelay * (Pow2(k) - 1)
    decreases k
  {
    if k > 0 {
      BackoffTotal(baseDelay, k - 1);
      assert Backoff(baseDelay, k)[..k - 1] == Backoff(baseDelay, k - 1);
    }
  }

  /** Three transient failures and then a success, with the defaults: the fourth outcome, waits 1000, 2000, 4000. */
  lemma ThreeFailuresThenSuccess<T>(fn: nat -> Outcome<T>)
    requires Retryable(fn(0)) && Retryable(fn(1)) && Retryable(fn(2)) && fn(3).Ok?
    ensures Retry(fn, DefaultMaxRetries, DefaultBaseDelay) == RetryRun(fn(3), [1000, 2000, 4000], 4)
    ensures Sum(Retry(fn, DefaultMaxRetries, DefaultBaseDelay).delays) == 7 * DefaultBaseDelay
  {
    RetryStopsAt(fn, DefaultMaxRetries, DefaultBaseDelay, 3);
    assert Pow2(1) == 2 && Pow2(2) == 4;
    BackoffTotal(DefaultBaseDelay, 3);
  }

  /**
   * `withRetry(fn, maxRetries, baseDelay)`: the attempt loop with early return
   * or rethrow. The waits are returned instead of slept.
   */
  method WithRetry<T>(fn: nat -> Outcome<T>, maxRetries: int, baseDelay: int)
    returns (result: Outcome<T>, delays: seq<int>, calls: nat)
    ensures RetryRun(result, delays, calls) == Retry(fn, maxRetries, baseDelay)
    ensures maxRetries >= 0 ==> 1 <= calls <= maxRetries + 1 && |delays| == calls - 1
  {
    delays, calls := [], 0;
    var attempt: nat := 0;
    while attempt <= maxRetries
      invariant calls == attempt
      invariant maxRetries >= 0 ==> attempt <= maxRetries
      invariant var rest := RetryFrom(fn, maxRetries, baseDelay, attempt);
        Retry(fn, maxRetries, baseDelay) == RetryRun(rest.result, delays + rest.delays, calls + rest.calls)
      decreases maxRetries - attempt
    {
      var outcome := fn(attempt);
      calls := calls + 1;
      if outcome.Ok? {
        result := outcome;
        RetryBounds(fn, maxRetries, baseDelay);
        return;
      }
      if outcome.error.message == ApiKeyInvalid || attempt == maxRetries {
        result := outcome;
        RetryBounds(fn, maxRetries, baseDelay);
        return;
      }
      delays := delays + [baseDelay * Pow2(attempt)];
      attempt := attempt + 1;
    }
    result := Err(Error("Unreachable"));
  }

  // ---------------------------------------------------------------------------
  // Error classification and the per-attempt bodies
  // ---------------------------------------------------------------------------

  /** `isApiKeyError`: the message mentions a missing entity or the API key. */
  function IsApiKeyError(e: Error): (b: bool)
    ensures b <==> (exists i :: OccursAt(e.message, "Requested entity was not found", i))
                   || (exists i :: OccursAt(e.message, "API key", i))
  {
    ContainsIff(e.message, "Requested entity was not found");
    ContainsIff(e.message, "API key");
    Contains(e.message, "Requested entity was not found") || Contains(e.message, "API key")
  }

  /** The catch block of both provider calls: key errors become `API_KEY_INVALID`, the rest pass unchanged. */
  function ProviderError(e: Error): (r: Error)
    ensures IsApiKeyError(e) ==> r.message == ApiKeyInvalid
    ensures !IsApiKeyError(e) ==> r == e
  {
    if IsApiKeyError(e) then Error(ApiKeyInvalid) else e
  }

  /** A failure the provider reports about the key is never retried once it has passed the catch block. */
  lemma KeyErrorsNotRetryable<T>(e: Error)
    requires IsApiKeyError(e)
    ensures !Retryable(Outcome<T>.Err(ProviderError(e)))
  {
  }

  /**
   * What one attempt of `generateWritingSuggestions` meets: the client
   * construction throws before the `try` block, or the call inside the `try`
   * gives the parsed reply's `suggestions` field (None when it is missing) or
   * throws.
   */
  datatype Reply = ClientFailure(error: Error) | Response(outcome: Outcome<Option<seq<Suggestion>>>)

  /** One attempt: only a failure inside the `try` block passes through the catch block's mapping. */
  function SuggestionsOutcome(reply: Reply): (r: Outcome<seq<Suggestion>>)
    ensures reply.ClientFailure? ==> r == Err(reply.error)
    ensures reply.Response? && reply.outcome.Ok? && reply.outcome.value.None? ==> r == Ok([])
    ensures reply.Response? && reply.outcome.Ok? && reply.outcome.value.Some? ==> r == Ok(reply.outcome.value.value)
    ensures reply.Response? && reply.outcome.Err? ==> r == Err(ProviderError(reply.outcome.error))
  {
    match reply
    case ClientFailure(e) => Err(e)
    case Response(Ok(field)) => Ok(field.GetOr([]))
    case Response(Err(e)) => Err(ProviderError(e))
  }

  function SuggestionAttempts(replies: nat -> Reply): nat -> Outcome<seq<Suggestion>> {
    (k: nat) => SuggestionsOutcome(replies(k))
  }

  /** What the editor passes to `generateWritingSuggestions`; it feeds only the prompt. */
  datatype SuggestionRequest = SuggestionRequest(
    step: WritingStep,
    context: string,
    customRequests: string,
    previousSteps: string,
    targetLength: ArticleLength)

  /** `generateWritingSuggestions`: the retry loop, with the defaults, over the scripted replies. */
  method GenerateWritingSuggestions(request: SuggestionRequest, replies: nat -> Reply)
    returns (result: Outcome<seq<Suggestion>>, delays: seq<int>)
    ensures var run := Retry(SuggestionAttempts(replies), DefaultMaxRetries, DefaultBaseDelay);
      result == run.result && delays == run.delays
    ensures |delays| <= DefaultMaxRetries
  {
    var calls;
    result, delays, calls := WithRetry(SuggestionAttempts(replies), DefaultMaxRetries, DefaultBaseDelay);
  }

  // ---------------------------------------------------------------------------
  // Streaming
  // ---------------------------------------------------------------------------

  /**
   * What one attempt of `compileFinalArticleStream` meets: a failure of the
   * client construction before the `try` block, or else the chunks delivered
   * (a chunk may carry no text) followed by success or a failure.
   */
  datatype Stream = Stream(clientFailure: Option<Error>, chunks: seq<Option<string>>, failure: Option<Error>)

  /** One call of `onChunk(text, accumulated)`. */
  datatype Callback = Callback(text: string, accumulated: string)

  function ChunkText(c: Option<string>): string {
    c.GetOr("")
  }

  /** The chunk texts concatenated in order, a missing text counting as empty. */
  function Accumulated(chunks: seq<Option<string>>): string
    decreases |chunks|
  {
    if chunks == [] then "" else Accumulated(chunks[..|chunks| - 1]) + ChunkText(chunks[|chunks| - 1])
  }

  /** Accumulation distributes over splitting the stream. */
  lemma {:induction false} AccumulatedAppend(a: seq<Option<string>>, b: seq<Option<string>>)
    ensures Accumulated(a + b) == Accumulated(a) + Accumulated(b)
    decreases |b|
  {
    if b == [] {
      assert a + b == a;
    } else {
      var b', last := b[..|b| - 1], ChunkText(b[|b| - 1]);
      var ab := a + b;
      assert ab[..|ab| - 1] == a + b';
      assert ab[|ab| - 1] == b[|b| - 1];
      assert Accumulated(ab) == Accumulated(a + b') + last;
      assert Accumulated(b) == Accumulated(b') + last;
      AccumulatedAppend(a, b');
      assert Accumulated(a) + Accumulated(b') + last == Accumulated(a) + (Accumulated(b') + last);
    }
  }

  /** Each partial article extends the one before it within an attempt. */
  lemma AccumulatedGrows(chunks: seq<Option<string>>, i: nat, j: nat)
    requires i <= j <= |chunks|
    ensures Accumulated(chunks[..i]) <= Accumulated(chunks[..j])
  {
    assert chunks[..j] == chunks[..i] + chunks[i..j];
    AccumulatedAppend(chunks[..i], chunks[i..j]);
  }

  /** The `onChunk` calls a stream's delivered chunks cause, in order. */
  function StreamCallbacks(chunks: seq<Option<string>>): (cbs: seq<Callback>)
    ensures |cbs| == |chunks|
  {
    seq(|chunks|, i requires 0 <= i < |chunks| => Callback(ChunkText(chunks[i]), Accumulated(chunks[..i + 1])))
  }

  lemma StreamCallbacksSnoc(chunks: seq<Option<string>>, c: Option<string>)
    ensures StreamCallbacks(chunks + [c]) ==
      StreamCallbacks(chunks) + [Callback(ChunkText(c), Accumulated(chunks) + ChunkText(c))]
  {
    var ext := chunks + [c];
    assert ext[..|ext| - 1] == chunks;
    forall j | 0 <= j < |chunks| ensures StreamCallbacks(ext)[j] == StreamCallbacks(chunks)[j] {
      assert ext[..j + 1] == chunks[..j + 1];
    }
    assert ext[..|chunks| + 1] == ext;
  }

  /** The `onChunk` call for chunk i extends the previous call's accumulated text (`''` for i = 0) by its own text. */
  lemma StreamCallbackStep(chunks: seq<Option<string>>, i: nat)
    requires i < |chunks|
    ensures StreamCallbacks(chunks)[i].accumulated ==
      (if i == 0 then "" else StreamCallbacks(chunks)[i - 1].accumulated) + StreamCallbacks(chunks)[i].text
  {
    var pre := chunks[..i + 1];
    assert pre[..|pre| - 1] == chunks[..i];
    assert StreamCallbacks(chunks)[i].accumulated == Accumulated(chunks[..i]) + ChunkText(chunks[i]);
    if i == 0 {
      assert chunks[..i] == [];
      assert Accumulated(chunks[..i]) == "";
    } else {
      assert StreamCallbacks(chunks)[i - 1].accumulated == Accumulated(chunks[..i]);
    }
  }

  /**
   * Each `onChunk` call passes the previous call's accumulated text (or `''`
   * for the first chunk) extended by its own text, and the last call passes
   * exactly what the attempt returns.
   */
  lemma StreamCallbacksChain(chunks: seq<Option<string>>)
    ensures forall i :: 0 <= i < |chunks| ==>
      StreamCallbacks(chunks)[i].accumulated ==
        (if i == 0 then "" else StreamCallbacks(chunks)[i - 1].accumulated) + StreamCallbacks(chunks)[i].text
    ensures |chunks| > 0 ==> StreamCallbacks(chunks)[|chunks| - 1].accumulated == Accumulated(chunks)
  {
    forall i | 0 <= i < |chunks|
      ensures StreamCallbacks(chunks)[i].accumulated ==
        (if i == 0 then "" else StreamCallbacks(chunks)[i - 1].accumulated) + StreamCallbacks(chunks)[i].text
    {
      StreamCallbackStep(chunks, i);
    }
    assert chunks[..|chunks|] == chunks;
  }

  /** The accumulation loop: `accumulated += text; onChunk(text, accumulated)` per chunk. */
  method AccumulateStream(chunks: seq<Option<string>>) returns (accumulated: string, callbacks: seq<Callback>)
    ensures accumulated == Accumulated(chunks)
    ensures callbacks == StreamCallbacks(chunks)
  {
    accumulated, callbacks := "", [];
    var i := 0;
    while i < |chunks|
      invariant 0 <= i <= |chunks|
      invariant accumulated == Accumulated(chunks[..i])
      invariant callbacks == StreamCallbacks(chunks[..i])
    {
      var text := ChunkText(chunks[i]);
      accumulated := accumulated + text;
      callbacks := callbacks + [Callback(text, accumulated)];
      assert chunks[..i + 1][..i] == chunks[..i];
      StreamCallbacksSnoc(chunks[..i], chunks[i]);
      assert chunks[..i] + [chunks[i]] == chunks[..i + 1];
      i := i + 1;
    }
    assert chunks[..i] == chunks;
  }

  /**
   * One attempt of `compileFinalArticleStream`: a client failure unmapped,
   * otherwise the concatenation, or the streaming failure after the catch block.
   */
  function StreamOutcome(st: Stream): (r: Outcome<string>)
    ensures st.clientFailure.Some? ==> r == Err(st.clientFailure.value)
    ensures st.clientFailure.None? && st.failure.None? ==> r == Ok(Accumulated(st.chunks))
    ensures st.clientFailure.None? && st.failure.Some? ==> r == Err(ProviderError(st.failure.value))
  {
    if st.clientFailure.Some? then Err(st.clientFailure.value)
    else if st.failure.Some? then Err(ProviderError(st.failure.value))
    else Ok(Accumulated(st.chunks))
  }

  /** The `onChunk` calls of one attempt: none when the client could not be constructed. */
  function StreamAttemptCallbacks(st: Stream): (cbs: seq<Callback>)
    ensures st.clientFailure.Some? ==> cbs == []
    ensures st.clientFailure.None? ==> cbs == StreamCallbacks(st.chunks)
  {
    if st.clientFailure.Some? then [] else StreamCallbacks(st.chunks)
  }

  /**
   * A client failure reaches the retry loop unmapped: even a message about the
   * API key is retried, while the same message thrown inside the `try` block
   * becomes `API_KEY_INVALID` and is not.
   */
  lemma ClientFailuresUnmapped(e: Error)
    requires e.message != ApiKeyInvalid
    ensures Retryable(SuggestionsOutcome(ClientFailure(e)))
    ensures Retryable(StreamOutcome(Stream(Some(e), [], None)))
    ensures IsApiKeyError(e) ==> !Retryable(SuggestionsOutcome(Response(Err(e))))
    ensures IsApiKeyError(e) ==> !Retryable(StreamOutcome(Stream(None, [], Some(e))))
  {
  }

  function CompileAttempts(streams: nat -> Stream): nat -> Outcome<string> {
    (k: nat) => StreamOutcome(streams(k))
  }

  /** The `onChunk` calls of the first n attempts, each attempt starting again from the empty string. */
  function AttemptCallbacks(streams: nat -> Stream, n: nat): seq<Callback>
    decreases n
  {
    if n == 0 then [] else AttemptCallbacks(streams, n - 1) + StreamAttemptCallbacks(streams(n - 1))
  }

  // ---------------------------------------------------------------------------
  // The stage transcript of the compile request
  // ---------------------------------------------------------------------------

  const StageSeparator: string := "\n\n---\n\n"

  /** `STEPS_CONFIG[i]?.name || s.step`. */
  function StageLabel(i: nat, s: StepData): string {
    if i < |Config.StepsConfig| && Config.StepsConfig[i].name != "" then Config.StepsConfig[i].name
    else s.step.Name()
  }

  function StageBlock(i: nat, s: StepData): string {
    "[" + StageLabel(i, s) + "]\n" + s.finalContent
  }

  function StageBlocks(steps: seq<StepData>): (b: seq<string>)
    ensures |b| == |steps|
  {
    seq(|steps|, i requires 0 <= i < |steps| => StageBlock(i, steps[i]))
  }

  /** `stepsContext`: every stage's block, in stage order, separated by a rule. */
  function StepsContext(steps: seq<StepData>): string {
    Join(StageBlocks(steps), StageSeparator)
  }

  /** Each of the six blocks is headed by that stage's own name, so the tag field is never consulted. */
  lemma StageBlockOfStep(i: nat, s: StepData)
    requires i < StepCount
    ensures StageBlock(i, s) == "[" + StepAt(i).Name() + "]\n" + s.finalContent
  {
    Config.StepsConfigMatchesSteps();
  }

  /** The transcript grows by one separator and one block per stage. */
  lemma StepsContextSnoc(steps: seq<StepData>, s: StepData)
    ensures StepsContext(steps + [s]) ==
      if steps == [] then StageBlock(0, s) else StepsContext(steps) + StageSeparator + StageBlock(|steps|, s)
  {
    assert StageBlocks(steps + [s]) == StageBlocks(steps) + [StageBlock(|steps|, s)];
    JoinSnoc(StageBlocks(steps), StageSeparator, StageBlock(|steps|, s));
  }

  /** What the editor passes to `compileFinalArticleStream`; it feeds only the prompt. */
  datatype CompileRequest = CompileRequest(stepsContext: string, originalIdea: string, targetLength: ArticleLength)

  /**
   * `compileFinalArticleStream`: the retry loop, with the defaults, over the
   * scripted streams. Returns the prompt's stage transcript, the result, the
   * waits, and every `onChunk` call of every attempt made, in order.
   */
  method CompileFinalArticleStream(steps: seq<StepData>, originalIdea: string, targetLength: ArticleLength,
                                   streams: nat -> Stream)
    returns (request: CompileRequest, result: Outcome<string>, delays: seq<int>, callbacks: seq<Callback>)
    ensures request == CompileRequest(StepsContext(steps), originalIdea, targetLength)
    ensures var run := Retry(CompileAttempts(streams), DefaultMaxRetries, DefaultBaseDelay);
      result == run.result && delays == run.delays && callbacks == AttemptCallbacks(streams, run.calls)
  {
    request := CompileRequest(StepsContext(steps), originalIdea, targetLength);
    var calls;
    result, delays, calls := WithRetry(CompileAttempts(streams), DefaultMaxRetries, DefaultBaseDelay);
    callbacks := [];
    var k := 0;
    while k < calls
      invariant 0 <= k <= calls
      invariant callbacks == AttemptCallbacks(streams, k)
    {
      if streams(k).clientFailure.None? {
        var _, cbs := AccumulateStream(streams(k).chunks);
        callbacks := callbacks + cbs;
      }
      k := k + 1;
    }
  }
}
