/** A provider call that is tried again, but only while nothing of it has reached the caller.
  *
  * An attempt is a finite run of chunks that ends or fails; `lateAt` is the pull, if any, at which
  * the timer ran out before the provider answered.
  */
module Retries {
  import opened Wrappers

  datatype AIError = AIError(code: string, retryable: bool)

  datatype Failure = Raised(error: AIError) | Untyped

  datatype Ending = Ends | Fails(failure: Failure)

  datatype Attempt = Attempt(chunks: seq<string>, ending: Ending, lateAt: Option<nat>)

  datatype Pull = Chunk(text: string) | Done | Failed(failure: Failure)

  const TIMED_OUT := Fails(Raised(AIError("TIMEOUT", false)))

  function Pulled(a: Attempt, k: nat): Pull {
    if a.lateAt == Some(k) then Failed(TIMED_OUT.failure)
    else if k < |a.chunks| then Chunk(a.chunks[k])
    else if a.ending.Ends? then Done
    else Failed(a.ending.failure)
  }

  /** What a reader is handed: chunks, then the end or the failure. */
  datatype Stream = Stream(chunks: seq<string>, end: Ending)

  function Streamed(a: Attempt, k: nat): Stream
    decreases |a.chunks| - k
  {
    match Pulled(a, k)
    case Chunk(text) =>
      var rest := Streamed(a, k + 1);
      Stream([text] + rest.chunks, rest.end)
    case Done => Stream([], Ends)
    case Failed(failure) => Stream([], Fails(failure))
  }

  /** Where an attempt's own stream is cut: at the pull that ran out of time, or nowhere. */
  function CutOff(a: Attempt): (cut: nat)
    ensures cut <= |a.chunks|
  {
    if a.lateAt.Some? && a.lateAt.value <= |a.chunks| then a.lateAt.value else |a.chunks|
  }

  predicate RunsLate(a: Attempt) {
    a.lateAt.Some? && a.lateAt.value <= |a.chunks|
  }

  /** A reader gets an attempt's own chunks up to the late pull, and the attempt's own ending when none is late. */
  lemma {:induction false} StreamedIsAPrefix(a: Attempt, k: nat)
    requires k <= CutOff(a)
    ensures Streamed(a, k)
         == Stream(a.chunks[k..CutOff(a)], if RunsLate(a) then Fails(Raised(AIError("TIMEOUT", false))) else a.ending)
    decreases |a.chunks| - k
  {
    if k < CutOff(a) {
      StreamedIsAPrefix(a, k + 1);
    }
  }

  /** Worth another attempt: any timeout before the first chunk, and whatever its error calls retryable. */
  predicate WorthRetrying(failure: Failure) {
    failure.Raised? && (failure.error.code == "TIMEOUT" || failure.error.retryable)
  }

  function Remembered(error: AIError): AIError {
    if error.code == "TIMEOUT" then AIError("TIMEOUT", true) else error
  }

  /** One call through the retry tier: what the caller got and how many attempts were started. */
  datatype Run = Run(chunks: seq<string>, end: Ending, attempts: nat)

  function GaveUp(lastError: Option<AIError>): Ending {
    Fails(Raised(if lastError.Some? then lastError.value else AIError("RETRY_EXHAUSTED", false)))
  }

  function RetryFrom(provider: nat -> Attempt, attempt: nat, maxAttempts: int, lastError: Option<AIError>): Run
    decreases maxAttempts - attempt
  {
    if attempt > maxAttempts then Run([], GaveUp(lastError), 0)
    else
      match Pulled(provider(attempt), 0)
      case Chunk(text) =>
        var rest := Streamed(provider(attempt), 1);
        Run([text] + rest.chunks, rest.end, 1)
      case Done => Run([], Ends, 1)
      case Failed(failure) =>
        if !WorthRetrying(failure) then Run([], Fails(failure), 1)
        else
          var rest := RetryFrom(provider, attempt + 1, maxAttempts, Some(Remembered(failure.error)));
          rest.(attempts := rest.attempts + 1)
  }

  function SendMessage(provider: nat -> Attempt, maxAttempts: int): Run {
    RetryFrom(provider, 1, maxAttempts, None)
  }

  /** An attempt that failed before its first chunk, in a way another attempt may mend. */
  predicate FailedFast(a: Attempt) {
    Pulled(a, 0).Failed? && WorthRetrying(Pulled(a, 0).failure)
  }

  /** Read off the attempt itself: nothing came in time, or its own failure came first and was a timeout or
    * retryable. */
  predicate TriedAgain(a: Attempt) {
    || a.lateAt == Some(0)
    || (a.chunks == [] && a.ending.Fails? && a.ending.failure.Raised?
        && (a.ending.failure.error.code == "TIMEOUT" || a.ending.failure.error.retryable))
  }

  /** What a run that gives up on such an attempt raises: a timeout as a retryable one, anything else as it was. */
  function RaisedFor(a: Attempt): AIError
    requires TriedAgain(a)
  {
    if a.lateAt == Some(0) || a.ending.failure.error.code == "TIMEOUT" then AIError("TIMEOUT", true)
    else a.ending.failure.error
  }

  lemma FailedFastIsTriedAgain(a: Attempt)
    ensures FailedFast(a) <==> TriedAgain(a)
    ensures FailedFast(a) ==> Remembered(Pulled(a, 0).failure.error) == RaisedFor(a)
  {
  }

  /** The run stops at the first attempt that did not fail fast, and hands its reader that attempt's stream and no
    * other's. */
  predicate IsOneAttempt(provider: nat -> Attempt, from: nat, maxAttempts: int, run: Run) {
    && (from <= maxAttempts ==> 1 <= run.attempts <= maxAttempts - from + 1)
    && (from > maxAttempts ==> run.attempts == 0 && run.chunks == [])
    && (forall n: nat :: from <= n < from + run.attempts - 1 ==> TriedAgain(provider(n)))
    && (run.attempts > 0 ==>
          var last := provider(from + run.attempts - 1);
          if TriedAgain(last) then
            && from + run.attempts - 1 == maxAttempts
            && run.chunks == [] && run.end == Fails(Raised(RaisedFor(last)))
          else
            && run.chunks == last.chunks[..CutOff(last)]
            && run.end == if RunsLate(last) then Fails(Raised(AIError("TIMEOUT", false))) else last.ending)
  }

  lemma {:induction false} RetryHandsOnOneAttempt(provider: nat -> Attempt, attempt: nat, maxAttempts: int,
      lastError: Option<AIError>)
    ensures IsOneAttempt(provider, attempt, maxAttempts, RetryFrom(provider, attempt, maxAttempts, lastError))
    ensures attempt > maxAttempts ==>
              RetryFrom(provider, attempt, maxAttempts, lastError).end
              == Fails(Raised(if lastError.Some? then lastError.value else AIError("RETRY_EXHAUSTED", false)))
    decreases maxAttempts - attempt
  {
    if attempt <= maxAttempts {
      var a := provider(attempt);
      FailedFastIsTriedAgain(a);
      if FailedFast(a) {
        RetryHandsOnOneAttempt(provider, attempt + 1, maxAttempts, Some(Remembered(Pulled(a, 0).failure.error)));
      } else {
        StreamedIsAPrefix(a, 0);
      }
    }
  }

  // ----- In place -----

  method StreamWithIdleTimeout(a: Attempt, from: nat) returns (out: Stream)
    ensures out == Streamed(a, from)
  {
    var handed: seq<string> := [];
    var k := from;
    while true
      invariant from <= k
      invariant Streamed(a, from) == Stream(handed + Streamed(a, k).chunks, Streamed(a, k).end)
      decreases |a.chunks| - k
    {
      var next := Pulled(a, k);
      if next.Failed? {
        return Stream(handed, Fails(next.failure));
      }
      if next.Done? {
        return Stream(handed, Ends);
      }
      assert handed + ([next.text] + Streamed(a, k + 1).chunks) == (handed + [next.text]) + Streamed(a, k + 1).chunks;
      handed := handed + [next.text];
      k := k + 1;
    }
  }

  method RetryMessage(provider: nat -> Attempt, maxAttempts: int) returns (run: Run)
    ensures run == SendMessage(provider, maxAttempts)
  {
    var lastError: Option<AIError> := None;
    var attempt := 1;
    while attempt <= maxAttempts
      invariant 1 <= attempt && (attempt <= maxAttempts || maxAttempts < 1 || attempt == maxAttempts + 1)
      invariant SendMessage(provider, maxAttempts)
                == var rest := RetryFrom(provider, attempt, maxAttempts, lastError);
                  rest.(attempts := rest.attempts + attempt - 1)
    {
      var first := Pulled(provider(attempt), 0);
      if first.Failed? {
        if !WorthRetrying(first.failure) {
          return Run([], Fails(first.failure), attempt);
        }
        lastError := Some(Remembered(first.failure.error));
        attempt := attempt + 1;
        continue;
      }
      if first.Done? {
        return Run([], Ends, attempt);
      }
      var rest := StreamWithIdleTimeout(provider(attempt), 1);
      return Run([first.text] + rest.chunks, rest.end, attempt);
    }
    return Run([], GaveUp(lastError), attempt - 1);
  }
}
