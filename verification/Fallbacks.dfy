/** A chain of vendors, each behind its own retries, tried in order on an outage; one vendor answers. */
module Fallbacks {
  import opened Wrappers
  import opened Sequences
  import opened Retries

  const OUTAGE_CODES := {"SERVICE_UNAVAILABLE", "TIMEOUT", "RATE_LIMITED", "BEDROCK_ERROR", "PROVIDER_ERROR",
    "UNKNOWN_ERROR"}
  const CONFIGURATION_FAULTS := {"AUTH_ERROR", "ACCESS_DENIED", "VALIDATION_ERROR"}

  predicate FailsOver(failure: Failure) {
    && failure.Raised?
    && failure.error.code !in CONFIGURATION_FAULTS
    && (failure.error.retryable || failure.error.code in OUTAGE_CODES)
  }

  /** The caller's abort, as each check in turn would find it: before a vendor starts, and when one has failed. */
  datatype Signal = Signal(beforeVendor: nat -> bool, afterFailure: nat -> bool)

  /** What the caller got, how many vendors were started, and whose failures were reported as failovers. */
  datatype Turn = Turn(chunks: seq<string>, end: Ending, vendors: nat, reported: seq<nat>)

  /** A call that failed before its first chunk. */
  predicate FailedBlank(run: Run) {
    run.chunks == [] && run.end.Fails?
  }

  function ChainFrom(answers: seq<Run>, at: nat, signal: Signal, lastError: Ending): Turn
    requires at <= |answers|
    decreases |answers| - at
  {
    if at == |answers| then Turn([], lastError, 0, [])
    else if signal.beforeVendor(at) then Turn([], Ends, 0, [])
    else
      var run := answers[at];
      if !FailedBlank(run) then Turn(run.chunks, run.end, 1, [])
      else if signal.afterFailure(at) then Turn([], Ends, 1, [])
      else if !FailsOver(run.end.failure) then Turn([], run.end, 1, [])
      else
        var rest := ChainFrom(answers, at + 1, signal, run.end);
        rest.(vendors := rest.vendors + 1, reported := (if at + 1 < |answers| then [at] else []) + rest.reported)
  }

  /** What routes a vendor's failure onward: it handed nothing on, nobody aborted, and the failure is an outage, or has
    * been retried in vain, and no fault of the request's or the credential's. */
  predicate RoutesOn(run: Run, v: nat, signal: Signal) {
    && run.chunks == [] && !signal.afterFailure(v)
    && run.end.Fails? && run.end.failure.Raised?
    && var error := run.end.failure.error;
       && error.code != "AUTH_ERROR" && error.code != "ACCESS_DENIED" && error.code != "VALIDATION_ERROR"
       && (error.retryable || error.code == "SERVICE_UNAVAILABLE" || error.code == "TIMEOUT"
         || error.code == "RATE_LIMITED"
           || error.code == "BEDROCK_ERROR" || error.code == "PROVIDER_ERROR" || error.code == "UNKNOWN_ERROR")
  }

  lemma OnlyOutagesRouteOn(run: Run, v: nat, signal: Signal)
    ensures RoutesOn(run, v, signal) <==> FailedBlank(run) && !signal.afterFailure(v) && FailsOver(run.end.failure)
  {
  }

  /** A chain tried from `at`: every vendor but the last started routed on, and the last one's answer is the
    * caller's. */
  predicate IsOneVendor(answers: seq<Run>, at: nat, signal: Signal, t: Turn) {
    && at + t.vendors <= |answers|
    && (forall v: nat :: at <= v < at + t.vendors ==> !signal.beforeVendor(v))
    && (forall v: nat :: at <= v < at + t.vendors - 1 ==> RoutesOn(answers[v], v, signal))
    && (t.vendors == 0 ==> t.chunks == [] && t.reported == [])
    && (t.vendors > 0 ==>
          var l := at + t.vendors - 1;
          && t.chunks == answers[l].chunks
          && (!RoutesOn(answers[l], l, signal) ==>
                t.end == if answers[l].chunks == [] && answers[l].end.Fails? && signal.afterFailure(l) then Ends
                  else answers[l].end)
          && (RoutesOn(answers[l], l, signal) ==>
                if l + 1 == |answers| then t.end == answers[l].end else signal.beforeVendor(l + 1) && t.end == Ends)
          && (var reported := if RoutesOn(answers[l], l, signal) && l + 1 < |answers| then t.vendors else t.vendors - 1;
              t.reported == seq(reported, i => at + i)))
  }

  lemma ChainStops(answers: seq<Run>, at: nat, signal: Signal, lastError: Ending)
    requires at < |answers| && !signal.beforeVendor(at) && !RoutesOn(answers[at], at, signal)
    ensures var t := ChainFrom(answers, at, signal, lastError);
            && t == Turn(answers[at].chunks, t.end, 1, [])
            && t.end == if FailedBlank(answers[at]) && signal.afterFailure(at) then Ends else answers[at].end
  {
    OnlyOutagesRouteOn(answers[at], at, signal);
    hide RoutesOn, FailsOver;
  }

  lemma ChainGoesOn(answers: seq<Run>, at: nat, signal: Signal, lastError: Ending)
    requires at < |answers| && !signal.beforeVendor(at) && RoutesOn(answers[at], at, signal)
    ensures var rest := ChainFrom(answers, at + 1, signal, answers[at].end);
            ChainFrom(answers, at, signal, lastError)
            == rest.(vendors := rest.vendors + 1, reported := (if at + 1 < |answers| then [at] else []) + rest.reported)
    ensures answers[at].chunks == []
  {
    OnlyOutagesRouteOn(answers[at], at, signal);
    hide FailsOver;
  }

  /** How a turn ends when no vendor was started: with the last failure, or silently. */
  predicate EndsUnstarted(answers: seq<Run>, at: nat, signal: Signal, lastError: Ending, t: Turn) {
    t.vendors == 0 ==> if at == |answers| then t.end == lastError else signal.beforeVendor(at) && t.end == Ends
  }

  lemma OneVendorBefore(answers: seq<Run>, at: nat, signal: Signal, rest: Turn)
    requires at < |answers| && !signal.beforeVendor(at) && RoutesOn(answers[at], at, signal) && answers[at].chunks == []
    requires IsOneVendor(answers, at + 1, signal, rest) && EndsUnstarted(answers, at + 1, signal, answers[at].end, rest)
    ensures IsOneVendor(answers, at, signal,
              rest.(vendors := rest.vendors + 1, reported := (if at + 1 < |answers| then [at] else []) + rest.reported))
  {
    hide RoutesOn;
  }

  lemma {:induction false} ChainHandsOnOneVendor(answers: seq<Run>, at: nat, signal: Signal, lastError: Ending)
    requires at <= |answers|
    ensures IsOneVendor(answers, at, signal, ChainFrom(answers, at, signal, lastError))
    ensures EndsUnstarted(answers, at, signal, lastError, ChainFrom(answers, at, signal, lastError))
    decreases |answers| - at
  {
    hide RoutesOn, FailsOver;
    if at < |answers| && !signal.beforeVendor(at) {
      if RoutesOn(answers[at], at, signal) {
        hide IsOneVendor, ChainFrom;
        ChainGoesOn(answers, at, signal, lastError);
        ChainHandsOnOneVendor(answers, at + 1, signal, answers[at].end);
        OneVendorBefore(answers, at, signal, ChainFrom(answers, at + 1, signal, answers[at].end));
      } else {
        hide ChainFrom;
        ChainStops(answers, at, signal, lastError);
      }
    }
  }

  // ----- Retries inside the chain -----

  /** One provider call: which vendor, and which attempt at it. */
  datatype Call = Call(vendor: nat, attempt: nat)

  /** What every attempt at every vendor would give. */
  datatype World = World(attempt: Call -> Attempt, vendors: nat, maxAttempts: int)

  function AttemptsAt(w: World, vendor: nat): nat -> Attempt {
    (n: nat) => w.attempt(Call(vendor, n))
  }

  function Answers(w: World): (answers: seq<Run>)
    ensures |answers| == w.vendors
  {
    seq(w.vendors, v requires 0 <= v => SendMessage(AttemptsAt(w, v), w.maxAttempts))
  }

  function CallsTo(vendor: nat, attempts: nat): (calls: seq<Call>)
    ensures |calls| == attempts && forall i :: 0 <= i < attempts ==> calls[i] == Call(vendor, i + 1)
  {
    if attempts == 0 then [] else CallsTo(vendor, attempts - 1) + [Call(vendor, attempts)]
  }

  /** Every provider call made while the first `vendors` of a chain were tried, in order. */
  function CallsOf(answers: seq<Run>, vendors: nat): seq<Call>
    requires vendors <= |answers|
  {
    if vendors == 0 then [] else CallsOf(answers, vendors - 1) + CallsTo(vendors - 1, answers[vendors - 1].attempts)
  }

  /** The only call that may come after this one: the next attempt at the same vendor, or the first at the next. */
  predicate Follows(next: Call, call: Call) {
    next == Call(call.vendor, call.attempt + 1) || next == Call(call.vendor + 1, 1)
  }

  predicate HandedNothing(a: Attempt) {
    Pulled(a, 0).Failed?
  }

  lemma AnswerIs(w: World, v: nat)
    requires v < w.vendors
    ensures var run := Answers(w)[v];
            && (w.maxAttempts >= 1 ==> 1 <= run.attempts <= w.maxAttempts)
            && (w.maxAttempts < 1 ==> run.attempts == 0 && run.chunks == [])
            && (forall n: nat :: 1 <= n < run.attempts ==> HandedNothing(w.attempt(Call(v, n))))
            && (w.maxAttempts >= 1 ==>
                  var last := w.attempt(Call(v, run.attempts));
                  run.chunks <= last.chunks && (FailedBlank(run) ==> HandedNothing(last)))
  {
    var provider := AttemptsAt(w, v);
    RetryHandsOnOneAttempt(provider, 1, w.maxAttempts, None);
    var run := Answers(w)[v];
    assert run == SendMessage(provider, w.maxAttempts);
    forall n: nat | 1 <= n < run.attempts
      ensures HandedNothing(w.attempt(Call(v, n)))
    {
      assert FailedFast(provider(n));
    }
    if w.maxAttempts >= 1 {
      assert provider(run.attempts) == w.attempt(Call(v, run.attempts));
    }
  }

  /** The calls made while vendors were tried: in order, each next to the one before, no more than allowed, and all
    * blank but the last vendor's last. */
  lemma {:induction false} CallsGoInOrder(w: World, vendors: nat)
    requires vendors <= w.vendors && w.maxAttempts >= 1
    requires forall v: nat :: v < vendors - 1 ==> FailedBlank(Answers(w)[v])
    ensures var calls := CallsOf(Answers(w), vendors);
            && vendors <= |calls| <= vendors * w.maxAttempts
            && (vendors > 0 ==> calls[0] == Call(0, 1)
                                && calls[|calls| - 1] == Call(vendors - 1, Answers(w)[vendors - 1].attempts))
            && (forall i: nat :: i < |calls| - 1 ==>
                  HandedNothing(w.attempt(calls[i])) && Follows(calls[i + 1], calls[i]))
    decreases vendors
  {
    hide SendMessage, Answers, HandedNothing;
    if vendors > 0 {
      var v := vendors - 1;
      AnswerIs(w, v);
      CallsGoInOrder(w, v);
      var before := CallsOf(Answers(w), v);
      var attempts := Answers(w)[v].attempts;
      var calls := CallsOf(Answers(w), vendors);
      OneVendorMore(v, w.maxAttempts);
      forall i: nat | i < |calls| - 1
        ensures HandedNothing(w.attempt(calls[i])) && Follows(calls[i + 1], calls[i])
      {
        LinkInOrder(w, vendors, i);
      }
    }
  }

  lemma OneVendorMore(v: nat, n: nat)
    ensures v * n + n == (v + 1) * n
  {
  }

  lemma LinkInOrder(w: World, vendors: nat, i: nat)
    requires 0 < vendors <= w.vendors && w.maxAttempts >= 1
    requires forall v: nat :: v < vendors - 1 ==> FailedBlank(Answers(w)[v])
    requires var before := CallsOf(Answers(w), vendors - 1);
      && (vendors > 1 ==> before != [] && before[|before| - 1] == Call(vendors - 2, Answers(w)[vendors - 2].attempts))
      && (vendors == 1 ==> before == [])
      && (forall i: nat :: i < |before| - 1 ==>
            HandedNothing(w.attempt(before[i])) && Follows(before[i + 1], before[i]))
    requires i < |CallsOf(Answers(w), vendors)| - 1
    ensures var calls := CallsOf(Answers(w), vendors);
            HandedNothing(w.attempt(calls[i])) && Follows(calls[i + 1], calls[i])
  {
    var v := vendors - 1;
    var before := CallsOf(Answers(w), v);
    AnswerIs(w, v);
    if i < |before| - 1 {
      hide *;
    } else if i == |before| - 1 {
      AnswerIs(w, v - 1);
    } else {
      hide Answers, CallsOf;
    }
  }

  /** With retries inside the chain, the caller reads a prefix of one attempt's stream: the last call made, before which
    * every call handed on nothing. */
  lemma OneVendorAnswers(w: World, signal: Signal)
    requires w.vendors > 0
    ensures var t := ChainFrom(Answers(w), 0, signal, Ends);
            && t.vendors <= w.vendors
            && var calls := CallsOf(Answers(w), t.vendors);
               && |calls| <= w.vendors * (if w.maxAttempts < 0 then 0 else w.maxAttempts)
               && (forall i: nat :: i < |calls| - 1 ==>
                     HandedNothing(w.attempt(calls[i])) && Follows(calls[i + 1], calls[i]))
               && (calls == [] ==> t.chunks == [])
               && (calls != [] ==> calls[0] == Call(0, 1) && t.chunks <= w.attempt(calls[|calls| - 1]).chunks)
  {
    hide ChainFrom, Answers, FailsOver, SendMessage, HandedNothing, Follows;
    var t := ChainFrom(Answers(w), 0, signal, Ends);
    ChainHandsOnOneVendor(Answers(w), 0, signal, Ends);
    if t.vendors > 0 {
      var v := t.vendors - 1;
      assert t.chunks == Answers(w)[v].chunks && forall u: nat :: u < v ==> FailedBlank(Answers(w)[u]);
      hide IsOneVendor, CallsOf;
      AnswerIs(w, v);
      if w.maxAttempts >= 1 {
        CallsGoInOrder(w, t.vendors);
        FewerVendorsFewerCalls(t.vendors, w.vendors, w.maxAttempts);
      } else {
        NoAttemptsNoCalls(w, t.vendors);
      }
    }
  }

  lemma FewerVendorsFewerCalls(a: nat, b: nat, n: nat)
    requires a <= b
    ensures a * n <= b * n
  {
  }

  lemma {:induction false} NoAttemptsNoCalls(w: World, vendors: nat)
    requires vendors <= w.vendors && w.maxAttempts < 1
    ensures CallsOf(Answers(w), vendors) == []
  {
    if vendors > 0 {
      AnswerIs(w, vendors - 1);
      NoAttemptsNoCalls(w, vendors - 1);
    }
  }

  // ----- In place -----

  method SendThroughChain(answers: seq<Run>, signal: Signal) returns (t: Turn)
    requires answers != []
    ensures t == ChainFrom(answers, 0, signal, Ends)
  {
    var lastError := Ends;
    var reported: seq<nat> := [];
    var position := 0;
    while position < |answers|
      invariant position <= |answers|
      invariant ChainFrom(answers, 0, signal, Ends)
                == var rest := ChainFrom(answers, position, signal, lastError);
                   rest.(vendors := rest.vendors + position, reported := reported + rest.reported)
    {
      if signal.beforeVendor(position) {
        return Turn([], Ends, position, reported);
      }
      var run := answers[position];
      if !FailedBlank(run) {
        return Turn(run.chunks, run.end, position + 1, reported);
      }
      if signal.afterFailure(position) {
        return Turn([], Ends, position + 1, reported);
      }
      if !FailsOver(run.end.failure) {
        return Turn([], run.end, position + 1, reported);
      }
      lastError := run.end;
      var report := if position + 1 < |answers| then [position] else [];
      Associative(reported, report, ChainFrom(answers, position + 1, signal, lastError).reported);
      reported := reported + report;
      position := position + 1;
    }
    return Turn([], lastError, position, reported);
  }
}
