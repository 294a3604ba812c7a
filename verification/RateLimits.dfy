/** The token-bucket limiter, in exact arithmetic on a clock that never runs back.
  *
  * `Plain` is the limiter that never forgets a key; `Step` is the one that drops a key idle long
  * enough to have refilled. `Tokens` is what a key could spend at a moment. A call is a key and
  * the moment it is made.
  */
module RateLimits {
  import opened Wrappers

  datatype Config = Config(limit: real, windowMs: real, burst: real)

  datatype Bucket = Bucket(tokens: real, refilledAt: real)

  type Buckets = map<string, Bucket>

  datatype Verdict = Verdict(allowed: bool, retryAfterMs: int)

  datatype Call = Call(key: string, at: real)

  predicate Usable(c: Config) {
    c.limit > 0.0 && c.windowMs > 0.0 && c.burst >= 1.0
  }

  function MsPerToken(c: Config): (ms: real)
    requires Usable(c)
    ensures ms > 0.0
  {
    c.windowMs / c.limit
  }

  function RefillMs(c: Config): real
    requires Usable(c)
  {
    c.burst * MsPerToken(c)
  }

  /** Tokens gained over a stretch of time. */
  function Gain(c: Config, ms: real): real
    requires Usable(c)
  {
    ms / MsPerToken(c)
  }

  /** The rate a limit of so many per window is. */
  lemma GainIs(c: Config, ms: real)
    requires Usable(c)
    ensures Gain(c, ms) == ms * c.limit / c.windowMs
  {
    var m := MsPerToken(c);
    assert m * c.limit == c.windowMs;
    assert Gain(c, ms) * m == ms;
    assert Gain(c, ms) * (m * c.limit) == ms * c.limit by {
      TimesAssociates(Gain(c, ms), m, c.limit);
    }
    Quotient(Gain(c, ms), c.windowMs, ms * c.limit);
  }

  lemma TimesAssociates(x: real, y: real, z: real)
    ensures x * (y * z) == x * y * z
  {
  }

  lemma Quotient(x: real, y: real, z: real)
    requires y > 0.0 && x * y == z
    ensures x == z / y
  {
  }

  lemma GainReaches(c: Config, ms: real, tokens: real)
    requires Usable(c)
    ensures Gain(c, ms) >= tokens <==> ms >= tokens * MsPerToken(c)
  {
    var m := MsPerToken(c);
    assert Gain(c, ms) * m == ms;
    TimesPositive(Gain(c, ms), tokens, m);
  }

  lemma TimesPositive(x: real, y: real, m: real)
    requires m > 0.0
    ensures x >= y <==> x * m >= y * m
  {
    if x >= y {
      assert (x - y) * m >= 0.0;
    } else {
      assert (y - x) * m > 0.0;
    }
  }

  lemma GainAdds(c: Config, a: real, b: real)
    requires Usable(c)
    ensures Gain(c, a + b) == Gain(c, a) + Gain(c, b)
  {
    var m := MsPerToken(c);
    assert (Gain(c, a) + Gain(c, b)) * m == a + b;
  }

  lemma GainIsPositive(c: Config, ms: real)
    requires Usable(c)
    ensures ms >= 0.0 <==> Gain(c, ms) >= 0.0
  {
    GainReaches(c, ms, 0.0);
  }

  function Min(a: real, b: real): real {
    if a <= b then a else b
  }

  function Ceil(x: real): (n: int)
    ensures n as real >= x > n as real - 1.0
  {
    -((-x).Floor)
  }

  // ----- The limiter -----

  function Refilled(c: Config, held: Bucket, at: real): real
    requires Usable(c)
  {
    Min(c.burst, held.tokens + Gain(c, at - held.refilledAt))
  }

  function Tokens(c: Config, buckets: Buckets, key: string, at: real): real
    requires Usable(c)
  {
    Refilled(c, if key in buckets then buckets[key] else Bucket(c.burst, at), at)
  }

  function WaitFor(c: Config, tokens: real): int
    requires Usable(c)
  {
    Ceil((1.0 - tokens) * MsPerToken(c))
  }

  function VerdictFor(c: Config, tokens: real): Verdict
    requires Usable(c)
  {
    if tokens >= 1.0 then Verdict(true, 0) else Verdict(false, WaitFor(c, tokens))
  }

  function Spent(tokens: real): real {
    if tokens >= 1.0 then tokens - 1.0 else tokens
  }

  function Plain(c: Config, buckets: Buckets, call: Call): (Verdict, Buckets)
    requires Usable(c)
  {
    var tokens := Tokens(c, buckets, call.key, call.at);
    (VerdictFor(c, tokens), buckets[call.key := Bucket(Spent(tokens), call.at)])
  }

  function Pruned(c: Config, buckets: Buckets, at: real): Buckets
    requires Usable(c)
  {
    map key | key in buckets && at - buckets[key].refilledAt < RefillMs(c) :: buckets[key]
  }

  datatype State = State(buckets: Buckets, prunedAt: real)

  function Prune(c: Config, st: State, at: real): State
    requires Usable(c)
  {
    if at - st.prunedAt < RefillMs(c) then st else State(Pruned(c, st.buckets, at), at)
  }

  function Step(c: Config, st: State, call: Call): (Verdict, State)
    requires Usable(c)
  {
    var pruned := Prune(c, st, call.at);
    var (verdict, buckets) := Plain(c, pruned.buckets, call);
    (verdict, pruned.(buckets := buckets))
  }

  // ----- Histories -----

  function RunPlain(c: Config, buckets: Buckets, calls: seq<Call>): (seq<Verdict>, Buckets)
    requires Usable(c)
    decreases |calls|
  {
    if calls == [] then ([], buckets)
    else
      var (verdict, next) := Plain(c, buckets, calls[0]);
      var (rest, last) := RunPlain(c, next, calls[1..]);
      ([verdict] + rest, last)
  }

  function Run(c: Config, st: State, calls: seq<Call>): (seq<Verdict>, State)
    requires Usable(c)
    decreases |calls|
  {
    if calls == [] then ([], st)
    else
      var (verdict, next) := Step(c, st, calls[0]);
      var (rest, last) := Run(c, next, calls[1..]);
      ([verdict] + rest, last)
  }

  /** Made one after another, the first no earlier than `from`. */
  predicate InOrder(calls: seq<Call>, from: real)
    decreases |calls|
  {
    calls != [] ==> calls[0].at >= from && InOrder(calls[1..], calls[0].at)
  }

  /** Every bucket holds what a bucket can, and was last touched no later than now. */
  predicate Sane(c: Config, buckets: Buckets, now: real) {
    forall key :: key in buckets ==> 0.0 <= buckets[key].tokens <= c.burst && buckets[key].refilledAt <= now
  }

  lemma PlainStaysSane(c: Config, buckets: Buckets, call: Call, now: real)
    requires Usable(c) && Sane(c, buckets, now) && call.at >= now
    ensures Sane(c, Plain(c, buckets, call).1, call.at)
    ensures 0.0 <= Tokens(c, buckets, call.key, call.at) <= c.burst
  {
    hide Gain;
    GainIsPositive(c, 0.0);
    if call.key in buckets {
      GainIsPositive(c, call.at - buckets[call.key].refilledAt);
    }
  }

  // ----- Pruning is invisible -----

  /** What the pruned map has dropped, the other holds refilled in full. */
  ghost predicate Hides(c: Config, pruned: Buckets, plain: Buckets, now: real)
    requires Usable(c)
  {
    && (forall key :: key in pruned ==> key in plain && pruned[key] == plain[key])
    && (forall key :: key in plain && key !in pruned ==> now - plain[key].refilledAt >= RefillMs(c))
  }

  lemma IdleIsFull(c: Config, held: Bucket, at: real)
    requires Usable(c) && held.tokens >= 0.0 && at - held.refilledAt >= RefillMs(c)
    ensures Refilled(c, held, at) == c.burst
  {
    hide Gain;
    GainReaches(c, at - held.refilledAt, c.burst);
  }

  lemma FreshIsFull(c: Config, at: real)
    requires Usable(c)
    ensures Refilled(c, Bucket(c.burst, at), at) == c.burst
  {
    hide Gain;
    GainIsPositive(c, 0.0);
  }

  lemma HidingStep(c: Config, st: State, plain: Buckets, call: Call, now: real)
    requires Usable(c) && Sane(c, plain, now) && Hides(c, st.buckets, plain, now) && call.at >= now
    ensures var (v, next) := Step(c, st, call); var (v', plain') := Plain(c, plain, call);
            v == v' && Hides(c, next.buckets, plain', call.at)
  {
    hide Gain, RefillMs, Refilled, VerdictFor;
    var pruned := Prune(c, st, call.at).buckets;
    assert Hides(c, pruned, plain, call.at);
    if call.key !in pruned {
      FreshIsFull(c, call.at);
      if call.key in plain {
        IdleIsFull(c, plain[call.key], call.at);
      }
    }
    assert Tokens(c, pruned, call.key, call.at) == Tokens(c, plain, call.key, call.at);
  }

  /** Dropping idle keys changes no answer: the pruned map answers every history of calls as one that never forgets. */
  lemma {:induction false} PruningIsInvisible(c: Config, st: State, plain: Buckets, calls: seq<Call>, now: real)
    requires Usable(c) && Sane(c, plain, now) && Hides(c, st.buckets, plain, now) && InOrder(calls, now)
    ensures Run(c, st, calls).0 == RunPlain(c, plain, calls).0
    decreases |calls|
  {
    hide Step, Plain, Hides, Sane;
    if calls != [] {
      HidingStep(c, st, plain, calls[0], now);
      PlainStaysSane(c, plain, calls[0], now);
      PruningIsInvisible(c, Step(c, st, calls[0]).1, Plain(c, plain, calls[0]).1, calls[1..], calls[0].at);
    }
  }

  // ----- The budget -----

  function AllowedFor(key: string, calls: seq<Call>, verdicts: seq<Verdict>): nat
    requires |verdicts| == |calls|
    decreases |calls|
  {
    if calls == [] then 0
    else (if calls[0].key == key && verdicts[0].allowed then 1 else 0) + AllowedFor(key, calls[1..], verdicts[1..])
  }

  lemma {:induction false} OneVerdictEach(c: Config, buckets: Buckets, calls: seq<Call>)
    requires Usable(c)
    ensures |RunPlain(c, buckets, calls).0| == |calls|
    decreases |calls|
  {
    if calls != [] {
      OneVerdictEach(c, Plain(c, buckets, calls[0]).1, calls[1..]);
    }
  }

  lemma WaitingGains(c: Config, buckets: Buckets, key: string, from: real, to: real)
    requires Usable(c) && Sane(c, buckets, from) && from <= to
    ensures Tokens(c, buckets, key, to) <= Tokens(c, buckets, key, from) + Gain(c, to - from)
    ensures Tokens(c, buckets, key, from) <= c.burst
  {
    hide Gain;
    GainIsPositive(c, to - from);
    if key in buckets {
      var held := buckets[key];
      GainAdds(c, from - held.refilledAt, to - from);
      assert from - held.refilledAt + (to - from) == to - held.refilledAt;
    } else {
      FreshIsFull(c, from);
      FreshIsFull(c, to);
    }
  }

  lemma SpendingTakes(c: Config, buckets: Buckets, call: Call, key: string, now: real)
    requires Usable(c) && Sane(c, buckets, now) && call.at >= now
    ensures var (v, next) := Plain(c, buckets, call); var before := Tokens(c, buckets, key, call.at);
            Tokens(c, next, key, call.at) == if key == call.key then Spent(before) else before
    ensures Plain(c, buckets, call).0.allowed <==> Tokens(c, buckets, call.key, call.at) >= 1.0
  {
    hide Gain, Ceil;
    GainAdds(c, 0.0, 0.0);
    PlainStaysSane(c, buckets, call, now);
  }

  /** Nobody is allowed more than they hold and gain. */
  lemma {:induction false} SpendingIsBounded(c: Config, buckets: Buckets, calls: seq<Call>, key: string, from: real,
      to: real)
    requires Usable(c) && Sane(c, buckets, from) && InOrder(calls, from)
    requires from <= to && forall call :: call in calls ==> call.at <= to
    ensures var (verdicts, _) := RunPlain(c, buckets, calls);
            && |verdicts| == |calls|
            && AllowedFor(key, calls, verdicts) as real <= Tokens(c, buckets, key, from) + Gain(c, to - from)
            && AllowedFor(key, calls, verdicts) as real <= c.burst + Gain(c, to - from)
    decreases |calls|
  {
    hide Gain, Plain, Tokens, Sane;
    OneVerdictEach(c, buckets, calls);
    if calls == [] {
      TokensAreNoDebt(c, buckets, key, from);
      GainIsPositive(c, to - from);
      WaitingGains(c, buckets, key, from, to);
    } else {
      var call := calls[0];
      var (verdict, next) := Plain(c, buckets, call);
      assert call in calls && call.at <= to;
      PlainStaysSane(c, buckets, call, from);
      SpendingTakes(c, buckets, call, key, from);
      SpendingTakes(c, buckets, call, call.key, from);
      WaitingGains(c, buckets, key, from, call.at);
      assert forall later :: later in calls[1..] ==> later in calls;
      SpendingIsBounded(c, next, calls[1..], key, call.at, to);
      GainAdds(c, call.at - from, to - call.at);
      assert call.at - from + (to - call.at) == to - from;
      var verdicts := RunPlain(c, buckets, calls).0;
      assert verdicts[1..] == RunPlain(c, next, calls[1..]).0;
    }
  }

  /** The budget: from any state, over any stretch of calls lasting W, one key is allowed at most
    * burst + W * limit / windowMs. */
  lemma BudgetHolds(c: Config, buckets: Buckets, calls: seq<Call>, key: string, from: real, to: real)
    requires Usable(c) && Sane(c, buckets, from) && InOrder(calls, from)
    requires from <= to && forall call :: call in calls ==> call.at <= to
    ensures var (verdicts, _) := RunPlain(c, buckets, calls);
            && |verdicts| == |calls|
            && AllowedFor(key, calls, verdicts) as real <= c.burst + (to - from) * c.limit / c.windowMs
  {
    hide RunPlain, Gain, AllowedFor, Sane, InOrder;
    SpendingIsBounded(c, buckets, calls, key, from, to);
    GainIs(c, to - from);
  }

  lemma TokensAreNoDebt(c: Config, buckets: Buckets, key: string, at: real)
    requires Usable(c) && Sane(c, buckets, at)
    ensures 0.0 <= Tokens(c, buckets, key, at)
  {
    PlainStaysSane(c, buckets, Call(key, at), at);
  }

  // ----- Refusals leave no trace -----

  /** No key could be told apart in the two maps, now or later. */
  ghost predicate SameTokens(c: Config, a: Buckets, b: Buckets, now: real)
    requires Usable(c)
  {
    forall key, at: real :: at >= now ==> Tokens(c, a, key, at) == Tokens(c, b, key, at)
  }

  lemma RefillComposes(c: Config, held: Bucket, mid: real, at: real)
    requires Usable(c) && held.refilledAt <= mid <= at
    ensures Refilled(c, Bucket(Refilled(c, held, mid), mid), at) == Refilled(c, held, at)
  {
    hide Gain;
    GainAdds(c, mid - held.refilledAt, at - mid);
    GainIsPositive(c, at - mid);
    assert mid - held.refilledAt + (at - mid) == at - held.refilledAt;
  }

  lemma RefusalIsForgotten(c: Config, buckets: Buckets, call: Call, now: real)
    requires Usable(c) && Sane(c, buckets, now) && call.at >= now && !Plain(c, buckets, call).0.allowed
    ensures SameTokens(c, buckets, Plain(c, buckets, call).1, call.at)
  {
    hide Gain, Refilled;
    var next := Plain(c, buckets, call).1;
    FreshIsFull(c, call.at);
    forall key, at: real | at >= call.at
      ensures Tokens(c, buckets, key, at) == Tokens(c, next, key, at)
    {
      if key == call.key {
        assert key in buckets;
        RefillComposes(c, buckets[key], call.at, at);
      }
    }
  }

  lemma SpendingAlike(c: Config, a: Buckets, b: Buckets, call: Call, now: real)
    requires Usable(c) && SameTokens(c, a, b, now) && call.at >= now
    ensures Plain(c, a, call).0 == Plain(c, b, call).0
    ensures SameTokens(c, Plain(c, a, call).1, Plain(c, b, call).1, call.at)
  {
    hide Refilled;
    var (va, na) := Plain(c, a, call);
    var (vb, nb) := Plain(c, b, call);
    assert Tokens(c, a, call.key, call.at) == Tokens(c, b, call.key, call.at);
    forall key, at: real | at >= call.at
      ensures Tokens(c, na, key, at) == Tokens(c, nb, key, at)
    {
      assert Tokens(c, a, key, at) == Tokens(c, b, key, at);
    }
  }

  function OnlyAllowed(calls: seq<Call>, verdicts: seq<Verdict>): seq<Call>
    requires |verdicts| == |calls|
    decreases |calls|
  {
    if calls == [] then []
    else (if verdicts[0].allowed then [calls[0]] else []) + OnlyAllowed(calls[1..], verdicts[1..])
  }

  /** A caller who had never made its refused calls would stand exactly where it does: later verdicts are the same. */
  lemma {:induction false} RefusalsLeaveNoTrace(c: Config, a: Buckets, b: Buckets, calls: seq<Call>, now: real)
    requires Usable(c) && Sane(c, a, now) && Sane(c, b, now) && SameTokens(c, a, b, now) && InOrder(calls, now)
    ensures var (verdicts, last) := RunPlain(c, a, calls);
            && |verdicts| == |calls|
            && forall next: Call :: (forall call :: call in calls ==> next.at >= call.at) && next.at >= now ==>
                 Plain(c, last, next).0 == Plain(c, RunPlain(c, b, OnlyAllowed(calls, verdicts)).1, next).0
    decreases |calls|
  {
    OneVerdictEach(c, a, calls);
    hide Plain, Sane, SameTokens;
    if calls == [] {
      forall next: Call | next.at >= now
        ensures Plain(c, a, next).0 == Plain(c, b, next).0
      {
        SpendingAlike(c, a, b, next, now);
      }
    } else {
      var call := calls[0];
      var (v, na) := Plain(c, a, call);
      var verdicts := RunPlain(c, a, calls).0;
      assert verdicts[1..] == RunPlain(c, na, calls[1..]).0;
      PlainStaysSane(c, a, call, now);
      PlainStaysSane(c, b, call, now);
      SpendingAlike(c, a, b, call, now);
      if v.allowed {
        var kept := [call] + OnlyAllowed(calls[1..], verdicts[1..]);
        assert kept[1..] == OnlyAllowed(calls[1..], verdicts[1..]);
        RefusalsLeaveNoTrace(c, na, Plain(c, b, call).1, calls[1..], call.at);
      } else {
        RefusalIsForgotten(c, b, call, now);
        RefusalStep(c, a, b, call, now);
        RefusalsLeaveNoTrace(c, na, b, calls[1..], call.at);
        assert [] + OnlyAllowed(calls[1..], verdicts[1..]) == OnlyAllowed(calls[1..], verdicts[1..]);
      }
    }
  }

  lemma RefusalStep(c: Config, a: Buckets, b: Buckets, call: Call, now: real)
    requires Usable(c) && Sane(c, a, now) && Sane(c, b, now) && SameTokens(c, a, b, now) && call.at >= now
    requires !Plain(c, a, call).0.allowed
    ensures SameTokens(c, Plain(c, a, call).1, b, call.at) && Sane(c, b, call.at)
  {
    hide Plain, Tokens;
    RefusalIsForgotten(c, a, call, now);
  }

  // ----- Who is allowed -----

  /** The tokens of a bucket with those its key has earned since, at `limit` in every `windowMs`. */
  function Earned(c: Config, held: Bucket, at: real): real
    requires Usable(c)
  {
    held.tokens + (at - held.refilledAt) * c.limit / c.windowMs
  }

  function Capped(c: Config, tokens: real): real {
    if tokens <= c.burst then tokens else c.burst
  }

  lemma RefilledIsEarned(c: Config, held: Bucket, at: real)
    requires Usable(c)
    ensures Refilled(c, held, at) == Capped(c, Earned(c, held, at))
  {
    hide Gain;
    GainIs(c, at - held.refilledAt);
  }

  lemma NothingEarnedYet(c: Config, held: Bucket, at: real)
    requires Usable(c) && held.refilledAt == at
    ensures Earned(c, held, at) == held.tokens
  {
    assert (at - held.refilledAt) * c.limit == 0.0;
  }

  lemma EarnedLater(c: Config, held: Bucket, at: real, ms: real)
    requires Usable(c)
    ensures Earned(c, held, at + ms) == Earned(c, held, at) + ms * c.limit / c.windowMs
  {
    hide Gain;
    GainIs(c, at - held.refilledAt);
    GainIs(c, at + ms - held.refilledAt);
    GainIs(c, ms);
    GainAdds(c, at - held.refilledAt, ms);
    assert at - held.refilledAt + ms == at + ms - held.refilledAt;
  }

  /** Exactly who is allowed: a key whose tokens, with those earned since, reach one, or that is not held. It is charged
    * one token if it is allowed and none if it is not, and no other key is touched. */
  lemma AllowedExactly(c: Config, buckets: Buckets, call: Call)
    requires Usable(c)
    ensures var (verdict, next) := Plain(c, buckets, call);
            var has := if call.key in buckets then Earned(c, buckets[call.key], call.at) else c.burst;
            && (verdict.allowed <==> has >= 1.0)
            && (verdict.allowed ==> verdict.retryAfterMs == 0)
            && next == buckets[call.key := Bucket(Capped(c, has) - (if verdict.allowed then 1.0 else 0.0), call.at)]
  {
    hide Refilled, Earned;
    FreshIsFull(c, call.at);
    if call.key in buckets {
      RefilledIsEarned(c, buckets[call.key], call.at);
    }
  }

  /** The same of the limiter as it runs, whatever it has forgotten meanwhile. */
  lemma StepAllowsExactly(c: Config, st: State, call: Call, now: real)
    requires Usable(c) && Sane(c, st.buckets, now) && call.at >= now
    ensures Step(c, st, call).0.allowed <==>
              call.key in st.buckets ==> Earned(c, st.buckets[call.key], call.at) >= 1.0
  {
    hide Plain, Step, Earned;
    HidingStep(c, st, st.buckets, call, now);
    AllowedExactly(c, st.buckets, call);
  }

  /** n calls of one key at one moment. */
  function AtOnce(key: string, at: real, n: nat): seq<Call> {
    seq(n, _ => Call(key, at))
  }

  /** The burst is granted: of calls made at once, those are allowed that the tokens last for, and no more. */
  lemma {:induction false} BurstIsGranted(c: Config, buckets: Buckets, key: string, at: real, n: nat, i: nat)
    requires Usable(c) && i < n && (key in buckets ==> buckets[key].refilledAt == at && buckets[key].tokens <= c.burst)
    ensures var verdicts := RunPlain(c, buckets, AtOnce(key, at, n)).0;
            && |verdicts| == n
            && (verdicts[i].allowed
                <==> (if key in buckets then buckets[key].tokens else c.burst) >= i as real + 1.0)
    decreases n
  {
    hide Plain, Earned;
    var calls := AtOnce(key, at, n);
    OneVerdictEach(c, buckets, calls);
    AllowedExactly(c, buckets, calls[0]);
    if key in buckets {
      NothingEarnedYet(c, buckets[key], at);
    }
    assert calls[1..] == AtOnce(key, at, n - 1);
    if i > 0 {
      BurstIsGranted(c, Plain(c, buckets, calls[0]).1, key, at, n - 1, i - 1);
    }
  }

  // ----- What is kept -----

  /** The map holds no key that was idle for a whole refill when it was last pruned. */
  predicate Recent(c: Config, st: State)
    requires Usable(c)
  {
    forall key :: key in st.buckets ==> st.prunedAt - st.buckets[key].refilledAt < RefillMs(c)
  }

  lemma RefillIs(c: Config)
    requires Usable(c)
    ensures RefillMs(c) == c.burst * c.windowMs / c.limit
    ensures RefillMs(c) > 0.0
  {
    var m := MsPerToken(c);
    assert m * c.limit == c.windowMs;
    TimesAssociates(c.burst, m, c.limit);
    Quotient(RefillMs(c), c.limit, c.burst * c.windowMs);
    TimesPositive(c.burst, 0.0, m);
  }

  /** So memory is bounded by who has called lately: after any call, no key is held whose last call was two refills ago
    * or more. */
  lemma HoldsOnlyRecentKeys(c: Config, st: State, call: Call)
    requires Usable(c) && Recent(c, st) && call.at >= st.prunedAt
    ensures var next := Step(c, st, call).1;
            && Recent(c, next) && call.at >= next.prunedAt
            && forall key :: key in next.buckets ==>
                 call.at - next.buckets[key].refilledAt < 2.0 * c.burst * c.windowMs / c.limit
  {
    hide RefillMs, VerdictFor, Tokens;
    RefillIs(c);
    var next := Step(c, st, call).1;
    TwiceOver(c.burst * c.windowMs, c.limit, c.burst, c.windowMs);
    assert call.at - next.prunedAt < RefillMs(c);
  }

  lemma TwiceOver(x: real, y: real, a: real, b: real)
    requires y > 0.0 && x == a * b
    ensures 2.0 * a * b / y == x / y + x / y
  {
    assert 2.0 * a * b == x + x;
  }

  // ----- How long to wait -----

  lemma CeilIsLeast(x: real, n: int)
    ensures n >= Ceil(x) <==> n as real >= x
  {
  }

  lemma ExactWait(c: Config, tokens: real, wait: nat)
    requires Usable(c) && tokens < 1.0
    ensures WaitFor(c, tokens) > 0
    ensures Min(c.burst, tokens + Gain(c, wait as real)) >= 1.0 <==> wait >= WaitFor(c, tokens)
  {
    hide Gain, MsPerToken, Ceil;
    var need := (1.0 - tokens) * MsPerToken(c);
    TimesPositive(0.0, 1.0 - tokens, MsPerToken(c));
    CeilIsLeast(need, 0);
    CeilIsLeast(need, wait);
    GainReaches(c, wait as real, 1.0 - tokens);
  }

  lemma WaitIsLeast(c: Config, buckets: Buckets, call: Call, now: real, wait: nat)
    requires Usable(c) && Sane(c, buckets, now) && call.at >= now
    requires !Plain(c, buckets, call).0.allowed
    ensures var (verdict, next) := Plain(c, buckets, call);
            && verdict.retryAfterMs > 0
            && (Plain(c, next, Call(call.key, call.at + wait as real)).0.allowed <==> wait >= verdict.retryAfterMs)
  {
    hide Gain, WaitFor, Min, Sane;
    ExactWait(c, Tokens(c, buckets, call.key, call.at), wait);
  }

  lemma RefusedIsShort(c: Config, buckets: Buckets, call: Call)
    requires Usable(c) && !Plain(c, buckets, call).0.allowed
    ensures call.key in buckets && Earned(c, buckets[call.key], call.at) < 1.0
    ensures Plain(c, buckets, call).1 == buckets[call.key := Bucket(Earned(c, buckets[call.key], call.at), call.at)]
  {
    hide Plain, Earned;
    AllowedExactly(c, buckets, call);
  }

  /** The wait a refusal names is exact: so many whole milliseconds later, and no sooner, the key has earned one token,
    * and is then allowed. */
  lemma RetryAfterIsLeast(c: Config, buckets: Buckets, call: Call, now: real, wait: nat)
    requires Usable(c) && Sane(c, buckets, now) && call.at >= now
    requires !Plain(c, buckets, call).0.allowed
    ensures var (verdict, next) := Plain(c, buckets, call);
            && verdict.retryAfterMs > 0
            && call.key in buckets
            && (Earned(c, buckets[call.key], call.at + wait as real) >= 1.0 <==> wait >= verdict.retryAfterMs)
            && (Plain(c, next, Call(call.key, call.at + wait as real)).0.allowed <==> wait >= verdict.retryAfterMs)
  {
    hide Plain, Earned, Sane;
    WaitIsLeast(c, buckets, call, now, wait);
    RefusedIsShort(c, buckets, call);
    var next, later := Plain(c, buckets, call).1, call.at + wait as real;
    AllowedExactly(c, next, Call(call.key, later));
    NothingEarnedYet(c, next[call.key], call.at);
    EarnedLater(c, next[call.key], call.at, wait as real);
    EarnedLater(c, buckets[call.key], call.at, wait as real);
    assert Plain(c, next, Call(call.key, later)).0.allowed <==> Earned(c, next[call.key], later) >= 1.0;
    assert Earned(c, next[call.key], later) == Earned(c, buckets[call.key], later);
  }

  /** The limiter as it runs, pruning and all, keeps the budget: a fresh one allows no key more than
    * burst + W * limit / windowMs over any stretch of its history lasting W. */
  lemma LimiterKeepsBudget(c: Config, calls: seq<Call>, earlier: nat, key: string, start: real, from: real, to: real)
    requires Usable(c) && InOrder(calls, start) && earlier <= |calls| && from <= to
    requires forall i :: earlier <= i < |calls| ==> from <= calls[i].at <= to
    requires forall i :: 0 <= i < earlier ==> calls[i].at <= from
    requires start <= from
    ensures var (verdicts, _) := Run(c, State(map[], start), calls);
            && |verdicts| == |calls|
            && AllowedFor(key, calls[earlier..], verdicts[earlier..]) as real
               <= c.burst + (to - from) * c.limit / c.windowMs
  {
    hide Gain, Run, Plain;
    PruningIsInvisible(c, State(map[], start), map[], calls, start);
    OneVerdictEach(c, map[], calls);
    StretchKeepsBudget(c, map[], calls, earlier, key, start, from, to);
  }

  lemma {:induction false} StretchKeepsBudget(c: Config, buckets: Buckets, calls: seq<Call>, earlier: nat, key: string,
      now: real, from: real, to: real)
    requires Usable(c) && Sane(c, buckets, now) && InOrder(calls, now) && earlier <= |calls| && now <= from <= to
    requires forall i :: earlier <= i < |calls| ==> from <= calls[i].at <= to
    requires forall i :: 0 <= i < earlier ==> calls[i].at <= from
    ensures var verdicts := RunPlain(c, buckets, calls).0;
            && |verdicts| == |calls|
            && AllowedFor(key, calls[earlier..], verdicts[earlier..]) as real
               <= c.burst + (to - from) * c.limit / c.windowMs
    decreases |calls|
  {
    hide Gain, Plain, Tokens;
    OneVerdictEach(c, buckets, calls);
    var verdicts := RunPlain(c, buckets, calls).0;
    if earlier == 0 {
      assert calls[0..] == calls && verdicts[0..] == verdicts;
      assert Sane(c, buckets, from) && InOrder(calls, from);
      BudgetHolds(c, buckets, calls, key, from, to);
    } else {
      var next := Plain(c, buckets, calls[0]).1;
      PlainStaysSane(c, buckets, calls[0], now);
      assert calls[1..][earlier - 1..] == calls[earlier..];
      assert verdicts[1..] == RunPlain(c, next, calls[1..]).0;
      assert verdicts[1..][earlier - 1..] == verdicts[earlier..];
      StretchKeepsBudget(c, next, calls[1..], earlier - 1, key, calls[0].at, from, to);
    }
  }

  // ----- In place -----

  class RateLimiter {
    const config: Config
    var buckets: Buckets
    var prunedAt: real

    constructor (config: Config, now: real)
      requires Usable(config)
      ensures this.config == config && buckets == map[] && prunedAt == now
    {
      this.config, buckets, prunedAt := config, map[], now;
    }

    /** A limit, window or burst that reads as no limit, or that never allows a request, is refused at construction. */
    static method Create(config: Config, now: real) returns (limiter: Option<RateLimiter>)
      ensures limiter.Some? <==> config.limit > 0.0 && config.windowMs > 0.0 && config.burst >= 1.0
      ensures limiter.Some? ==> fresh(limiter.value) && limiter.value.config == config && limiter.value.buckets == map[]
    {
      if !Usable(config) {
        return None;
      }
      var made := new RateLimiter(config, now);
      return Some(made);
    }

    method PruneIdle(at: real)
      requires Usable(config)
      modifies this
      ensures State(buckets, prunedAt) == Prune(config, old(State(buckets, prunedAt)), at)
    {
      if at - prunedAt < RefillMs(config) {
        return;
      }
      prunedAt := at;
      var keys := buckets.Keys;
      ghost var was := buckets;
      while keys != {}
        invariant keys <= buckets.Keys <= was.Keys && prunedAt == at
        invariant forall key :: key in buckets ==> buckets[key] == was[key]
        invariant forall key :: key in was && key !in keys ==>
                    (key in buckets <==> at - was[key].refilledAt < RefillMs(config))
        decreases keys
      {
        var key :| key in keys;
        if at - buckets[key].refilledAt >= RefillMs(config) {
          buckets := buckets - {key};
        }
        keys := keys - {key};
      }
      assert buckets == Pruned(config, was, at);
    }

    method Consume(key: string, at: real) returns (verdict: Verdict)
      requires Usable(config)
      modifies this
      ensures (verdict, State(buckets, prunedAt)) == Step(config, old(State(buckets, prunedAt)), Call(key, at))
      ensures Sane(config, old(buckets), at) ==>
        (verdict.allowed <==> key in old(buckets) ==> Earned(config, old(buckets)[key], at) >= 1.0)
    {
      hide Gain, WaitFor, RefillMs, Earned;
      if Sane(config, buckets, at) {
        StepAllowsExactly(config, State(buckets, prunedAt), Call(key, at), at);
      }
      PruneIdle(at);
      var held := if key in buckets then buckets[key] else Bucket(config.burst, at);
      var tokens := Min(config.burst, held.tokens + Gain(config, at - held.refilledAt));
      assert tokens == Tokens(config, buckets, key, at);
      if tokens >= 1.0 {
        buckets := buckets[key := Bucket(tokens - 1.0, at)];
        return Verdict(true, 0);
      }
      buckets := buckets[key := Bucket(tokens, at)];
      return Verdict(false, WaitFor(config, tokens));
    }
  }
}
