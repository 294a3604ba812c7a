/** One callback a key at a time, in call order: a queue of promises held as nothing but each key's newest tail.
  *
  * `PerSessionLock` is the class; `Next` is one step of any interleaving of calls, starts,
  * settlements (resolved or rejected alike) and the deferred clearing of a key. A step whose guard
  * does not hold changes nothing, so a run is any list of steps.
  */
module SessionLocks {
  import opened Wrappers

  datatype Phase = Queued | Running | Settled | Forgotten

  /** A callback handed to `run`: the tail it waits on, and how far it got. */
  datatype Call = Call(key: string, previous: Option<nat>, phase: Phase) {
    predicate Over() {
      phase.Settled? || phase.Forgotten?
    }
  }

  datatype Lock = Lock(calls: seq<Call>, tails: map<string, nat>, started: seq<nat>)

  datatype Step =
    | Run(key: string)
    | Start(call: nat)
    | Settle(call: nat, rejected: bool)
    | Forget(call: nat)

  const EMPTY := Lock([], map[], [])

  function TailOf(tails: map<string, nat>, key: string): Option<nat> {
    if key in tails then Some(tails[key]) else None
  }

  function WithoutTail(tails: map<string, nat>, key: string, tail: nat): map<string, nat> {
    if TailOf(tails, key) == Some(tail) then tails - {key} else tails
  }

  /** A promise callback fires once the tail it was chained on has settled; with no tail, at once. */
  predicate CanStart(s: Lock, i: nat) {
    && i < |s.calls| && s.calls[i].phase.Queued?
    && (s.calls[i].previous.None? || (s.calls[i].previous.value < |s.calls|
      && s.calls[s.calls[i].previous.value].Over()))
  }

  predicate Enabled(s: Lock, step: Step) {
    match step
    case Run(_) => true
    case Start(i) => CanStart(s, i)
    case Settle(i, _) => i < |s.calls| && s.calls[i].phase.Running?
    case Forget(i) => i < |s.calls| && s.calls[i].phase.Settled?
  }

  function InPhase(calls: seq<Call>, i: nat, phase: Phase): seq<Call>
    requires i < |calls|
  {
    calls[i := calls[i].(phase := phase)]
  }

  function Next(s: Lock, step: Step): Lock {
    if !Enabled(s, step) then s
    else
      match step
      case Run(key) =>
        s.(calls := s.calls + [Call(key, TailOf(s.tails, key), Queued)], tails := s.tails[key := |s.calls|])
      case Start(i) => s.(calls := InPhase(s.calls, i, Running), started := s.started + [i])
      case Settle(i, _) => s.(calls := InPhase(s.calls, i, Settled))
      case Forget(i) =>
        s.(calls := InPhase(s.calls, i, Forgotten), tails := WithoutTail(s.tails, s.calls[i].key, i))
  }

  function After(s: Lock, steps: seq<Step>): Lock
    decreases |steps|
  {
    if steps == [] then s else After(Next(s, steps[0]), steps[1..])
  }

  // ----- The invariant -----

  predicate SameKey(s: Lock, i: nat, j: nat)
    requires i < |s.calls| && j < |s.calls|
  {
    s.calls[i].key == s.calls[j].key
  }

  /** No callback has begun before every earlier one on its key was over. */
  predicate OneAtATime(s: Lock) {
    forall i: nat, j: nat :: i < j < |s.calls| && SameKey(s, i, j) && !s.calls[j].phase.Queued? ==> s.calls[i].Over()
  }

  /** A call waits on the call before it on its key, or on nothing when all of those were over already. */
  predicate Linked(s: Lock, j: nat)
    requires j < |s.calls|
  {
    match s.calls[j].previous
    case None => forall i: nat :: i < j && SameKey(s, i, j) ==> s.calls[i].Over()
    case Some(p) => p < j && SameKey(s, p, j) && forall i: nat :: p < i < j ==> !SameKey(s, i, j)
  }

  /** The map holds each key's newest call, and every key with a callback still queued or running. */
  predicate HoldsNewest(s: Lock) {
    && (forall key :: key in s.tails ==>
          && s.tails[key] < |s.calls| && s.calls[s.tails[key]].key == key && !s.calls[s.tails[key]].phase.Forgotten?
          && forall i: nat :: s.tails[key] < i < |s.calls| ==> s.calls[i].key != key)
    && (forall i: nat :: i < |s.calls| && s.calls[i].key !in s.tails ==> s.calls[i].Over())
  }

  predicate StartedInCallOrder(s: Lock) {
    && (forall a: nat :: a < |s.started| ==> s.started[a] < |s.calls| && !s.calls[s.started[a]].phase.Queued?)
    && (forall i: nat :: i < |s.calls| && !s.calls[i].phase.Queued? ==> i in s.started)
    && (forall a: nat, b: nat :: a < b < |s.started| && SameKey(s, s.started[a], s.started[b]) ==>
      s.started[a] < s.started[b])
  }

  predicate Inv(s: Lock) {
    OneAtATime(s) && (forall j: nat :: j < |s.calls| ==> Linked(s, j)) && HoldsNewest(s) && StartedInCallOrder(s)
  }

  lemma RunKeepsOrder(s: Lock, key: string)
    requires OneAtATime(s) && HoldsNewest(s) && (forall j: nat :: j < |s.calls| ==> Linked(s, j))
    ensures OneAtATime(Next(s, Run(key)))
    ensures var t := Next(s, Run(key)); forall j: nat :: j < |t.calls| ==> Linked(t, j)
  {
    var t := Next(s, Run(key));
    var n := |s.calls|;
    forall i: nat, j: nat | i < j < |t.calls| && SameKey(t, i, j) && !t.calls[j].phase.Queued?
      ensures t.calls[i].Over()
    {
      assert SameKey(s, i, j);
    }
    forall j: nat | j < n
      ensures Linked(t, j)
    {
      assert Linked(s, j);
      forall i: nat | i < j
        ensures SameKey(t, i, j) == SameKey(s, i, j)
      {
      }
    }
    assert t.calls[n].previous == TailOf(s.tails, key);
    assert Linked(t, n);
  }

  lemma RunKeepsMap(s: Lock, key: string)
    requires HoldsNewest(s) && StartedInCallOrder(s)
    ensures HoldsNewest(Next(s, Run(key))) && StartedInCallOrder(Next(s, Run(key)))
  {
    var t := Next(s, Run(key));
    forall a: nat, b: nat | a < b < |t.started| && SameKey(t, t.started[a], t.started[b])
      ensures t.started[a] < t.started[b]
    {
      assert SameKey(s, s.started[a], s.started[b]);
    }
  }

  lemma RunKeeps(s: Lock, key: string)
    requires Inv(s)
    ensures Inv(Next(s, Run(key)))
  {
    hide OneAtATime, Linked, HoldsNewest, StartedInCallOrder;
    RunKeepsOrder(s, key);
    RunKeepsMap(s, key);
  }

  /** All a start needs to know is in one link, yet it settles the order on the whole key. */
  lemma StartableMeansNextInLine(s: Lock, i: nat)
    requires OneAtATime(s) && i < |s.calls| && Linked(s, i) && s.calls[i].phase.Queued?
    ensures CanStart(s, i) <==> (forall j: nat :: j < i && SameKey(s, j, i) ==> s.calls[j].Over())
  {
    if s.calls[i].previous.Some? {
      var p := s.calls[i].previous.value;
      if s.calls[p].Over() {
        forall j: nat | j < i && SameKey(s, j, i)
          ensures s.calls[j].Over()
        {
          assert j == p || (j < p && SameKey(s, j, p));
        }
      } else {
        assert SameKey(s, p, i);
      }
    }
  }

  /** From s to t one call alone changed its phase, and one that was over stayed so. */
  predicate Moves(s: Lock, t: Lock, x: nat) {
    && x < |s.calls| && |t.calls| == |s.calls|
    && (forall j: nat :: j < |s.calls| && j != x ==> t.calls[j] == s.calls[j])
    && t.calls[x].key == s.calls[x].key && t.calls[x].previous == s.calls[x].previous
    && (s.calls[x].Over() ==> t.calls[x].Over())
  }

  lemma LinksStay(s: Lock, t: Lock, x: nat, j: nat)
    requires Moves(s, t, x) && j < |s.calls| && Linked(s, j)
    ensures Linked(t, j)
  {
    match s.calls[j].previous
    case None =>
      forall i: nat | i < j && SameKey(t, i, j)
        ensures t.calls[i].Over()
      {
        assert SameKey(s, i, j);
      }
    case Some(p) =>
      forall i: nat | p < i < j
        ensures !SameKey(t, i, j)
      {
        assert !SameKey(s, i, j);
      }
  }

  lemma OrderStays(s: Lock, t: Lock, x: nat)
    requires Moves(s, t, x) && OneAtATime(s)
    requires s.calls[x].phase.Queued? ==> forall j: nat :: j < x && SameKey(s, j, x) ==> s.calls[j].Over()
    ensures OneAtATime(t)
  {
    forall i: nat, j: nat | i < j < |t.calls| && SameKey(t, i, j) && !t.calls[j].phase.Queued?
      ensures t.calls[i].Over()
    {
      assert SameKey(s, i, j);
    }
  }

  lemma StartsStay(s: Lock, t: Lock, x: nat)
    requires Moves(s, t, x) && StartedInCallOrder(s) && t.started == s.started
    requires !s.calls[x].phase.Queued? && !t.calls[x].phase.Queued?
    ensures StartedInCallOrder(t)
  {
    forall a: nat, b: nat | a < b < |t.started| && SameKey(t, t.started[a], t.started[b])
      ensures t.started[a] < t.started[b]
    {
      assert SameKey(s, s.started[a], s.started[b]);
    }
  }

  lemma StartIsLast(s: Lock, i: nat)
    requires StartedInCallOrder(s) && OneAtATime(s) && CanStart(s, i)
    requires forall j: nat :: j < i && SameKey(s, j, i) ==> s.calls[j].Over()
    ensures StartedInCallOrder(Next(s, Start(i)))
  {
    var t := Next(s, Start(i));
    var n := |s.started|;
    forall a: nat, b: nat | a < b < |t.started| && SameKey(t, t.started[a], t.started[b])
      ensures t.started[a] < t.started[b]
    {
      if b < n {
        assert SameKey(s, s.started[a], s.started[b]);
      } else if s.started[a] > i {
        assert SameKey(s, i, s.started[a]);
      }
    }
    assert t.started[n] == i;
    forall j: nat | j < |t.calls| && !t.calls[j].phase.Queued?
      ensures j in t.started
    {
      assert j == i || j in s.started;
    }
  }

  lemma StartKeeps(s: Lock, i: nat)
    requires Inv(s)
    ensures Inv(Next(s, Start(i)))
  {
    if CanStart(s, i) {
      var t := Next(s, Start(i));
      StartableMeansNextInLine(s, i);
      StartIsLast(s, i);
      hide OneAtATime, Linked, StartedInCallOrder;
      OrderStays(s, t, i);
      forall j: nat | j < |t.calls| ensures Linked(t, j) { LinksStay(s, t, i, j); }
    }
  }

  lemma SettleKeeps(s: Lock, i: nat, rejected: bool)
    requires Inv(s)
    ensures Inv(Next(s, Settle(i, rejected)))
  {
    if Enabled(s, Settle(i, rejected)) {
      hide OneAtATime, Linked, StartedInCallOrder;
      var t := Next(s, Settle(i, rejected));
      OrderStays(s, t, i);
      StartsStay(s, t, i);
      forall j: nat | j < |t.calls| ensures Linked(t, j) { LinksStay(s, t, i, j); }
    }
  }

  lemma ForgetKeepsMap(s: Lock, i: nat)
    requires HoldsNewest(s) && OneAtATime(s) && Enabled(s, Forget(i))
    ensures HoldsNewest(Next(s, Forget(i)))
  {
    var t := Next(s, Forget(i));
    forall j: nat | j < |t.calls| && t.calls[j].key !in t.tails
      ensures t.calls[j].Over()
    {
      assert j < i && s.calls[j].key == s.calls[i].key ==> SameKey(s, j, i);
    }
    forall key | key in t.tails
      ensures t.tails[key] < |t.calls| && t.calls[t.tails[key]].key == key && !t.calls[t.tails[key]].phase.Forgotten?
      ensures forall j: nat :: t.tails[key] < j < |t.calls| ==> t.calls[j].key != key
    {
      assert key in s.tails && s.tails[key] == t.tails[key];
    }
  }

  lemma ForgetKeeps(s: Lock, i: nat)
    requires Inv(s)
    ensures Inv(Next(s, Forget(i)))
  {
    if Enabled(s, Forget(i)) {
      ForgetKeepsMap(s, i);
      hide OneAtATime, Linked, StartedInCallOrder, HoldsNewest;
      var t := Next(s, Forget(i));
      OrderStays(s, t, i);
      StartsStay(s, t, i);
      forall j: nat | j < |t.calls| ensures Linked(t, j) { LinksStay(s, t, i, j); }
    }
  }

  lemma NextKeeps(s: Lock, step: Step)
    requires Inv(s)
    ensures Inv(Next(s, step))
  {
    hide Inv, Next;
    match step
    case Run(key) => RunKeeps(s, key);
    case Start(i) => StartKeeps(s, i);
    case Settle(i, rejected) => SettleKeeps(s, i, rejected);
    case Forget(i) => ForgetKeeps(s, i);
  }

  lemma {:induction false} AfterKeeps(s: Lock, steps: seq<Step>)
    requires Inv(s)
    ensures Inv(After(s, steps))
    decreases |steps|
  {
    hide Inv, Next;
    if steps != [] {
      NextKeeps(s, steps[0]);
      AfterKeeps(Next(s, steps[0]), steps[1..]);
    }
  }

  // ----- The lock itself -----

  class PerSessionLock {
    var tails: map<string, nat>
    ghost var calls: seq<Call>
    ghost var started: seq<nat>

    ghost function State(): Lock
      reads this
    {
      Lock(calls, tails, started)
    }

    constructor ()
      ensures State() == EMPTY
    {
      tails, calls, started := map[], [], [];
    }

    /** Chains a callback, known by its own new tail, behind the key's newest, which it replaces. */
    method Run(key: string, tail: nat) returns (previous: Option<nat>)
      requires Inv(State()) && tail == |calls|
      modifies this
      ensures State() == Next(old(State()), Step.Run(key)) && Inv(State())
      ensures calls[tail].previous == previous
    {
      RunKeeps(State(), key);
      previous := if key in tails then Some(tails[key]) else None;
      tails := tails[key := tail];
      calls := calls + [Call(key, previous, Queued)];
    }

    method Forget(key: string, tail: nat)
      requires Inv(State()) && tail < |calls| && calls[tail].key == key && calls[tail].phase.Settled?
      modifies this
      ensures State() == Next(old(State()), Step.Forget(tail)) && Inv(State())
    {
      ForgetKeeps(State(), tail);
      if key in tails && tails[key] == tail {
        tails := tails - {key};
      }
      calls := InPhase(calls, tail, Forgotten);
    }

    /** The promise machinery, not the class, starts a callback once the tail it waits on has settled. */
    ghost method Start(call: nat)
      requires Inv(State()) && CanStart(State(), call)
      modifies this`calls, this`started
      ensures State() == Next(old(State()), Step.Start(call)) && Inv(State())
    {
      StartKeeps(State(), call);
      calls, started := InPhase(calls, call, Running), started + [call];
    }

    /** And settles its tail however the callback ended. */
    ghost method Settle(call: nat, rejected: bool)
      requires Inv(State()) && call < |calls| && calls[call].phase.Running?
      modifies this`calls
      ensures State() == Next(old(State()), Step.Settle(call, rejected)) && Inv(State())
    {
      SettleKeeps(State(), call, rejected);
      calls := InPhase(calls, call, Settled);
    }

    /** How many keys have a callback queued or running: zero only when none has. */
    function Size(): (n: nat)
      requires Inv(State())
      reads this
      ensures n == 0 ==> forall i: nat :: i < |calls| ==> calls[i].Over()
    {
      |tails|
    }
  }
}
