/** What every interleaving of calls, starts and settlements keeps, callbacks that reject included. */
module LockOrder {
  import opened Wrappers
  import opened SessionLocks

  /** Whatever the interleaving and whichever callbacks reject, no two callbacks on one key run at once. */
  lemma AtMostOneRuns(steps: seq<Step>, i: nat, j: nat)
    requires var s := After(EMPTY, steps);
      i < |s.calls| && j < |s.calls| && SameKey(s, i, j) && s.calls[i].phase.Running? && s.calls[j].phase.Running?
    ensures i == j
  {
    AfterKeeps(EMPTY, steps);
    assert SameKey(After(EMPTY, steps), j, i);
  }

  /** Callbacks on one key start in the order they were handed in, a rejected one before them included. */
  lemma CallbacksStartInCallOrder(steps: seq<Step>, a: nat, b: nat)
    requires var s := After(EMPTY, steps);
      a < b < |s.started| && s.started[b] < |s.calls| && s.started[a] < |s.calls|
        && SameKey(s, s.started[a], s.started[b])
    ensures var s := After(EMPTY, steps); s.started[a] < s.started[b]
  {
    AfterKeeps(EMPTY, steps);
  }

  /** A callback waits for exactly the earlier ones on its own key, and for no callback on another. */
  lemma WaitsOnlyForItsKey(steps: seq<Step>, i: nat)
    requires var s := After(EMPTY, steps); i < |s.calls| && s.calls[i].phase.Queued?
    ensures var s := After(EMPTY, steps);
            CanStart(s, i) <==> (forall j: nat :: j < i && SameKey(s, j, i) ==> s.calls[j].Over())
  {
    AfterKeeps(EMPTY, steps);
    StartableMeansNextInLine(After(EMPTY, steps), i);
  }

  /** Nothing queued is stuck: the oldest callback not over on its key is running or may start. */
  lemma {:induction false} NothingIsStuck(s: Lock, i: nat) returns (j: nat)
    requires Inv(s) && i < |s.calls| && s.calls[i].phase.Queued?
    ensures j <= i && SameKey(s, j, i) && (s.calls[j].phase.Running? || CanStart(s, j))
    decreases i
  {
    j := i;
    if !CanStart(s, i) {
      assert Linked(s, i);
      var p := s.calls[i].previous.value;
      if s.calls[p].phase.Running? {
        j := p;
      } else {
        j := NothingIsStuck(s, p);
      }
    }
  }

  /** The map names a key while any callback on it is queued or running, and is empty once every key was cleared. */
  lemma SizeCountsWaitingKeys(steps: seq<Step>)
    ensures var s := After(EMPTY, steps);
            && (forall i: nat :: i < |s.calls| && !s.calls[i].Over() ==> s.calls[i].key in s.tails)
            && ((forall i: nat :: i < |s.calls| ==> s.calls[i].phase.Forgotten?) ==> |s.tails| == 0)
  {
    AfterKeeps(EMPTY, steps);
    var s := After(EMPTY, steps);
    if forall i: nat :: i < |s.calls| ==> s.calls[i].phase.Forgotten? {
      assert s.tails == map[];
    }
  }
}
