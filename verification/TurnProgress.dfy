/** That messages do move on: from every state of the server, what each next step makes of a message, and that none is
  * stuck. */
module TurnProgress {
  import opened Wrappers
  import opened TurnOrder
  import opened TurnEnds
  import L = SessionLocks
  import LockOrder

  /** A message joins its own session's queue, behind every other, and nothing else changes. */
  lemma ArrivalIsQueued(s: Server, session: string)
    ensures var next := Next(s, Arrives(session));
            && next.turns == s.turns + [Waiting] && next.log == s.log
            && |next.lock.calls| == |s.lock.calls| + 1 && next.lock.calls[..|s.lock.calls|] == s.lock.calls
            && next.lock.calls[|s.lock.calls|].key == session && next.lock.calls[|s.lock.calls|].phase.Queued?
  {
  }

  /** A message whose turn has come is dropped if its socket closed meanwhile, with nothing sent, and otherwise
    * talks. */
  predicate MayBegin(s: Server, i: nat) {
    && i < |s.turns| && s.turns[i].Waiting?
    && Next(s, Begins(i, true)).turns == s.turns[i := Dropped] && Next(s, Begins(i, true)).log == s.log
    && Next(s, Begins(i, false)).turns == s.turns[i := Talking] && Next(s, Begins(i, false)).log == s.log
    && i < |Next(s, Begins(i, false)).lock.calls| && Next(s, Begins(i, false)).lock.calls[i].phase.Running?
  }

  /** While it talks it may send, and ends with its stream end, or silently once its socket has closed. */
  predicate MayEnd(s: Server, i: nat) {
    && i < |s.turns| && s.turns[i].Talking?
    && Next(s, Sends(i)) == s.(log := s.log + [Sent(i, false)])
    && Next(s, Ends(i, false)) == s.(turns := s.turns[i := Answered], log := s.log + [Sent(i, true)])
    && Next(s, Ends(i, true)) == s.(turns := s.turns[i := Abandoned])
  }

  /** Done, dropped or abandoned, its callback settles, whether it returns or throws. */
  predicate MayReturn(s: Server, i: nat) {
    && i < |s.turns| && !s.turns[i].Talking?
    && forall rejected: bool ::
         var next := Next(s, Returns(i, rejected));
         i < |next.lock.calls| && next.lock.calls[i].Over() && next.turns == s.turns && next.log == s.log
  }

  /** In every reachable state a message that is not over moves on, or waits for an earlier one of its session that
    * does. */
  lemma NoMessageIsStuck(steps: seq<Step>, i: nat) returns (j: nat)
    requires var s := After(IDLE, steps); i < |s.lock.calls| && !s.lock.calls[i].Over()
    ensures var s := After(IDLE, steps);
            && j <= i && SameSession(s, j, i)
            && (MayBegin(s, j) || MayEnd(s, j) || MayReturn(s, j))
  {
    hide After;
    var s := After(IDLE, steps);
    EveryRun(steps);
    j := i;
    if s.lock.calls[i].phase.Queued? {
      j := LockOrder.NothingIsStuck(s.lock, i);
    }
    MovesOn(s, j);
  }

  lemma MovesOn(s: Server, j: nat)
    requires Inv(s) && j < |s.lock.calls| && (s.lock.calls[j].phase.Running? || L.CanStart(s.lock, j))
    ensures MayBegin(s, j) || MayEnd(s, j) || MayReturn(s, j)
  {
    hide L.Inv;
    assert InStep(s);
  }

  /** A settled message's key is cleared by its own deferred step, and by no other. */
  lemma SettledIsCleared(s: Server, i: nat)
    requires i < |s.turns| && i < |s.lock.calls|
    ensures Next(s, Clears(i)).turns == s.turns && Next(s, Clears(i)).log == s.log
    ensures if s.lock.calls[i].phase.Settled?
            then |Next(s, Clears(i)).lock.calls| == |s.lock.calls| && Next(s, Clears(i)).lock.calls[i].phase.Forgotten?
            else Next(s, Clears(i)) == s
  {
  }
}
