/** Every user message of every session, each answered inside its session's lock.
  *
  * A turn may be dropped because its socket closed while it waited; otherwise it sends what it has
  * to say, an error included, and ends: with one stream end, or with none once it was abandoned.
  * `log` is everything sent on any socket, each frame with the message it answers.
  */
module TurnOrder {
  import opened Wrappers
  import L = SessionLocks

  datatype Turn = Waiting | Dropped | Talking | Answered | Abandoned

  datatype Sent = Sent(message: nat, ends: bool)

  datatype Server = Server(lock: L.Lock, turns: seq<Turn>, log: seq<Sent>)

  datatype Step =
    // A user message of a session: refused, invalid or to be answered, it queues all the same.
    | Arrives(session: string)
    // Its turn comes; whether its socket has closed meanwhile.
    | Begins(message: nat, closed: bool)
    | Sends(message: nat)
    | Ends(message: nat, aborted: bool)
    | Returns(message: nat, rejected: bool)
    | Clears(message: nat)

  const IDLE := Server(L.EMPTY, [], [])

  predicate Enabled(s: Server, step: Step) {
    match step
    case Arrives(_) => true
    case Begins(i, _) => L.CanStart(s.lock, i) && i < |s.turns|
    case Sends(i) => i < |s.turns| && s.turns[i].Talking?
    case Ends(i, _) => i < |s.turns| && s.turns[i].Talking?
    case Returns(i, _) =>
      i < |s.turns| && !s.turns[i].Talking? && L.Enabled(s.lock, L.Settle(i, false))
    case Clears(i) => i < |s.turns| && L.Enabled(s.lock, L.Forget(i))
  }

  function Next(s: Server, step: Step): Server {
    if !Enabled(s, step) then s
    else
      match step
      case Arrives(session) => s.(lock := L.Next(s.lock, L.Run(session)), turns := s.turns + [Waiting])
      case Begins(i, closed) =>
        s.(lock := L.Next(s.lock, L.Start(i)), turns := s.turns[i := if closed then Dropped else Talking])
      case Sends(i) => s.(log := s.log + [Sent(i, false)])
      case Ends(i, aborted) =>
        if aborted then s.(turns := s.turns[i := Abandoned])
        else s.(turns := s.turns[i := Answered], log := s.log + [Sent(i, true)])
      case Returns(i, rejected) => s.(lock := L.Next(s.lock, L.Settle(i, rejected)))
      case Clears(i) => s.(lock := L.Next(s.lock, L.Forget(i)))
  }

  function After(s: Server, steps: seq<Step>): Server
    decreases |steps|
  {
    if steps == [] then s else After(Next(s, steps[0]), steps[1..])
  }

  // ----- The invariant -----

  /** A turn's progress and its callback's: it talks only while it runs, and no frame names a turn that never began. */
  predicate InStep(s: Server) {
    && |s.turns| == |s.lock.calls|
    && (forall i: nat :: i < |s.turns| ==> (s.turns[i].Waiting? <==> s.lock.calls[i].phase.Queued?))
    && (forall i: nat :: i < |s.turns| && s.turns[i].Talking? ==> s.lock.calls[i].phase.Running?)
    && (forall a: nat :: a < |s.log| ==> Spoke(s, s.log[a]))
    && (forall i: nat :: i < |s.turns| && s.turns[i].Answered? ==> Sent(i, true) in s.log)
  }

  predicate Spoke(s: Server, sent: Sent) {
    && sent.message < |s.turns|
    && !s.turns[sent.message].Waiting? && !s.turns[sent.message].Dropped?
    && (sent.ends ==> s.turns[sent.message].Answered?)
  }

  predicate SameSession(s: Server, i: nat, j: nat) {
    i < |s.lock.calls| && j < |s.lock.calls| && s.lock.calls[i].key == s.lock.calls[j].key
  }

  /** One session's frames: no later message's comes before an earlier one's, and none follows its message's end. */
  predicate NeverInterleaves(s: Server) {
    forall a: nat, b: nat :: a < b < |s.log| && SameSession(s, s.log[a].message, s.log[b].message) ==>
      s.log[a].message <= s.log[b].message && (s.log[a].message == s.log[b].message ==> !s.log[a].ends)
  }

  predicate Inv(s: Server) {
    L.Inv(s.lock) && InStep(s) && NeverInterleaves(s)
  }

  /** While a turn talks, every other message of its session is either over or still waiting. */
  lemma OthersAreSilent(s: Server, i: nat, j: nat)
    requires Inv(s) && i < |s.turns| && s.turns[i].Talking? && j < |s.turns| && SameSession(s, i, j)
    ensures j > i ==> s.turns[j].Waiting?
  {
    if j > i {
      assert L.SameKey(s.lock, i, j);
    }
  }

  lemma OneMoreFrame(s: Server, i: nat, ends: bool)
    requires Inv(s) && i < |s.turns| && s.turns[i].Talking?
    ensures forall t: Server :: t.lock == s.lock && t.log == s.log + [Sent(i, ends)] ==> NeverInterleaves(t)
  {
    forall t: Server, a: nat, b: nat |
      t.lock == s.lock && t.log == s.log + [Sent(i, ends)]
      && a < b < |t.log| && SameSession(t, t.log[a].message, t.log[b].message)
      ensures t.log[a].message <= t.log[b].message && (t.log[a].message == t.log[b].message ==> !t.log[a].ends)
    {
      assert a < |s.log| && t.log[a] == s.log[a] && Spoke(s, s.log[a]);
      if b < |s.log| {
        assert SameSession(s, s.log[a].message, s.log[b].message);
      } else {
        assert SameSession(s, i, s.log[a].message);
        OthersAreSilent(s, i, s.log[a].message);
      }
    }
  }

  /** The calls a lock step leaves alone: their keys never change, and no frame is sent. */
  lemma SessionsStay(s: Server, t: Server)
    requires |s.lock.calls| <= |t.lock.calls| && t.log == s.log && NeverInterleaves(s)
    requires forall i: nat :: i < |s.lock.calls| ==> t.lock.calls[i].key == s.lock.calls[i].key
    requires forall a: nat :: a < |s.log| ==> s.log[a].message < |s.lock.calls|
    ensures NeverInterleaves(t)
  {
    forall a: nat, b: nat | a < b < |t.log| && SameSession(t, t.log[a].message, t.log[b].message)
      ensures t.log[a].message <= t.log[b].message && (t.log[a].message == t.log[b].message ==> !t.log[a].ends)
    {
      assert SameSession(s, s.log[a].message, s.log[b].message);
    }
  }

  lemma LockStepKeeps(s: Server, step: Step)
    requires Inv(s) && Enabled(s, step) && (step.Arrives? || step.Begins? || step.Returns? || step.Clears?)
    ensures Inv(Next(s, step))
  {
    hide L.Inv, NeverInterleaves;
    var t := Next(s, step);
    forall a: nat | a < |s.log|
      ensures s.log[a].message < |s.lock.calls|
    {
      assert Spoke(s, s.log[a]);
    }
    SessionsStay(s, t);
    L.NextKeeps(s.lock, match step
                        case Arrives(session) => L.Run(session)
                        case Begins(i, _) => L.Start(i)
                        case Returns(i, rejected) => L.Settle(i, rejected)
                        case Clears(i) => L.Forget(i));
    forall a: nat | a < |t.log|
      ensures Spoke(t, t.log[a])
    {
      assert Spoke(s, s.log[a]);
    }
  }

  lemma TalkKeeps(s: Server, step: Step)
    requires Inv(s) && Enabled(s, step) && (step.Sends? || step.Ends?)
    ensures Inv(Next(s, step))
  {
    hide L.Inv, NeverInterleaves;
    TalkStaysInStep(s, step);
    TalkNeverInterleaves(s, step);
  }

  lemma TalkStaysInStep(s: Server, step: Step)
    requires InStep(s) && Enabled(s, step) && (step.Sends? || step.Ends?)
    ensures InStep(Next(s, step))
  {
    var t := Next(s, step);
    var n := |s.log|;
    assert t.log == s.log || (t.log[..n] == s.log && |t.log| == n + 1);
    forall a: nat | a < |t.log|
      ensures Spoke(t, t.log[a])
    {
      if a < n {
        assert t.log[a] == s.log[a] && Spoke(s, s.log[a]);
      }
    }
    forall i: nat | i < |t.turns| && t.turns[i].Answered?
      ensures Sent(i, true) in t.log
    {
      if i != step.message {
        assert Sent(i, true) in s.log;
      }
    }
  }

  lemma TalkNeverInterleaves(s: Server, step: Step)
    requires Inv(s) && Enabled(s, step) && (step.Sends? || step.Ends?)
    ensures NeverInterleaves(Next(s, step))
  {
    var t := Next(s, step);
    if step.Ends? && step.aborted {
      forall a: nat | a < |s.log|
        ensures s.log[a].message < |s.lock.calls|
      {
        assert Spoke(s, s.log[a]);
      }
      hide L.Inv, NeverInterleaves, Spoke;
      SessionsStay(s, t);
    } else {
      OneMoreFrame(s, step.message, step.Ends?);
      hide Inv, NeverInterleaves;
      assert t.log == s.log + [Sent(step.message, step.Ends?)];
    }
  }
}
