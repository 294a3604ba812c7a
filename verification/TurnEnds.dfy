/** What every run of every session's turns keeps: whole turns in arrival order, each answer ended once. */
module TurnEnds {
  import opened TurnOrder
  import L = SessionLocks

  // ----- Stream ends, in arrival order -----

  /** The messages of one session whose stream end was sent, in the order they were sent. */
  function EndsOf(calls: seq<L.Call>, log: seq<Sent>, session: string): seq<nat> {
    if log == [] then []
    else
      var last := log[|log| - 1];
      EndsOf(calls, log[..|log| - 1], session)
      + if last.ends && last.message < |calls| && calls[last.message].key == session then [last.message] else []
  }

  /** The messages of one session that were answered, in the order they arrived. */
  function AnsweredOf(calls: seq<L.Call>, turns: seq<Turn>, session: string): seq<nat>
    requires |calls| == |turns|
  {
    if turns == [] then []
    else
      var n := |turns| - 1;
      AnsweredOf(calls[..n], turns[..n], session) + if turns[n].Answered? && calls[n].key == session then [n] else []
  }

  lemma {:induction false} EndsStay(calls: seq<L.Call>, more: seq<L.Call>, log: seq<Sent>, session: string)
    requires |calls| <= |more| && forall i: nat :: i < |calls| ==> more[i].key == calls[i].key
    requires forall a: nat :: a < |log| ==> log[a].message < |calls|
    ensures EndsOf(more, log, session) == EndsOf(calls, log, session)
  {
    if log != [] {
      EndsStay(calls, more, log[..|log| - 1], session);
    }
  }

  lemma {:induction false} AnsweredStay(calls: seq<L.Call>, turns: seq<Turn>, calls': seq<L.Call>, turns': seq<Turn>,
      session: string)
    requires |calls| == |turns| == |calls'| == |turns'|
    requires forall i: nat :: i < |calls| ==> calls'[i].key == calls[i].key && turns'[i].Answered? == turns[i].Answered?
    ensures AnsweredOf(calls', turns', session) == AnsweredOf(calls, turns, session)
  {
    if turns != [] {
      var n := |turns| - 1;
      AnsweredStay(calls[..n], turns[..n], calls'[..n], turns'[..n], session);
    }
  }

  /** A message answered while every later one of its session waits is the last answered of its session. */
  lemma {:induction false} AnsweredGains(calls: seq<L.Call>, turns: seq<Turn>, i: nat, session: string)
    requires |calls| == |turns| && i < |turns| && !turns[i].Answered?
    requires forall j: nat :: i < j < |turns| && calls[j].key == calls[i].key ==> !turns[j].Answered?
    ensures AnsweredOf(calls, turns[i := Answered], session)
            == AnsweredOf(calls, turns, session) + if calls[i].key == session then [i] else []
  {
    var n := |turns| - 1;
    var now := turns[i := Answered];
    if i == n {
      assert now[..n] == turns[..n];
    } else {
      AnsweredGains(calls[..n], turns[..n], i, session);
      assert now[..n] == turns[..n][i := Answered];
    }
  }

  predicate EndsMatch(s: Server, session: string) {
    |s.lock.calls| == |s.turns| && EndsOf(s.lock.calls, s.log, session) == AnsweredOf(s.lock.calls, s.turns, session)
  }

  lemma ArrivalMatches(s: Server, session: string, arrived: string)
    requires Inv(s) && EndsMatch(s, session)
    ensures EndsMatch(Next(s, Arrives(arrived)), session)
  {
    var t := Next(s, Arrives(arrived));
    LogIsKnown(s);
    hide Inv;
    var n := |s.turns|;
    EndsStay(s.lock.calls, t.lock.calls, s.log, session);
    assert t.turns[..n] == s.turns && t.lock.calls[..n] == s.lock.calls;
  }

  lemma EndsGain(calls: seq<L.Call>, log: seq<Sent>, i: nat, session: string)
    requires i < |calls|
    ensures EndsOf(calls, log + [Sent(i, true)], session)
            == EndsOf(calls, log, session) + if calls[i].key == session then [i] else []
  {
    var more := log + [Sent(i, true)];
    assert more[..|more| - 1] == log && more[|more| - 1] == Sent(i, true);
  }

  lemma AnswerMatches(s: Server, i: nat, session: string)
    requires Inv(s) && EndsMatch(s, session) && i < |s.turns| && s.turns[i].Talking?
    ensures EndsMatch(Next(s, Ends(i, false)), session)
  {
    LogIsKnown(s);
    forall j: nat | i < j < |s.turns| && s.lock.calls[j].key == s.lock.calls[i].key
      ensures !s.turns[j].Answered?
    {
      OthersAreSilent(s, i, j);
    }
    hide Inv, AnsweredOf, EndsOf, L.Next, L.Inv;
    AnsweredGains(s.lock.calls, s.turns, i, session);
    EndsGain(s.lock.calls, s.log, i, session);
  }

  lemma LogIsKnown(s: Server)
    requires Inv(s)
    ensures |s.lock.calls| == |s.turns| && forall a: nat :: a < |s.log| ==> s.log[a].message < |s.lock.calls|
  {
    forall a: nat | a < |s.log|
      ensures s.log[a].message < |s.lock.calls|
    {
      assert Spoke(s, s.log[a]);
    }
  }

  /** A step that arrives nothing and answers nothing keeps every key and every answer. */
  lemma OtherStepMatches(s: Server, step: Step, session: string)
    requires Inv(s) && Enabled(s, step) && EndsMatch(s, session) && !step.Arrives? && !(step.Ends? && !step.aborted)
    ensures EndsMatch(Next(s, step), session)
  {
    var t := Next(s, step);
    LogIsKnown(s);
    assert step.Begins? ==> s.turns[step.message].Waiting?;
    hide Inv, AnsweredOf;
    AnsweredStay(s.lock.calls, s.turns, t.lock.calls, t.turns, session);
    EndsStay(s.lock.calls, t.lock.calls, s.log, session);
    if step.Sends? {
      assert t.log[..|s.log|] == s.log;
    }
  }

  lemma EndsMatchStays(s: Server, step: Step, session: string)
    requires Inv(s) && Enabled(s, step) && EndsMatch(s, session)
    ensures EndsMatch(Next(s, step), session)
  {
    if step.Arrives? {
      ArrivalMatches(s, session, step.session);
    } else if step.Ends? && !step.aborted {
      AnswerMatches(s, step.message, session);
    } else {
      OtherStepMatches(s, step, session);
    }
  }

  lemma NextKeeps(s: Server, step: Step)
    requires Inv(s)
    ensures Inv(Next(s, step))
  {
    if Enabled(s, step) {
      if step.Sends? || step.Ends? {
        TalkKeeps(s, step);
      } else {
        LockStepKeeps(s, step);
      }
    }
  }

  lemma {:induction false} AfterKeeps(s: Server, steps: seq<Step>)
    requires Inv(s) && forall session :: EndsMatch(s, session)
    ensures Inv(After(s, steps)) && forall session :: EndsMatch(After(s, steps), session)
    decreases |steps|
  {
    hide Inv, Next, Enabled, EndsMatch;
    if steps != [] {
      var t := Next(s, steps[0]);
      NextKeeps(s, steps[0]);
      forall session
        ensures EndsMatch(t, session)
      {
        if Enabled(s, steps[0]) {
          EndsMatchStays(s, steps[0], session);
        } else {
          NothingHappens(s, steps[0]);
        }
      }
      AfterKeeps(t, steps[1..]);
    }
  }

  lemma NothingHappens(s: Server, step: Step)
    requires !Enabled(s, step)
    ensures Next(s, step) == s
  {
  }

  lemma EveryRun(steps: seq<Step>)
    ensures Inv(After(IDLE, steps)) && forall session :: EndsMatch(After(IDLE, steps), session)
  {
    AfterKeeps(IDLE, steps);
  }

  // ----- What every run keeps -----

  /** No frame of one turn comes among another's on the same session, and turns speak in arrival order. */
  lemma FramesNeverInterleave(steps: seq<Step>, a: nat, b: nat)
    requires var s := After(IDLE, steps); a < b < |s.log| && SameSession(s, s.log[a].message, s.log[b].message)
    ensures var s := After(IDLE, steps);
            s.log[a].message <= s.log[b].message && (s.log[a].message == s.log[b].message ==> !s.log[a].ends)
  {
    EveryRun(steps);
  }

  /** A session's stream ends are its answered messages, each once, in the order the messages arrived. */
  lemma StreamEndsComeInArrivalOrder(steps: seq<Step>, session: string)
    ensures var s := After(IDLE, steps);
            |s.lock.calls| == |s.turns| && EndsOf(s.lock.calls, s.log, session)
              == AnsweredOf(s.lock.calls, s.turns, session)
  {
    EveryRun(steps);
    assert EndsMatch(After(IDLE, steps), session);
  }

  /** A stream end is sent for the messages answered and for no other, and a dropped message is answered nothing at
    * all. */
  lemma EndedExactlyWhenAnswered(steps: seq<Step>, i: nat)
    requires i < |After(IDLE, steps).turns|
    ensures var s := After(IDLE, steps);
            && (s.turns[i].Answered? <==> Sent(i, true) in s.log)
            && (s.turns[i].Waiting? || s.turns[i].Dropped? ==> Sent(i, false) !in s.log)
  {
    EveryRun(steps);
    var s := After(IDLE, steps);
    forall a: nat | a < |s.log|
      ensures Spoke(s, s.log[a])
    {
    }
  }

  /** Once every callback is over, every message was answered, dropped for a closed socket or abandoned. */
  lemma EveryMessageIsSettled(steps: seq<Step>, i: nat)
    requires var s := After(IDLE, steps); i < |s.turns| && i < |s.lock.calls| && s.lock.calls[i].Over()
    ensures var turn := After(IDLE, steps).turns[i]; turn.Answered? || turn.Dropped? || turn.Abandoned?
  {
    EveryRun(steps);
  }
}
