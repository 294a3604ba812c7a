/** What every interleaving of connects, resumes and closes leaves a session carrying. */
module SocketCredentials {
  import opened Wrappers
  import opened SocketLending

  // ----- Every run -----

  lemma SettleKeeps(e: Engine, c: nat, g: nat, resumed: bool, greeting: Greeting)
    requires Inv(e) && c < |e.connections| && g < |e.sessions|
    requires !e.connections[c].settled
    ensures Inv(Settle(e, c, g, resumed, greeting))
  {
    var closed := e.connections[c].closed;
    var stage := if closed || greeting.Refused? then Evicting else if greeting.Threw? then Over else Live;
    var k := e.connections[c].(settled := true, held := Some(g), stage := stage);
    assert ConnectionSound(e, c);
    forall a: nat | a < |e.joins|
      ensures e.joins[a].socket.id != c
    {
      assert JoinSound(e, a);
    }
    PutKeeps(e, c, k);
    var handed := Put(e, c, k);
    hide Inv;
    if !(closed && resumed) {
      JoinKeeps(handed, c, g);
    }
    var joined := if closed && resumed then handed else JoinSession(handed, c, g);
    if !closed && greeting.Sent? {
      DeliverKeeps(joined, c);
    }
  }

  lemma NextKeeps(e: Engine, step: Step)
    requires Inv(e)
    ensures Inv(Next(e, step))
  {
    if Enabled(e, step) {
      if !step.Opens? {
        assert ConnectionSound(e, step.c);
      }
      hide Inv, Settle;
      match step
      case Opens(headers, user) => OpensKeeps(e, headers, user);
      case Resumes(c, g, greeting) =>
        if g == |e.sessions| {
          NewSessionKeeps(e, Session([], None, None));
        }
        SettleKeeps(Loaded(e, g), c, g, true, greeting);
      case FindsNone(c) => PutKeeps(e, c, e.connections[c].(stage := Creating));
      case LookupFails(c) => PutKeeps(e, c, e.connections[c].(stage := Over));
      case Stores(c) =>
        var ws := e.connections[c].socket;
        var stored := e.(sessions := e.sessions + [Session([], ws.authHeaders, ws.user)]);
        NewSessionKeeps(e, Session([], ws.authHeaders, ws.user));
        PutKeeps(stored, c, e.connections[c].(stage := Created(|e.sessions|)));
      case CreateFails(c) => PutKeeps(e, c, e.connections[c].(stage := Over, settled := true));
      case Adopts(c, greeting) => SettleKeeps(e, c, e.connections[c].stage.session, false, greeting);
      case IsEvicted(c) =>
        EndKeeps(e, c);
        PutKeeps(EndSession(e, c), c, EndSession(e, c).connections[c].(stage := Over));
      case Closes(c) =>
        if e.connections[c].settled {
          EndKeeps(e, c);
          PutKeeps(EndSession(e, c), c, EndSession(e, c).connections[c].(closed := true));
        } else {
          PutKeeps(e, c, e.connections[c].(closed := true));
        }
    }
  }

  lemma {:induction false} AfterKeeps(e: Engine, steps: seq<Step>)
    requires Inv(e)
    ensures Inv(After(e, steps))
    decreases |steps|
  {
    hide Inv, Next;
    if steps != [] {
      NextKeeps(e, steps[0]);
      AfterKeeps(Next(e, steps[0]), steps[1..]);
    }
  }

  /** In every run, a session some socket joined carries what its newest joined socket that has not left brought, or
    * nothing. */
  lemma NewestStandingLends(steps: seq<Step>, g: nat)
    requires g in After(IDLE, steps).touched
    ensures var e := After(IDLE, steps);
            && g < |e.sessions|
            && var standing := Standing(e.joins, e.connections, g);
               && (standing == [] ==> e.sessions[g].authHeaders.None? && e.sessions[g].user.None?)
               && (standing != [] ==> && e.sessions[g].authHeaders == standing[|standing| - 1].authHeaders
                                      && e.sessions[g].user == standing[|standing| - 1].user)
  {
    AfterKeeps(IDLE, steps);
    assert SessionSound(After(IDLE, steps), g);
  }

  /** onDisconnect runs at most once for a connection, after its onConnect, and exactly when it was told and has
    * ended. */
  lemma DisconnectIsTheOtherHalf(steps: seq<Step>, c: nat)
    requires c < |After(IDLE, steps).connections|
    ensures var e := After(IDLE, steps);
            && (OnDisconnect(c) in e.fired <==> OnConnect(c) in e.fired && e.connections[c].notified)
            && (forall a: nat, b: nat :: a < |e.fired| && b < |e.fired| && e.fired[a] == e.fired[b] ==> a == b)
            && (forall a: nat, b: nat ::
                  a < |e.fired| && b < |e.fired| && e.fired[a] == OnConnect(c) && e.fired[b] == OnDisconnect(c) ==>
                  a < b)
  {
    AfterKeeps(IDLE, steps);
  }

  // ----- What outlives a socket -----

  predicate MadeFor(e: Engine, g: nat, c: nat) {
    c < |e.connections| && e.connections[c].stage == Created(g)
  }

  predicate UntouchedSound(e: Engine, g: nat)
    requires g < |e.sessions|
  {
    g !in e.touched ==>
      || (e.sessions[g].authHeaders.None? && e.sessions[g].user.None?)
      || exists c: nat :: c < |e.connections| && MadeFor(e, g, c)
  }

  predicate AllUntouchedSound(e: Engine) {
    forall g: nat :: g < |e.sessions| ==> UntouchedSound(e, g)
  }

  lemma StandersTouched(e: Engine, g: nat, ws: Socket)
    requires Inv(e) && g < |e.sessions| && ws in e.sessions[g].open
    ensures g in e.touched
  {
    assert SessionSound(e, g);
    StandersJoined(e.joins, e.connections, g, ws);
    var a :| 0 <= a < |e.joins| && e.joins[a] == Joining(g, ws);
    assert JoinSound(e, a);
  }

  lemma EndLeavesUntouched(e: Engine, c: nat, g: nat)
    requires Inv(e) && c < |e.connections| && g < |e.sessions| && g !in e.touched
    ensures EndSession(e, c).sessions[g] == e.sessions[g]
  {
    if e.connections[c].socket in e.sessions[g].open {
      StandersTouched(e, g, e.connections[c].socket);
    }
  }

  lemma MadeForStays(e: Engine, step: Step, g: nat, c: nat)
    requires MadeFor(e, g, c) && g < |e.sessions| && g !in Next(e, step).touched
    ensures MadeFor(Next(e, step), g, c)
  {
    hide Standing, Without, Join, Leave;
  }

  /** A step that does not touch a session leaves it as it was. */
  lemma UntouchedStays(e: Engine, step: Step, g: nat)
    requires Inv(e) && g < |e.sessions| && g !in Next(e, step).touched
    ensures g !in e.touched && g < |Next(e, step).sessions| && Next(e, step).sessions[g] == e.sessions[g]
  {
    if Enabled(e, step) && (step.IsEvicted? || step.Closes?) && g !in e.touched {
      EndLeavesUntouched(e, step.c, g);
    }
    hide Inv, Standing, Without, Join, Leave;
  }

  lemma NextKeepsUntouched(e: Engine, step: Step, g: nat)
    requires Inv(e) && AllUntouchedSound(e) && g < |Next(e, step).sessions|
    ensures UntouchedSound(Next(e, step), g)
  {
    var t := Next(e, step);
    if g < |e.sessions| {
      assert UntouchedSound(e, g);
      if g !in t.touched {
        UntouchedStays(e, step, g);
        if c: nat :| c < |e.connections| && MadeFor(e, g, c) {
          MadeForStays(e, step, g, c);
        }
      }
      hide Inv, Next;
    } else if step.Stores? {
      hide Inv;
      assert MadeFor(t, g, step.c);
    } else {
      hide Inv;
    }
  }

  lemma {:induction false} AfterKeepsUntouched(e: Engine, steps: seq<Step>)
    requires Inv(e) && AllUntouchedSound(e)
    ensures AllUntouchedSound(After(e, steps))
    decreases |steps|
  {
    hide Inv, Next;
    if steps != [] {
      NextKeeps(e, steps[0]);
      forall g: nat | g < |Next(e, steps[0]).sessions|
        ensures UntouchedSound(Next(e, steps[0]), g)
      {
        NextKeepsUntouched(e, steps[0], g);
      }
      AfterKeepsUntouched(Next(e, steps[0]), steps[1..]);
    }
  }

  /** Once every socket has closed and no set-up is still under way, no session keeps anybody's credentials, nor a
    * socket. */
  lemma NothingOutlivesItsSocket(steps: seq<Step>, g: nat)
    requires var e := After(IDLE, steps);
      && g < |e.sessions|
      && forall c: nat :: c < |e.connections| ==>
           e.connections[c].closed && (e.connections[c].stage.Live? || e.connections[c].stage.Over?)
    ensures var s := After(IDLE, steps).sessions[g]; s.open == [] && s.authHeaders.None? && s.user.None?
  {
    var e := After(IDLE, steps);
    AfterKeeps(IDLE, steps);
    AfterKeepsUntouched(IDLE, steps);
    assert SessionSound(e, g) && UntouchedSound(e, g);
    forall a: nat | a < |e.joins|
      ensures HasLeft(e.connections, e.joins[a].socket)
    {
      assert JoinSound(e, a);
      assert ConnectionSound(e, e.joins[a].socket.id);
    }
    AllLeft(e.joins, e.connections, g);
  }

  lemma {:induction false} AllLeft(joins: seq<Joining>, connections: seq<Connection>, g: nat)
    requires forall a: nat :: a < |joins| ==> HasLeft(connections, joins[a].socket)
    ensures Standing(joins, connections, g) == []
  {
    if joins != [] {
      AllLeft(joins[..|joins| - 1], connections, g);
    }
  }
}
