/** That sockets do come, lend and go: a visit from beginning to end, from any state of the engine. */
module SocketVisits {
  import opened Wrappers
  import opened Sequences
  import opened SocketLending

  /** The engine with one connection more. */
  function Plus(e: Engine, k: Connection): Engine {
    e.(connections := e.connections + [k])
  }

  lemma PutLast(e: Engine, k: Connection, next: Connection)
    ensures Put(Plus(e, k), |e.connections|, next) == Plus(e, next)
  {
    assert (e.connections + [k])[|e.connections| := next] == e.connections + [next];
  }

  /** The newcomer's session is handed to it: it joins, and is told. */
  lemma NewcomerSettles(e: Engine, k: Connection, g: nat, resumed: bool, greeting: Greeting)
    requires g < |e.sessions| && !k.closed && !greeting.Threw?
    ensures var s := e.sessions[g];
            var joined := e.(sessions := e.sessions[g := Session(s.open + [k.socket], k.socket.authHeaders,
              k.socket.user)],
                             touched := e.touched + {g}, joins := e.joins + [Joining(g, k.socket)]);
            var settled := k.(settled := true, held := Some(g));
            Settle(Plus(e, k), |e.connections|, g, resumed, greeting)
            == if greeting.Refused? then Plus(joined, settled.(stage := Evicting))
               else Plus(joined.(fired := e.fired + [OnConnect(|e.connections|)]),
                         settled.(stage := Live, delivered := true))
  {
    var c := |e.connections|;
    var stage := if greeting.Refused? then Evicting else Live;
    var handed := k.(settled := true, held := Some(g), stage := stage);
    PutLast(e, k, handed);
    var joined := JoinSession(Plus(e, handed), c, g);
    PutLast(joined.(connections := e.connections), handed, handed.(delivered := true));
  }

  /** The newcomer leaves the session it holds, and a hook is due if it had been told. */
  lemma NewcomerLeaves(e: Engine, k: Connection, g: nat)
    requires g < |e.sessions| && k.held == Some(g) && !k.notified
    requires var open := e.sessions[g].open;
      open != [] && open[|open| - 1] == k.socket && k.socket !in open[..|open| - 1]
    ensures var before := e.sessions[g].open[..|e.sessions[g].open| - 1];
            var left := if before == [] then Session([], None, None)
                        else Session(before, before[|before| - 1].authHeaders, before[|before| - 1].user);
            EndSession(Plus(e, k), |e.connections|)
            == Plus(e.(sessions := e.sessions[g := left],
                       fired := e.fired + if k.delivered then [OnDisconnect(|e.connections|)] else []),
                    k.(notified := true))
  {
    PutLast(e, k, k.(notified := true));
    var open := e.sessions[g].open;
    var before := open[..|open| - 1];
    assert open == before + [k.socket];
    LastLeaves(before, k.socket);
    assert e.fired + [] == e.fired;
    hide Without;
  }

  lemma LastLeaves(was: seq<Socket>, ws: Socket)
    requires ws !in was
    ensures Without(was + [ws], ws) == was
  {
    WithoutAbsent(was, ws);
    assert (was + [ws])[..|was|] == was;
  }

  function Newcomer(ws: Socket, stage: Stage): Connection {
    Connection(ws, stage, false, false, false, false, None)
  }

  /** Opened, no session found, and one stored for it with its own credentials. */
  function Stored(e: Engine, headers: Option<string>, user: Option<string>): Engine {
    Next(Next(Next(e, Opens(headers, user)), FindsNone(|e.connections|)), Stores(|e.connections|))
  }

  function NewSession(e: Engine, s: Session): Engine {
    e.(sessions := e.sessions + [s])
  }

  lemma NewcomerStores(e: Engine, headers: Option<string>, user: Option<string>)
    ensures Stored(e, headers, user)
         == Plus(NewSession(e, Session([], headers, user)),
                 Newcomer(Socket(|e.connections|, headers, user), Created(|e.sessions|)))
  {
    var c := |e.connections|;
    var ws := Socket(c, headers, user);
    PutLast(e, Newcomer(ws, Looking), Newcomer(ws, Creating));
    PutLast(e, Newcomer(ws, Creating), Newcomer(ws, Created(|e.sessions|)));
    assert Next(e, Opens(headers, user)) == Plus(e, Newcomer(ws, Looking));
    assert Next(Plus(e, Newcomer(ws, Looking)), FindsNone(c)) == Plus(e, Newcomer(ws, Creating));
  }

  /** The newcomer is told, or refuses it, with its new session its own. */
  lemma NewcomerAdopts(e: Engine, headers: Option<string>, user: Option<string>, greeting: Greeting)
    requires !greeting.Threw?
    ensures var c, g := |e.connections|, |e.sessions|; var ws := Socket(c, headers, user);
            var told := greeting.Sent?;
            Next(Stored(e, headers, user), Adopts(c, greeting))
            == Plus(NewSession(e, Session([ws], headers, user))
                      .(touched := e.touched + {g}, joins := e.joins + [Joining(g, ws)],
                        fired := e.fired + if told then [OnConnect(c)] else []),
                    Connection(ws, if told then Live else Evicting, false, true, false, told, Some(g)))
  {
    hide Settle, Stored;
    var c, g := |e.connections|, |e.sessions|;
    var ws := Socket(c, headers, user);
    var storing := NewSession(e, Session([], headers, user));
    NewcomerStores(e, headers, user);
    NewcomerSettles(storing, Newcomer(ws, Created(g)), g, false, greeting);
    assert [] + [ws] == [ws];
    assert storing.sessions[g := Session([ws], headers, user)] == e.sessions + [Session([ws], headers, user)];
    assert e.fired + [] == e.fired;
  }

  /** What the newcomer leaves behind of the session that was its own. */
  lemma NewcomerEnds(e: Engine, k: Connection)
    requires k.held == Some(|e.sessions|) && !k.notified
    ensures var lent := Session([k.socket], k.socket.authHeaders, k.socket.user);
            EndSession(Plus(NewSession(e, lent), k), |e.connections|)
            == Plus(NewSession(e, Session([], None, None))
                      .(fired := e.fired + if k.delivered then [OnDisconnect(|e.connections|)] else []),
                    k.(notified := true))
  {
    hide EndSession;
    var lent := Session([k.socket], k.socket.authHeaders, k.socket.user);
    assert [k.socket][..0] == [];
    NewcomerLeaves(NewSession(e, lent), k, |e.sessions|);
    assert NewSession(e, lent).sessions[|e.sessions| := Session([], None, None)]
        == NewSession(e, Session([], None, None)).sessions;
  }

  /** A socket that finds no session brings a new one its own credentials, is told, and takes them away as it closes;
    * from any state. */
  lemma FirstVisit(e: Engine, headers: Option<string>, user: Option<string>)
    ensures var c := |e.connections|; var ws := Socket(c, headers, user);
            var stored := Next(Next(Next(e, Opens(headers, user)), FindsNone(c)), Stores(c));
            var live := Next(stored, Adopts(c, Sent));
            var gone := Next(live, Closes(c));
            && live.sessions == e.sessions + [Session([ws], headers, user)]
            && |live.connections| == c + 1 && live.connections[c].stage == Live
              && live.connections[..c] == e.connections
            && live.fired == e.fired + [OnConnect(c)]
            && gone.sessions == e.sessions + [Session([], None, None)]
            && gone.fired == live.fired + [OnDisconnect(c)]
  {
    var c, g := |e.connections|, |e.sessions|;
    var ws := Socket(c, headers, user);
    NewcomerAdopts(e, headers, user, Sent);
    assert Stored(e, headers, user) == Next(Next(Next(e, Opens(headers, user)), FindsNone(c)), Stores(c));
    var k := Connection(ws, Live, false, true, false, true, Some(g));
    var base := e.(touched := e.touched + {g}, joins := e.joins + [Joining(g, ws)], fired := e.fired + [OnConnect(c)]);
    NewcomerEnds(base, k);
    NewcomerCloses(Plus(NewSession(base, Session([ws], headers, user)), k), c);
    hide Next, EndSession, Stored, Put;
  }

  lemma NewcomerCloses(e: Engine, c: nat)
    requires c < |e.connections| && !e.connections[c].closed && e.connections[c].settled
    ensures Next(e, Closes(c)).sessions == EndSession(e, c).sessions
      && Next(e, Closes(c)).fired == EndSession(e, c).fired
  {
    hide EndSession;
  }

  /** A socket that resumes a session lends to it from then on, and as it closes gives it back to the one before it, or
    * to none; from any state in which it is not on it already. */
  lemma ResumedVisit(e: Engine, headers: Option<string>, user: Option<string>, g: nat)
    requires g < |e.sessions| && Socket(|e.connections|, headers, user) !in e.sessions[g].open
    ensures var c := |e.connections|; var was := e.sessions[g].open; var ws := Socket(c, headers, user);
            var live := Next(Next(e, Opens(headers, user)), Resumes(c, g, Sent));
            var gone := Next(live, Closes(c));
            && live.sessions == e.sessions[g := Session(was + [ws], headers, user)]
            && live.fired == e.fired + [OnConnect(c)] && gone.fired == live.fired + [OnDisconnect(c)]
            && gone.sessions == e.sessions[g :=
                 if was == [] then Session([], None, None)
                 else Session(was, was[|was| - 1].authHeaders, was[|was| - 1].user)]
  {
    hide EndSession, Settle;
    var c := |e.connections|;
    var ws := Socket(c, headers, user);
    var was := e.sessions[g].open;
    assert Next(e, Opens(headers, user)) == Plus(e, Newcomer(ws, Looking));
    NewcomerSettles(e, Newcomer(ws, Looking), g, true, Sent);
    var live := Next(Next(e, Opens(headers, user)), Resumes(c, g, Sent));
    var k := live.connections[c];
    var without := live.(connections := e.connections);
    assert live == Plus(without, k);
    assert (was + [ws])[..|was|] == was;
    NewcomerLeaves(without, k, g);
  }

  /** A socket that refuses what it is told leaves its new session before anybody is told of it, and no hook is
    * fired. */
  lemma RefusedVisit(e: Engine, headers: Option<string>, user: Option<string>)
    ensures var c := |e.connections|;
            var stored := Next(Next(Next(e, Opens(headers, user)), FindsNone(c)), Stores(c));
            var over := Next(Next(stored, Adopts(c, Refused)), IsEvicted(c));
            && over.sessions == e.sessions + [Session([], None, None)] && over.fired == e.fired
            && |over.connections| == c + 1 && over.connections[c].stage == Over
  {
    var c, g := |e.connections|, |e.sessions|;
    var ws := Socket(c, headers, user);
    NewcomerAdopts(e, headers, user, Refused);
    assert Stored(e, headers, user) == Next(Next(Next(e, Opens(headers, user)), FindsNone(c)), Stores(c));
    var k := Connection(ws, Evicting, false, true, false, false, Some(g));
    assert e.fired + [] == e.fired;
    var base := e.(touched := e.touched + {g}, joins := e.joins + [Joining(g, ws)]);
    NewcomerEnds(base, k);
    NewcomerIsEvicted(Plus(NewSession(base, Session([ws], headers, user)), k), c);
    hide Next, EndSession, Stored, Put;
  }

  lemma NewcomerIsEvicted(e: Engine, c: nat)
    requires c < |e.connections| && e.connections[c].stage.Evicting?
      && |EndSession(e, c).connections| == |e.connections|
    ensures var over := Next(e, IsEvicted(c)); var ended := EndSession(e, c);
            && over.sessions == ended.sessions && over.fired == ended.fired
            && |over.connections| == |e.connections| && over.connections[c].stage == Over
  {
    hide EndSession;
  }
}
