/** Whose credentials a session carries: the sockets open on it, and the one that lends to it.
  *
  * Connections open, look up or create their session, join it, fail to be told and close, in any
  * interleaving; each step is what one connection does between two awaits. A session is the object
  * shared by every socket on it, so a resumed one is any object there is, or one just loaded.
  */
module SocketLending {
  import opened Wrappers
  import opened Sequences

  /** A socket with what its upgrade carried. */
  datatype Socket = Socket(id: nat, authHeaders: Option<string>, user: Option<string>)

  /** A session as the handler sees it: its open sockets, oldest first, and the two fields one of them lends. */
  datatype Session = Session(open: seq<Socket>, authHeaders: Option<string>, user: Option<string>)

  function Last(open: seq<Socket>): Option<Socket> {
    if open == [] then None else Some(open[|open| - 1])
  }

  function Lend(s: Session, ws: Option<Socket>): Session {
    if ws.Some? then s.(authHeaders := ws.value.authHeaders, user := ws.value.user)
    else s.(authHeaders := None, user := None)
  }

  function Without(open: seq<Socket>, ws: Socket): seq<Socket> {
    if open == [] then []
    else
      var n := |open| - 1;
      Without(open[..n], ws) + if open[n] == ws then [] else [open[n]]
  }

  function Join(s: Session, ws: Socket): Session {
    Lend(s.(open := s.open + [ws]), Some(ws))
  }

  function Leave(s: Session, ws: Socket): Session {
    if ws !in s.open then s
    else
      var remaining := Without(s.open, ws);
      Lend(s.(open := remaining), Last(remaining))
  }

  /** Both fields come from the newest open socket, and neither is held when none is open. */
  predicate Lent(s: Session) {
    match Last(s.open)
    case None => s.authHeaders.None? && s.user.None?
    case Some(newest) => s.authHeaders == newest.authHeaders && s.user == newest.user
  }

  // ----- Connections -----

  datatype Stage =
    | Looking
    | Creating
    | Created(session: nat)
    // Failed to be told, or closed meanwhile: the eviction it awaits is not the concern here.
    | Evicting
    | Live
    | Over

  datatype Connection = Connection(
    socket: Socket,
    stage: Stage,
    closed: bool,
    settled: bool,
    notified: bool,
    delivered: bool,
    held: Option<nat>)

  datatype Hook = OnConnect(socket: nat) | OnDisconnect(socket: nat)

  datatype Joining = Joining(session: nat, socket: Socket)

  /** `joins` and `fired` are what happened, in order; `touched` names the sessions some socket has joined. */
  datatype Engine = Engine(
    connections: seq<Connection>,
    sessions: seq<Session>,
    touched: set<nat>,
    joins: seq<Joining>,
    fired: seq<Hook>)

  /** How the connected frame went: sent, refused by the socket, or never built because its prompts threw. */
  datatype Greeting = Sent | Refused | Threw

  datatype Step =
    | Opens(authHeaders: Option<string>, user: Option<string>)
    | Resumes(c: nat, session: nat, greeting: Greeting)
    | FindsNone(c: nat)
    | LookupFails(c: nat)
    | Stores(c: nat)
    | CreateFails(c: nat)
    | Adopts(c: nat, greeting: Greeting)
    | IsEvicted(c: nat)
    | Closes(c: nat)

  const IDLE := Engine([], [], {}, [], [])

  function Put(e: Engine, c: nat, connection: Connection): Engine
    requires c < |e.connections|
  {
    e.(connections := e.connections[c := connection])
  }

  function JoinSession(e: Engine, c: nat, g: nat): Engine
    requires c < |e.connections| && g < |e.sessions|
  {
    var ws := e.connections[c].socket;
    e.(sessions := e.sessions[g := Join(e.sessions[g], ws)], touched := e.touched + {g},
      joins := e.joins + [Joining(g, ws)])
  }

  function EndSession(e: Engine, c: nat): Engine
    requires c < |e.connections|
  {
    var connection := e.connections[c];
    if connection.notified then e
    else
      var e1 := Put(e, c, connection.(notified := true));
      var g := connection.held;
      var e2 := if g.Some? && g.value < |e.sessions|
                then e1.(sessions := e1.sessions[g.value := Leave(e1.sessions[g.value], connection.socket)])
                else e1;
      if connection.delivered then e2.(fired := e2.fired + [OnDisconnect(c)]) else e2
  }

  /** A session handed to its connection: a new one joined at once, a resumed one only by a socket still open. */
  function Settle(e: Engine, c: nat, g: nat, resumed: bool, greeting: Greeting): Engine
    requires c < |e.connections| && g < |e.sessions|
  {
    var closed := e.connections[c].closed;
    var stage := if closed || greeting.Refused? then Evicting else if greeting.Threw? then Over else Live;
    var handed := Put(e, c, e.connections[c].(settled := true, held := Some(g), stage := stage));
    var joined := if closed && resumed then handed else JoinSession(handed, c, g);
    if !closed && greeting.Sent? then Deliver(joined, c) else joined
  }

  function Deliver(e: Engine, c: nat): Engine
    requires c < |e.connections|
  {
    Put(e, c, e.connections[c].(delivered := true)).(fired := e.fired + [OnConnect(c)])
  }

  predicate Enabled(e: Engine, step: Step) {
    match step
    case Opens(_, _) => true
    case Resumes(c, g, _) => c < |e.connections| && e.connections[c].stage.Looking? && g <= |e.sessions|
    case FindsNone(c) => c < |e.connections| && e.connections[c].stage.Looking?
    case LookupFails(c) => c < |e.connections| && e.connections[c].stage.Looking?
    case Stores(c) => c < |e.connections| && e.connections[c].stage.Creating?
    case CreateFails(c) => c < |e.connections| && e.connections[c].stage.Creating?
    case Adopts(c, _) => c < |e.connections| && e.connections[c].stage.Created?
      && e.connections[c].stage.session < |e.sessions|
    case IsEvicted(c) => c < |e.connections| && e.connections[c].stage.Evicting?
    case Closes(c) => c < |e.connections| && !e.connections[c].closed
  }

  /** A session object just loaded carries nobody's credentials. */
  function Loaded(e: Engine, g: nat): Engine {
    if g == |e.sessions| then e.(sessions := e.sessions + [Session([], None, None)]) else e
  }

  function Next(e: Engine, step: Step): Engine {
    if !Enabled(e, step) then e
    else
      match step
      case Opens(headers, user) =>
        e.(connections := e.connections
             + [Connection(Socket(|e.connections|, headers, user), Looking, false, false, false, false, None)])
      case Resumes(c, g, greeting) => Settle(Loaded(e, g), c, g, true, greeting)
      case FindsNone(c) => Put(e, c, e.connections[c].(stage := Creating))
      case LookupFails(c) => Put(e, c, e.connections[c].(stage := Over))
      case Stores(c) =>
        var ws := e.connections[c].socket;
        Put(e, c, e.connections[c].(stage := Created(|e.sessions|)))
          .(sessions := e.sessions + [Session([], ws.authHeaders, ws.user)])
      case CreateFails(c) => Put(e, c, e.connections[c].(stage := Over, settled := true))
      case Adopts(c, greeting) => Settle(e, c, e.connections[c].stage.session, false, greeting)
      case IsEvicted(c) =>
        var ended := EndSession(e, c);
        Put(ended, c, ended.connections[c].(stage := Over))
      case Closes(c) =>
        var ended := if e.connections[c].settled then EndSession(e, c) else e;
        Put(ended, c, ended.connections[c].(closed := true))
  }

  function After(e: Engine, steps: seq<Step>): Engine
    decreases |steps|
  {
    if steps == [] then e else After(Next(e, steps[0]), steps[1..])
  }

  // ----- Who stands on a session -----

  predicate HasLeft(connections: seq<Connection>, ws: Socket) {
    ws.id < |connections| && connections[ws.id].notified
  }

  /** The sockets that joined a session and have not left, in the order they joined. */
  function Standing(joins: seq<Joining>, connections: seq<Connection>, g: nat): seq<Socket> {
    if joins == [] then []
    else
      var n := |joins| - 1;
      Standing(joins[..n], connections, g)
      + if joins[n].session == g && !HasLeft(connections, joins[n].socket) then [joins[n].socket] else []
  }

  // ----- The invariant -----

  predicate ConnectionSound(e: Engine, c: nat)
    requires c < |e.connections|
  {
    var k := e.connections[c];
    && k.socket.id == c
    && (k.stage.Looking? || k.stage.Creating? || k.stage.Created? ==> !k.settled)
    && (k.stage.Evicting? || k.stage.Live? ==> k.settled)
    && (k.closed && k.held.Some? && (k.stage.Live? || k.stage.Over?) ==> k.notified)
    && (!k.settled ==> k.held.None? && !k.notified && !k.delivered)
    && (k.stage.Created? ==> k.stage.session < |e.sessions|)
    && (k.held.Some? ==> k.held.value < |e.sessions|)
  }

  /** Who joined what: a connection joins the session it holds, and once. */
  predicate JoinSound(e: Engine, a: nat)
    requires a < |e.joins|
  {
    var g, ws := e.joins[a].session, e.joins[a].socket;
    && ws.id < |e.connections| && e.connections[ws.id].socket == ws && e.connections[ws.id].held == Some(g)
    && g < |e.sessions| && g in e.touched
    && forall b: nat :: b < a ==> e.joins[b].socket.id != ws.id
  }

  predicate SessionSound(e: Engine, g: nat)
    requires g < |e.sessions|
  {
    e.sessions[g].open == Standing(e.joins, e.connections, g) && (g in e.touched ==> Lent(e.sessions[g]))
  }

  predicate HooksSound(e: Engine) {
    && (forall c: nat :: c < |e.connections| ==>
          && (e.connections[c].delivered <==> OnConnect(c) in e.fired)
          && (e.connections[c].delivered && e.connections[c].notified <==> OnDisconnect(c) in e.fired))
    && (forall a: nat :: a < |e.fired| ==> e.fired[a].socket < |e.connections|)
    && (forall a: nat, b: nat :: a < b < |e.fired| ==>
          e.fired[a] != e.fired[b] && (e.fired[a].socket == e.fired[b].socket ==> e.fired[a].OnConnect?))
  }

  predicate Inv(e: Engine) {
    && (forall c: nat :: c < |e.connections| ==> ConnectionSound(e, c))
    && (forall a: nat :: a < |e.joins| ==> JoinSound(e, a))
    && (forall g: nat :: g < |e.sessions| ==> SessionSound(e, g))
    && (forall g :: g in e.touched ==> g < |e.sessions|)
    && HooksSound(e)
  }

  // ----- How standing changes -----

  lemma {:induction false} StandingStays(joins: seq<Joining>, before: seq<Connection>, now: seq<Connection>, g: nat)
    requires forall a: nat :: a < |joins| ==> HasLeft(now, joins[a].socket) == HasLeft(before, joins[a].socket)
    ensures Standing(joins, now, g) == Standing(joins, before, g)
  {
    if joins != [] {
      StandingStays(joins[..|joins| - 1], before, now, g);
    }
  }

  lemma {:induction false} NobodyStands(joins: seq<Joining>, connections: seq<Connection>, g: nat)
    requires forall a: nat :: a < |joins| ==> joins[a].session != g
    ensures Standing(joins, connections, g) == []
  {
    if joins != [] {
      NobodyStands(joins[..|joins| - 1], connections, g);
    }
  }

  /** One connection's end takes its socket, and no other, from where it stood. */
  lemma {:induction false} StandingLeaves(joins: seq<Joining>, before: seq<Connection>, now: seq<Connection>,
      ws: Socket, g: nat)
    requires forall a: nat :: a < |joins| ==>
      if joins[a].socket.id == ws.id then joins[a].socket == ws && HasLeft(now, ws)
      else HasLeft(now, joins[a].socket) == HasLeft(before, joins[a].socket)
    ensures Standing(joins, now, g) == Without(Standing(joins, before, g), ws)
  {
    if joins != [] {
      var n := |joins| - 1;
      StandingLeaves(joins[..n], before, now, ws, g);
      var earlier := Standing(joins[..n], before, g);
      assert (earlier + [joins[n].socket])[..|earlier|] == earlier;
      assert earlier + [] == earlier;
    }
  }

  lemma {:induction false} StandersJoined(joins: seq<Joining>, connections: seq<Connection>, g: nat, ws: Socket)
    requires ws in Standing(joins, connections, g)
    ensures Joining(g, ws) in joins
  {
    var n := |joins| - 1;
    if joins[n] != Joining(g, ws) {
      StandersJoined(joins[..n], connections, g, ws);
      assert Joining(g, ws) in joins[..n];
    }
  }

  lemma {:induction false} WithoutNowhere(open: seq<Socket>, ws: Socket)
    requires forall i :: 0 <= i < |open| ==> open[i] != ws
    ensures Without(open, ws) == open
  {
    if open != [] {
      var n := |open| - 1;
      WithoutNowhere(open[..n], ws);
      assert open[..n] + [open[n]] == open;
    }
  }

  lemma WithoutAbsent(open: seq<Socket>, ws: Socket)
    requires ws !in open
    ensures Without(open, ws) == open
  {
    WithoutNowhere(open, ws);
  }

  lemma LeaveLends(s: Session, ws: Socket)
    ensures Leave(s, ws).open == Without(s.open, ws)
    ensures Lent(s) ==> Lent(Leave(s, ws))
  {
    if ws !in s.open {
      WithoutAbsent(s.open, ws);
    }
  }

  // ----- What each move keeps -----

  lemma SessionsStay(e: Engine, t: Engine)
    requires Inv(e) && t.joins == e.joins && t.touched == e.touched && |e.sessions| <= |t.sessions|
    requires forall g: nat :: g < |e.sessions| ==> t.sessions[g] == e.sessions[g]
    requires forall g: nat :: |e.sessions| <= g < |t.sessions| ==> t.sessions[g].open == []
    requires forall a: nat :: a < |e.joins| ==>
      HasLeft(t.connections, e.joins[a].socket) == HasLeft(e.connections, e.joins[a].socket)
    ensures forall g: nat :: g < |t.sessions| ==> SessionSound(t, g)
  {
    forall g: nat | g < |t.sessions|
      ensures SessionSound(t, g)
    {
      StandingStays(e.joins, e.connections, t.connections, g);
      if g < |e.sessions| {
        assert SessionSound(e, g);
      } else {
        forall a: nat | a < |e.joins|
          ensures e.joins[a].session != g
        {
          assert JoinSound(e, a);
        }
        NobodyStands(e.joins, e.connections, g);
      }
    }
  }

  lemma JoinStays(e: Engine, t: Engine, a: nat)
    requires a < |e.joins| && JoinSound(e, a)
    requires |e.connections| <= |t.connections| && |e.sessions| <= |t.sessions| && e.joins <= t.joins
      && e.touched <= t.touched
    requires forall c: nat :: c < |e.connections| ==>
      t.connections[c].socket == e.connections[c].socket
        && (e.connections[c].held.Some? ==> t.connections[c].held == e.connections[c].held)
    ensures JoinSound(t, a)
  {
    forall b: nat | b < a
      ensures t.joins[b].socket.id != t.joins[a].socket.id
    {
      assert t.joins[b] == e.joins[b] && t.joins[a] == e.joins[a];
    }
  }

  /** A connection that only moved on: it told nobody anything and held what it held, or came to hold a session. */
  lemma PutKeeps(e: Engine, c: nat, k: Connection)
    requires Inv(e) && c < |e.connections| && ConnectionSound(Put(e, c, k), c)
    requires var was := e.connections[c];
      k.socket == was.socket && k.notified == was.notified && k.delivered == was.delivered
        && (was.held.Some? ==> k.held == was.held)
    ensures Inv(Put(e, c, k))
  {
    var t := Put(e, c, k);
    assert ConnectionSound(e, c);
    forall a: nat | a < |t.joins| ensures JoinSound(t, a) { JoinStays(e, t, a); }
    forall d: nat | d < |t.connections| ensures ConnectionSound(t, d) { assert d != c ==> ConnectionSound(e, d); }
    SessionsStay(e, t);
  }

  lemma OpensKeeps(e: Engine, headers: Option<string>, user: Option<string>)
    requires Inv(e)
    ensures Inv(Next(e, Opens(headers, user)))
  {
    var t := Next(e, Opens(headers, user));
    forall a: nat | a < |t.joins| ensures JoinSound(t, a) { JoinStays(e, t, a); }
    forall d: nat | d < |t.connections|
      ensures ConnectionSound(t, d)
    {
      assert d < |e.connections| ==> ConnectionSound(e, d);
    }
    SessionsStay(e, t);
  }

  lemma NewSessionKeeps(e: Engine, s: Session)
    requires Inv(e) && s.open == []
    ensures Inv(e.(sessions := e.sessions + [s]))
  {
    var t := e.(sessions := e.sessions + [s]);
    forall a: nat | a < |t.joins| ensures JoinSound(t, a) { JoinStays(e, t, a); }
    forall d: nat | d < |t.connections| ensures ConnectionSound(t, d) { assert ConnectionSound(e, d); }
    SessionsStay(e, t);
  }

  lemma JoinKeeps(e: Engine, c: nat, g: nat)
    requires Inv(e) && c < |e.connections| && g < |e.sessions|
    requires e.connections[c].held == Some(g) && !e.connections[c].notified
    requires forall a: nat :: a < |e.joins| ==> e.joins[a].socket.id != c
    ensures Inv(JoinSession(e, c, g))
  {
    var t := JoinSession(e, c, g);
    var n := |e.joins|;
    assert ConnectionSound(e, c);
    assert t.joins[..n] == e.joins;
    forall a: nat | a < |t.joins| ensures JoinSound(t, a) { if a < n { JoinStays(e, t, a); } }
    forall d: nat | d < |t.connections| ensures ConnectionSound(t, d) { assert ConnectionSound(e, d); }
    forall h: nat | h < |t.sessions|
      ensures SessionSound(t, h)
    {
      assert SessionSound(e, h);
      assert e.sessions[h].open + [] == e.sessions[h].open;
    }
  }

  lemma DeliverKeeps(e: Engine, c: nat)
    requires Inv(e) && c < |e.connections| && e.connections[c].settled && !e.connections[c].delivered
      && !e.connections[c].notified
    ensures Inv(Deliver(e, c))
  {
    var t := Deliver(e, c);
    var n := |e.fired|;
    assert t.fired[n] == OnConnect(c);
    assert ConnectionSound(e, c);
    forall a: nat | a < |t.joins| ensures JoinSound(t, a) { JoinStays(e, t, a); }
    forall d: nat | d < |t.connections| ensures ConnectionSound(t, d) { assert ConnectionSound(e, d); }
    SessionsStay(e, t);
    hide ConnectionSound, JoinSound, SessionSound;
    FiredGrows(e, t, OnConnect(c));
  }

  /** One more hook, never fired before and not on a socket already disconnected. */
  lemma FiredGrows(e: Engine, t: Engine, hook: Hook)
    requires HooksSound(e) && t.fired == e.fired + [hook] && |t.connections| == |e.connections|
    requires hook.socket < |e.connections| && hook !in e.fired && OnDisconnect(hook.socket) !in e.fired
    requires forall c: nat :: c < |e.connections| && c != hook.socket ==>
      t.connections[c].delivered == e.connections[c].delivered && t.connections[c].notified == e.connections[c].notified
    requires var k := t.connections[hook.socket];
      k.delivered && (k.notified <==> hook.OnDisconnect?)
        && (hook.OnDisconnect? ==> e.connections[hook.socket].delivered)
    ensures HooksSound(t)
  {
    var n := |e.fired|;
    assert t.fired[n] == hook;
    forall c: nat | c < |e.connections|
      ensures t.connections[c].delivered <==> OnConnect(c) in t.fired
      ensures t.connections[c].delivered && t.connections[c].notified <==> OnDisconnect(c) in t.fired
    {
      assert OnConnect(c) in t.fired <==> OnConnect(c) in e.fired || OnConnect(c) == hook;
      assert OnDisconnect(c) in t.fired <==> OnDisconnect(c) in e.fired || OnDisconnect(c) == hook;
    }
    forall a: nat, b: nat | a < b < |t.fired|
      ensures t.fired[a] != t.fired[b] && (t.fired[a].socket == t.fired[b].socket ==> t.fired[a].OnConnect?)
    {
      assert e.fired[a] in e.fired;
    }
  }

  lemma EndKeeps(e: Engine, c: nat)
    requires Inv(e) && c < |e.connections| && e.connections[c].settled
    ensures Inv(EndSession(e, c))
  {
    var k := e.connections[c];
    if !k.notified {
      var t := EndSession(e, c);
      assert ConnectionSound(e, c);
      forall a: nat | a < |t.joins| ensures JoinSound(t, a) { JoinStays(e, t, a); }
      forall d: nat | d < |t.connections| ensures ConnectionSound(t, d) { assert ConnectionSound(e, d); }
      forall g: nat | g < |t.sessions| ensures SessionSound(t, g) { EndKeepsSession(e, c, g); }
      hide ConnectionSound, JoinSound, SessionSound;
      if k.delivered {
        FiredGrows(e, t, OnDisconnect(c));
      }
    }
  }

  lemma EndedStanding(e: Engine, c: nat, now: seq<Connection>, g: nat)
    requires Inv(e) && c < |e.connections| && now == e.connections[c := e.connections[c].(notified := true)]
    ensures Standing(e.joins, now, g) == Without(Standing(e.joins, e.connections, g), e.connections[c].socket)
  {
    hide Standing, Without, Lent;
    var ws := e.connections[c].socket;
    assert ConnectionSound(e, c);
    forall a: nat | a < |e.joins|
      ensures if e.joins[a].socket.id == ws.id then e.joins[a].socket == ws && HasLeft(now, ws)
              else HasLeft(now, e.joins[a].socket) == HasLeft(e.connections, e.joins[a].socket)
    {
      assert JoinSound(e, a);
    }
    StandingLeaves(e.joins, e.connections, now, ws, g);
  }

  lemma EndKeepsSession(e: Engine, c: nat, g: nat)
    requires Inv(e) && c < |e.connections| && e.connections[c].settled && !e.connections[c].notified && g < |e.sessions|
    ensures SessionSound(EndSession(e, c), g)
  {
    var ws := e.connections[c].socket;
    assert SessionSound(e, g);
    EndedStanding(e, c, EndSession(e, c).connections, g);
    if ws in e.sessions[g].open {
      StandsOnHeld(e, c, g);
    } else {
      WithoutAbsent(e.sessions[g].open, ws);
    }
    hide Inv, Standing, Without, Lent, Leave;
    LeaveLends(e.sessions[g], ws);
    LeaveOfAbsent(e.sessions[g], ws);
  }

  lemma LeaveOfAbsent(s: Session, ws: Socket)
    ensures ws !in s.open ==> Leave(s, ws) == s
  {
  }

  /** A socket stands on no session but the one its connection holds. */
  lemma StandsOnHeld(e: Engine, c: nat, g: nat)
    requires Inv(e) && c < |e.connections| && g < |e.sessions| && e.connections[c].socket in e.sessions[g].open
    ensures e.connections[c].held == Some(g)
  {
    var ws := e.connections[c].socket;
    assert ConnectionSound(e, c) && SessionSound(e, g);
    StandersJoined(e.joins, e.connections, g, ws);
    var a :| 0 <= a < |e.joins| && e.joins[a] == Joining(g, ws);
    assert JoinSound(e, a);
  }
}
