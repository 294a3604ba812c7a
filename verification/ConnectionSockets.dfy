/** The connection handler's own state: the sockets open on each session object, and one connection's flags. */
module ConnectionSockets {
  import opened Wrappers
  import Lending = SocketLending

  class ChatSession {
    var authHeaders: Option<string>
    var user: Option<string>

    constructor (authHeaders: Option<string>, user: Option<string>)
      ensures this.authHeaders == authHeaders && this.user == user
    {
      this.authHeaders, this.user := authHeaders, user;
    }
  }

  /** One connection: `held` is the session it must leave when it ends. */
  class Connection {
    const socket: Lending.Socket
    var settled: bool
    var notified: bool
    var delivered: bool
    var held: ChatSession?

    constructor (socket: Lending.Socket)
      ensures this.socket == socket && !settled && !notified && !delivered && held == null
    {
      this.socket := socket;
      settled, notified, delivered, held := false, false, false, null;
    }
  }

  class OpenSockets {
    var openSockets: map<ChatSession, seq<Lending.Socket>>

    constructor ()
      ensures openSockets == map[]
    {
      openSockets := map[];
    }

    function OpenOn(session: ChatSession): seq<Lending.Socket>
      reads this
    {
      if session in openSockets then openSockets[session] else []
    }

    ghost function View(session: ChatSession): Lending.Session
      reads this, session
    {
      Lending.Session(OpenOn(session), session.authHeaders, session.user)
    }

    method Lend(session: ChatSession, ws: Option<Lending.Socket>)
      modifies session
      ensures View(session) == Lending.Lend(old(View(session)), ws)
    {
      session.authHeaders := if ws.Some? then ws.value.authHeaders else None;
      session.user := if ws.Some? then ws.value.user else None;
    }

    method Join(session: ChatSession, ws: Lending.Socket)
      modifies this, session
      ensures View(session) == Lending.Join(old(View(session)), ws) && Lending.Lent(View(session))
      ensures openSockets - {session} == old(openSockets) - {session}
    {
      openSockets := openSockets[session := OpenOn(session) + [ws]];
      Lend(session, Some(ws));
    }

    method Leave(session: ChatSession, ws: Lending.Socket)
      modifies this, session
      ensures View(session) == Lending.Leave(old(View(session)), ws)
      ensures old(Lending.Lent(View(session))) ==> Lending.Lent(View(session))
      ensures openSockets - {session} == old(openSockets) - {session}
    {
      Lending.LeaveLends(View(session), ws);
      var open := OpenOn(session);
      if ws !in open {
        return;
      }
      var remaining := Lending.Without(open, ws);
      openSockets := if remaining != [] then openSockets[session := remaining] else openSockets - {session};
      Lend(session, Lending.Last(remaining));
    }

    /** Ends a connection's session once: it leaves what it held, and tells whether `onDisconnect` is due. */
    method EndSession(k: Connection) returns (disconnects: bool)
      modifies this, k, k.held
      ensures k.notified && k.held == old(k.held) && k.delivered == old(k.delivered) && k.settled == old(k.settled)
      ensures disconnects == (!old(k.notified) && k.delivered)
      ensures old(k.notified) || k.held == null ==> openSockets == old(openSockets)
      ensures k.held != null ==> openSockets - {k.held} == old(openSockets) - {k.held}
      ensures k.held != null ==>
        View(k.held) == if old(k.notified) then old(View(k.held)) else Lending.Leave(old(View(k.held)), k.socket)
    {
      if k.notified {
        return false;
      }
      k.notified := true;
      if k.held != null {
        Leave(k.held, k.socket);
      }
      return k.delivered;
    }
  }
}
