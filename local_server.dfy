/**
 * The WebSocket side of the signalling server (server/components/LocalServer.js): one controller
 * (the drone-side local client) per start key, reached on path `/signaling?startKey=…`. Before
 * the controller connects, `setStartKey` stores a placeholder object under the key.
 */
module Local {
  import opened Wrappers
  import opened Sockets
  import Token

  const PingIntervalMillis: int := 5000

  /** What the map holds under a start key: the placeholder `{}` or the controller's socket. */
  datatype LocalClient = Placeholder | Ws(socket: Socket)

  datatype UpgradeDecision =
    | NotHandled     // another path: the listener does nothing
    | Unauthorized   // `HTTP/1.1 401 Unauthorized`, then the socket is destroyed
    | Upgrade        // handed to the WebSocket server

  /** The `upgrade` listener's decision for a request path and its `startKey` query parameter. */
  function DecideUpgrade(keys: set<StartKey>, path: string, key: Option<StartKey>): (d: UpgradeDecision)
    ensures d == NotHandled <==> path != "/signaling"
    ensures d == Upgrade <==> path == "/signaling" && key.Some? && key.value in keys
  {
    if path != "/signaling" then NotHandled
    else if key.None? || key.value !in keys then Unauthorized
    else Upgrade
  }

  /** The handles a send under `k` may write to: the stored socket, if any. */
  function HandleSet(clients: map<StartKey, LocalClient>, k: StartKey): set<Socket>
  {
    if k in clients && clients[k].Ws? then {clients[k].socket} else {}
  }

  class LocalServer {
    var clients: map<StartKey, LocalClient>

    constructor()
      ensures clients == map[]
    {
      clients := map[];
    }

    function UpgradeFor(path: string, key: Option<StartKey>): UpgradeDecision
      reads this
    {
      DecideUpgrade(clients.Keys, path, key)
    }

    /**
     * The `connection` listener: re-check the key and close the socket when it is unknown;
     * otherwise store the socket (replacing whatever was there), ping once, and send the ICE
     * server information. Returns the ping timer state of the new connection, if accepted.
     */
    method Connect(ws: Socket, key: Option<StartKey>, ice: Option<Token.IceServerInfo>)
      returns (conn: Option<ControllerConnection>)
      modifies this, ws
      ensures conn.None? <==> key.None? || key.value !in old(clients)
      ensures conn.None? ==> clients == old(clients) && !ws.open && ws.sent == old(ws.sent)
      ensures conn.Some? ==> clients == old(clients)[key.value := Ws(ws)]
      ensures conn.Some? ==> fresh(conn.value) && conn.value.ws == ws && conn.value.pingArmed
      ensures conn.Some? ==> ws.open == old(ws.open)
      ensures conn.Some? ==> ws.sent == old(ws.sent) + (if old(ws.open) then [PingMessage()] else []) + [IceServerInfoMessage(ice)]
    {
      if key.None? || key.value !in clients {
        ws.Close();
        return None;
      }
      clients := clients[key.value := Ws(ws)];
      var c := new ControllerConnection(ws);
      c.DoPing();
      ws.Send(IceServerInfoMessage(ice));
      return Some(c);
    }

    /** `setStartKey(startKey)`: store the placeholder, replacing any controller socket. */
    method SetStartKey(k: StartKey)
      modifies this
      ensures clients == old(clients)[k := Placeholder]
    {
      clients := clients[k := Placeholder];
    }

    /** The socket `send` would deliver to, if any. */
    function Handle(k: StartKey): Option<Socket>
      reads this
    {
      if k in clients && clients[k].Ws? then Some(clients[k].socket) else None
    }

    /**
     * `send(startKey, data)` through `_doWithLocalClient`: deliver only when a controller socket
     * is stored and open; a placeholder or a closed socket drops the message. The map never changes.
     */
    method Send(k: StartKey, m: Message)
      modifies HandleSet(clients, k)
      ensures clients == old(clients)
      ensures Handle(k).Some? && old(Handle(k).value.open) ==> Handle(k).value.sent == old(Handle(k).value.sent) + [m]
      ensures Handle(k).Some? && !old(Handle(k).value.open) ==> unchanged(Handle(k).value)
      ensures Handle(k).Some? ==> Handle(k).value.open == old(Handle(k).value.open)
    {
      if k in clients && clients[k].Ws? {
        var s := clients[k].socket;
        if s.open {
          s.Send(m);
        }
      }
    }
  }

  /** The ping loop of one accepted controller socket. */
  class ControllerConnection {
    const ws: Socket
    /** A `setTimeout(doPing, 5000)` is pending. */
    var pingArmed: bool

    constructor(ws: Socket)
      ensures this.ws == ws && !pingArmed
    {
      this.ws := ws;
      pingArmed := false;
    }

    /** `doPing`: send a ping if the socket is open, then arm the next one. */
    method DoPing()
      modifies this, ws
      ensures pingArmed
      ensures ws.open == old(ws.open)
      ensures ws.sent == old(ws.sent) + (if old(ws.open) then [PingMessage()] else [])
    {
      if ws.open {
        ws.Send(PingMessage());
      }
      pingArmed := true;
    }

    /** The ping timer fires; after `close` it has been cleared and nothing happens. */
    method OnPingTimer()
      modifies this, ws
      ensures pingArmed == old(pingArmed)
      ensures ws.open == old(ws.open)
      ensures ws.sent == old(ws.sent) + (if old(pingArmed) && old(ws.open) then [PingMessage()] else [])
    {
      if pingArmed {
        DoPing();
      }
    }

    /** The `close` listener clears the pending ping. */
    method OnClose()
      modifies this
      ensures !pingArmed
    {
      pingArmed := false;
    }
  }
}
