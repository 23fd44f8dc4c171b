/**
 * The socket.io side of the signalling server (server/components/RemoteServer.js): peers of a
 * start key connect on path `/remote`, and the server keeps, per start key, the peer sockets by
 * `peerConnectionId`.
 */
module Remote {
  import opened Wrappers
  import Env
  import opened Sockets
  import Token

  /** The module-level constants, read once from the process environment. */
  datatype Settings = Settings(maxClients: Env.Num, maxHttpBufferSize: Env.Num, timeoutMillis: Env.Num, pingIntervalMillis: int)

  function LoadSettings(env: Env.Environment): (s: Settings)
    ensures s.pingIntervalMillis == 3000
    ensures Env.Falsy(Env.Lookup(env, "MAX_REMOTE_CLIENT_COUNT")) ==> s.maxClients == Env.Int(1000)
    ensures Env.Falsy(Env.Lookup(env, "MAX_HTTP_BUF_SIZE")) ==> s.maxHttpBufferSize == Env.Int(1024 * 1024)
    ensures Env.Falsy(Env.Lookup(env, "PRIMARY_TIMEOUT_SEC")) ==> s.timeoutMillis == Env.Int(10000)
  {
    var timeout := Env.ParseIntOrDefault(Env.Lookup(env, "PRIMARY_TIMEOUT_SEC"), 10);
    Settings(
      Env.ParseIntOrDefault(Env.Lookup(env, "MAX_REMOTE_CLIENT_COUNT"), 1000),
      Env.ParseIntOrDefault(Env.Lookup(env, "MAX_HTTP_BUF_SIZE"), 1024 * 1024),
      if timeout.NaN? then Env.NaN else Env.Int(timeout.value * 1000),
      3000)
  }

  /** A timeout given in whole seconds becomes that many thousand milliseconds. */
  lemma TimeoutInSeconds(env: Env.Environment, seconds: nat)
    requires Env.Lookup(env, "PRIMARY_TIMEOUT_SEC") == Some(Env.DecimalText(seconds))
    ensures LoadSettings(env).timeoutMillis == Env.Int(seconds * 1000)
  {
    Env.ParseIntDecimalPrefix(seconds, "");
    assert Env.DecimalText(seconds) + "" == Env.DecimalText(seconds);
  }

  /** `socket.data.clientInfo`. */
  datatype ClientInfo = ClientInfo(startKey: StartKey, peerConnectionId: PeerId, isPrimary: bool)

  datatype Refusal = OverRateLimit | InvalidStartKey

  datatype Admission = Refused(reason: Refusal) | Admitted(info: ClientInfo)

  /** `(MAX_REMOTE_CLIENT_COUNT - 1) <= io.sockets.size`; a NaN cap compares false. */
  predicate AtCapacity(maxClients: Env.Num, connected: nat)
  {
    maxClients.Int? && maxClients.value - 1 <= connected
  }

  /**
   * The middleware's decision for a handshake carrying auth token `token` and query fields
   * `peer` and `isPrimary`, when `connected` sockets are open. The capacity test comes first.
   */
  function Decide(rooms: set<StartKey>, maxClients: Env.Num, connected: nat,
                  token: Option<StartKey>, peer: PeerId, isPrimary: Option<string>): (a: Admission)
    ensures a == Refused(OverRateLimit) <==> AtCapacity(maxClients, connected)
    ensures a == Refused(InvalidStartKey) <==> !AtCapacity(maxClients, connected) && (token.None? || token.value !in rooms)
    ensures a.Admitted? ==> token.Some? && a.info.startKey == token.value && a.info.startKey in rooms
    ensures a.Admitted? ==> a.info.peerConnectionId == peer
    ensures a.Admitted? ==> (a.info.isPrimary <==> isPrimary == Some("true"))
  {
    if AtCapacity(maxClients, connected) then Refused(OverRateLimit)
    else if token.None? || token.value !in rooms then Refused(InvalidStartKey)
    else Admitted(ClientInfo(token.value, peer, isPrimary == Some("true")))
  }

  /** Only the exact text "true" makes a peer primary. */
  lemma PrimaryOnlyForTrue(rooms: set<StartKey>, connected: nat, key: StartKey, peer: PeerId, text: string)
    requires key in rooms
    requires text != "true"
    ensures Decide(rooms, Env.Int(connected + 2), connected, Some(key), peer, Some(text))
         == Admitted(ClientInfo(key, peer, false))
  {
  }

  type Rooms = map<StartKey, map<PeerId, Socket>>

  /** The rooms after admitting `s` as `peer` of `k`: it replaces any socket under that id. */
  function WithPeer(rooms: Rooms, k: StartKey, peer: PeerId, s: Socket): (r: Rooms)
    requires k in rooms
    ensures r.Keys == rooms.Keys
    ensures r[k].Keys == rooms[k].Keys + {peer} && r[k][peer] == s
    ensures forall p :: p in rooms[k] && p != peer ==> r[k][p] == rooms[k][p]
    ensures forall k' :: k' in rooms && k' != k ==> r[k'] == rooms[k']
  {
    rooms[k := rooms[k][peer := s]]
  }

  /** The rooms after a disconnect of `peer` of `k`: the entry under that id goes, whoever holds it. */
  function WithoutPeer(rooms: Rooms, k: StartKey, peer: PeerId): (r: Rooms)
    ensures r.Keys == rooms.Keys
    ensures k in rooms ==> r[k].Keys == rooms[k].Keys - {peer}
    ensures k in rooms ==> forall p :: p in r[k] ==> r[k][p] == rooms[k][p]
    ensures forall k' :: k' in rooms && k' != k ==> r[k'] == rooms[k']
  {
    if k in rooms then rooms[k := rooms[k] - {peer}] else rooms
  }

  /** The rooms after `setStartKeyIfAbsent(k)`. */
  function WithRoom(rooms: Rooms, k: StartKey): (r: Rooms)
    ensures r.Keys == rooms.Keys + {k}
    ensures k in rooms ==> r == rooms
    ensures k !in rooms ==> r[k] == map[] && forall k' :: k' in rooms ==> r[k'] == rooms[k']
  {
    if k in rooms then rooms else rooms[k := map[]]
  }

  /** Creating a room twice is creating it once, and it never clears the peers already there. */
  lemma WithRoomIdempotent(rooms: Rooms, k: StartKey)
    ensures WithRoom(WithRoom(rooms, k), k) == WithRoom(rooms, k)
  {
  }

  /**
   * The disconnect handler deletes by id only: when a newer socket took over a peer id, the
   * older socket's disconnect removes the newer one.
   */
  lemma StaleDisconnectRemovesSuccessor(rooms: Rooms, k: StartKey, peer: PeerId, older: Socket, newer: Socket)
    requires k in rooms
    ensures peer !in WithoutPeer(WithPeer(WithPeer(rooms, k, peer, older), k, peer, newer), k, peer)[k]
  {
  }

  class RemoteServer {
    const settings: Settings
    var rooms: Rooms

    constructor(settings: Settings)
      ensures this.settings == settings && rooms == map[]
    {
      this.settings := settings;
      rooms := map[];
    }

    /**
     * The `io.use` middleware: admit the socket or refuse it, recording an admitted socket under
     * its start key and peer id. `connected` is `io.sockets.size`.
     */
    method Admit(s: Socket, connected: nat, token: Option<StartKey>, peer: PeerId, isPrimary: Option<string>)
      returns (a: Admission)
      modifies this
      ensures a == Decide(old(rooms).Keys, settings.maxClients, connected, token, peer, isPrimary)
      ensures a.Refused? ==> rooms == old(rooms)
      ensures a.Admitted? ==> rooms == WithPeer(old(rooms), a.info.startKey, peer, s)
    {
      a := Decide(rooms.Keys, settings.maxClients, connected, token, peer, isPrimary);
      if a.Admitted? {
        var k := a.info.startKey;
        rooms := rooms[k := rooms[k][peer := s]];
      }
    }

    /** The `disconnect` listener the middleware installs on an admitted socket. */
    method Disconnect(info: ClientInfo)
      modifies this
      ensures rooms == WithoutPeer(old(rooms), info.startKey, info.peerConnectionId)
    {
      if info.startKey in rooms {
        rooms := rooms[info.startKey := rooms[info.startKey] - {info.peerConnectionId}];
      }
    }

    /** The `connection` listener: send the ICE server information to the new socket. */
    method OnConnection(s: Socket, info: Option<Token.IceServerInfo>)
      modifies s
      ensures s.sent == old(s.sent) + [IceServerInfoMessage(info)] && s.open == old(s.open)
    {
      s.Send(IceServerInfoMessage(info));
    }

    method SetStartKeyIfAbsent(k: StartKey)
      modifies this
      ensures rooms == WithRoom(old(rooms), k)
    {
      if k !in rooms {
        rooms := rooms[k := map[]];
      }
    }

    /** The socket `send` would address, if any. */
    function Target(k: StartKey, peer: PeerId): Option<Socket>
      reads this
    {
      if k in rooms && peer in rooms[k] then Some(rooms[k][peer]) else None
    }

    function Targets(k: StartKey, peer: PeerId): set<Socket>
      reads this
    {
      if k in rooms && peer in rooms[k] then {rooms[k][peer]} else {}
    }

    /**
     * `send(startKey, peerConnectionId, messageType, data)`: emit to the addressed socket when it
     * exists and is connected, otherwise drop. The rooms never change.
     */
    method Send(k: StartKey, peer: PeerId, m: Message)
      modifies Targets(k, peer)
      ensures rooms == old(rooms)
      ensures Target(k, peer).Some? && old(Target(k, peer).value.open) ==>
                Target(k, peer).value.sent == old(Target(k, peer).value.sent) + [m]
      ensures Target(k, peer).Some? && !old(Target(k, peer).value.open) ==> unchanged(Target(k, peer).value)
      ensures Target(k, peer).Some? ==> Target(k, peer).value.open == old(Target(k, peer).value.open)
    {
      if k in rooms && peer in rooms[k] {
        var s := rooms[k][peer];
        if s.open {
          s.Send(m);
        }
      }
    }
  }
}
