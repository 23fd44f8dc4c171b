/**
 * The entry point of the signalling server (server/app.js). It keeps its own map of controller
 * sockets by start key, with the same upgrade check, connection handling, ping loop and
 * `_doWithLocalClient` as LocalServer.js, so that map is a `Local.LocalServer` here; the peers
 * live in a `Remote.RemoteServer`. The app adds the `/generateKey` endpoint and the routing
 * between the two sides.
 */
module ServerApp {
  import opened Wrappers
  import Env
  import Token
  import opened Sockets
  import Local
  import Remote
  import Handlers

  /** The outcome of checking the `Authorization` header of `/generateKey`. */
  datatype Authorization =
    | Accept
    | Reject
    | Failure   // verify rejected (scrypt failed, or TOKEN_HASH is unset): no response is sent

  /**
   * `bearerToken = authorization || ''`, split on ' '; the scheme must be exactly "bearer" and
   * the second word (or '') must verify against TOKEN_HASH. The `&&` skips verify for any other
   * scheme.
   */
  function Authorize(authorization: Option<string>, tokenHash: Option<string>, crypto: Token.Crypto): Authorization
  {
    var header := if Env.Falsy(authorization) then "" else authorization.value;
    var parts := Token.Split(header, ' ');
    var input := if |parts| > 1 then parts[1] else "";
    if parts[0] != "bearer" then Reject
    else if tokenHash.None? then Failure
    else match Token.Verify(input, tokenHash.value, crypto)
      case None => Failure
      case Some(ok) => if ok then Accept else Reject
  }

  /** The header `bearer <token>` is accepted against a hash made from that token. */
  lemma AuthorizeAcceptsOwnToken(token: string, salt: Token.Bytes, crypto: Token.Crypto)
    requires |salt| == 16 && ' ' !in token
    requires Token.CreateHash(token, salt, crypto).Some?
    ensures Authorize(Some("bearer " + token), Some(Token.CreateHash(token, salt, crypto).value), crypto) == Accept
  {
    assert "bearer " + token == "bearer" + [' '] + token;
    Token.SplitJoined("bearer", token, ' ');
    Token.SplitWithoutSeparator(token, ' ');
    Token.VerifyCreateHash(token, salt, crypto);
  }

  /** The scheme is compared case-sensitively: `Bearer <token>` is rejected, whatever the token. */
  lemma AuthorizeRejectsCapitalScheme(token: string, tokenHash: Option<string>, crypto: Token.Crypto)
    ensures Authorize(Some("Bearer " + token), tokenHash, crypto) == Reject
  {
    assert "Bearer " + token == "Bearer" + [' '] + token;
    Token.SplitJoined("Bearer", token, ' ');
  }

  /** A missing header is rejected without consulting the hash. */
  lemma AuthorizeRejectsMissingHeader(tokenHash: Option<string>, crypto: Token.Crypto)
    ensures Authorize(None, tokenHash, crypto) == Reject
  {
  }

  datatype KeyResponse =
    | Unauthorized(wwwAuthenticate: string)   // 401, empty body
    | Issued(startKey: StartKey)              // `{ startKey }`
    | NoResponse

  /** `generateKey()`: 16 random bytes in hex. */
  function GenerateKey(random: Token.Bytes): (k: StartKey)
    requires |random| == 16
    ensures |k| == 32 && forall i :: 0 <= i < 32 ==> Token.IsHexDigit(k[i])
  {
    Token.Hex(random)
  }

  /** How the controller-side message handler routes a parsed message. */
  datatype ControllerRoute = Swallow | ToPeer(peer: PeerId)

  function RouteControllerMessage(m: Message): (r: ControllerRoute)
    ensures r == Swallow <==> m.messageType == "pong"
    ensures r.ToPeer? ==> r.peer == m.peerConnectionId
  {
    if m.messageType == "pong" then Swallow else ToPeer(m.peerConnectionId)
  }

  /** The event names whose peer messages reach the controller (`remoteServer.on(['offer', 'canOffer'], …)`). */
  predicate ForwardedToController(eventName: string)
  {
    eventName == "offer" || eventName == "canOffer"
  }

  /**
   * The ICE server information the app sends: TURN credentials from token.js (whose secret
   * comes from the `TURN_SECRET` export of Environment.js) and the `STUN_URL`/`TURN_URL` of the
   * process environment.
   */
  function IceInfo(env: Env.Environment, nameBytes: Token.Bytes, nowMillis: nat, crypto: Token.Crypto): Option<Token.IceServerInfo>
    requires |nameBytes| == 8
  {
    var config := Env.Load(env);
    Token.GenerateICEServerInfo(nameBytes, Env.Lookup(env, "STUN_URL"), Env.Lookup(env, "TURN_URL"),
                                Token.ServerSecret(config), Env.Export(config, "HOURS_TURN_CREDENTIAL_VALID"),
                                nowMillis, crypto)
  }

  /** As wired the credentials are always undefined, so `iceServerInfo` is always undefined. */
  lemma IceInfoAlwaysUndefined(env: Env.Environment, nameBytes: Token.Bytes, nowMillis: nat, crypto: Token.Crypto)
    requires |nameBytes| == 8
    ensures IceInfo(env, nameBytes, nowMillis, crypto) == None
  {
  }

  // ---------------------------------------------------------------------------------------
  // Loading the module (server/app.js:125-174): the top-level calls on `remoteServer` run in
  // order, after `app.listen`. Calling a name the object does not define is a TypeError that
  // nothing catches, so the process ends there.

  /** The names a `RemoteServer` answers to: its own methods and MessageHandlerServer's `on`. */
  predicate IsRemoteServerMethod(name: string)
  {
    name == "on" || name == "setStartKeyIfAbsent" || name == "send"
  }

  /** A top-level statement `remoteServer.<callee>(events, handler)`. */
  datatype TopLevelCall = TopLevelCall(callee: string, events: Handlers.EventNames, handler: Handlers.HandlerId)

  /** The handler registry the calls leave, or the index of the call that throws. */
  datatype LoadOutcome = Loaded(handlers: Handlers.Registry) | TypeErrorAt(index: nat)

  /** What one defined call does to the registry: `on` registers, the others register nothing. */
  function Registered(r: Handlers.Registry, c: TopLevelCall): Handlers.Registry
  {
    if c.callee != "on" then r
    else match c.events
      case One(name) => Handlers.Appended(r, name, c.handler)
      case Many(names) => Handlers.AppendedAll(r, names, c.handler)
  }

  function Load(r: Handlers.Registry, calls: seq<TopLevelCall>): (out: LoadOutcome)
    ensures out.Loaded? <==> forall i :: 0 <= i < |calls| ==> IsRemoteServerMethod(calls[i].callee)
    ensures out.TypeErrorAt? ==> out.index < |calls| && !IsRemoteServerMethod(calls[out.index].callee)
    ensures out.TypeErrorAt? ==> forall i :: 0 <= i < out.index ==> IsRemoteServerMethod(calls[i].callee)
    decreases |calls|
  {
    if calls == [] then Loaded(r)
    else if !IsRemoteServerMethod(calls[0].callee) then TypeErrorAt(0)
    else match Load(Registered(r, calls[0]), calls[1..])
      case Loaded(r') => Loaded(r')
      case TypeErrorAt(i) => TypeErrorAt(i + 1)
  }

  const OfferRelay: Handlers.HandlerId := 0
  const DisconnectNotice: Handlers.HandlerId := 1
  const IceInfoSender: Handlers.HandlerId := 2

  /** The three top-level calls as written: `onconnection`, then the two `on` registrations. */
  function WiringAsWritten(): seq<TopLevelCall>
  {
    [TopLevelCall("onconnection", Handlers.One("connection"), IceInfoSender),
     TopLevelCall("on", Handlers.Many(["offer", "canOffer"]), OfferRelay),
     TopLevelCall("on", Handlers.One("disconnect"), DisconnectNotice)]
  }

  /**
   * The wiring evidently intended: RemoteServer's own `connection` listener already sends
   * `iceServerInfo`, so only the two registrations are needed.
   */
  function Wiring(): seq<TopLevelCall>
  {
    WiringAsWritten()[1..]
  }

  /** As written, loading throws at the first call, so no peer event handler is ever registered. */
  lemma AsWrittenLoadThrows()
    ensures Load(map[], WiringAsWritten()) == TypeErrorAt(0)
  {
  }

  /** Without the undefined call, loading completes with the relay and the close notice registered. */
  lemma WiringRegistersRelays()
    ensures Load(map[], Wiring()).Loaded?
    ensures var r := Load(map[], Wiring()).handlers;
      && r.Keys == {"offer", "canOffer", "disconnect"}
      && Handlers.ListFor(r, "offer") == [OfferRelay] && Handlers.ListFor(r, "canOffer") == [OfferRelay]
      && Handlers.ListFor(r, "disconnect") == [DisconnectNotice]
  {
    var calls := Wiring();
    assert calls[1..][1..] == [];
    var r1 := Handlers.AppendedAll(map[], ["offer", "canOffer"], OfferRelay);
    Handlers.AppendedAllKeys(map[], ["offer", "canOffer"], OfferRelay);
    assert ["offer", "canOffer"][..1] == ["offer"];
    assert ["offer"][..0] == [];
    assert Load(map[], calls) == Loaded(Handlers.Appended(r1, "disconnect", DisconnectNotice));
  }

  class SignalingApp {
    const local: Local.LocalServer
    const remote: Remote.RemoteServer

    constructor(settings: Remote.Settings)
      ensures fresh(local) && fresh(remote)
      ensures local.clients == map[] && remote.rooms == map[] && remote.settings == settings
    {
      local := new Local.LocalServer();
      remote := new Remote.RemoteServer(settings);
    }

    /**
     * `GET /generateKey`: on a valid bearer token, register a fresh key as a placeholder controller
     * entry and as a peer room (kept if it exists); otherwise answer 401 or nothing, registering nothing.
     */
    method GenerateKeyRequest(authorization: Option<string>, tokenHash: Option<string>, crypto: Token.Crypto,
                              random: Token.Bytes) returns (resp: KeyResponse)
      requires |random| == 16
      modifies local, remote
      ensures Authorize(authorization, tokenHash, crypto) == Accept <==> resp.Issued?
      ensures Authorize(authorization, tokenHash, crypto) == Reject <==> resp == Unauthorized("Bearer realm=\"\"")
      ensures resp.Issued? ==> resp.startKey == GenerateKey(random)
      ensures resp.Issued? ==> local.clients == old(local.clients)[resp.startKey := Local.Placeholder]
      ensures resp.Issued? ==> remote.rooms == Remote.WithRoom(old(remote.rooms), resp.startKey)
      ensures !resp.Issued? ==> local.clients == old(local.clients) && remote.rooms == old(remote.rooms)
    {
      match Authorize(authorization, tokenHash, crypto)
      case Reject =>
        resp := Unauthorized("Bearer realm=\"\"");
      case Failure =>
        resp := NoResponse;
      case Accept =>
        var key := GenerateKey(random);
        local.SetStartKey(key);
        remote.SetStartKeyIfAbsent(key);
        resp := Issued(key);
    }

    /**
     * A message from the controller of `startKey`: `pong` is swallowed; anything else goes to the
     * peer it names, through `remoteServer.send`. The maps never change.
     */
    method OnControllerMessage(startKey: StartKey, m: Message)
      modifies remote.Targets(startKey, m.peerConnectionId)
      ensures remote.rooms == old(remote.rooms)
      ensures m.messageType == "pong" ==> forall s: Socket :: s in remote.Targets(startKey, m.peerConnectionId) ==> unchanged(s)
      ensures m.messageType != "pong" && remote.Target(startKey, m.peerConnectionId).Some?
              && old(remote.Target(startKey, m.peerConnectionId).value.open) ==>
                remote.Target(startKey, m.peerConnectionId).value.sent
                  == old(remote.Target(startKey, m.peerConnectionId).value.sent) + [m]
      ensures m.messageType != "pong" && remote.Target(startKey, m.peerConnectionId).Some?
              && !old(remote.Target(startKey, m.peerConnectionId).value.open) ==>
                unchanged(remote.Target(startKey, m.peerConnectionId).value)
      ensures remote.Target(startKey, m.peerConnectionId).Some? ==>
                remote.Target(startKey, m.peerConnectionId).value.open == old(remote.Target(startKey, m.peerConnectionId).value.open)
    {
      match RouteControllerMessage(m)
      case Swallow =>
      case ToPeer(peer) =>
        remote.Send(startKey, peer, m);
    }

    /** A peer event: `offer` and `canOffer` go verbatim to the controller if it is open. */
    method OnPeerMessage(info: Remote.ClientInfo, eventName: string, m: Message)
      modifies Local.HandleSet(local.clients, info.startKey)
      ensures local.clients == old(local.clients)
      ensures !ForwardedToController(eventName) ==> forall s: Socket :: s in Local.HandleSet(local.clients, info.startKey) ==> unchanged(s)
      ensures ForwardedToController(eventName) && local.Handle(info.startKey).Some?
              && old(local.Handle(info.startKey).value.open) ==>
                local.Handle(info.startKey).value.sent == old(local.Handle(info.startKey).value.sent) + [m]
      ensures local.Handle(info.startKey).Some? && !old(local.Handle(info.startKey).value.open) ==>
                unchanged(local.Handle(info.startKey).value)
      ensures local.Handle(info.startKey).Some? ==>
                local.Handle(info.startKey).value.open == old(local.Handle(info.startKey).value.open)
    {
      if ForwardedToController(eventName) {
        local.Send(info.startKey, m);
      }
    }

    /**
     * A peer disconnects: its entry is deleted from its room, then the controller, if open, gets
     * `{messageType: 'close', peerConnectionId, isPrimary}`.
     */
    method OnPeerDisconnect(info: Remote.ClientInfo)
      modifies remote, Local.HandleSet(local.clients, info.startKey)
      ensures remote.rooms == Remote.WithoutPeer(old(remote.rooms), info.startKey, info.peerConnectionId)
      ensures local.clients == old(local.clients)
      ensures local.Handle(info.startKey).Some? && old(local.Handle(info.startKey).value.open) ==>
                local.Handle(info.startKey).value.sent
                  == old(local.Handle(info.startKey).value.sent) + [CloseNotice(info.peerConnectionId, info.isPrimary)]
      ensures local.Handle(info.startKey).Some? && !old(local.Handle(info.startKey).value.open) ==>
                unchanged(local.Handle(info.startKey).value)
    {
      remote.Disconnect(info);
      local.Send(info.startKey, CloseNotice(info.peerConnectionId, info.isPrimary));
    }
  }
}
