/**
 * The earlier, single-file signalling server (app.js). Both sides use plain WebSockets: the
 * controller on `/signaling`, peers on `/remote`. Each peer has a `RemoteConnectionManager`
 * that pings it every second once it has sent an offer and closes it when no pong arrives in
 * time.
 */
module LegacyApp {
  import opened Wrappers
  import Env
  import Token
  import opened Sockets
  import Local
  import Remote
  import ServerApp

  const PingIntervalMillis: int := 1000

  /** `(PRIMARY_TIMEOUT_SEC || 10) * 1000`, for a value that is absent or a decimal number of seconds. */
  function TimeoutMillis(env: Env.Environment): (r: Env.Num)
    ensures Env.Falsy(Env.Lookup(env, "PRIMARY_TIMEOUT_SEC")) ==> r == Env.Int(10000)
  {
    var v := Env.Lookup(env, "PRIMARY_TIMEOUT_SEC");
    if Env.Falsy(v) then Env.Int(10 * 1000)
    else match Env.ToNumber(v.value)
      case NaN => Env.NaN
      case Int(n) => Env.Int(n * 1000)
  }

  lemma TimeoutInSeconds(env: Env.Environment, seconds: nat)
    requires Env.Lookup(env, "PRIMARY_TIMEOUT_SEC") == Some(Env.DecimalText(seconds))
    ensures TimeoutMillis(env) == Env.Int(seconds * 1000)
  {
    Env.ToNumberDecimal(seconds);
  }

  // ---------------------------------------------------------------------------------------
  // The timers of one RemoteConnectionManager (app.js:61-109). Each `setTimeout` gets a fresh
  // id; `chains` holds the ids of pending ping timeouts, each of which pings and then calls
  // `start()` again when it fires.

  datatype Timers = Timers(timer: Option<nat>, stopArmed: bool, chains: set<nat>, nextId: nat)

  datatype TimerEvent =
    | Start            // `start()`, called for every `offer`
    | PingDue(id: nat) // the ping timeout with this id fires
    | Pong             // `consumePong()`
    | StopDue          // the stop timeout fires
    | Stop             // `stop()`, called when the peer socket closes

  function Initial(): Timers { Timers(None, false, {}, 0) }

  /** The chains left after `clearTimeout(this.timer)`. */
  function ClearedChains(t: Timers): set<nat>
  {
    if t.timer.Some? then t.chains - {t.timer.value} else t.chains
  }

  /** `start()` as written: arm a new ping timeout and overwrite `this.timer`, leaving any earlier one pending. */
  function StartedAsWritten(t: Timers): (r: Timers)
    ensures r.chains == t.chains + {t.nextId} && r.timer == Some(t.nextId)
  {
    t.(timer := Some(t.nextId), chains := t.chains + {t.nextId}, nextId := t.nextId + 1)
  }

  /** `start()` corrected: clear the pending ping timeout before arming the new one. */
  function Started(t: Timers): (r: Timers)
    ensures r.chains == ClearedChains(t) + {t.nextId} && r.timer == Some(t.nextId)
    ensures r.stopArmed == t.stopArmed
  {
    t.(timer := Some(t.nextId), chains := ClearedChains(t) + {t.nextId}, nextId := t.nextId + 1)
  }

  /** `consumePong()`: cancel the pending stop timeout and arm a new one. */
  function PongConsumed(t: Timers): (r: Timers)
    ensures r.stopArmed && r.chains == t.chains && r.timer == t.timer
  {
    t.(stopArmed := true)
  }

  /** `stop()`: clear `this.timer` and `this.stopTimer`. */
  function Stopped(t: Timers): (r: Timers)
    ensures !r.stopArmed && r.chains == ClearedChains(t)
  {
    t.(chains := ClearedChains(t), stopArmed := false)
  }

  function StepAsWritten(t: Timers, e: TimerEvent): Timers
  {
    match e
    case Start => StartedAsWritten(t)
    case PingDue(id) => if id in t.chains then StartedAsWritten(t.(chains := t.chains - {id})) else t
    case Pong => PongConsumed(t)
    case StopDue => if t.stopArmed then Stopped(t) else t
    case Stop => Stopped(t)
  }

  function Step(t: Timers, e: TimerEvent): Timers
  {
    match e
    case Start => Started(t)
    case PingDue(id) => if id in t.chains then Started(t.(chains := t.chains - {id})) else t
    case Pong => PongConsumed(t)
    case StopDue => if t.stopArmed then Stopped(t) else t
    case Stop => Stopped(t)
  }

  function RunAsWritten(t: Timers, events: seq<TimerEvent>): Timers
  {
    if events == [] then t else StepAsWritten(RunAsWritten(t, events[..|events| - 1]), events[|events| - 1])
  }

  function Run(t: Timers, events: seq<TimerEvent>): Timers
  {
    if events == [] then t else Step(Run(t, events[..|events| - 1]), events[|events| - 1])
  }

  /** No stop timeout is pending until the first pong has been consumed. */
  lemma {:induction false} NoStopTimerBeforePong(events: seq<TimerEvent>)
    requires Pong !in events
    ensures !Run(Initial(), events).stopArmed
    ensures !RunAsWritten(Initial(), events).stopArmed
  {
    if events != [] {
      var init := events[..|events| - 1];
      assert forall e :: e in init ==> e in events;
      NoStopTimerBeforePong(init);
    }
  }

  /** At most one ping chain is pending, and it is the one `this.timer` names. */
  predicate Tidy(t: Timers)
  {
    forall id :: id in t.chains ==> t.timer == Some(id)
  }

  lemma {:induction false} RunKeepsTidy(events: seq<TimerEvent>)
    ensures Tidy(Run(Initial(), events))
  {
    if events != [] {
      RunKeepsTidy(events[..|events| - 1]);
    }
  }

  /** With the corrected `start()`, `stop()` leaves no ping chain and no stop timeout, whatever came before. */
  lemma StopCancelsEverything(events: seq<TimerEvent>)
    ensures Run(Initial(), events + [Stop]).chains == {}
    ensures !Run(Initial(), events + [Stop]).stopArmed
  {
    RunKeepsTidy(events);
    var t := Run(Initial(), events);
    assert (events + [Stop])[..|events|] == events;
    if t.timer.Some? {
      assert t.chains <= {t.timer.value};
    } else {
      assert t.chains == {};
    }
  }

  /** As written, two offers and then a close leave the first ping chain running. */
  lemma RepeatedOfferLeaksPingChain()
    ensures RunAsWritten(Initial(), [Start, Start, Stop]).chains == {0}
  {
    assert [Start, Start, Stop][..2] == [Start, Start];
    assert [Start, Start][..1] == [Start];
    assert [Start][..0] == [];
  }

  // ---------------------------------------------------------------------------------------
  // The server

  datatype UpgradeRoute = Unauthorized | ToController | ToPeer | NotHandled

  /** The `upgrade` listener: an unknown key gets 401 on every path; then the path picks the server. */
  function RouteUpgrade(keys: set<StartKey>, path: string, key: Option<StartKey>): (r: UpgradeRoute)
    ensures r == Unauthorized <==> key.None? || key.value !in keys
    ensures r == ToController <==> key.Some? && key.value in keys && path == "/signaling"
    ensures r == ToPeer <==> key.Some? && key.value in keys && path == "/remote"
  {
    if key.None? || key.value !in keys then Unauthorized
    else if path == "/signaling" then ToController
    else if path == "/remote" then ToPeer
    else NotHandled
  }

  /** The controller message types relayed to a peer. */
  predicate RelayedToPeer(messageType: string)
  {
    messageType == "answer" || messageType == "canOffer"
  }

  /** One peer connection: its identity and its timers (`RemoteConnectionManager`). */
  class PeerSession {
    const startKey: StartKey
    const peer: PeerId
    const isPrimary: bool
    const ws: Socket
    var timers: Timers

    constructor(startKey: StartKey, peer: PeerId, isPrimary: bool, ws: Socket)
      ensures this.startKey == startKey && this.peer == peer && this.isPrimary == isPrimary && this.ws == ws
      ensures timers == Initial()
    {
      this.startKey := startKey;
      this.peer := peer;
      this.isPrimary := isPrimary;
      this.ws := ws;
      timers := Initial();
    }
  }

  class LegacyServer {
    var controllers: map<StartKey, Local.LocalClient>
    var peers: Remote.Rooms

    /** Every key with a controller entry has a peer map (`/generateKey` creates both). */
    predicate Valid()
      reads this
    {
      controllers.Keys <= peers.Keys
    }

    constructor()
      ensures Valid() && controllers == map[] && peers == map[]
    {
      controllers := map[];
      peers := map[];
    }

    /** The controller socket of `k`, if one is stored. */
    function Controller(k: StartKey): Option<Socket>
      reads this
    {
      if k in controllers && controllers[k].Ws? then Some(controllers[k].socket) else None
    }

    function ControllerSet(k: StartKey): set<Socket>
      reads this
    {
      if k in controllers && controllers[k].Ws? then {controllers[k].socket} else {}
    }

    function Peer(k: StartKey, p: PeerId): Option<Socket>
      reads this
    {
      if k in peers && p in peers[k] then Some(peers[k][p]) else None
    }

    function PeerSet(k: StartKey, p: PeerId): set<Socket>
      reads this
    {
      if k in peers && p in peers[k] then {peers[k][p]} else {}
    }

    /** `GET /generateKey`, checked like the newer server; the peer map is created only if absent. */
    method GenerateKeyRequest(authorization: Option<string>, tokenHash: Option<string>, crypto: Token.Crypto,
                              random: Token.Bytes) returns (resp: ServerApp.KeyResponse)
      requires |random| == 16
      requires Valid()
      modifies this
      ensures Valid()
      ensures ServerApp.Authorize(authorization, tokenHash, crypto) == ServerApp.Accept <==> resp.Issued?
      ensures resp.Issued? ==> resp.startKey == ServerApp.GenerateKey(random)
      ensures resp.Issued? ==> controllers == old(controllers)[resp.startKey := Local.Placeholder]
      ensures resp.Issued? ==> peers == Remote.WithRoom(old(peers), resp.startKey)
      ensures !resp.Issued? ==> controllers == old(controllers) && peers == old(peers)
    {
      match ServerApp.Authorize(authorization, tokenHash, crypto)
      case Reject =>
        resp := ServerApp.Unauthorized("Bearer realm=\"\"");
      case Failure =>
        resp := ServerApp.NoResponse;
      case Accept =>
        var key := ServerApp.GenerateKey(random);
        controllers := controllers[key := Local.Placeholder];
        if key !in peers {
          peers := peers[key := map[]];
        }
        resp := ServerApp.Issued(key);
    }

    /** The controller `connection` listener: no ping loop in this version. */
    method ControllerConnect(ws: Socket, key: Option<StartKey>, ice: Option<Token.IceServerInfo>) returns (accepted: bool)
      requires Valid()
      modifies this, ws
      ensures Valid()
      ensures accepted <==> key.Some? && key.value in old(controllers)
      ensures !accepted ==> controllers == old(controllers) && !ws.open && ws.sent == old(ws.sent)
      ensures accepted ==> controllers == old(controllers)[key.value := Local.Ws(ws)]
      ensures accepted ==> ws.open == old(ws.open) && ws.sent == old(ws.sent) + [IceServerInfoMessage(ice)]
      ensures peers == old(peers)
    {
      if key.None? || key.value !in controllers {
        ws.Close();
        return false;
      }
      controllers := controllers[key.value := Local.Ws(ws)];
      ws.Send(IceServerInfoMessage(ice));
      return true;
    }

    /**
     * A controller message for the peer its `peerConnectionId` names: dropped unless that peer is
     * stored and open; then only `answer` and `canOffer` are relayed, verbatim.
     */
    method OnControllerMessage(k: StartKey, m: Message)
      modifies PeerSet(k, m.peerConnectionId)
      ensures controllers == old(controllers) && peers == old(peers)
      ensures var p := Peer(k, m.peerConnectionId);
        && (p.Some? && old(p.value.open) && RelayedToPeer(m.messageType) ==> p.value.sent == old(p.value.sent) + [m])
        && (p.Some? && !(old(p.value.open) && RelayedToPeer(m.messageType)) ==> unchanged(p.value))
        && (p.Some? ==> p.value.open == old(p.value.open))
    {
      if k in peers && m.peerConnectionId in peers[k] {
        var s := peers[k][m.peerConnectionId];
        if s.open && RelayedToPeer(m.messageType) {
          s.Send(m);
        }
      }
    }

    /**
     * The peer `connection` listener. `peer` is `parseFloat` of the query's `peerConnectionId`.
     * An unknown key closes the socket; otherwise the socket replaces any under the same id.
     */
    method PeerConnect(ws: Socket, key: Option<StartKey>, peer: PeerId, isPrimary: Option<string>,
                       ice: Option<Token.IceServerInfo>) returns (session: Option<PeerSession>)
      requires Valid()
      modifies this, ws
      ensures Valid()
      ensures session.None? <==> key.None? || key.value !in old(controllers)
      ensures session.None? ==> peers == old(peers) && !ws.open && ws.sent == old(ws.sent)
      ensures session.Some? ==> peers == Remote.WithPeer(old(peers), key.value, peer, ws)
      ensures session.Some? ==> fresh(session.value) && session.value.timers == Initial()
      ensures session.Some? ==> session.value.startKey == key.value && session.value.peer == peer && session.value.ws == ws
      ensures session.Some? ==> (session.value.isPrimary <==> isPrimary == Some("true"))
      ensures session.Some? ==> ws.open == old(ws.open) && ws.sent == old(ws.sent) + [IceServerInfoMessage(ice)]
      ensures controllers == old(controllers)
    {
      if key.None? || key.value !in controllers {
        ws.Close();
        return None;
      }
      var k := key.value;
      peers := peers[k := peers[k][peer := ws]];
      var s := new PeerSession(k, peer, isPrimary == Some("true"), ws);
      ws.Send(IceServerInfoMessage(ice));
      return Some(s);
    }

    /**
     * A peer message: everything, `pong` included, is dropped while the controller is not open.
     * `offer` starts the ping loop and is relayed, `canOffer` is relayed, `pong` re-arms the stop timeout.
     */
    method OnPeerMessage(s: PeerSession, m: Message)
      modifies s, ControllerSet(s.startKey)
      ensures controllers == old(controllers) && peers == old(peers)
      ensures var open := Controller(s.startKey).Some? && old(Controller(s.startKey).value.open);
        && (!open ==> s.timers == old(s.timers))
        && (open && m.messageType == "offer" ==> s.timers == StartedAsWritten(old(s.timers)))
        && (open && m.messageType == "pong" ==> s.timers == PongConsumed(old(s.timers)))
        && (open && m.messageType != "offer" && m.messageType != "pong" ==> s.timers == old(s.timers))
        && (open && (m.messageType == "offer" || m.messageType == "canOffer") ==>
              Controller(s.startKey).value.sent == old(Controller(s.startKey).value.sent) + [m])
        && (Controller(s.startKey).Some? && !(open && (m.messageType == "offer" || m.messageType == "canOffer")) ==>
              unchanged(Controller(s.startKey).value))
      ensures Controller(s.startKey).Some? ==> Controller(s.startKey).value.open == old(Controller(s.startKey).value.open)
    {
      var c := Controller(s.startKey);
      if c.None? || !c.value.open {
        return;
      }
      if m.messageType == "offer" {
        s.timers := StartedAsWritten(s.timers);
        c.value.Send(m);
      } else if m.messageType == "canOffer" {
        c.value.Send(m);
      } else if m.messageType == "pong" {
        s.timers := PongConsumed(s.timers);
      }
    }

    /**
     * A pending ping timeout fires: ping the peer (ws discards sends on a closed socket) and call
     * `start()` again, which as written overwrites `this.timer` without clearing it.
     */
    method OnPingDue(s: PeerSession, id: nat)
      modifies s, s.ws
      ensures s.timers == StepAsWritten(old(s.timers), PingDue(id))
      ensures s.ws.open == old(s.ws.open)
      ensures s.ws.sent == old(s.ws.sent) + (if id in old(s.timers.chains) && old(s.ws.open) then [PingMessage()] else [])
    {
      if id in s.timers.chains {
        if s.ws.open {
          s.ws.Send(PingMessage());
        }
        s.timers := StartedAsWritten(s.timers.(chains := s.timers.chains - {id}));
      }
    }

    /**
     * `stop()`: clear both timeouts, close the peer socket if open, then tell the controller, if
     * open, that the peer left.
     */
    method StopSession(s: PeerSession)
      modifies s, s.ws, ControllerSet(s.startKey)
      ensures controllers == old(controllers) && peers == old(peers)
      ensures s.timers == Stopped(old(s.timers))
      ensures !s.ws.open && s.ws.sent == old(s.ws.sent)
      ensures var c := Controller(s.startKey);
        c.Some? && c.value != s.ws ==>
          && c.value.open == old(c.value.open)
          && (old(c.value.open) ==> c.value.sent == old(c.value.sent) + [CloseNotice(s.peer, s.isPrimary)])
          && (!old(c.value.open) ==> c.value.sent == old(c.value.sent))
    {
      s.timers := Stopped(s.timers);
      if s.ws.open {
        s.ws.Close();
      }
      var c := Controller(s.startKey);
      if c.Some? && c.value.open {
        c.value.Send(CloseNotice(s.peer, s.isPrimary));
      }
    }

    /** The stop timeout fires (only while it is pending). */
    method OnStopDue(s: PeerSession)
      modifies s, s.ws, ControllerSet(s.startKey)
      ensures controllers == old(controllers) && peers == old(peers)
      ensures s.timers == StepAsWritten(old(s.timers), StopDue)
      ensures old(s.timers.stopArmed) ==> !s.ws.open && s.ws.sent == old(s.ws.sent)
      ensures var c := Controller(s.startKey);
        old(s.timers.stopArmed) && c.Some? && c.value != s.ws ==>
          && c.value.open == old(c.value.open)
          && (old(c.value.open) ==> c.value.sent == old(c.value.sent) + [CloseNotice(s.peer, s.isPrimary)])
          && (!old(c.value.open) ==> c.value.sent == old(c.value.sent))
      ensures !old(s.timers.stopArmed) ==> unchanged(s.ws) && forall c :: c in ControllerSet(s.startKey) ==> unchanged(c)
    {
      if s.timers.stopArmed {
        StopSession(s);
      }
    }

    /** The peer socket's `close` listener: delete its entry, then `stop()`. */
    method OnPeerClose(s: PeerSession)
      requires Valid()
      modifies this, s, s.ws, ControllerSet(s.startKey)
      ensures Valid()
      ensures peers == Remote.WithoutPeer(old(peers), s.startKey, s.peer)
      ensures controllers == old(controllers)
      ensures s.timers == Stopped(old(s.timers))
      ensures !s.ws.open && s.ws.sent == old(s.ws.sent)
      ensures var c := Controller(s.startKey);
        c.Some? && c.value != s.ws ==>
          && c.value.open == old(c.value.open)
          && (old(c.value.open) ==> c.value.sent == old(c.value.sent) + [CloseNotice(s.peer, s.isPrimary)])
          && (!old(c.value.open) ==> c.value.sent == old(c.value.sent))
    {
      if s.startKey in peers {
        peers := peers[s.startKey := peers[s.startKey] - {s.peer}];
      }
      StopSession(s);
    }
  }

  /**
   * The leak through the server as written: a peer of an open controller sends `offer` twice and
   * its socket then closes. The ping chain armed by the first offer is still pending, and the
   * controller has received both offers and the close notice.
   */
  method OfferOfferCloseLeaks() returns (alive: set<nat>, toController: seq<Message>)
    ensures alive == {0}
    ensures var offer := Message("offer", Undefined, None, NoPayload);
      toController == [offer, offer, CloseNotice(Text("p"), false)]
  {
    var server := new LegacyServer();
    var controller := new Socket(true);
    server.controllers := map["k" := Local.Ws(controller)];
    server.peers := map["k" := map[]];
    var ws := new Socket(true);
    var session := server.PeerConnect(ws, Some("k"), Text("p"), None, None);
    var s := session.value;
    var offer := Message("offer", Undefined, None, NoPayload);
    server.OnPeerMessage(s, offer);
    server.OnPeerMessage(s, offer);
    server.OnPeerClose(s);
    alive := s.timers.chains;
    toController := controller.sent;
  }
}
