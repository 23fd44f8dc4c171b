/**
 * The earlier peer page (public/main.js): the same connection logic as RTCHandler.js held in
 * closure variables of one page script, with the view state as a plain variable. It differs
 * in a few places: the start button acts only in INIT, an `iceServerInfo` message triggers a
 * `canOffer` request, the reply is a boolean, pings are not answered, every peer creates a data
 * channel, and a retry only redraws the READY view without changing the state.
 */
module LegacyClient {
  import opened Wrappers
  import opened Sockets
  import ViewState
  import Retry

  class PeerPage {
    const peerConnectionId: PeerId

    var state: ViewState.State
    /** The view last drawn by `initView`, `readyView`, `landView` or `takeoffView`. */
    var shownView: ViewState.State
    var webSocket: Option<Socket>
    var closeAlertSuppressed: bool
    var alerts: nat
    var counters: Retry.Counters
    var checkArmed: bool
    var hasPc: bool
    var hasDc: bool
    var connectionsStarted: nat

    /** The page script's start-up, which ends with `init()`. */
    constructor(peerConnectionId: PeerId)
      ensures this.peerConnectionId == peerConnectionId
      ensures state == ViewState.Init && shownView == ViewState.Init && webSocket.None?
      ensures counters == Retry.Counters(0, 0) && !checkArmed && !hasPc && !hasDc && alerts == 0
    {
      this.peerConnectionId := peerConnectionId;
      state := ViewState.Init;
      shownView := ViewState.Init;
      webSocket := None;
      closeAlertSuppressed := false;
      alerts := 0;
      counters := Retry.Counters(0, 0);
      checkArmed := false;
      hasPc := false;
      hasDc := false;
      connectionsStarted := 0;
    }

    function SocketSet(): set<Socket>
      reads this
    {
      if webSocket.Some? then {webSocket.value} else {}
    }

    function CanOfferRequest(): Message
      reads this
    {
      Message("canOffer", peerConnectionId, None, NoPayload)
    }

    /** `init()`: clear the pending check and return to INIT. The counters are kept. */
    method Init()
      modifies this
      ensures state == ViewState.Init && shownView == ViewState.Init && !checkArmed
      ensures counters == old(counters) && webSocket == old(webSocket) && hasPc == old(hasPc) && hasDc == old(hasDc)
      ensures alerts == old(alerts) && closeAlertSuppressed == old(closeAlertSuppressed)
    {
      checkArmed := false;
      state := ViewState.Init;
      shownView := ViewState.Init;
    }

    /** `ready()`: READY, and start checking. */
    method Ready()
      modifies this
      ensures state == ViewState.Ready && shownView == ViewState.Ready && checkArmed
      ensures counters == old(counters) && webSocket == old(webSocket) && hasPc == old(hasPc) && hasDc == old(hasDc)
      ensures alerts == old(alerts) && closeAlertSuppressed == old(closeAlertSuppressed)
    {
      state := ViewState.Ready;
      shownView := ViewState.Ready;
      checkArmed := true;
    }

    /** `land()`, called for a video track or a `land` message, whatever the state. */
    method Land()
      modifies this
      ensures state == ViewState.Land && shownView == ViewState.Land
      ensures counters == old(counters) && webSocket == old(webSocket) && checkArmed == old(checkArmed)
    {
      state := ViewState.Land;
      shownView := ViewState.Land;
    }

    /** `takeoff()`, called for a `takeoff` message, whatever the state. */
    method TakeOff()
      modifies this
      ensures state == ViewState.TakeOff && shownView == ViewState.TakeOff
      ensures counters == old(counters) && webSocket == old(webSocket) && checkArmed == old(checkArmed)
    {
      state := ViewState.TakeOff;
      shownView := ViewState.TakeOff;
    }

    /** A click on the start button; `ws` is the WebSocket `setUpConnection` would open. */
    method StartClick(ws: Socket) returns (started: bool)
      modifies this
      ensures started <==> old(state) == ViewState.Init
      ensures started ==> state == ViewState.Ready && checkArmed && webSocket == Some(ws) && !closeAlertSuppressed
      ensures !started ==> state == old(state) && webSocket == old(webSocket) && checkArmed == old(checkArmed)
      ensures counters == old(counters)
    {
      if state != ViewState.Init {
        return false;
      }
      Ready();
      webSocket := Some(ws);
      closeAlertSuppressed := false;
      return true;
    }

    /** `checkIfCanOffer()`: nothing without a WebSocket; the browser discards sends on a closed one. */
    method CheckIfCanOffer()
      modifies SocketSet()
      ensures webSocket.Some? && old(webSocket.value.open) ==> webSocket.value.sent == old(webSocket.value.sent) + [CanOfferRequest()]
      ensures webSocket.Some? && !old(webSocket.value.open) ==> unchanged(webSocket.value)
      ensures webSocket.Some? ==> webSocket.value.open == old(webSocket.value.open)
    {
      if webSocket.Some? && webSocket.value.open {
        webSocket.value.Send(CanOfferRequest());
      }
    }

    /** An `iceServerInfo` message: ask at once whether this peer may offer. */
    method OnIceServerInfo()
      modifies SocketSet()
      ensures webSocket.Some? && old(webSocket.value.open) ==> webSocket.value.sent == old(webSocket.value.sent) + [CanOfferRequest()]
      ensures webSocket.Some? && !old(webSocket.value.open) ==> unchanged(webSocket.value)
      ensures webSocket.Some? ==> webSocket.value.open == old(webSocket.value.open)
    {
      CheckIfCanOffer();
    }

    /** A `canOffer` reply: a truthy `canOffer` starts a new connection (always with a data channel). */
    method OnCanOffer(canOffer: bool)
      modifies this
      ensures canOffer ==> hasPc && hasDc && connectionsStarted == old(connectionsStarted) + 1
      ensures !canOffer ==> hasPc == old(hasPc) && hasDc == old(hasDc) && connectionsStarted == old(connectionsStarted)
      ensures state == old(state) && counters == old(counters) && webSocket == old(webSocket) && checkArmed == old(checkArmed)
    {
      if canOffer {
        hasPc := true;
        hasDc := true;
        connectionsStarted := connectionsStarted + 1;
      }
    }

    /** The WebSocket's `error` handler: alert, silence the close alert, `init()`, then close. */
    method OnError()
      modifies this, SocketSet()
      ensures closeAlertSuppressed && alerts == old(alerts) + 1 && state == ViewState.Init && !checkArmed
      ensures webSocket == old(webSocket) && (webSocket.Some? ==> !webSocket.value.open)
      ensures webSocket.Some? ==> webSocket.value.sent == old(webSocket.value.sent)
    {
      alerts := alerts + 1;
      closeAlertSuppressed := true;
      Init();
      if webSocket.Some? {
        webSocket.value.Close();
      }
    }

    /** The WebSocket's `close` handler: alert unless silenced, then `init()`. */
    method OnClose()
      modifies this
      ensures alerts == old(alerts) + (if old(closeAlertSuppressed) then 0 else 1)
      ensures state == ViewState.Init && !checkArmed && webSocket == old(webSocket)
    {
      if !closeAlertSuppressed {
        alerts := alerts + 1;
      }
      Init();
    }

    /**
     * `checkAndTry()`: in INIT, or without a peer connection or data channel, only ask `canOffer`;
     * otherwise update the counters and, on a retry, redraw the READY view and ask again. The
     * state itself is never changed here. It always schedules the next check. The channel is
     * tested as written, by `connectionState === 'connectiong'`.
     */
    method CheckAndTry(pc: Retry.PcState, dc: Retry.DcObservation)
      modifies this, SocketSet()
      ensures checkArmed && state == old(state) && webSocket == old(webSocket)
      ensures old(state) == ViewState.Init || !old(hasPc) || !old(hasDc) ==>
                counters == old(counters) && shownView == old(shownView)
                && (webSocket.Some? && old(webSocket.value.open) ==> webSocket.value.sent == old(webSocket.value.sent) + [CanOfferRequest()])
      ensures old(state) != ViewState.Init && old(hasPc) && old(hasDc) ==>
                var a := Retry.AssessAsWritten(old(counters), pc, Some(dc));
                && counters == a.counters
                && (a.retry ==> shownView == ViewState.Ready)
                && (a.retry && webSocket.Some? && old(webSocket.value.open) ==>
                      webSocket.value.sent == old(webSocket.value.sent) + [CanOfferRequest()])
                && (!a.retry ==> shownView == old(shownView) && (webSocket.Some? ==> unchanged(webSocket.value)))
      ensures webSocket.Some? && !old(webSocket.value.open) ==> unchanged(webSocket.value)
      ensures webSocket.Some? ==> webSocket.value.open == old(webSocket.value.open)
    {
      if state == ViewState.Init || !hasPc || !hasDc {
        CheckIfCanOffer();
        checkArmed := true;
        return;
      }
      var a := Retry.AssessAsWritten(counters, pc, Some(dc));
      counters := a.counters;
      if a.retry {
        shownView := ViewState.Ready;
        CheckIfCanOffer();
      }
      checkArmed := true;
    }

    /** A data-channel message: `takeoff` and `land` set the state; anything else is ignored. */
    method OnDataChannelMessage(messageType: string)
      modifies this
      ensures messageType == "takeoff" ==> state == ViewState.TakeOff
      ensures messageType == "land" ==> state == ViewState.Land
      ensures messageType != "takeoff" && messageType != "land" ==> state == old(state) && shownView == old(shownView)
    {
      if messageType == "takeoff" {
        TakeOff();
      } else if messageType == "land" {
        Land();
      }
    }

    /** `sendJoystickCommand(command)`: sent only when a data channel exists. */
    method SendJoystickCommand() returns (sent: bool)
      ensures sent <==> hasDc
    {
      sent := hasDc;
    }
  }
}
