/**
 * The peer side of the connection in the newer client (client/src/js/RTCHandler.js): it opens
 * the WebSocket to `/remote`, asks whether it may offer (`canOffer`), answers pings, and checks
 * the WebRTC connection every second. The peer connection, data channel and negotiation are not
 * modelled: a check receives their states, and `hasPc`/`hasDc` record whether they were created.
 */
module RtcClient {
  import opened Wrappers
  import opened Sockets
  import ViewState
  import Retry

  /** `TRY_PRIMARY_COUNT`: the number of EXIST answers tolerated in a row. */
  const TryPrimaryCount: nat := 10

  datatype CanOfferAction =
    | StartConnection // EMPTY: close the current connection quietly and create a new one
    | Wait            // SAME, or EXIST within budget, or an unexpected state
    | GiveUp          // EXIST beyond budget: alert and close the WebSocket

  datatype CanOfferOutcome = CanOfferOutcome(blocked: nat, action: CanOfferAction)

  /** The reply to `canOffer`, given the number of EXIST answers received in a row so far. */
  function OnCanOfferState(blocked: nat, state: string): (r: CanOfferOutcome)
    ensures state == "EMPTY" <==> r.action == StartConnection
    ensures state == "EMPTY" || state == "SAME" ==> r.blocked == 0
    ensures state == "EXIST" ==> r.blocked == blocked + 1 && (r.action == GiveUp <==> TryPrimaryCount < blocked + 1)
    ensures state != "EXIST" ==> r.action != GiveUp
    ensures state != "EMPTY" && state != "SAME" && state != "EXIST" ==> r == CanOfferOutcome(blocked, Wait)
  {
    match state
    case "EMPTY" => CanOfferOutcome(0, StartConnection)
    case "SAME" => CanOfferOutcome(0, Wait)
    case "EXIST" =>
      var b := blocked + 1;
      CanOfferOutcome(b, if TryPrimaryCount < b then GiveUp else Wait)
    case _ => CanOfferOutcome(blocked, Wait)
  }

  /** The outcome of a run of replies, starting from `blocked`. */
  function CanOfferRun(blocked: nat, states: seq<string>): CanOfferOutcome
  {
    if states == [] then CanOfferOutcome(blocked, Wait)
    else OnCanOfferState(CanOfferRun(blocked, states[..|states| - 1]).blocked, states[|states| - 1])
  }

  lemma {:induction false} ExistAnswersCount(blocked: nat, states: seq<string>)
    requires forall i :: 0 <= i < |states| ==> states[i] == "EXIST"
    ensures CanOfferRun(blocked, states).blocked == blocked + |states|
  {
    if states != [] {
      ExistAnswersCount(blocked, states[..|states| - 1]);
    }
  }

  /**
   * From a fresh start, the first ten EXIST answers in a row are tolerated and the eleventh
   * makes the peer give up.
   */
  lemma EleventhExistGivesUp(states: seq<string>)
    requires forall i :: 0 <= i < |states| ==> states[i] == "EXIST"
    ensures CanOfferRun(0, states).action == GiveUp <==> |states| > TryPrimaryCount
  {
    if states != [] {
      ExistAnswersCount(0, states[..|states| - 1]);
    }
  }

  /** An EMPTY or SAME answer restores the whole budget, whatever came before. */
  lemma GrantRestoresBudget(before: seq<string>, grant: string, after: seq<string>)
    requires grant == "EMPTY" || grant == "SAME"
    requires forall i :: 0 <= i < |after| ==> after[i] == "EXIST"
    ensures CanOfferRun(0, before + [grant] + after).blocked == |after|
  {
    var s := before + [grant] + after;
    assert s[..|before| + 1] == before + [grant];
    assert CanOfferRun(0, before + [grant]).blocked == 0 by {
      assert (before + [grant])[..|before|] == before;
    }
    ExistRunFrom(before + [grant], after);
  }

  lemma {:induction false} ExistRunFrom(prefix: seq<string>, after: seq<string>)
    requires forall i :: 0 <= i < |after| ==> after[i] == "EXIST"
    ensures CanOfferRun(0, prefix + after).blocked == CanOfferRun(0, prefix).blocked + |after|
  {
    if after != [] {
      var init := after[..|after| - 1];
      assert (prefix + after)[..|prefix + after| - 1] == prefix + init;
      ExistRunFrom(prefix, init);
    } else {
      assert prefix + after == prefix;
    }
  }

  class RTCHandler {
    const view: ViewState.ViewStateModel
    const isPrimary: bool
    const peerConnectionId: PeerId

    var webSocket: Option<Socket>
    /** The `onerror` variable of the current WebSocket's handlers: it silences the close alert. */
    var closeAlertSuppressed: bool
    var alerts: nat
    var counters: Retry.Counters
    var blocked: nat
    /** A `checkAndTry` timeout is pending. */
    var checkArmed: bool
    var hasPc: bool
    var hasDc: bool
    var connectionsStarted: nat

    constructor(view: ViewState.ViewStateModel, isPrimary: bool, peerConnectionId: PeerId)
      ensures this.view == view && this.isPrimary == isPrimary && this.peerConnectionId == peerConnectionId
      ensures webSocket.None? && counters == Retry.Counters(0, 0) && blocked == 0
      ensures !checkArmed && !hasPc && !hasDc && connectionsStarted == 0 && alerts == 0
    {
      this.view := view;
      this.isPrimary := isPrimary;
      this.peerConnectionId := peerConnectionId;
      webSocket := None;
      closeAlertSuppressed := false;
      alerts := 0;
      counters := Retry.Counters(0, 0);
      blocked := 0;
      checkArmed := false;
      hasPc := false;
      hasDc := false;
      connectionsStarted := 0;
    }

    function SocketSet(): set<Socket>
      reads this
    {
      if webSocket.Some? then {webSocket.value} else {}
    }

    function CanOfferRequest(): Message
      reads this
    {
      Message("canOffer", peerConnectionId, Some(isPrimary), NoPayload)
    }

    /** `init()`: clear the check timeout and every counter. The connection objects are closed, not dropped. */
    method Init()
      modifies this
      ensures !checkArmed && counters == Retry.Counters(0, 0) && blocked == 0
      ensures webSocket == old(webSocket) && hasPc == old(hasPc) && hasDc == old(hasDc)
      ensures alerts == old(alerts) && connectionsStarted == old(connectionsStarted)
      ensures closeAlertSuppressed == old(closeAlertSuppressed)
    {
      checkArmed := false;
      counters := Retry.Counters(0, 0);
      blocked := 0;
    }

    /** `startChecking()`: replace any pending check with a new one. */
    method StartChecking()
      modifies this
      ensures checkArmed
      ensures webSocket == old(webSocket) && counters == old(counters) && blocked == old(blocked)
      ensures hasPc == old(hasPc) && hasDc == old(hasDc) && alerts == old(alerts)
    {
      checkArmed := true;
    }

    /** `setUpConnection(startKey)`: `ws` is the new WebSocket to `/remote`. */
    method SetUpConnection(ws: Socket)
      modifies this
      ensures webSocket == Some(ws) && !closeAlertSuppressed
      ensures counters == old(counters) && blocked == old(blocked) && checkArmed == old(checkArmed)
      ensures hasPc == old(hasPc) && hasDc == old(hasDc) && alerts == old(alerts)
    {
      webSocket := Some(ws);
      closeAlertSuppressed := false;
    }

    /** `#checkIfCanOffer()`: nothing without a WebSocket; the browser discards sends on a closed one. */
    method CheckIfCanOffer()
      modifies SocketSet()
      ensures webSocket.Some? && old(webSocket.value.open) ==> webSocket.value.sent == old(webSocket.value.sent) + [CanOfferRequest()]
      ensures webSocket.Some? && !old(webSocket.value.open) ==> unchanged(webSocket.value)
      ensures webSocket.Some? ==> webSocket.value.open == old(webSocket.value.open)
    {
      if webSocket.Some? && webSocket.value.open {
        webSocket.value.Send(CanOfferRequest());
      }
    }

    /** `startCreatingConnection()`: a new peer connection, and a data channel only for a primary peer. */
    method StartCreatingConnection()
      modifies this
      ensures hasPc && hasDc == (old(hasDc) || isPrimary) && connectionsStarted == old(connectionsStarted) + 1
      ensures webSocket == old(webSocket) && counters == old(counters) && blocked == old(blocked)
      ensures checkArmed == old(checkArmed) && alerts == old(alerts) && closeAlertSuppressed == old(closeAlertSuppressed)
    {
      hasPc := true;
      hasDc := hasDc || isPrimary;
      connectionsStarted := connectionsStarted + 1;
    }

    /** The `canOffer` reply with `state`. */
    method OnCanOffer(state: string)
      modifies this, SocketSet()
      ensures var r := OnCanOfferState(old(blocked), state);
        && blocked == r.blocked
        && (r.action == StartConnection ==> hasPc && connectionsStarted == old(connectionsStarted) + 1)
        && (r.action != StartConnection ==> hasPc == old(hasPc) && connectionsStarted == old(connectionsStarted))
        && (r.action == GiveUp ==> closeAlertSuppressed && alerts == old(alerts) + 1 && (webSocket.Some? ==> !webSocket.value.open))
        && (r.action != GiveUp ==> alerts == old(alerts) && closeAlertSuppressed == old(closeAlertSuppressed))
      ensures webSocket == old(webSocket) && counters == old(counters) && checkArmed == old(checkArmed)
      ensures webSocket.Some? ==> webSocket.value.sent == old(webSocket.value.sent)
    {
      var r := OnCanOfferState(blocked, state);
      blocked := r.blocked;
      match r.action
      case StartConnection =>
        StartCreatingConnection();
      case Wait =>
      case GiveUp =>
        closeAlertSuppressed := true;
        alerts := alerts + 1;
        if webSocket.Some? {
          webSocket.value.Close();
        }
    }

    /** A `ping` from the server is answered with a `pong` at once. */
    method OnPing()
      modifies SocketSet()
      ensures webSocket.Some? && old(webSocket.value.open) ==>
                webSocket.value.sent == old(webSocket.value.sent) + [Message("pong", Undefined, None, NoPayload)]
      ensures webSocket.Some? && !old(webSocket.value.open) ==> unchanged(webSocket.value)
      ensures webSocket.Some? ==> webSocket.value.open == old(webSocket.value.open)
    {
      if webSocket.Some? && webSocket.value.open {
        webSocket.value.Send(Message("pong", Undefined, None, NoPayload));
      }
    }

    /** The WebSocket's `error` handler: alert, silence the close alert, close, back to INIT. */
    method OnError()
      modifies this, SocketSet(), view
      ensures closeAlertSuppressed && alerts == old(alerts) + 1 && view.IsInit()
      ensures webSocket == old(webSocket) && (webSocket.Some? ==> !webSocket.value.open)
      ensures webSocket.Some? ==> webSocket.value.sent == old(webSocket.value.sent)
      ensures counters == old(counters) && blocked == old(blocked) && checkArmed == old(checkArmed)
    {
      alerts := alerts + 1;
      closeAlertSuppressed := true;
      if webSocket.Some? {
        webSocket.value.Close();
      }
      view.ToInit();
    }

    /** The WebSocket's `close` handler: alert unless silenced, then back to INIT. */
    method OnClose()
      modifies this, view
      ensures alerts == old(alerts) + (if old(closeAlertSuppressed) then 0 else 1) && view.IsInit()
      ensures webSocket == old(webSocket) && counters == old(counters) && blocked == old(blocked)
      ensures closeAlertSuppressed == old(closeAlertSuppressed) && checkArmed == old(checkArmed)
    {
      if !closeAlertSuppressed {
        alerts := alerts + 1;
      }
      view.ToInit();
    }

    /**
     * `checkAndTry()`, with the peer connection and data channel in the given states (the
     * channel state matters only once a channel exists). In INIT or before any peer connection
     * it only asks `canOffer`; otherwise it updates the counters and, on a retry, moves to READY
     * and asks again. It always schedules the next check. The channel is tested as written, by
     * `connectionState === 'connectiong'`, so a channel stuck connecting is never counted.
     */
    method CheckAndTry(pc: Retry.PcState, dc: Retry.DcObservation)
      modifies this, view, SocketSet()
      ensures checkArmed
      ensures webSocket == old(webSocket) && blocked == old(blocked) && hasPc == old(hasPc) && hasDc == old(hasDc)
      ensures old(view.state) == ViewState.Init || !old(hasPc) ==>
                counters == old(counters) && view.state == old(view.state)
                && (webSocket.Some? && old(webSocket.value.open) ==> webSocket.value.sent == old(webSocket.value.sent) + [CanOfferRequest()])
      ensures old(view.state) != ViewState.Init && old(hasPc) ==>
                var a := Retry.AssessAsWritten(old(counters), pc, if old(hasDc) then Some(dc) else None);
                && counters == a.counters
                && (a.retry ==> view.state == ViewState.Ready)
                && (a.retry && webSocket.Some? && old(webSocket.value.open) ==>
                      webSocket.value.sent == old(webSocket.value.sent) + [CanOfferRequest()])
                && (!a.retry ==> view.state == old(view.state) && (webSocket.Some? ==> unchanged(webSocket.value)))
      ensures webSocket.Some? && !old(webSocket.value.open) ==> unchanged(webSocket.value)
      ensures webSocket.Some? ==> webSocket.value.open == old(webSocket.value.open)
    {
      if view.IsInit() || !hasPc {
        CheckIfCanOffer();
        checkArmed := true;
        return;
      }
      var a := Retry.AssessAsWritten(counters, pc, if hasDc then Some(dc) else None);
      counters := a.counters;
      if a.retry {
        view.ToReady();
        CheckIfCanOffer();
      }
      checkArmed := true;
    }

    /** A video track arrives: LAND, whatever the current state. */
    method OnVideoTrack()
      modifies view
      ensures view.IsLand()
    {
      view.ToLand();
    }

    /** A data-channel message: `takeoff` and `land` set the state; anything else is ignored. */
    method OnDataChannelMessage(messageType: string)
      modifies view
      ensures messageType == "takeoff" ==> view.IsTakeOff()
      ensures messageType == "land" ==> view.IsLand()
      ensures messageType != "takeoff" && messageType != "land" ==> view.state == old(view.state)
    {
      if messageType == "takeoff" {
        view.ToTakeOff();
      } else if messageType == "land" {
        view.ToLand();
      }
    }

    /** `#sendJoystickCommand(command)`: sent on the data channel only when one exists. */
    method SendJoystickCommand() returns (sent: bool)
      ensures sent <==> hasDc
    {
      sent := hasDc;
    }
  }
}
