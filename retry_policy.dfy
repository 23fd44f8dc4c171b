/**
 * The connection check both peer clients run every second (`checkAndTry` in
 * client/src/js/RTCHandler.js and public/main.js): count consecutive checks in which the peer
 * connection or the data channel is still connecting, and decide whether to start over. The
 * WebRTC objects are not modelled; a check sees their states as inputs.
 */
module Retry {
  import opened Wrappers

  /** `TRY_CONNECTING_COUNT`: a retry needs more than this many consecutive connecting checks. */
  const TryConnectingCount: nat := 3

  /** `RTCPeerConnection.connectionState`. */
  datatype PcState = New | Connecting | Connected | Disconnected | Failed | Closed

  /** `RTCDataChannel.readyState`. */
  datatype DcReadyState = DcConnecting | DcOpen | DcClosing | DcClosed

  /**
   * What a check reads from the data channel: its `readyState`, and its `connectionState`
   * property, which `RTCDataChannel` does not define (so it is normally undefined).
   */
  datatype DcObservation = DcObservation(readyState: DcReadyState, connectionState: Option<string>)

  datatype Counters = Counters(newOrConnecting: nat, dcConnecting: nat)

  datatype Assessment = Assessment(counters: Counters, retry: bool)

  /** The test the code applies: `dc.connectionState === 'connectiong'`. */
  predicate ChannelConnectingAsWritten(dc: DcObservation)
  {
    dc.connectionState == Some("connectiong")
  }

  /** The test evidently intended: the channel's `readyState` is 'connecting'. */
  predicate ChannelConnecting(dc: DcObservation)
  {
    dc.readyState == DcConnecting
  }

  /**
   * One check, given how "the data channel is connecting" is tested. Without a data channel its
   * counter is left as it is. A retry zeroes both counters.
   */
  function AssessWith(dcTest: DcObservation -> bool, c: Counters, pc: PcState, dc: Option<DcObservation>): (a: Assessment)
    ensures a.retry ==> a.counters == Counters(0, 0)
    ensures (pc == Disconnected || pc == Failed || pc == Closed) ==> a.retry
    ensures dc.Some? && (dc.value.readyState == DcClosing || dc.value.readyState == DcClosed) ==> a.retry
    ensures !a.retry ==> a.counters.newOrConnecting == (if pc == New || pc == Connecting then c.newOrConnecting + 1 else 0)
    ensures !a.retry && dc.Some? ==> a.counters.dcConnecting == (if dcTest(dc.value) then c.dcConnecting + 1 else 0)
    ensures !a.retry && dc.None? ==> a.counters.dcConnecting == c.dcConnecting
  {
    var newOrConnecting := pc == New || pc == Connecting;
    var n := if newOrConnecting then c.newOrConnecting + 1 else 0;
    var pcInvalid := pc == Disconnected || pc == Failed || pc == Closed;
    var dcConnecting := dc.Some? && dcTest(dc.value);
    var d := if dc.None? then c.dcConnecting else if dcConnecting then c.dcConnecting + 1 else 0;
    var dcInvalid := dc.Some? && (dc.value.readyState == DcClosing || dc.value.readyState == DcClosed);
    var retry := (newOrConnecting && TryConnectingCount < n) || pcInvalid
              || (dcConnecting && TryConnectingCount < d) || dcInvalid;
    if retry then Assessment(Counters(0, 0), true) else Assessment(Counters(n, d), false)
  }

  function AssessAsWritten(c: Counters, pc: PcState, dc: Option<DcObservation>): Assessment
  {
    AssessWith(ChannelConnectingAsWritten, c, pc, dc)
  }

  function Assess(c: Counters, pc: PcState, dc: Option<DcObservation>): Assessment
  {
    AssessWith(ChannelConnecting, c, pc, dc)
  }

  /** One check's inputs. */
  datatype Observation = Observation(pc: PcState, dc: Option<DcObservation>)

  /** The counters after a run of checks, and whether any of them retried. */
  function RunWith(dcTest: DcObservation -> bool, c: Counters, obs: seq<Observation>): Assessment
  {
    if obs == [] then Assessment(c, false)
    else
      var before := RunWith(dcTest, c, obs[..|obs| - 1]);
      var last := obs[|obs| - 1];
      var a := AssessWith(dcTest, before.counters, last.pc, last.dc);
      Assessment(a.counters, before.retry || a.retry)
  }

  /**
   * A peer connection that stays 'new' or 'connecting' (with a healthy or absent data channel
   * that is not counted as connecting) triggers a retry on exactly the fourth consecutive check.
   */
  lemma {:induction false} StalledPeerConnectionCount(dcTest: DcObservation -> bool, obs: seq<Observation>)
    requires forall i :: 0 <= i < |obs| ==> obs[i].pc in {New, Connecting}
    requires forall i :: 0 <= i < |obs| ==> obs[i].dc.None? || (obs[i].dc.value.readyState in {DcConnecting, DcOpen} && !dcTest(obs[i].dc.value))
    requires |obs| <= TryConnectingCount
    ensures RunWith(dcTest, Counters(0, 0), obs).counters.newOrConnecting == |obs|
    ensures !RunWith(dcTest, Counters(0, 0), obs).retry
  {
    if obs != [] {
      StalledPeerConnectionCount(dcTest, obs[..|obs| - 1]);
    }
  }

  lemma StalledPeerConnectionRetriesOnFourth(dcTest: DcObservation -> bool, obs: seq<Observation>)
    requires |obs| == TryConnectingCount + 1
    requires forall i :: 0 <= i < |obs| ==> obs[i].pc in {New, Connecting}
    requires forall i :: 0 <= i < |obs| ==> obs[i].dc.None? || (obs[i].dc.value.readyState in {DcConnecting, DcOpen} && !dcTest(obs[i].dc.value))
    ensures !RunWith(dcTest, Counters(0, 0), obs[..TryConnectingCount]).retry
    ensures RunWith(dcTest, Counters(0, 0), obs).retry
    ensures RunWith(dcTest, Counters(0, 0), obs).counters == Counters(0, 0)
  {
    var prefix := obs[..TryConnectingCount];
    StalledPeerConnectionCount(dcTest, prefix);
    assert obs[..|obs| - 1] == prefix;
  }

  /**
   * As written, a data channel is never counted as connecting while its `connectionState` is
   * not the text 'connectiong' (in particular while it is undefined, as on every `RTCDataChannel`):
   * over a connected peer connection whose channel stays in 'connecting', no check ever retries.
   */
  lemma {:induction false} DcStuckConnectingNeverRetriesAsWritten(obs: seq<Observation>)
    requires forall i :: 0 <= i < |obs| ==> obs[i].pc == Connected
    requires forall i :: 0 <= i < |obs| ==> obs[i].dc == Some(DcObservation(DcConnecting, None))
    ensures RunWith(ChannelConnectingAsWritten, Counters(0, 0), obs) == Assessment(Counters(0, 0), false)
  {
    if obs != [] {
      DcStuckConnectingNeverRetriesAsWritten(obs[..|obs| - 1]);
    }
  }

  lemma {:induction false} DcStuckConnectingCount(obs: seq<Observation>)
    requires forall i :: 0 <= i < |obs| ==> obs[i].pc == Connected
    requires forall i :: 0 <= i < |obs| ==> obs[i].dc.Some? && obs[i].dc.value.readyState == DcConnecting
    requires |obs| <= TryConnectingCount
    ensures RunWith(ChannelConnecting, Counters(0, 0), obs) == Assessment(Counters(0, |obs|), false)
  {
    if obs != [] {
      DcStuckConnectingCount(obs[..|obs| - 1]);
    }
  }

  /** Corrected, a data channel stuck in 'connecting' triggers a retry on the fourth consecutive check. */
  lemma DcStuckConnectingRetriesOnFourth(obs: seq<Observation>)
    requires |obs| == TryConnectingCount + 1
    requires forall i :: 0 <= i < |obs| ==> obs[i].pc == Connected
    requires forall i :: 0 <= i < |obs| ==> obs[i].dc.Some? && obs[i].dc.value.readyState == DcConnecting
    ensures !RunWith(ChannelConnecting, Counters(0, 0), obs[..TryConnectingCount]).retry
    ensures RunWith(ChannelConnecting, Counters(0, 0), obs) == Assessment(Counters(0, 0), true)
  {
    DcStuckConnectingCount(obs[..TryConnectingCount]);
    assert obs[..|obs| - 1] == obs[..TryConnectingCount];
  }

  /** A healthy check (connected, channel open) resets both counters and does not retry. */
  lemma HealthyCheckResets(c: Counters, dc: DcReadyState)
    requires dc == DcOpen
    ensures Assess(c, Connected, Some(DcObservation(dc, None))) == Assessment(Counters(0, 0), false)
    ensures AssessAsWritten(c, Connected, Some(DcObservation(dc, None))) == Assessment(Counters(0, 0), false)
  {
  }
}
