/**
 * The polling client (client/src/js/SocketHandler.js) that stands in for a socket where only
 * plain HTTP requests get through: `startObserving` opens a session, `observe` is re-issued
 * after every answer, failures are retried after 300 ms, and the sixth failure in a row
 * disconnects. Requests and their answers are events: a method issues a request (appending it
 * to `requests`), and a separate method handles each possible answer.
 */
module Polling {
  import opened Wrappers

  /** The number of consecutive observe failures tolerated; one more disconnects. */
  const MaxObserveErrors: nat := 5
  const RetryDelayMillis: nat := 300

  datatype Event = Event(name: string, detail: string)

  datatype Request =
    | StartObservingRequest(startKey: string, query: string)
    | ObserveRequest(sessionKey: string)
    | SendRequest(sessionKey: string, eventName: string, value: string)

  /** The part of the handler's state the observe loop decides on. */
  datatype Poll = Poll(isClosed: bool, errorCount: nat, retryArmed: bool)

  datatype FailureOutcome = FailureOutcome(poll: Poll, disconnect: bool)

  /** A failed observe (an error status or a network error). */
  function AfterObserveFailure(p: Poll): (r: FailureOutcome)
    ensures p.isClosed ==> r == FailureOutcome(p, false)
    ensures !p.isClosed && p.errorCount < MaxObserveErrors ==>
              r == FailureOutcome(Poll(false, p.errorCount + 1, true), false)
    ensures !p.isClosed && p.errorCount >= MaxObserveErrors ==>
              r == FailureOutcome(Poll(true, 0, false), true)
  {
    if p.isClosed then FailureOutcome(p, false)
    else
      var count := p.errorCount + 1;
      if count > MaxObserveErrors then FailureOutcome(Poll(true, 0, false), true)
      else FailureOutcome(Poll(false, count, true), false)
  }

  /** `n` failures in a row, each retried when its timeout fires. */
  function AfterFailures(p: Poll, n: nat): FailureOutcome
  {
    if n == 0 then FailureOutcome(p, false)
    else
      var before := AfterFailures(p, n - 1);
      if before.disconnect then before
      else
        var r := AfterObserveFailure(before.poll.(retryArmed := false));
        FailureOutcome(r.poll, r.disconnect)
  }

  lemma {:induction false} FailuresCounted(errors: nat, n: nat)
    requires errors + n <= MaxObserveErrors
    ensures AfterFailures(Poll(false, errors, false), n).poll.errorCount == errors + n
    ensures !AfterFailures(Poll(false, errors, false), n).poll.isClosed
    ensures !AfterFailures(Poll(false, errors, false), n).disconnect
  {
    if n > 0 {
      FailuresCounted(errors, n - 1);
    }
  }

  /**
   * From an open connection with no recent failure, five failures in a row are retried and the
   * sixth disconnects, leaving the handler closed with the count back at zero.
   */
  lemma SixthFailureDisconnects()
    ensures !AfterFailures(Poll(false, 0, false), MaxObserveErrors).disconnect
    ensures AfterFailures(Poll(false, 0, false), MaxObserveErrors).poll.retryArmed
    ensures AfterFailures(Poll(false, 0, false), MaxObserveErrors + 1) == FailureOutcome(Poll(true, 0, false), true)
  {
    FailuresCounted(0, MaxObserveErrors);
  }

  /** Once closed, failures change nothing and never disconnect again. */
  lemma {:induction false} ClosedIgnoresFailures(p: Poll, n: nat)
    requires p.isClosed
    ensures AfterFailures(p, n).poll.isClosed && AfterFailures(p, n).poll.errorCount == p.errorCount
    ensures !AfterFailures(p, n).disconnect
  {
    if n > 0 {
      ClosedIgnoresFailures(p, n - 1);
    }
  }

  class SocketHandler {
    const path: string
    const startKey: string
    var query: string
    var sessionKey: Option<string>
    var poll: Poll
    /** Events dispatched on the handler's event target, oldest first. */
    var events: seq<Event>
    /** HTTP requests issued, oldest first. */
    var requests: seq<Request>

    constructor(path: string, startKey: string, query: string)
      ensures this.path == path && this.startKey == startKey && this.query == query
      ensures sessionKey.None? && poll == Poll(false, 0, false) && events == [] && requests == []
    {
      this.path := path;
      this.startKey := startKey;
      this.query := query;
      sessionKey := None;
      poll := Poll(false, 0, false);
      events := [];
      requests := [];
    }

    /** `connect()`: closed until `startObserving` succeeds; asks for a session. */
    method Connect()
      modifies this
      ensures poll == Poll(true, 0, false)
      ensures requests == old(requests) + [StartObservingRequest(startKey, old(query))]
      ensures events == old(events) && sessionKey == old(sessionKey) && query == old(query)
    {
      poll := Poll(true, 0, false);
      requests := requests + [StartObservingRequest(startKey, query)];
    }

    /** `#dispatchEventIfConnectionOpened`. */
    method DispatchIfOpen(e: Event)
      modifies this
      ensures events == old(events) + (if poll.isClosed then [] else [e])
      ensures poll == old(poll) && requests == old(requests) && sessionKey == old(sessionKey) && query == old(query)
    {
      if !poll.isClosed {
        events := events + [e];
      }
    }

    /** `#doDisconnect(reason)`: closed, and `disconnect` is dispatched whatever the state. */
    method DoDisconnect(reason: string)
      modifies this
      ensures poll == old(poll).(isClosed := true)
      ensures events == old(events) + [Event("disconnect", reason)]
      ensures requests == old(requests) && sessionKey == old(sessionKey) && query == old(query)
    {
      poll := poll.(isClosed := true);
      events := events + [Event("disconnect", reason)];
    }

    /** `observe(sessionKey)`: no request while closed. */
    method Observe()
      modifies this
      ensures poll == old(poll) && events == old(events) && sessionKey == old(sessionKey) && query == old(query)
      ensures requests == old(requests) +
        (if !old(poll.isClosed) && old(sessionKey).Some? then [ObserveRequest(old(sessionKey).value)] else [])
    {
      if !poll.isClosed && sessionKey.Some? {
        requests := requests + [ObserveRequest(sessionKey.value)];
      }
    }

    /** `startObserving` answered `{sessionKey, data}`: open, dispatch `connect`, start observing. */
    method OnStartObservingOk(key: string, data: string)
      modifies this
      ensures sessionKey == Some(key) && !poll.isClosed
      ensures events == old(events) + [Event("connect", data)]
      ensures requests == old(requests) + [ObserveRequest(key)]
    {
      sessionKey := Some(key);
      poll := poll.(isClosed := false);
      DispatchIfOpen(Event("connect", data));
      Observe();
    }

    /** `startObserving` failed: `connect_error` is dispatched and the handler stays closed. */
    method OnStartObservingError(error: string)
      modifies this
      ensures events == old(events) + [Event("connect_error", error)]
      ensures poll == old(poll) && sessionKey == old(sessionKey) && requests == old(requests)
    {
      events := events + [Event("connect_error", error)];
    }

    /**
     * `observe` answered OK with `received` (None when the body is not an array): the failure
     * count is reset and the retry cleared; unless closed meanwhile, the events are dispatched in
     * order and the next observe is issued.
     */
    method OnObserveOk(received: Option<seq<Event>>)
      modifies this
      ensures poll == Poll(old(poll.isClosed), 0, false)
      ensures old(poll.isClosed) ==> events == old(events) && requests == old(requests)
      ensures !old(poll.isClosed) ==> events == old(events) + (if received.Some? then received.value else [])
      ensures !old(poll.isClosed) && sessionKey.Some? ==> requests == old(requests) + [ObserveRequest(sessionKey.value)]
      ensures sessionKey == old(sessionKey)
    {
      poll := poll.(errorCount := 0, retryArmed := false);
      if poll.isClosed {
        return;
      }
      if received.Some? {
        var list := received.value;
        for i := 0 to |list|
          invariant events == old(events) + list[..i]
          invariant poll == Poll(false, 0, false) && requests == old(requests) && sessionKey == old(sessionKey)
        {
          DispatchIfOpen(list[i]);
          assert list[..i + 1] == list[..i] + [list[i]];
        }
        assert list[..|list|] == list;
      }
      Observe();
    }

    /** `observe` failed: see `AfterObserveFailure`; the sixth failure in a row disconnects. */
    method OnObserveError()
      modifies this
      ensures poll == AfterObserveFailure(old(poll)).poll
      ensures AfterObserveFailure(old(poll)).disconnect ==> events == old(events) + [Event("disconnect", "fails to observe")]
      ensures !AfterObserveFailure(old(poll)).disconnect ==> events == old(events)
      ensures requests == old(requests) && sessionKey == old(sessionKey)
    {
      if poll.isClosed {
        return;
      }
      var count := poll.errorCount + 1;
      poll := poll.(errorCount := count, retryArmed := false);
      if count > MaxObserveErrors {
        poll := poll.(errorCount := 0);
        DoDisconnect("fails to observe");
        return;
      }
      poll := poll.(retryArmed := true);
    }

    /** The 300 ms retry timeout fires. */
    method OnRetryDue()
      modifies this
      ensures poll == old(poll).(retryArmed := false)
      ensures requests == old(requests) +
        (if old(poll.retryArmed) && !old(poll.isClosed) && sessionKey.Some? then [ObserveRequest(sessionKey.value)] else [])
      ensures events == old(events) && sessionKey == old(sessionKey)
    {
      var due := poll.retryArmed;
      poll := poll.(retryArmed := false);
      if due {
        Observe();
      }
    }

    /** `send(eventName, value)`: no request without a session key. */
    method Send(eventName: string, value: string)
      modifies this
      ensures requests == old(requests) +
        (if sessionKey.Some? && sessionKey.value != "" then [SendRequest(sessionKey.value, eventName, value)] else [])
      ensures poll == old(poll) && events == old(events) && sessionKey == old(sessionKey)
    {
      if sessionKey.Some? && sessionKey.value != "" {
        requests := requests + [SendRequest(sessionKey.value, eventName, value)];
      }
    }

    /** A `send` failed: disconnect unless already closed. */
    method OnSendError()
      modifies this
      ensures old(poll.isClosed) ==> events == old(events) && poll == old(poll)
      ensures !old(poll.isClosed) ==> poll.isClosed && events == old(events) + [Event("disconnect", "fails to send message")]
      ensures requests == old(requests) && sessionKey == old(sessionKey)
    {
      if !poll.isClosed {
        DoDisconnect("fails to send message");
      }
    }

    method Close()
      modifies this
      ensures poll == old(poll).(isClosed := true) && events == old(events) + [Event("disconnect", "client disconnect")]
      ensures requests == old(requests) && query == old(query) && sessionKey == old(sessionKey)
    {
      DoDisconnect("client disconnect");
    }

    /** `reset(query)`: keep the new query for the next `connect`, and disconnect; no reconnection here. */
    method Reset(q: string)
      modifies this
      ensures query == q && poll == old(poll).(isClosed := true) && events == old(events) + [Event("disconnect", "client reset")]
      ensures requests == old(requests) && sessionKey == old(sessionKey)
    {
      query := q;
      DoDisconnect("client reset");
    }
  }
}
