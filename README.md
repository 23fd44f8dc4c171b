# ojm-drone-remote signalling relay, modelled in Dafny

The system relays WebRTC signalling between one *controller* (the "local" client next to the
drone) and any number of *peers* (the "remote" browsers that watch or steer it). Both sides meet
under a *start key*. The key is a 32-hex-digit secret, issued by `GET /generateKey` to a caller
holding the bearer token.

The model has one module per part of the repository:

- **Env** (`server/components/Environment.js`): settings read from the process environment, with
  JavaScript's falsy test and `parseInt(value, 10)` written out.
- **Token** (`server/components/token.js`): salted token hashes (`salt:key`, both in hex), their
  verification, token generation, and time-limited TURN credentials.
- **ToolsToken** (`tools/token.js`): the command-line copy of the token helpers.
- **Handlers** (`MessageHandlerServer.js`): the event-name to handler-list registry.
- **Sweeper** (`StartKeySweeper.js`): the periodic expiry of idle start keys.
- **Remote** (`RemoteServer.js`): the socket.io server for peers. It covers the admission
  middleware (rate limit, start key, `isPrimary`), the rooms map from start key to peer id to
  socket, and the relay to one peer.
- **Local** (`LocalServer.js`): the WebSocket server for controllers. It covers the upgrade
  decision, controller registration, and the 5-second ping.
- **ServerApp** (`server/app.js`): the newer server.
  - Bearer-token authorisation and key issue.
  - Relay of controller messages to peers.
  - Relay of peer `offer`/`canOffer` messages and disconnect notices to the controller.
- **LegacyApp** (`app.js`): the older single-file server. A `RemoteConnectionManager` per peer
  pings every second and closes the peer after a timeout without a pong.
- **ViewState**, **RtcClient**, **Retry** (`client/src/js/`): the peer page. It covers the view
  state machine, the `canOffer` arbitration answers (`EMPTY`/`SAME`/`EXIST`), and the one-second
  health check that decides when to ask to offer again.
- **LegacyClient** (`public/main.js`): the older peer page.
- **Polling** (`client/src/js/SocketHandler.js`): the long-polling client transport. It covers
  `startObserving`, `observe` with up to five retried failures, and `send`.
- **Cleaner** (`function/cleaner/index.js`): the scheduled cloud function. It deletes documents
  older than one or five minutes from ten Firestore collections, in batches of 100.

How the model represents each part:

- A socket is a `Sockets.Socket` object. It has an `open` flag and the log of messages sent on
  it. Each server class holds maps of socket references and updates them in place.
- Each state-changing method's `ensures` gives its new state through a pure function. The
  lemmas state the properties of those functions.
- The following are parameters of the operations that use them:
  - random bytes;
  - the clock;
  - the crypto primitives: scrypt, HMAC-SHA1 and base64, as a `Token.Crypto` record of functions;
  - the connected-socket count;
  - the "is this start key in use" test.
- A timer is a flag or an id that the method arms or clears. A "due" method or event runs the
  timer's callback.

Where the code and the system's design description disagree, the model follows the code:

- The description has single-use tickets for controller connections. The code has no tickets.
  The controller presents the start key itself.
- The description has a server-side transactional queue transport. No server code for it exists
  here; only the polling client (`SocketHandler.js`) is modelled.
- The description puts primary arbitration on the server. In the code the server only relays
  `canOffer`, and the answer comes from the controller, which is not part of this model.

As wired, `server/components/token.js` reads `TURN_SECRET`, but `Environment.js` exports only
`TURN_SECRETS`. The newer server therefore never issues ICE server information
(`Token.AsWiredNoIceServerInfo`, `ServerApp.IceInfoAlwaysUndefined`). The legacy peer page
(`public/main.js`) never answers a `ping`. By `LegacyApp.NoStopTimerBeforePong`, the legacy
server never arms a peer's close timeout, so an unresponsive legacy peer is never timed out.

As written, the newer server (`server/app.js`) exits while loading, because it calls
`remoteServer.onconnection`, which does not exist (`ServerApp.AsWrittenLoadThrows`). The
`ServerApp.SignalingApp` class models the wiring evidently intended without that call
(`ServerApp.WiringRegistersRelays`).

The two other defects in "## Findings" stay in the classes as written:
- `LegacyApp.LegacyServer` starts the ping loop with `StartedAsWritten`, so repeated offers leak
  ping chains.
- Both peer pages' `CheckAndTry` test the channel with `Retry.AssessAsWritten`, so a channel
  stuck connecting never triggers a retry.

The corrected definitions (`LegacyApp.Started`, `Retry.Assess`) and their properties sit beside
them.

## Model

| member | source | states |
|---|---|---|
| Env.ParseIntDecimalPrefix | server/components/Environment.js:3-5 | parseInt of a decimal numeral followed by any text gives the numeral's value; with a leading '-' it gives the negated value |
| Env.ParseIntOrDefaultKeepsZero | server/components/Environment.js:3-5 | the text "0" is truthy, so it is parsed to 0 rather than replaced by the default |
| Env.LoadIsDevelopment | server/components/Environment.js:7 | isDevelopment holds exactly when NODE_ENV is the text "development" |
| Env.LoadLimitsAgree | server/components/Environment.js:21-28 | the local and remote client-count and buffer limits read the same variables and are always equal |
| Env.LoadDefaults | server/components/Environment.js:9-38 | with no variables set every setting takes its documented default (port 8080, 1000 clients, 1 MiB, 5 s / 10 s / 3 s / 5 s, 5 min key TTL) |
| Env.LoadReadsValues | server/components/Environment.js:12-19 | a decimal PORT is read as its value; TURN settings pass through unparsed |
| Env.ToNumberDecimal | server/components/token.js:70 | a decimal numeral converts to its value in `HOURS * 3600` |
| Token.Hex | server/components/token.js:16 | hex encoding gives two lower-case hex digits per byte |
| Token.HexHead | server/components/token.js:16 | a non-empty encoding starts with the first byte's high and low nibble digits, followed by the encoding of the rest |
| Token.HexInjective | server/components/token.js:16-23 | distinct byte strings have distinct hex encodings |
| Token.SplitWithoutSeparator | server/components/token.js:49 | `split` of a text without the separator is the one-element list of that text |
| Token.SplitJoined | server/components/token.js:49 | splitting `a:b` where `a` has no ':' gives `a` followed by the parts of `b` |
| Token.CreateHash | server/components/token.js:12-28 | fails exactly when scrypt fails; otherwise 161 characters: 32 hex salt, ':', 128 hex key |
| Token.VerifyAgainstCreatedHash | server/components/token.js:45-62 | verifying against a created hash compares the input's derived key with the token's, under the same salt |
| Token.VerifyCreateHash | server/components/token.js:45-62 | a token always verifies against its own hash (round trip) |
| Token.GenerateToken | server/components/token.js:30-36 | the token is 64 hex digits and verifies against the returned hash; fails exactly when scrypt fails |
| Token.GenerateTokenByToken | server/components/token.js:38-43 | returns the given token with a hash it verifies against |
| Token.ExpiryText | server/components/token.js:70 | the expiry text never contains ':' |
| Token.ExpiryTextOfDecimal | server/components/token.js:70 | for decimal hours the expiry is now in seconds plus hours times 3600 |
| Token.GenerateTurnCredentials | server/components/token.js:64-84 | undefined exactly when the secret or the validity is falsy; the username ends with ':' and the name; the password is base64 of HMAC-SHA1(secret, username) |
| Token.UsernameOfDecimalHours | server/components/token.js:70-71 | with decimal hours the username is `<now/1000 + hours*3600>:<name>` |
| Token.UsernameCarriesExpiry | server/components/token.js:70-71 | parsing the username's first field gives back the expiry time |
| Token.PasswordDependsOnUsername | server/components/token.js:73-78 | equal usernames under the same secret give identical credentials |
| Token.GenerateICEServerInfo | server/components/token.js:86-95 | undefined exactly when credentials are; otherwise carries the STUN/TURN URLs and a username naming the hex of the 8 random bytes |
| Token.AsWiredNoIceServerInfo | server/components/token.js:2-7 | with the secret taken from an export Environment.js does not provide, no ICE server information is ever produced |
| ToolsToken.CredentialsIssuedIff | tools/token.js:4-57 | the tool issues credentials exactly outside development with TURN_SECRET and the validity both non-empty |
| ToolsToken.CredentialsSignedWithSecret | tools/token.js:53-73 | issued credentials are signed with the environment's TURN_SECRET and name the given user |
| Handlers.Appended | server/components/MessageHandlerServer.js:9-16 | registering adds the handler at the end of the name's list (creating it), other lists unchanged |
| Handlers.AppendedAllList | server/components/MessageHandlerServer.js:8-23 | after registering for a list of names, each name's list gains the handler once per occurrence of the name |
| Handlers.AppendedAllUntouched | server/components/MessageHandlerServer.js:8-23 | a name not in the list keeps its handlers and its presence |
| Handlers.AppendedAllKeys | server/components/MessageHandlerServer.js:8-23 | the registered names become the old names plus the listed ones |
| Handlers.AppendedAllKeepsEarlier | server/components/MessageHandlerServer.js:9-16 | earlier handlers stay, in order, as a prefix |
| Handlers.NoDeduplication | server/components/MessageHandlerServer.js:9-16 | registering the same handler twice lists it twice |
| Handlers.MessageHandlerServer.constructor | server/components/MessageHandlerServer.js:4-6 | starts with no handlers |
| Handlers.MessageHandlerServer.On | server/components/MessageHandlerServer.js:8-23 | one name or an array of names, registered in order, as Appended/AppendedAll |
| Handlers.MessageHandlerServer.SetHandler | server/components/MessageHandlerServer.js:9-16 | the registry becomes Appended of the old one |
| Sweeper.Removed | server/components/StartKeySweeper.js:15-33 | a key is removed exactly when it is unused and at least 5 minutes old |
| Sweeper.Swept | server/components/StartKeySweeper.js:15-33 | removed keys go; used keys are stamped with the current time; the other survivors keep their stamp and are younger than the timeout |
| Sweeper.UsedKeySurvives | server/components/StartKeySweeper.js:17-21 | a key in use is never removed and its stamp is refreshed |
| Sweeper.SweepIdempotent | server/components/StartKeySweeper.js:15-33 | a second sweep at the same time changes nothing |
| Sweeper.RecentKeySurvives | server/components/StartKeySweeper.js:23-26 | a key set less than 5 minutes ago survives |
| Sweeper.IdleKeyExpiresAtTtl | server/components/StartKeySweeper.js:23-30 | an unused key survives at 5 minutes minus 1 ms and is removed at exactly 5 minutes |
| Sweeper.StartKeySweeper.constructor | server/components/StartKeySweeper.js:9-10 | starts with no keys |
| Sweeper.StartKeySweeper.SetStartKey | server/components/StartKeySweeper.js:40-42 | stamps the key with the current time |
| Sweeper.StartKeySweeper.Sweep | server/components/StartKeySweeper.js:12-37 | the map becomes Swept of the old map and the removed keys are Removed |
| Remote.LoadSettings | server/components/RemoteServer.js:5-9 | ping interval 3000 ms; defaults 1000 clients, 1 MiB buffer, 10 s timeout when unset |
| Remote.TimeoutInSeconds | server/components/RemoteServer.js:8 | PRIMARY_TIMEOUT_SEC is read in seconds and scaled to milliseconds |
| Remote.Decide | server/components/RemoteServer.js:25-49 | refused for the rate limit exactly when `max - 1 <= connected`; otherwise refused exactly for a missing or unknown start key; an admitted client carries its key, id, and isPrimary exactly when the query says "true" |
| Remote.PrimaryOnlyForTrue | server/components/RemoteServer.js:48 | any isPrimary text other than "true" admits a non-primary peer |
| Remote.WithPeer | server/components/RemoteServer.js:51-52 | registers the socket under the peer id, replacing an older one, leaving other peers and rooms alone |
| Remote.WithoutPeer | server/components/RemoteServer.js:54-57 | removes exactly that peer id from its room |
| Remote.WithRoom | server/components/RemoteServer.js:78-82 | adds an empty room only when the key is absent; an existing room is kept |
| Remote.WithRoomIdempotent | server/components/RemoteServer.js:78-82 | setting a key twice equals setting it once |
| Remote.StaleDisconnectRemovesSuccessor | server/components/RemoteServer.js:51-57 | when a peer reconnects under the same id, the old socket's disconnect removes the new socket's entry |
| Remote.RemoteServer.constructor | server/components/RemoteServer.js:13-23 | starts with no rooms |
| Remote.RemoteServer.Admit | server/components/RemoteServer.js:25-68 | answers Decide; an admitted socket is registered with WithPeer, a refusal changes nothing |
| Remote.RemoteServer.Disconnect | server/components/RemoteServer.js:54-57 | rooms become WithoutPeer |
| Remote.RemoteServer.OnConnection | server/components/RemoteServer.js:70-75 | sends exactly one iceServerInfo message |
| Remote.RemoteServer.SetStartKeyIfAbsent | server/components/RemoteServer.js:78-82 | rooms become WithRoom |
| Remote.RemoteServer.Send | server/components/RemoteServer.js:84-96 | emits to the target peer only when its room and socket exist and it is connected; nothing else changes |
| Local.DecideUpgrade | server/components/LocalServer.js:18-38 | only /signaling is handled; it upgrades exactly for a registered start key and refuses otherwise |
| Local.LocalServer.constructor | server/components/LocalServer.js:11-16 | starts with no controllers |
| Local.LocalServer.Connect | server/components/LocalServer.js:40-83 | an unknown key closes the socket and changes nothing; a known key maps to the socket, which receives a ping (if open) and then iceServerInfo, with the ping timer armed |
| Local.LocalServer.SetStartKey | server/components/LocalServer.js:86-88 | maps the key to a placeholder (replacing any controller) |
| Local.LocalServer.Send | server/components/LocalServer.js:90-105 | sends only to an open controller socket under the key; nothing else changes |
| Local.ControllerConnection.constructor | server/components/LocalServer.js:54 | no ping timer yet |
| Local.ControllerConnection.DoPing | server/components/LocalServer.js:55-66 | pings when open and arms the next ping |
| Local.ControllerConnection.OnPingTimer | server/components/LocalServer.js:62-65 | pings only while the timer is armed and the socket open |
| Local.ControllerConnection.OnClose | server/components/LocalServer.js:74-76 | clears the ping timer |
| ServerApp.AuthorizeAcceptsOwnToken | server/app.js:40-52 | `bearer <token>` is accepted against the token's own hash |
| ServerApp.AuthorizeRejectsCapitalScheme | server/app.js:42-45 | the scheme must be exactly lower-case "bearer" |
| ServerApp.AuthorizeRejectsMissingHeader | server/app.js:42-46 | a request without an authorization header is rejected |
| ServerApp.GenerateKey | server/app.js:35-38 | a start key is 32 hex digits |
| ServerApp.RouteControllerMessage | server/app.js:90-106 | exactly pong is swallowed; any other message goes to the peer it names |
| ServerApp.IceInfoAlwaysUndefined | server/app.js:108-113 | as wired, the ICE information sent to every client is undefined |
| ServerApp.Load | server/app.js:125-174 | loading completes exactly when every top-level call names a RemoteServer method; otherwise it stops at the first call that does not, all earlier ones being defined |
| ServerApp.AsWrittenLoadThrows | server/app.js:125 | as written, loading throws a TypeError at the `onconnection` call |
| ServerApp.WiringRegistersRelays | server/app.js:151-174 | without that call, loading registers the offer/canOffer relay and the disconnect notice, and nothing else |
| ServerApp.SignalingApp.constructor | server/app.js:29-31 | empty controller map and rooms |
| ServerApp.SignalingApp.GenerateKeyRequest | server/app.js:40-60 | issues a key exactly on Accept (registering it with both servers); a Reject answers 401 with `Bearer realm=""`; otherwise nothing changes |
| ServerApp.SignalingApp.OnControllerMessage | server/app.js:90-106 | pong changes nothing; other messages reach the named peer when it is connected, and leave a stored peer that is not connected unchanged; no connected flag changes |
| ServerApp.SignalingApp.OnPeerMessage | server/app.js:151-159 | offer and canOffer reach the open controller and leave a stored controller that is not open unchanged; other events change nothing; no open flag changes |
| ServerApp.SignalingApp.OnPeerDisconnect | server/app.js:161-174 | removes the peer and sends the controller a close notice with the peer's id and isPrimary |
| LegacyApp.TimeoutMillis | app.js:13 | defaults to 10000 ms when PRIMARY_TIMEOUT_SEC is unset |
| LegacyApp.TimeoutInSeconds | app.js:13 | a decimal PRIMARY_TIMEOUT_SEC is scaled to milliseconds |
| LegacyApp.StartedAsWritten | app.js:70-75 | start arms a new ping chain and records only it, keeping older chains running |
| LegacyApp.Started | app.js:70-75 | the corrected start cancels the recorded chain before arming the new one |
| LegacyApp.PongConsumed | app.js:77-82 | a pong (re)arms the close timeout and leaves the ping chains alone |
| LegacyApp.Stopped | app.js:84-86 | stop cancels the close timeout and the recorded chain |
| LegacyApp.NoStopTimerBeforePong | app.js:77-82 | without a pong the close timeout is never armed (as written and corrected) |
| LegacyApp.RunKeepsTidy | app.js:70-86 | with the corrected start, at most one ping chain is alive and it is the recorded one |
| LegacyApp.StopCancelsEverything | app.js:84-86 | with the corrected start, stop leaves no ping chain and no close timeout |
| LegacyApp.RepeatedOfferLeaksPingChain | app.js:70-75 | as written, two offers and a stop leave the first ping chain running |
| LegacyApp.RouteUpgrade | app.js:248-274 | unknown keys are refused with 401 on every path; known keys go to the controller server on /signaling and the peer server on /remote |
| LegacyApp.PeerSession.constructor | app.js:63-68 | a session records its key, id, isPrimary and socket, with no timers |
| LegacyApp.LegacyServer.constructor | app.js:20-21 | empty maps |
| LegacyApp.LegacyServer.GenerateKeyRequest | app.js:37-59 | issues a key exactly on Accept, registering a placeholder controller and an empty room |
| LegacyApp.LegacyServer.ControllerConnect | app.js:111-167 | an unknown key closes the socket; a known one registers it and sends iceServerInfo |
| LegacyApp.LegacyServer.OnControllerMessage | app.js:125-154 | only answer and canOffer are relayed, and only to the open peer socket the message's peerConnectionId names; in every other case that socket is unchanged |
| LegacyApp.LegacyServer.PeerConnect | app.js:169-246 | an unknown key closes the socket; a known one registers the peer, starts a session with no timers, and sends iceServerInfo |
| LegacyApp.LegacyServer.OnPeerMessage | app.js:202-228 | with an open controller: offer calls start as written (StartedAsWritten, which leaves any earlier ping chain running) and is relayed, canOffer is relayed, pong arms the close timeout; otherwise nothing |
| LegacyApp.LegacyServer.OnPingDue | app.js:70-75 | a live chain's tick pings the peer and re-arms through start as written (StepAsWritten), so a leaked chain keeps pinging; a cancelled chain's tick does nothing |
| LegacyApp.LegacyServer.StopSession | app.js:84-102 | timers are Stopped, the peer socket is closed with nothing sent on it, an open controller gets a close notice, and a controller that is not open is left unchanged |
| LegacyApp.LegacyServer.OnStopDue | app.js:77-82 | an armed close timeout stops the session: the peer socket is closed, an open controller gets the close notice and one that is not open is unchanged; otherwise nothing changes |
| LegacyApp.LegacyServer.OnPeerClose | app.js:230-233 | removes the peer from its room and stops the session: the close notice goes to the controller only if it is open, otherwise the controller is unchanged |
| LegacyApp.OfferOfferCloseLeaks | app.js:202-233 | through the server as written, offer, offer and a peer close leave the first ping chain pending, while the controller gets both offers and the close notice |
| ViewState.ViewStateModel.constructor | client/src/js/ViewStateModel.js:16-18 | starts in INIT |
| ViewState.ViewStateModel.SetState | client/src/js/ViewStateModel.js:56-59 | sets the state unconditionally and dispatches one change event |
| ViewState.ViewStateModel.ToInit | client/src/js/ViewStateModel.js:24-26 | exactly isInit holds afterwards; one change event |
| ViewState.ViewStateModel.ToReady | client/src/js/ViewStateModel.js:32-34 | exactly isReady holds afterwards; one change event |
| ViewState.ViewStateModel.ToLand | client/src/js/ViewStateModel.js:40-42 | exactly isLand holds afterwards; one change event |
| ViewState.ViewStateModel.ToTakeOff | client/src/js/ViewStateModel.js:48-50 | exactly isTakeOff holds afterwards; one change event |
| Retry.AssessWith | client/src/js/RTCHandler.js:159-202 | a retry resets both counters; a bad peer-connection or channel state always retries; without a retry the counters count consecutive connecting checks |
| Retry.StalledPeerConnectionCount | client/src/js/RTCHandler.js:159-168 | up to three checks of a new/connecting peer connection count up without a retry |
| Retry.StalledPeerConnectionRetriesOnFourth | client/src/js/RTCHandler.js:188-199 | the fourth consecutive new/connecting check retries and resets the counters |
| Retry.DcStuckConnectingNeverRetriesAsWritten | client/src/js/RTCHandler.js:176-182 | as written, a channel stuck in connecting on a connected peer connection never triggers a retry |
| Retry.DcStuckConnectingCount | client/src/js/RTCHandler.js:176-182 | corrected: up to three connecting-channel checks count up without a retry |
| Retry.DcStuckConnectingRetriesOnFourth | client/src/js/RTCHandler.js:188-196 | corrected: the fourth consecutive connecting-channel check retries |
| Retry.HealthyCheckResets | client/src/js/RTCHandler.js:166-182 | a connected peer connection with an open channel resets both counters and does not retry |
| RtcClient.OnCanOfferState | client/src/js/RTCHandler.js:80-102 | EMPTY starts a connection; EMPTY and SAME reset the block count; EXIST counts and gives up exactly past 10; other states change nothing |
| RtcClient.ExistAnswersCount | client/src/js/RTCHandler.js:91-98 | each EXIST answer adds one to the block count |
| RtcClient.EleventhExistGivesUp | client/src/js/RTCHandler.js:93-97 | from zero, a run of EXIST answers gives up exactly when longer than 10 |
| RtcClient.GrantRestoresBudget | client/src/js/RTCHandler.js:82-90 | after an EMPTY or SAME, only the following EXIST answers count |
| RtcClient.ExistRunFrom | client/src/js/RTCHandler.js:91-92 | EXIST answers add their number to whatever count came before |
| RtcClient.RTCHandler.constructor | client/src/js/RTCHandler.js:30-43 | counters zero, no socket, connection or timer |
| RtcClient.RTCHandler.Init | client/src/js/RTCHandler.js:45-53 | clears the check timer and all three counters |
| RtcClient.RTCHandler.StartChecking | client/src/js/RTCHandler.js:55-60 | (re)arms the check timer |
| RtcClient.RTCHandler.SetUpConnection | client/src/js/RTCHandler.js:62-69 | opens the socket to the server with no close alert suppressed |
| RtcClient.RTCHandler.CheckIfCanOffer | client/src/js/RTCHandler.js:206-215 | sends canOffer with the peer id and isPrimary over an open socket |
| RtcClient.RTCHandler.StartCreatingConnection | client/src/js/RTCHandler.js:217-221 | creates a peer connection, and a data channel only for a primary |
| RtcClient.RTCHandler.OnCanOffer | client/src/js/RTCHandler.js:80-102 | follows OnCanOfferState: starts a connection on EMPTY; on giving up alerts once, suppresses the close alert and closes the socket, sending nothing on it |
| RtcClient.RTCHandler.OnPing | client/src/js/RTCHandler.js:111-115 | answers pong over an open socket; a closed socket is unchanged and no open flag changes |
| RtcClient.RTCHandler.OnError | client/src/js/RTCHandler.js:121-126 | alerts once, suppresses the close alert, closes the socket without sending on it and returns to INIT |
| RtcClient.RTCHandler.OnClose | client/src/js/RTCHandler.js:132-137 | alerts unless suppressed and returns to INIT |
| RtcClient.RTCHandler.CheckAndTry | client/src/js/RTCHandler.js:141-204 | in INIT or without a connection, asks canOffer; otherwise counters follow AssessAsWritten (the literal 'connectiong' test) and a retry moves to READY and asks canOffer; a closed socket is unchanged and the open flag is kept; always re-arms |
| RtcClient.RTCHandler.OnVideoTrack | client/src/js/RTCHandler.js:263-273 | a video track moves the view to LAND |
| RtcClient.RTCHandler.OnDataChannelMessage | client/src/js/RTCHandler.js:290-309 | takeoff moves to TAKEOFF, land to LAND, anything else changes nothing |
| RtcClient.RTCHandler.SendJoystickCommand | client/src/js/RTCHandler.js:434-440 | a command is sent exactly when a data channel exists |
| LegacyClient.PeerPage.constructor | public/main.js:13-28 | starts in INIT with zero counters and nothing open |
| LegacyClient.PeerPage.Init | public/main.js:101-106 | INIT, timer cleared; the counters are kept |
| LegacyClient.PeerPage.Ready | public/main.js:117-121 | READY and the check timer armed |
| LegacyClient.PeerPage.Land | public/main.js:132-135 | LAND |
| LegacyClient.PeerPage.TakeOff | public/main.js:146-149 | TAKEOFF |
| LegacyClient.PeerPage.StartClick | public/main.js:83-88 | acts exactly in INIT: READY, checking, socket opened |
| LegacyClient.PeerPage.CheckIfCanOffer | public/main.js:387-395 | sends canOffer with the peer id only |
| LegacyClient.PeerPage.OnIceServerInfo | public/main.js:409-412 | ICE information triggers a canOffer request over an open socket; a closed socket is unchanged and the open flag is kept |
| LegacyClient.PeerPage.OnCanOffer | public/main.js:413-420 | a grant starts a connection with a data channel; a refusal changes nothing |
| LegacyClient.PeerPage.OnError | public/main.js:431-436 | alerts once, suppresses the close alert, returns to INIT and closes the socket without sending on it |
| LegacyClient.PeerPage.OnClose | public/main.js:442-447 | alerts unless suppressed and returns to INIT |
| LegacyClient.PeerPage.CheckAndTry | public/main.js:456-504 | in INIT, or without a connection or channel, asks canOffer; otherwise counters follow AssessAsWritten (the literal 'connectiong' test) and a retry only shows the READY view (the state is unchanged) and asks canOffer; a closed socket is unchanged and the open flag is kept |
| LegacyClient.PeerPage.OnDataChannelMessage | public/main.js:323-343 | takeoff moves to TAKEOFF, land to LAND, anything else changes nothing |
| LegacyClient.PeerPage.SendJoystickCommand | public/main.js:544-550 | a command is sent exactly when a data channel exists |
| Polling.AfterObserveFailure | client/src/js/SocketHandler.js:62-80 | a closed handler ignores a failure; otherwise the count goes up and a retry is armed, and the failure after five resets the count and disconnects |
| Polling.FailuresCounted | client/src/js/SocketHandler.js:67-79 | up to five consecutive failures are counted without disconnecting |
| Polling.SixthFailureDisconnects | client/src/js/SocketHandler.js:71-75 | the fifth failure still retries; the sixth disconnects |
| Polling.ClosedIgnoresFailures | client/src/js/SocketHandler.js:63-65 | failures after closing never disconnect or count |
| Polling.SocketHandler.constructor | client/src/js/SocketHandler.js:14-20 | open, no session key, nothing sent or dispatched |
| Polling.SocketHandler.Connect | client/src/js/SocketHandler.js:22-114 | marks closed, resets the failure count and requests startObserving with the key and query |
| Polling.SocketHandler.DispatchIfOpen | client/src/js/SocketHandler.js:167-173 | dispatches exactly while open |
| Polling.SocketHandler.DoDisconnect | client/src/js/SocketHandler.js:160-165 | marks closed and dispatches disconnect with the reason |
| Polling.SocketHandler.Observe | client/src/js/SocketHandler.js:28-40 | posts observe only while open |
| Polling.SocketHandler.OnStartObservingOk | client/src/js/SocketHandler.js:98-105 | stores the session key, opens, dispatches connect and observes |
| Polling.SocketHandler.OnStartObservingError | client/src/js/SocketHandler.js:107-111 | dispatches connect_error only |
| Polling.SocketHandler.OnObserveOk | client/src/js/SocketHandler.js:41-60 | resets the failure count; while open dispatches every received event in order and observes again |
| Polling.SocketHandler.OnObserveError | client/src/js/SocketHandler.js:62-80 | follows AfterObserveFailure, dispatching disconnect when it says so |
| Polling.SocketHandler.OnRetryDue | client/src/js/SocketHandler.js:77-79 | an armed retry observes again while open |
| Polling.SocketHandler.Send | client/src/js/SocketHandler.js:117-131 | posts only with a non-empty session key |
| Polling.SocketHandler.OnSendError | client/src/js/SocketHandler.js:137-144 | disconnects unless already closed |
| Polling.SocketHandler.Close | client/src/js/SocketHandler.js:151-153 | disconnects with reason "client disconnect", keeping the session key, failure count and retry flag |
| Polling.SocketHandler.Reset | client/src/js/SocketHandler.js:155-158 | replaces the query and disconnects with reason "client reset", keeping the session key, failure count and retry flag |
| Cleaner.MinutesExpiresIn | function/cleaner/index.js:16-26 | one minute exactly for the three event collections, five for the others |
| Cleaner.Cutoff | function/cleaner/index.js:25-27 | the clock reading moved back by the retention in milliseconds |
| Cleaner.Matching | function/cleaner/index.js:28 | exactly the documents with a numeric timestamp at or before the cutoff |
| Cleaner.Purged | function/cleaner/index.js:35-55 | exactly the selected documents are gone, the rest keep their values, and nothing selectable remains |
| Cleaner.PurgedIdempotent | function/cleaner/index.js:35-55 | cleaning again with the same cutoff removes nothing more |
| Cleaner.NewerSurvive | function/cleaner/index.js:28 | a document newer than the cutoff, or without a numeric timestamp, is kept unchanged |
| Cleaner.PickBatch | function/cleaner/index.js:28 | `limit(n)` returns n selected documents, or all of them when fewer |
| Cleaner.CleanedAllKeys | function/cleaner/index.js:63-65 | cleaning creates or drops no collection |
| Cleaner.CleanedAllUntouched | function/cleaner/index.js:63-65 | a collection not in the list is left exactly as it was |
| Cleaner.DocumentStore.DeleteCollection | function/cleaner/index.js:22-55 | with a positive batch size the collection becomes Purged; with any size only selected documents are deleted and other collections are untouched |
| Cleaner.DocumentStore.DeleteBatches | function/cleaner/index.js:35-55 | only selected documents are deleted, every other collection is untouched, and with a positive batch size the rounds end with the collection Purged |
| Cleaner.DocumentStore.Cleanup | function/cleaner/index.js:57-66 | the ten collections are cleaned in order, each with its own clock reading and batch size 100 |

## Left out

- Network, HTTP and WebSocket I/O are not modelled. A socket is its open flag and the list of
  messages sent on it. JSON encoding and `JSON.parse` failures are not modelled either: messages
  are records.
- Crypto, randomness and the clock are not modelled: scrypt, HMAC-SHA1, base64,
  `crypto.randomBytes` and `Date.now` are parameters.
- Time does not pass in the model. Timers are flags or ids that are armed and cleared, and their
  callbacks are separate methods or events.
- RemoteServer's connected-socket count (`io.sockets.size`) is a parameter. Building the
  rate-limit message reads `io.socket.size` (RemoteServer.js:28), and `io.socket` is not a
  property of a socket.io server, so that line throws inside the middleware. The model treats
  this branch as the refusal the code intends: the connection is turned away.
- `startKey.slice(0, 5)` on a missing start key throws (RemoteServer.js:38, LocalServer.js:46,
  server/app.js:68). The model treats those cases as the refusal the code intends.
- server/app.js:125 calls `remoteServer.onconnection`, which neither RemoteServer nor
  MessageHandlerServer defines. As written, loading server/app.js therefore throws a TypeError
  after `app.listen` (server/app.js:25), nothing catches it, and the newer server exits at
  start-up: none of server/app.js:125-174 ever runs (see "## Findings").
  - The ServerApp.SignalingApp methods model the intended wiring (ServerApp.Wiring): the
    iceServerInfo send comes from RemoteServer's own connection listener, and the later
    `remoteServer.on(...)` registrations take effect.
  - RemoteServer registers event listeners on a socket only for names registered before it was
    admitted; the model does not track that registration order.
- Sweeper.StartKeySweeper.Sweep takes the "key in use" test as a parameter.
  - LocalServer and RemoteServer define neither `isStartKeyUsed` nor `remove`.
  - The removal from the servers' maps is not modelled.
  - No file in this model constructs the sweeper.
- The legacy server's `parseFloat` of the peer id is not modelled: the id arrives as an
  already-converted `PeerId`.
- LegacyApp.TimeoutMillis converts only plain decimal numerals. `PRIMARY_TIMEOUT_SEC * 1000`
  applies JavaScript's number conversion, which also accepts surrounding whitespace, fractions,
  exponents and hex (" 5" gives 5000, "1.5" gives 1500, "0x10" gives 16000); the model gives NaN
  for those texts.
- Token.ExpiryText converts only plain decimal numerals. Other texts, which JavaScript's number
  conversion accepts (hex, exponents, fractions, whitespace), become NaN in the model.
- Browser UI is left out:
  - the DOM, view text and video sizing;
  - the joystick coordinate timers;
  - WebRTC negotiation and ICE gathering.
  The peer connection and data channel are presence flags. RtcClient.RTCHandler.SendJoystickCommand
  and LegacyClient.PeerPage.SendJoystickCommand state only whether a command goes out.
- A send on a browser socket that is still connecting throws in JavaScript. The model treats it
  like a send on a closed socket: nothing goes out.
- Firestore is replaced by an in-memory map.
  - Concurrency, failures of later batches (which the code does not catch), and `process.nextTick`
    are not modelled.
  - `limit(n)` may pick any n selected documents; Firestore's ordering is not modelled.
  - The cutoff subtracts a fixed number of milliseconds, so daylight-saving shifts in
    `setMinutes` are not modelled.
- Polling.SocketHandler.Connect models one observe loop per handler. In the code each
  `connect()` call has its own loop, with its own failure count, retry timer and session key,
  and `reset()`/`close()` clear none of them. A retry still pending from an earlier `connect()`
  is dropped by Connect, and an answer to an earlier loop's observe is handled as the current
  loop's. So the model does not capture an old loop resuming with the old session key.
- Logging and `dotenv` loading are not modelled.
- ViewState.ViewStateModel.SetState counts change events; the event bus and its listeners are
  not modelled.

## Findings

| source | as written | input that shows it | evidently intended | confidence | as-written member | corrected member |
|---|---|---|---|---|---|---|
| client/src/js/RTCHandler.js:177 | the data-channel check tests `dc.connectionState === 'connectiong'`; data channels have no `connectionState`, and the text is misspelt (the same test is at public/main.js:479) | a connected peer connection whose data channel stays in `readyState` 'connecting' for any number of checks | count the checks where `dc.readyState === 'connecting'` and retry after three | high (not executed) | Retry.DcStuckConnectingNeverRetriesAsWritten | Retry.DcStuckConnectingRetriesOnFourth |
| server/app.js:125 | `remoteServer.onconnection(...)` calls a method that RemoteServer does not define; the TypeError is thrown while the module loads, after `app.listen`, and is not caught | starting the newer server | drop the call (RemoteServer.js:70-75 already sends iceServerInfo on every connection), so the relay registrations at server/app.js:151-174 take effect | high (not executed) | ServerApp.AsWrittenLoadThrows | ServerApp.WiringRegistersRelays |
| app.js:70-75 | `start()` overwrites `this.timer` on each offer; the earlier self-rescheduling ping chain keeps running and `stop()` (app.js:84-86) cannot cancel it | a peer sends offer twice, then its socket closes: events Start, Start, Stop | clear the previous timer before arming a new one, so stop cancels every ping chain | high (not executed) | LegacyApp.RepeatedOfferLeaksPingChain | LegacyApp.StopCancelsEverything |
