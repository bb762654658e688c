# Viewer and device session logic of the camera stream, in Dafny

The system streams a camera mounted on a remote device (a Jetson) to a browser
viewer. The two sides meet through a socket.io signalling relay. The viewer
(the React component `WebRTCComponent`) joins a room. It answers the device's
offers, exchanges network candidates, and sends camera commands (pan, zoom,
power, mode) over a data channel named "control". The device script (the Python
`test.py`, built on aiortc) accepts answers and handles renegotiation requests.
It also logs and decodes the control tokens it receives.

This project models the session and command logic of both sides. The browser's
and aiortc's peer connection, the socket, the data channel and the video element
are treated as plain data:

- a peer connection is a `Peer` value: its local and remote SDP, its
  signalling state, the remote candidates applied to it, and its ICE restarts;
- the socket is an outbox of emitted `Event`s plus the listeners registered on
  it;
- the data channel is an optional `Channel` with a `readyState`;
- the video element is a `hasStream` flag;
- what the data channel actually transmitted is a sequence of strings.

Files and modules:

- `signaling.dfy` (`Signaling`): the shared values. These are the peer, the
  signalling states named after the JSEP state machine (section 3.2 of
  RFC 8829), the data channel, the relay events and the room name.
- `viewer_logic.dfy` (`ViewerLogic`): the viewer as pure transitions on a
  `Session` value. Each handler is one step.
  - Each call to `initPeerConnection` creates its own closure-local candidate
    queue. It also registers one "offer" listener and one "candidate" listener
    without removing the earlier ones. So `Session.queues` holds one queue per
    registered listener pair, oldest first.
  - A socket event reaches every listener that was registered when the event
    arrived, in registration order.
- `viewer_component.dfy` (`ViewerComponent.Viewer`): the component as an
  object whose fields are its state. It has methods that update them step by
  step, including the `while`/`shift` loop that drains a queue. Every method is
  proved to produce the `ViewerLogic` transition of its old state.
- `device_logic.dfy` (`DeviceLogic`) and `device_component.dfy`
  (`DeviceComponent.Device`): the same split for the device script's
  module-level state.
- `agreement.dfy` (`Agreement`): the tokens the viewer's buttons send, set
  against what the device decodes.

What is proved, in the system's terms:

- A control message goes out if and only if the channel exists and is
  "open". Otherwise nothing is sent and nothing fails.
- The power handlers need an attached stream. The main power button flips
  the power state and the selected button even when the channel is closed.
- A candidate event does one of three things. With no peer it is dropped.
  Before the remote description is set, it is appended to every registered
  queue. After that, it is applied once per registered listener.
- An offer is handled by the oldest offer listener only. Every later
  listener then sees its remote description and takes the duplicate branch.
  So a duplicate offer changes nothing. An offer that reaches a peer that is
  not "stable" replaces the peer first. Then the oldest queue is flushed in
  arrival order into the peer that takes the offer, and exactly one answer is
  sent. After a reinit this is the new peer, filled from the old handler's
  queue.
- Early candidates end up in the peer in arrival order. This holds for any
  number of them (`EarlyCandidatesFlushedInOrder`,
  `ConnectThenEarlyCandidates`).
- `disconnect` sends "leave", drops the peer and all listeners, detaches the
  stream and switches the power off. It keeps the selected button and the
  reference to the data channel, which closing the peer has closed. From then
  on no button sends anything until a new peer delivers a new channel.
- Every session reachable from the initial one keeps the invariant
  "connected exactly when there is a peer, listeners exactly when there is a
  peer, at most one listener pair, and the peer stable between events".
- On the device, an answer is applied only if it is well formed and the peer
  is in "have-local-offer". Renegotiation recreates the peer exactly when
  there is none or it is closed, and otherwise restarts ICE on the same peer.
  Either way it sends one offer marked as coming from the device. The log of
  received messages grows by exactly the control messages, in arrival order.
- The decoder recognises exactly ten tokens. Decoding inverts `Token`.
  "turn off", which the viewer's power button sends, is not one of the ten.

Three details of the code that the model keeps:

- `disconnect` (WebRTCComponent.jsx:186-203) does not reset `dataChannel` or
  `activeButton`. The kept channel is the one `close()` at :191 has closed.
- `handlePowerSelection` (WebRTCComponent.jsx:84-87) sends the mode number
  without checking for a stream, unlike the two power handlers.
- After a reinit (WebRTCComponent.jsx:147-151), the running offer handler
  drains its own closure's queue, not the new one, into the new peer.

## Model

| member | source | states |
|---|---|---|
| Signaling.Close | cliente/src/components/Webrtc/WebRTCComponent.jsx:149 | closing a peer puts it in the "closed" signalling state and changes nothing else |
| ViewerLogic.Transmit | cliente/src/components/Webrtc/WebRTCComponent.jsx:8-15 | with `IsOpen` meaning the channel exists and its `readyState` is "open" (:9): the message is appended to what was transmitted iff the channel exists and is "open"; otherwise the log is unchanged; nothing is ever lost |
| ViewerComponent.Viewer.SendControlMessage | cliente/src/components/Webrtc/WebRTCComponent.jsx:8-15 | the transmitted log grows by the message iff the channel is open |
| ViewerComponent.Viewer.constructor | cliente/src/components/Webrtc/WebRTCComponent.jsx:28-34 | the component mounts disconnected, with no peer, no channel, no stream, power off and no button selected |
| ViewerLogic.HandleMove | cliente/src/components/Webrtc/WebRTCComponent.jsx:37-41 | sends exactly the direction's token (up/down/left/right to y_R/y_L/x_L/x_R) iff the channel is open, and changes nothing else |
| ViewerComponent.Viewer.HandleMove | cliente/src/components/Webrtc/WebRTCComponent.jsx:37-41 | the object takes the `HandleMove` transition |
| ViewerLogic.HandleZoom | cliente/src/components/Webrtc/WebRTCComponent.jsx:44-48 | sends exactly z_R for "in" and z_L for "out" iff the channel is open, and changes nothing else |
| ViewerComponent.Viewer.HandleZoom | cliente/src/components/Webrtc/WebRTCComponent.jsx:44-48 | the object takes the `HandleZoom` transition |
| ViewerLogic.HandlePower | cliente/src/components/Webrtc/WebRTCComponent.jsx:51-62 | without a stream nothing changes; with one the command is sent iff the channel is open, and "turn on" sets the power state even when nothing was sent |
| ViewerComponent.Viewer.HandlePower | cliente/src/components/Webrtc/WebRTCComponent.jsx:51-62 | the object takes the `HandlePower` transition |
| ViewerLogic.HandleMainPower | cliente/src/components/Webrtc/WebRTCComponent.jsx:65-81 | without a stream nothing changes. From off it sends "turn on" then "1" and selects "1". From on it sends "turn off" and clears the selection. The power state flips whether or not the channel is open |
| ViewerComponent.Viewer.HandleMainPower | cliente/src/components/Webrtc/WebRTCComponent.jsx:65-81 | the object takes the `HandleMainPower` transition |
| ViewerLogic.HandlePowerSelection | cliente/src/components/Webrtc/WebRTCComponent.jsx:84-87 | always selects the button; sends its number iff the channel is open; no stream check |
| ViewerComponent.Viewer.HandlePowerSelection | cliente/src/components/Webrtc/WebRTCComponent.jsx:84-87 | the object takes the `HandlePowerSelection` transition |
| ViewerLogic.InitPeer | cliente/src/components/Webrtc/WebRTCComponent.jsx:89-99 | a fresh peer (`NewPeer`: no descriptions, "stable", no candidates) replaces the current one; one more offer and candidate listener pair with an empty queue is added; earlier listeners and queues are kept |
| ViewerComponent.Viewer.InitPeerConnection | cliente/src/components/Webrtc/WebRTCComponent.jsx:89-99 | the object takes the `InitPeer` transition |
| ViewerLogic.OnDataChannel | cliente/src/components/Webrtc/WebRTCComponent.jsx:102-107 | only a channel labelled "control" becomes the data channel; nothing else changes |
| ViewerComponent.Viewer.OnDataChannel | cliente/src/components/Webrtc/WebRTCComponent.jsx:102-107 | the object takes the `OnDataChannel` transition |
| ViewerLogic.OnChannelOpen | cliente/src/components/Webrtc/WebRTCComponent.jsx:105 | the browser opens the kept channel only while it is connecting: afterwards it is open iff it was connecting or open, keeps its label, and a closing or closed channel is left as it was; without a channel nothing becomes open |
| ViewerComponent.Viewer.OnChannelOpen | cliente/src/components/Webrtc/WebRTCComponent.jsx:105 | the object takes the `OnChannelOpen` transition |
| ViewerLogic.OnIceCandidate | cliente/src/components/Webrtc/WebRTCComponent.jsx:114-118 | a found local candidate is emitted for the room; an end-of-candidates event changes nothing |
| ViewerComponent.Viewer.OnIceCandidate | cliente/src/components/Webrtc/WebRTCComponent.jsx:114-118 | the object takes the `OnIceCandidate` transition |
| ViewerLogic.OnTrack | cliente/src/components/Webrtc/WebRTCComponent.jsx:121-133 | a track event that carries a stream attaches it; nothing else changes |
| ViewerComponent.Viewer.OnTrack | cliente/src/components/Webrtc/WebRTCComponent.jsx:121-133 | the object takes the `OnTrack` transition |
| ViewerLogic.OfferListener | cliente/src/components/Webrtc/WebRTCComponent.jsx:136-164 | no peer or a duplicate SDP: nothing changes. Otherwise a non-stable peer is closed and replaced, the kept data channel is closed with it, and a listener is added. The remote description is set. This listener's queue is appended in order to the peer's candidates and emptied. The answer becomes the local description and exactly one answer for the room is emitted |
| ViewerComponent.Viewer.OfferListener | cliente/src/components/Webrtc/WebRTCComponent.jsx:136-164 | the object takes the `OfferListener` transition; the `while`/`shift` drain loop moves the queue into the peer in order |
| ViewerLogic.OfferListeners | cliente/src/components/Webrtc/WebRTCComponent.jsx:136 | running several offer listeners never removes a listener, keeps the peer's presence, and leaves the offer as the remote description |
| ViewerLogic.DispatchOffer | cliente/src/components/Webrtc/WebRTCComponent.jsx:136 | delivering an offer to every registered listener never removes a listener |
| ViewerComponent.Viewer.EmitOffer | cliente/src/components/Webrtc/WebRTCComponent.jsx:136 | the object takes the `DispatchOffer` transition |
| ViewerLogic.OnlyOldestOfferListenerActs | cliente/src/components/Webrtc/WebRTCComponent.jsx:136-164 | with any number of registered offer listeners, an offer has exactly the effect of the oldest listener; all later ones see a duplicate |
| ViewerLogic.DuplicateOfferIgnored | cliente/src/components/Webrtc/WebRTCComponent.jsx:137-145 | an offer whose SDP equals the current remote description, or any offer while there is no peer (the handler throws and the catch at :161-163 only logs), changes nothing: no reinit, no answer, no queue touched |
| ViewerLogic.OfferEffect | cliente/src/components/Webrtc/WebRTCComponent.jsx:147-160 | a new offer emits one answer and sets the remote description. The oldest queue is flushed in order and then empty. The peer is replaced, and the old one closed, exactly when it was not stable |
| ViewerLogic.CandidateListener | cliente/src/components/Webrtc/WebRTCComponent.jsx:166-174 | without a peer the candidate is dropped; before a remote description it is appended to this listener's queue; otherwise it is applied to the peer |
| ViewerComponent.Viewer.CandidateListener | cliente/src/components/Webrtc/WebRTCComponent.jsx:166-174 | the object takes the `CandidateListener` transition |
| ViewerLogic.CandidateListeners | cliente/src/components/Webrtc/WebRTCComponent.jsx:166 | running candidate listeners keeps the number of queues, the presence of a peer and its remote description |
| ViewerLogic.DispatchCandidate | cliente/src/components/Webrtc/WebRTCComponent.jsx:166 | delivering a candidate keeps the number of registered listeners |
| ViewerComponent.Viewer.EmitCandidate | cliente/src/components/Webrtc/WebRTCComponent.jsx:166-174 | the object takes the `DispatchCandidate` transition |
| ViewerLogic.CandidateDispatch | cliente/src/components/Webrtc/WebRTCComponent.jsx:166-174 | with n listeners a candidate is dropped without a peer. Before a remote description it is appended to each of the n queues. After one it is applied n times, and nothing else changes |
| ViewerLogic.ArriveAll | cliente/src/components/Webrtc/WebRTCComponent.jsx:166-174 | a run of candidate events keeps the number of registered listeners |
| ViewerLogic.EarlyCandidatesQueued | cliente/src/components/Webrtc/WebRTCComponent.jsx:170-172 | candidates arriving before the remote description are appended, in arrival order, to every queue, and nothing else changes |
| ViewerLogic.EarlyCandidatesFlushedInOrder | cliente/src/components/Webrtc/WebRTCComponent.jsx:152-156 | after early candidates and then an offer, the peer holds the oldest queue's earlier content followed by those candidates in arrival order, the queue is empty, and one answer was sent |
| ViewerLogic.ConnectThenEarlyCandidates | cliente/src/components/Webrtc/WebRTCComponent.jsx:177-184 | from mount: connect, candidates, offer leaves the peer with exactly those candidates in order, and the relay saw "join" then one "answer" |
| ViewerLogic.Connect | cliente/src/components/Webrtc/WebRTCComponent.jsx:177-184 | a no-op when connected; otherwise a fresh peer, one more listener pair, one "join" for the room, and connected |
| ViewerComponent.Viewer.Connect | cliente/src/components/Webrtc/WebRTCComponent.jsx:177-184 | the object takes the `Connect` transition |
| ViewerLogic.Disconnect | cliente/src/components/Webrtc/WebRTCComponent.jsx:186-203 | emits "leave", closes and drops the peer, disconnects, detaches the stream, powers off and removes every offer and candidate listener. If there was a peer, the kept data channel is closed and no longer open; otherwise it is untouched. The selected button and what was sent are kept |
| ViewerComponent.Viewer.Disconnect | cliente/src/components/Webrtc/WebRTCComponent.jsx:186-203 | the object takes the `Disconnect` transition |
| ViewerLogic.DisconnectResets | cliente/src/components/Webrtc/WebRTCComponent.jsx:186-203 | after disconnect the session equals the initial one except for the relay's outbox, the retired peers, the selected button, the transmitted log, and the reference to the data channel, which is closed when a peer was closed |
| ViewerLogic.ClosedChannel | cliente/src/components/Webrtc/WebRTCComponent.jsx:191 | closing the peer (here and at :149) closes the kept channel: it keeps its label and presence, its state becomes "closed", and it is not open |
| ViewerLogic.StepKeepsSilent | cliente/src/components/Webrtc/WebRTCComponent.jsx:8-15 | with no open channel (none, or a closed one), every action except a new channel's arrival sends nothing and leaves the channel closed |
| ViewerLogic.NothingSentWhileSilent | cliente/src/components/Webrtc/WebRTCComponent.jsx:8-15 | from a closed or missing channel, any run without a new channel's arrival sends nothing |
| ViewerLogic.SilentAfterDisconnect | cliente/src/components/Webrtc/WebRTCComponent.jsx:186-203 | after disconnecting a session with a peer, no button press sends anything until a new data channel arrives |
| ViewerLogic.StepPreservesValid | cliente/src/components/Webrtc/WebRTCComponent.jsx:89-203 | every handler keeps "connected iff a peer exists iff listeners are registered", at most one listener pair, and a stable peer |
| ViewerLogic.RunPreservesValid | cliente/src/components/Webrtc/WebRTCComponent.jsx:89-203 | every run of handlers from a valid session ends in a valid session |
| ViewerLogic.ReachableSessionsValid | cliente/src/components/Webrtc/WebRTCComponent.jsx:89-203 | every session reachable from mount satisfies the invariant |
| DeviceLogic.Decode | jetson/test.py:130-153 | exactly the ten tokens x_R, x_L, y_R, y_L, z_R, z_L, "turn on", "1", "2", "3" are recognised; every other message is unrecognised; decoding loses nothing (`Token` gives the message back) |
| DeviceLogic.DecodeToken | jetson/test.py:130-153 | decoding a command's token gives the command back |
| DeviceLogic.TurnOffUnrecognised | jetson/test.py:152-153 | "turn off" takes the default case |
| DeviceLogic.HasMediaSection | jetson/test.py:82 | true iff "m=" occurs in the SDP text |
| DeviceLogic.OnAnswer | jetson/test.py:78-98 | a missing, empty or media-less SDP is ignored (`WellFormedAnswer`, test.py:82). A well-formed answer with a type is applied only to a peer in "have-local-offer" (`AwaitsAnswer`, test.py:85), which becomes "stable" with that remote SDP. In every other case nothing changes |
| DeviceComponent.Device.OnAnswer | jetson/test.py:78-98 | the object takes the `OnAnswer` transition |
| DeviceLogic.OnRenegotiate | jetson/test.py:109-128 | a fresh peer and control channel iff there is no peer or it is closed; otherwise the same peer with one more ICE restart. Either way the offer is the local description, the state is "have-local-offer", and one offer for the room marked as from the device is emitted |
| DeviceComponent.Device.OnRenegotiate | jetson/test.py:109-128 | the object takes the `OnRenegotiate` transition |
| DeviceLogic.RenegotiateThenAnswer | jetson/test.py:82-128 | after renegotiation a well-formed answer is always applied, leaving a stable peer with both descriptions |
| DeviceLogic.ReceiveMessage | jetson/test.py:155-157 | the message is appended to the received log and nothing else changes |
| DeviceComponent.Device.OnControlMessage | jetson/test.py:155-160 | appends the message to the log and returns its decoded command |
| DeviceLogic.Messages | jetson/test.py:155-157 | the control messages of a run, at most one per event |
| DeviceLogic.ReceivedIsArrivalOrder | jetson/test.py:155-157 | after any run of device events the log is the old log followed by exactly the control messages in arrival order |
| DeviceComponent.Device.CreatePeerConnection | jetson/test.py:162-175 | returns a fresh peer (`NewPeer`) and makes a new "control" channel the global one |
| DeviceComponent.Device.constructor | jetson/test.py:24-28 | the script starts with no peer, no channel and an empty log |
| Agreement.MovesAndZoomsDecoded | cliente/src/components/Webrtc/WebRTCComponent.jsx:38-45 | each movement and zoom button's token decodes on the device to the matching pan, tilt or zoom command |
| Agreement.Decoded | jetson/test.py:130-153 | decodes a log message by message |
| Agreement.MainPowerAsDecoded | cliente/src/components/Webrtc/WebRTCComponent.jsx:66-77 | over an open channel, switching on reaches the device as power-on then mode 1, and switching off reaches it as an unrecognised message |
| Agreement.SelectionDecoded | cliente/src/components/Webrtc/WebRTCComponent.jsx:84-87 | over an open channel, the buttons "1", "2", "3" reach the device as modes 1, 2, 3 |

## Left out

- Transport internals are not modelled: ICE, STUN/TURN, SDP contents, DTLS/SRTP, and the internals of the browser and aiortc peer connections. `setRemoteDescription`, `addIceCandidate`, `createAnswer`, `createOffer`, `setLocalDescription` and `restartIce` are taken to succeed. The SDP that `createAnswer` or `createOffer` produces is a parameter.
- The `try`/`catch` around the offer handler (WebRTCComponent.jsx:161-163) appears only as "nothing changes". That covers a missing peer, which throws before any state changes. The `AttributeError` handling in `on_answer` (test.py:92-96) is likewise "nothing changes". The `type` value of a session description is not checked.
- Interleaving at `await` points is not modelled: each handler is one atomic step, and so is the un-awaited `addIceCandidate` (WebRTCComponent.jsx:169). In the browser, an offer listener suspends at its first `await`. A later listener registered for the same event may then run before the first listener's remote description is set. `ViewerLogic.OnlyOldestOfferListenerActs` therefore holds for atomic handlers only.
- Only the socket's outbox and its registered listeners are modelled. The socket.io transport, reconnection settings and `connect_error` logging are not (WebRTCComponent.jsx:17-25; test.py:17-39, 177-207). Delivery to listeners follows the emitter's rule: every listener registered when the event arrives runs, in registration order.
- The candidate payload is kept as one value. Its `sdpMid` and `sdpMLineIndex` parts and `RTCIceCandidate` construction are not modelled.
- The browser moves a data channel's `readyState` through its states. The model has only the channel's opening (`OnChannelOpen`), its closing together with its peer (`ClosedChannel`), and the state a channel has when it arrives. A channel closed by the remote side is not modelled.
- Reachable states: with atomic handlers and every negotiation step succeeding, every session reachable from mount has at most one listener pair and a stable peer (`ViewerLogic.ReachableSessionsValid`). In the program, a non-stable peer and a second listener pair arise only when a step fails inside the `try` after `setRemoteDescription` (WebRTCComponent.jsx:152-158 leaves "have-remote-offer"), or when a second offer interleaves at an `await`. The model has neither. So the reinit branch of `OfferListener` and `OfferEffect`, `OnlyOldestOfferListenerActs` for more than one listener, and `CandidateDispatch` for more than one listener are proved for any session, but no run of the model reaches those cases.
- ViewerLogic.HandleMove: requires a direction among "up", "down", "left", "right". The render tree passes only these names. For any other name a plain JavaScript object lookup would give `undefined` or an inherited property, which is not modelled.
- ViewerLogic.HandleZoom: requires "in" or "out", for the same reason.
- Not modelled: the camera (`VideoTrack`, frame capture, colour conversion, timestamps; test.py:41-75), the device's `main` loop, `on_candidate` (test.py:100-106) and the viewer's render tree, styling, `video.play()` and `useEffect` cleanup. None of these is part of the session and command logic. All `console.log` and `print` output is diagnostics only.
- The device adds a video track to each new peer (test.py:168). The model's peer has no track list.
- React's asynchronous state updates and stale closures are not modelled. Each handler reads the state left by the previous step.
