/** The device's signalling and control logic (jetson/test.py) as
    transitions on one value, `DeviceState`: the answer guard, renegotiation,
    the log of control messages and the control-token decoder.  The class in
    `DeviceComponent` performs the same steps on module-level state. */
module DeviceLogic {
  import opened Signaling

  /** What `procesar_mensaje` makes of a control message. */
  datatype Command =
    | PanRight | PanLeft | TiltUp | TiltDown | ZoomIn | ZoomOut
    | PowerOn | Mode1 | Mode2 | Mode3
    | Unrecognised(text: string)

  /** The ten tokens the decoder has a case for. */
  const Recognised: set<string> := {"x_R", "x_L", "y_R", "y_L", "z_R", "z_L", "turn on", "1", "2", "3"}

  /** The token each command is decoded from. */
  function Token(c: Command): string
  {
    match c
    case PanRight => "x_R"
    case PanLeft => "x_L"
    case TiltUp => "y_R"
    case TiltDown => "y_L"
    case ZoomIn => "z_R"
    case ZoomOut => "z_L"
    case PowerOn => "turn on"
    case Mode1 => "1"
    case Mode2 => "2"
    case Mode3 => "3"
    case Unrecognised(text) => text
  }

  /** `procesar_mensaje`: exactly the ten recognised tokens select a case;
      every other message, "turn off" among them, takes the default case. */
  function Decode(msg: string): (c: Command)
    ensures Token(c) == msg
    ensures c.Unrecognised? <==> msg !in Recognised
  {
    if msg == "x_R" then PanRight
    else if msg == "x_L" then PanLeft
    else if msg == "y_R" then TiltUp
    else if msg == "y_L" then TiltDown
    else if msg == "z_R" then ZoomIn
    else if msg == "z_L" then ZoomOut
    else if msg == "turn on" then PowerOn
    else if msg == "1" then Mode1
    else if msg == "2" then Mode2
    else if msg == "3" then Mode3
    else Unrecognised(msg)
  }

  /** Decoding the token of a command gives the command back, for every
      command the decoder can produce. */
  lemma DecodeToken(c: Command)
    requires c.Unrecognised? ==> c.text !in Recognised
    ensures Decode(Token(c)) == c
  {
  }

  /** "turn off" is not one of the decoder's cases. */
  lemma TurnOffUnrecognised()
    ensures Decode("turn off") == Unrecognised("turn off")
    ensures "turn off" !in Recognised
  {
  }

  // ---------------------------------------------------------------------
  // Device state

  datatype DeviceState = DeviceState(
    pc: Option<Peer>,                 // the global `pc`
    controlChannel: Option<Channel>,  // the global `control_channel`
    outbox: seq<Event>,               // events emitted on the signalling socket
    received: seq<string>)            // the global `received_messages`

  /** The module-level globals when the script starts. */
  const Boot: DeviceState := DeviceState(None, None, [], [])

  /** The data channel `createPeerConnection` creates on every new peer. */
  const ControlChannel: Channel := Channel("control", Connecting)

  /** Python's `"m=" in sdp`: the SDP text has a media section line. */
  function HasMediaSection(sdp: string): (r: bool)
    ensures r <==> exists i :: 0 <= i < |sdp| - 1 && sdp[i] == 'm' && sdp[i + 1] == '='
    decreases |sdp|
  {
    if |sdp| < 2 then false
    else if sdp[0] == 'm' && sdp[1] == '=' then true
    else
      var r := HasMediaSection(sdp[1..]);
      assert forall i :: 0 < i < |sdp| - 1 ==> sdp[i] == sdp[1..][i - 1];
      r
  }

  /** The first guard of `on_answer`: an "sdp" entry that is present,
      non-empty and has a media section. */
  predicate WellFormedAnswer(data: map<string, string>)
  {
    "sdp" in data && data["sdp"] != "" && HasMediaSection(data["sdp"])
  }

  /** The second guard of `on_answer`: a peer waiting for an answer. */
  predicate AwaitsAnswer(pc: Option<Peer>)
  {
    pc.Some? && pc.value.signalingState == HaveLocalOffer
  }

  /** `on_answer`: a well-formed answer is applied to a peer that awaits one
      and the peer becomes "stable"; a malformed answer, a peer in any other
      state, or a payload with no "type" (the lookup raises before anything
      is set) leaves the device as it was. */
  function OnAnswer(s: DeviceState, data: map<string, string>): (t: DeviceState)
    ensures WellFormedAnswer(data) && AwaitsAnswer(s.pc) && "type" in data ==>
      t.pc.Some? && t.pc.value.remoteSdp == Some(data["sdp"]) && t.pc.value.signalingState == Stable &&
      t.pc.value.(remoteSdp := s.pc.value.remoteSdp, signalingState := HaveLocalOffer) == s.pc.value
    ensures !(WellFormedAnswer(data) && AwaitsAnswer(s.pc) && "type" in data) ==> t == s
    ensures t.(pc := s.pc) == s
  {
    if !WellFormedAnswer(data) then s
    else if AwaitsAnswer(s.pc) then
      if "type" in data then
        s.(pc := Some(s.pc.value.(remoteSdp := Some(data["sdp"]), signalingState := Stable)))
      else s
    else s
  }

  /** `on_renegotiate`: a fresh peer (with a fresh control channel) when there
      is no peer or it is closed, otherwise an ICE restart on the same peer;
      then the new offer becomes the local description and is sent to the
      room, marked as coming from the device. */
  function OnRenegotiate(s: DeviceState, offerSdp: string): (t: DeviceState)
    ensures var recreate := s.pc.None? || s.pc.value.signalingState.Closed?;
      && t.pc.Some?
      && t.pc.value.localSdp == Some(offerSdp)
      && t.pc.value.signalingState == HaveLocalOffer
      && (recreate ==> t.pc.value.(localSdp := None, signalingState := Stable) == NewPeer()
                       && t.controlChannel == Some(ControlChannel))
      && (!recreate ==> t.pc.value.(localSdp := s.pc.value.localSdp,
                                    signalingState := s.pc.value.signalingState,
                                    iceRestarts := s.pc.value.iceRestarts) == s.pc.value
                        && t.pc.value.iceRestarts == s.pc.value.iceRestarts + 1
                        && t.controlChannel == s.controlChannel)
      && t.outbox == s.outbox + [Offer(offerSdp, Room, true)]
      && t.received == s.received
  {
    var recreate := s.pc.None? || s.pc.value.signalingState.Closed?;
    var p := if recreate then NewPeer() else s.pc.value.(iceRestarts := s.pc.value.iceRestarts + 1);
    var ch := if recreate then Some(ControlChannel) else s.controlChannel;
    s.(pc := Some(p.(localSdp := Some(offerSdp), signalingState := HaveLocalOffer)),
       controlChannel := ch,
       outbox := s.outbox + [Offer(offerSdp, Room, true)])
  }

  /** A renegotiation always leaves the device ready for the answer. */
  lemma RenegotiateThenAnswer(s: DeviceState, offerSdp: string, data: map<string, string>)
    requires WellFormedAnswer(data) && "type" in data
    ensures var t := OnAnswer(OnRenegotiate(s, offerSdp), data);
      t.pc.Some? && t.pc.value.signalingState == Stable &&
      t.pc.value.localSdp == Some(offerSdp) && t.pc.value.remoteSdp == Some(data["sdp"])
  {
  }

  /** `on_control_message`: the message is appended to the log. */
  function ReceiveMessage(s: DeviceState, msg: string): (t: DeviceState)
    ensures t.received == s.received + [msg]
    ensures t.(received := s.received) == s
  {
    s.(received := s.received + [msg])
  }

  // ---------------------------------------------------------------------
  // Runs of events

  datatype DeviceEvent =
    | AnswerArrives(data: map<string, string>)
    | RenegotiateRequested(offerSdp: string)
    | MessageArrives(msg: string)

  function Step(s: DeviceState, e: DeviceEvent): DeviceState
  {
    match e
    case AnswerArrives(data) => OnAnswer(s, data)
    case RenegotiateRequested(offerSdp) => OnRenegotiate(s, offerSdp)
    case MessageArrives(msg) => ReceiveMessage(s, msg)
  }

  function Run(s: DeviceState, events: seq<DeviceEvent>): DeviceState
    decreases |events|
  {
    if events == [] then s else Run(Step(s, events[0]), events[1..])
  }

  /** The control messages among the events, in arrival order. */
  function Messages(events: seq<DeviceEvent>): (m: seq<string>)
    ensures |m| <= |events|
    decreases |events|
  {
    if events == [] then []
    else if events[0].MessageArrives? then [events[0].msg] + Messages(events[1..])
    else Messages(events[1..])
  }

  /** The log only grows, and grows by exactly the control messages in the
      order they arrived, whatever signalling happens in between. */
  lemma {:induction false} ReceivedIsArrivalOrder(s: DeviceState, events: seq<DeviceEvent>)
    ensures Run(s, events).received == s.received + Messages(events)
    decreases |events|
  {
    if events != [] {
      ReceivedIsArrivalOrder(Step(s, events[0]), events[1..]);
      if events[0].MessageArrives? {
        assert s.received + [events[0].msg] + Messages(events[1..])
            == s.received + ([events[0].msg] + Messages(events[1..]));
      }
    }
  }
}
