/** The viewer's session and command logic (the React component
    `WebRTCComponent`) as transitions on one value, `Session`.  Every socket
    event handler and every button handler is one atomic step.  The class in
    `ViewerComponent` performs the same steps imperatively and is proved
    against these functions. */
module ViewerLogic {
  import opened Signaling

  /** The state the component and its environment hold between two events. */
  datatype Session = Session(
    peer: Option<Peer>,             // peerRef.current
    queues: seq<seq<Candidate>>,    // one early-candidate queue per registered listener pair, oldest first
    outbox: seq<Event>,             // everything emitted on the signalling socket
    retired: seq<Peer>,             // peers closed and then dropped
    channel: Option<Channel>,       // the `dataChannel` state
    hasStream: bool,                // a stream is attached to the video element
    isConnected: bool,
    powerOn: bool,
    activeButton: Option<string>,
    sent: seq<string>)              // messages the data channel transmitted

  /** The component just mounted. */
  const Initial: Session := Session(None, [], [], [], None, false, false, false, None, [])

  /** Each `initPeerConnection` registers one "offer" and one "candidate"
      listener, both closing over the same fresh queue, and `disconnect`
      removes both kinds together; so listener pair k owns `queues[k]`. */
  function OfferListenerCount(s: Session): nat { |s.queues| }

  function CandidateListenerCount(s: Session): nat { |s.queues| }

  // ---------------------------------------------------------------------
  // Command channel

  predicate IsOpen(ch: Option<Channel>)
  {
    ch.Some? && ch.value.readyState == Open
  }

  /** `close()` on a peer also closes every data channel the peer created.
      The kept channel always comes from the current peer or from an earlier
      peer that is already closed, so closing the current peer leaves the
      kept channel closed. */
  function ClosedChannel(ch: Option<Channel>): (c: Option<Channel>)
    ensures !IsOpen(c)
    ensures c.Some? <==> ch.Some?
    ensures c.Some? ==> c.value.name == ch.value.name && c.value.readyState == ReadyState.Closed
  {
    match ch
    case Some(x) => Some(x.(readyState := ReadyState.Closed))
    case None => None
  }

  /** `sendControlMessage`: what the data channel has transmitted after an
      attempt to send `msg`.  A closed or missing channel drops the message
      without failing. */
  function Transmit(log: seq<string>, ch: Option<Channel>, msg: string): (r: seq<string>)
    ensures |r| == |log| + 1 <==> IsOpen(ch)
    ensures |log| <= |r| <= |log| + 1 && r[..|log|] == log
    ensures |r| > |log| ==> r[|log|] == msg
  {
    if IsOpen(ch) then log + [msg] else log
  }

  /** Direction names of the movement buttons and their tokens. */
  const Moves: map<string, string> := map["up" := "y_R", "down" := "y_L", "left" := "x_L", "right" := "x_R"]

  /** Direction names of the zoom buttons and their tokens. */
  const Zooms: map<string, string> := map["in" := "z_R", "out" := "z_L"]

  /** `handleMove`: sends the direction's token, nothing else changes. */
  function HandleMove(s: Session, direction: string): (t: Session)
    requires direction in Moves
    ensures IsOpen(s.channel) <==> t.sent == s.sent + [Moves[direction]]
    ensures !IsOpen(s.channel) ==> t == s
    ensures t.(sent := s.sent) == s
  {
    s.(sent := Transmit(s.sent, s.channel, Moves[direction]))
  }

  /** `handleZoom`: sends the direction's token, nothing else changes. */
  function HandleZoom(s: Session, direction: string): (t: Session)
    requires direction in Zooms
    ensures IsOpen(s.channel) <==> t.sent == s.sent + [Zooms[direction]]
    ensures !IsOpen(s.channel) ==> t == s
    ensures t.(sent := s.sent) == s
  {
    s.(sent := Transmit(s.sent, s.channel, Zooms[direction]))
  }

  /** `handlePower`: only with a stream attached; "turn on" also switches the
      power state on, whether or not the channel carried it. */
  function HandlePower(s: Session, command: string): (t: Session)
    ensures !s.hasStream ==> t == s
    ensures s.hasStream && IsOpen(s.channel) <==> t.sent == s.sent + [command]
    ensures !(s.hasStream && IsOpen(s.channel)) ==> t.sent == s.sent
    ensures t.powerOn == (s.powerOn || (s.hasStream && command == "turn on"))
    ensures t.(sent := s.sent, powerOn := s.powerOn) == s
  {
    if s.hasStream then
      s.(sent := Transmit(s.sent, s.channel, command),
         powerOn := if command == "turn on" then true else s.powerOn)
    else
      s
  }

  /** `handleMainPower`: with a stream attached, toggles the power state and
      the selected button and sends "turn off", or "turn on" followed by "1";
      the state flips even when the channel is closed. */
  function HandleMainPower(s: Session): (t: Session)
    ensures !s.hasStream ==> t == s
    ensures s.hasStream ==> t.powerOn == !s.powerOn
    ensures s.hasStream && s.powerOn ==>
      t.activeButton == None &&
      t.sent == (if IsOpen(s.channel) then s.sent + ["turn off"] else s.sent)
    ensures s.hasStream && !s.powerOn ==>
      t.activeButton == Some("1") &&
      t.sent == (if IsOpen(s.channel) then s.sent + ["turn on", "1"] else s.sent)
    ensures t.(sent := s.sent, powerOn := s.powerOn, activeButton := s.activeButton) == s
  {
    if !s.hasStream then
      s
    else if s.powerOn then
      s.(sent := Transmit(s.sent, s.channel, "turn off"), powerOn := false, activeButton := None)
    else
      var once := Transmit(s.sent, s.channel, "turn on");
      s.(sent := Transmit(once, s.channel, "1"), powerOn := true, activeButton := Some("1"))
  }

  /** `handlePowerSelection`: selects the button and sends its number; unlike
      the power handlers it does not look at the stream. */
  function HandlePowerSelection(s: Session, num: string): (t: Session)
    ensures t.activeButton == Some(num)
    ensures IsOpen(s.channel) <==> t.sent == s.sent + [num]
    ensures !IsOpen(s.channel) ==> t.sent == s.sent
    ensures t.(sent := s.sent, activeButton := s.activeButton) == s
  {
    s.(activeButton := Some(num), sent := Transmit(s.sent, s.channel, num))
  }

  // ---------------------------------------------------------------------
  // Peer connection and signalling

  /** `initPeerConnection`: a new peer replaces the current one (which is not
      closed here) and one more listener pair with an empty queue is
      registered; the earlier listeners and their queues stay. */
  function InitPeer(s: Session): (t: Session)
    ensures t.peer == Some(NewPeer())
    ensures OfferListenerCount(t) == OfferListenerCount(s) + 1
    ensures CandidateListenerCount(t) == CandidateListenerCount(s) + 1
    ensures t.queues[..|s.queues|] == s.queues && t.queues[|s.queues|] == []
    ensures t.(peer := s.peer, queues := s.queues) == s
  {
    s.(peer := Some(NewPeer()), queues := s.queues + [[]])
  }

  /** The `onicecandidate` handler: a found local candidate goes to the relay. */
  function OnIceCandidate(s: Session, found: Option<Candidate>): (t: Session)
    ensures found.Some? ==> t.outbox == s.outbox + [LocalCandidate(found.value, Room)]
    ensures found.None? ==> t == s
    ensures t.(outbox := s.outbox) == s
  {
    match found
    case Some(c) => s.(outbox := s.outbox + [LocalCandidate(c, Room)])
    case None => s
  }

  /** The `ontrack` handler: an event carrying at least one stream attaches it. */
  function OnTrack(s: Session, streams: nat): (t: Session)
    ensures t.hasStream <==> s.hasStream || streams > 0
    ensures t.(hasStream := s.hasStream) == s
  {
    if streams > 0 then s.(hasStream := true) else s
  }

  /** The `ondatachannel` handler: only the channel labelled "control" is kept. */
  function OnDataChannel(s: Session, ch: Channel): (t: Session)
    ensures t.channel == if ch.name == "control" then Some(ch) else s.channel
    ensures t.(channel := s.channel) == s
  {
    if ch.name == "control" then s.(channel := Some(ch)) else s
  }

  /** The browser opens the kept channel if it is still connecting; a
      channel that is closing or closed never opens again.  The `onopen`
      handler only logs. */
  function OnChannelOpen(s: Session): (t: Session)
    ensures IsOpen(t.channel) <==>
      s.channel.Some? && (s.channel.value.readyState.Connecting? || s.channel.value.readyState.Open?)
    ensures t.channel.Some? <==> s.channel.Some?
    ensures s.channel.Some? ==> t.channel.value.name == s.channel.value.name
    ensures s.channel.Some? && !s.channel.value.readyState.Connecting? ==> t == s
    ensures t.(channel := s.channel) == s
  {
    match s.channel
    case Some(ch) => if ch.readyState == Connecting then s.(channel := Some(ch.(readyState := Open))) else s
    case None => s
  }

  /** The body of the k-th "candidate" listener: dropped without a peer,
      queued in the listener's own queue while the peer has no remote
      description, applied to the peer otherwise. */
  function CandidateListener(s: Session, k: nat, c: Candidate): (t: Session)
    requires k < |s.queues|
    ensures s.peer.None? ==> t == s
    ensures s.peer.Some? && s.peer.value.remoteSdp.None? ==>
      t == s.(queues := s.queues[k := s.queues[k] + [c]])
    ensures s.peer.Some? && s.peer.value.remoteSdp.Some? ==>
      t == s.(peer := Some(s.peer.value.(applied := s.peer.value.applied + [c])))
  {
    match s.peer
    case None => s
    case Some(p) =>
      if p.remoteSdp.Some? then s.(peer := Some(p.(applied := p.applied + [c])))
      else s.(queues := s.queues[k := s.queues[k] + [c]])
  }

  /** The first n "candidate" listeners run in registration order. */
  function CandidateListeners(s: Session, c: Candidate, n: nat): (t: Session)
    requires n <= |s.queues|
    ensures |t.queues| == |s.queues|
    ensures t.peer.None? <==> s.peer.None?
    ensures t.peer.Some? ==> t.peer.value.remoteSdp == s.peer.value.remoteSdp
    decreases n
  {
    if n == 0 then s else CandidateListener(CandidateListeners(s, c, n - 1), n - 1, c)
  }

  /** A "candidate" event reaches every registered listener. */
  function DispatchCandidate(s: Session, c: Candidate): (t: Session)
    ensures |t.queues| == |s.queues|
  {
    CandidateListeners(s, c, |s.queues|)
  }

  /** What a candidate event does with n listeners: nothing without a peer;
      before a remote description, c is appended to each of the n queues;
      after it, c is applied n times. */
  lemma {:induction false} CandidateDispatch(s: Session, c: Candidate, n: nat)
    requires n <= |s.queues|
    ensures var t := CandidateListeners(s, c, n);
      && (s.peer.None? ==> t == s)
      && (s.peer.Some? && s.peer.value.remoteSdp.None? ==>
            t.peer == s.peer && t.(queues := s.queues) == s &&
            forall k :: 0 <= k < |s.queues| ==>
              t.queues[k] == if k < n then s.queues[k] + [c] else s.queues[k])
      && (s.peer.Some? && s.peer.value.remoteSdp.Some? ==>
            var a, b := s.peer.value.applied, t.peer.value.applied;
            t.(peer := s.peer) == s &&
            t.peer.value.(applied := a) == s.peer.value &&
            |b| == |a| + n && b[..|a|] == a &&
            forall i :: |a| <= i < |b| ==> b[i] == c)
    decreases n
  {
    if n > 0 {
      CandidateDispatch(s, c, n - 1);
      var u := CandidateListeners(s, c, n - 1);
      if s.peer.Some? && s.peer.value.remoteSdp.Some? {
        var a, b := s.peer.value.applied, u.peer.value.applied;
        assert u.peer.value.applied[..|a|] == a;
        var t := CandidateListener(u, n - 1, c);
        assert t.peer.value.applied == b + [c];
        assert t.peer.value.applied[..|a|] == b[..|a|];
      }
    }
  }

  /** The body of the k-th "offer" listener.  With no peer the handler throws
      and its catch logs; an offer whose SDP equals the current remote
      description is ignored.  Otherwise: if the peer is not "stable" it is
      closed (and with it the kept data channel) and `initPeerConnection`
      runs again; the remote description is set; THIS listener's queue is
      drained into the (possibly new) peer in arrival order; the answer
      becomes the local description and is sent. */
  function OfferListener(s: Session, k: nat, sdp: string, answer: string): (t: Session)
    requires k < |s.queues|
    ensures s.peer.None? || s.peer.value.remoteSdp == Some(sdp) ==> t == s
    ensures s.peer.Some? && s.peer.value.remoteSdp != Some(sdp) ==>
      var p := s.peer.value;
      var reinit := p.signalingState != Stable;
      && t.retired == (if reinit then s.retired + [Close(p)] else s.retired)
      && OfferListenerCount(t) == OfferListenerCount(s) + (if reinit then 1 else 0)
      && t.queues[k] == []
      && (forall j :: 0 <= j < |s.queues| && j != k ==> t.queues[j] == s.queues[j])
      && (reinit ==> t.queues[|s.queues|] == [])
      && t.peer.Some?
      && t.peer.value.remoteSdp == Some(sdp)
      && t.peer.value.localSdp == Some(answer)
      && t.peer.value.signalingState == Stable
      && t.peer.value.applied == (if reinit then [] else p.applied) + s.queues[k]
      && t.peer.value.iceRestarts == (if reinit then 0 else p.iceRestarts)
      && t.outbox == s.outbox + [Answer(answer, Room)]
      && t.channel == (if reinit then ClosedChannel(s.channel) else s.channel)
      && t.(peer := s.peer, queues := s.queues, outbox := s.outbox, retired := s.retired, channel := s.channel) == s
  {
    match s.peer
    case None => s
    case Some(p) =>
      if p.remoteSdp == Some(sdp) then s
      else
        var s1 := if p.signalingState != Stable then InitPeer(s.(retired := s.retired + [Close(p)], channel := ClosedChannel(s.channel))) else s;
        var q := s1.peer.value.(remoteSdp := Some(sdp), signalingState := HaveRemoteOffer);
        var drained := q.(applied := q.applied + s1.queues[k]);
        var settled := drained.(localSdp := Some(answer), signalingState := Stable);
        s1.(peer := Some(settled), queues := s1.queues[k := []], outbox := s1.outbox + [Answer(answer, Room)])
  }

  /** The first n "offer" listeners run in registration order; listeners that
      a reinit adds meanwhile are not among them. */
  function OfferListeners(s: Session, sdp: string, answer: string, n: nat): (t: Session)
    requires n <= |s.queues|
    ensures |t.queues| >= |s.queues|
    ensures t.peer.None? <==> s.peer.None?
    ensures s.peer.Some? && s.peer.value.remoteSdp != Some(sdp) && n > 0 ==> t.peer.value.remoteSdp == Some(sdp)
    decreases n
  {
    if n == 0 then s else OfferListener(OfferListeners(s, sdp, answer, n - 1), n - 1, sdp, answer)
  }

  /** An "offer" event reaches every listener registered when it arrives. */
  function DispatchOffer(s: Session, sdp: string, answer: string): (t: Session)
    ensures |t.queues| >= |s.queues|
  {
    OfferListeners(s, sdp, answer, |s.queues|)
  }

  /** Only the oldest "offer" listener ever acts on an offer: after it, the
      peer's remote description equals the offer, so every later listener
      takes the duplicate branch.  Hence only `queues[0]` is ever drained. */
  lemma {:induction false} OnlyOldestOfferListenerActs(s: Session, sdp: string, answer: string, n: nat)
    requires 0 < n <= |s.queues|
    ensures OfferListeners(s, sdp, answer, n) == OfferListener(s, 0, sdp, answer)
    decreases n
  {
    if n > 1 {
      OnlyOldestOfferListenerActs(s, sdp, answer, n - 1);
    }
  }

  /** A duplicate offer, or any offer while there is no peer (the handler
      throws and its catch only logs), changes nothing: no reinit, no answer,
      no queue drained. */
  lemma DuplicateOfferIgnored(s: Session, sdp: string, answer: string)
    requires s.peer.None? || s.peer.value.remoteSdp == Some(sdp)
    ensures DispatchOffer(s, sdp, answer) == s
  {
    if |s.queues| > 0 {
      OnlyOldestOfferListenerActs(s, sdp, answer, |s.queues|);
    }
  }

  /** The effect of an offer event on a connected session: one answer, and
      the oldest queue flushed in order into the peer that takes the offer,
      which is a fresh one when the old peer was not "stable". */
  lemma OfferEffect(s: Session, sdp: string, answer: string)
    requires s.peer.Some? && s.peer.value.remoteSdp != Some(sdp) && |s.queues| > 0
    ensures var t := DispatchOffer(s, sdp, answer);
      var reinit := s.peer.value.signalingState != Stable;
      && t.outbox == s.outbox + [Answer(answer, Room)]
      && t.peer.value.remoteSdp == Some(sdp)
      && t.peer.value.applied == (if reinit then [] else s.peer.value.applied) + s.queues[0]
      && t.queues[0] == []
      && t.retired == (if reinit then s.retired + [Close(s.peer.value)] else s.retired)
  {
    OnlyOldestOfferListenerActs(s, sdp, answer, |s.queues|);
  }

  /** Remote candidates arriving one event after another. */
  function ArriveAll(s: Session, cs: seq<Candidate>): (t: Session)
    ensures |t.queues| == |s.queues|
    decreases |cs|
  {
    if cs == [] then s else ArriveAll(DispatchCandidate(s, cs[0]), cs[1..])
  }

  /** Before a remote description exists, arriving candidates are appended in
      arrival order to every registered queue, and nothing else changes. */
  lemma {:induction false} EarlyCandidatesQueued(s: Session, cs: seq<Candidate>)
    requires s.peer.Some? && s.peer.value.remoteSdp.None?
    ensures var t := ArriveAll(s, cs);
      && t.(queues := s.queues) == s
      && |t.queues| == |s.queues|
      && forall k :: 0 <= k < |s.queues| ==> t.queues[k] == s.queues[k] + cs
    decreases |cs|
  {
    if cs != [] {
      var u := DispatchCandidate(s, cs[0]);
      CandidateDispatch(s, cs[0], |s.queues|);
      EarlyCandidatesQueued(u, cs[1..]);
      var t := ArriveAll(u, cs[1..]);
      forall k | 0 <= k < |s.queues|
        ensures t.queues[k] == s.queues[k] + cs
      {
        assert u.queues[k] == s.queues[k] + [cs[0]];
        assert [cs[0]] + cs[1..] == cs;
        assert t.queues[k] == s.queues[k] + [cs[0]] + cs[1..];
      }
    }
  }

  /** Early candidates are flushed into the peer in arrival order once the
      offer's remote description is set, after whatever the oldest queue
      already held. */
  lemma EarlyCandidatesFlushedInOrder(s: Session, cs: seq<Candidate>, sdp: string, answer: string)
    requires s.peer.Some? && s.peer.value.remoteSdp.None? && |s.queues| > 0
    ensures var t := DispatchOffer(ArriveAll(s, cs), sdp, answer);
      var reinit := s.peer.value.signalingState != Stable;
      && t.peer.Some?
      && t.peer.value.applied == (if reinit then [] else s.peer.value.applied) + s.queues[0] + cs
      && t.queues[0] == []
      && t.outbox == s.outbox + [Answer(answer, Room)]
  {
    EarlyCandidatesQueued(s, cs);
    var u := ArriveAll(s, cs);
    OfferEffect(u, sdp, answer);
  }

  // ---------------------------------------------------------------------
  // Connect and disconnect

  /** `connect`: ignored when already connected; otherwise a peer and a new
      listener pair, a "join" for the room, and the connected flag. */
  function Connect(s: Session): (t: Session)
    ensures s.isConnected ==> t == s
    ensures !s.isConnected ==>
      && t.isConnected
      && t.peer == Some(NewPeer())
      && t.outbox == s.outbox + [Join(Room)]
      && OfferListenerCount(t) == OfferListenerCount(s) + 1
      && t.queues[..|s.queues|] == s.queues && t.queues[|s.queues|] == []
      && t.(peer := s.peer, queues := s.queues, outbox := s.outbox, isConnected := s.isConnected) == s
  {
    if s.isConnected then s
    else InitPeer(s).(outbox := s.outbox + [Join(Room)], isConnected := true)
  }

  /** `disconnect`: "leave" for the room, the peer closed and dropped, the
      stream detached, power off, and every offer and candidate listener
      removed.  The reference to the data channel and the selected button are
      kept; closing the peer closes that channel. */
  function Disconnect(s: Session): (t: Session)
    ensures t.peer.None? && OfferListenerCount(t) == 0 && CandidateListenerCount(t) == 0
    ensures !t.isConnected && !t.hasStream && !t.powerOn
    ensures t.outbox == s.outbox + [Leave(Room)]
    ensures t.retired == if s.peer.Some? then s.retired + [Close(s.peer.value)] else s.retired
    ensures s.peer.Some? ==> t.channel == ClosedChannel(s.channel) && !IsOpen(t.channel)
    ensures s.peer.None? ==> t.channel == s.channel
    ensures t.activeButton == s.activeButton && t.sent == s.sent
  {
    match s.peer
    case Some(p) =>
      s.(outbox := s.outbox + [Leave(Room)], peer := None, retired := s.retired + [Close(p)],
         channel := ClosedChannel(s.channel),
         isConnected := false, hasStream := false, powerOn := false, queues := [])
    case None =>
      s.(outbox := s.outbox + [Leave(Room)], isConnected := false, hasStream := false, powerOn := false, queues := [])
  }

  /** After `disconnect` the session is the initial one except for what the
      relay and the channel have already seen, the retired peers, the
      selected button, and the reference to the data channel, which is
      closed when there was a peer to close. */
  lemma DisconnectResets(s: Session)
    ensures Disconnect(s) == Initial.(outbox := s.outbox + [Leave(Room)],
                                      retired := Disconnect(s).retired,
                                      channel := if s.peer.Some? then ClosedChannel(s.channel) else s.channel,
                                      activeButton := s.activeButton,
                                      sent := s.sent)
  {
  }

  // ---------------------------------------------------------------------
  // Runs of events

  /** Everything that can happen to the component: a button press, a socket
      event, or an event of the peer connection or its data channel. */
  datatype Action =
    | PressConnect
    | PressDisconnect
    | OfferArrives(sdp: string, answer: string)
    | CandidateArrives(candidate: Candidate)
    | IceCandidateFound(found: Option<Candidate>)
    | TrackArrives(streams: nat)
    | DataChannelArrives(channel: Channel)
    | ChannelOpens
    | PressMove(direction: string)
    | PressZoom(direction: string)
    | Power(command: string)
    | PressMainPower
    | PressSelection(num: string)

  /** The render tree only passes the direction names the lookups know. */
  predicate Admissible(a: Action)
  {
    (a.PressMove? ==> a.direction in Moves) && (a.PressZoom? ==> a.direction in Zooms)
  }

  function Step(s: Session, a: Action): Session
    requires Admissible(a)
  {
    match a
    case PressConnect => Connect(s)
    case PressDisconnect => Disconnect(s)
    case OfferArrives(sdp, answer) => DispatchOffer(s, sdp, answer)
    case CandidateArrives(c) => DispatchCandidate(s, c)
    case IceCandidateFound(found) => OnIceCandidate(s, found)
    case TrackArrives(n) => OnTrack(s, n)
    case DataChannelArrives(ch) => OnDataChannel(s, ch)
    case ChannelOpens => OnChannelOpen(s)
    case PressMove(d) => HandleMove(s, d)
    case PressZoom(d) => HandleZoom(s, d)
    case Power(command) => HandlePower(s, command)
    case PressMainPower => HandleMainPower(s)
    case PressSelection(num) => HandlePowerSelection(s, num)
  }

  function Run(s: Session, actions: seq<Action>): Session
    requires forall i :: 0 <= i < |actions| ==> Admissible(actions[i])
    decreases |actions|
  {
    if actions == [] then s else Run(Step(s, actions[0]), actions[1..])
  }

  /** The session invariant: connected exactly when a peer exists, and
      listeners are registered exactly when a peer exists.  With atomic
      handlers whose negotiation steps succeed, there is never more than one
      listener pair and the peer is always "stable" between events. */
  predicate Valid(s: Session)
  {
    && (s.isConnected <==> s.peer.Some?)
    && (s.peer.None? <==> s.queues == [])
    && |s.queues| <= 1
    && (s.peer.Some? ==> s.peer.value.signalingState == Stable)
  }

  lemma StepPreservesValid(s: Session, a: Action)
    requires Valid(s) && Admissible(a)
    ensures Valid(Step(s, a))
  {
    match a
    case OfferArrives(sdp, answer) =>
      if |s.queues| > 0 {
        OnlyOldestOfferListenerActs(s, sdp, answer, |s.queues|);
      }
    case PressConnect =>
    case PressDisconnect =>
    case CandidateArrives(c) => CandidateDispatch(s, c, |s.queues|);
    case IceCandidateFound(found) =>
    case TrackArrives(n) =>
    case DataChannelArrives(ch) =>
    case ChannelOpens =>
    case PressMove(d) =>
    case PressZoom(d) =>
    case Power(command) =>
    case PressMainPower =>
    case PressSelection(num) =>
  }

  /** Every session the component can reach keeps the invariant. */
  lemma {:induction false} RunPreservesValid(s: Session, actions: seq<Action>)
    requires Valid(s)
    requires forall i :: 0 <= i < |actions| ==> Admissible(actions[i])
    ensures Valid(Run(s, actions))
    decreases |actions|
  {
    if actions != [] {
      StepPreservesValid(s, actions[0]);
      RunPreservesValid(Step(s, actions[0]), actions[1..]);
    }
  }

  /** Every session reachable from mount satisfies the invariant. */
  lemma ReachableSessionsValid(actions: seq<Action>)
    requires forall i :: 0 <= i < |actions| ==> Admissible(actions[i])
    ensures Valid(Run(Initial, actions))
  {
    RunPreservesValid(Initial, actions);
  }

  /** No open channel: none kept, or the kept one is closed. */
  predicate Silent(s: Session)
  {
    s.channel.None? || s.channel.value.readyState == ReadyState.Closed
  }

  /** Every action except the arrival of a new data channel keeps a closed
      channel closed and sends nothing. */
  lemma StepKeepsSilent(s: Session, a: Action)
    requires Silent(s) && Admissible(a) && !a.DataChannelArrives?
    ensures Silent(Step(s, a)) && Step(s, a).sent == s.sent
  {
    match a
    case OfferArrives(sdp, answer) =>
      if |s.queues| > 0 {
        OnlyOldestOfferListenerActs(s, sdp, answer, |s.queues|);
      }
    case CandidateArrives(c) => CandidateDispatch(s, c, |s.queues|);
    case PressConnect =>
    case PressDisconnect =>
    case IceCandidateFound(found) =>
    case TrackArrives(n) =>
    case ChannelOpens =>
    case PressMove(d) =>
    case PressZoom(d) =>
    case Power(command) =>
    case PressMainPower =>
    case PressSelection(num) =>
  }

  /** Once the channel is closed, no button sends anything until a new data
      channel arrives, whatever else happens. */
  lemma {:induction false} NothingSentWhileSilent(s: Session, actions: seq<Action>)
    requires Silent(s)
    requires forall i :: 0 <= i < |actions| ==> Admissible(actions[i]) && !actions[i].DataChannelArrives?
    ensures Silent(Run(s, actions)) && Run(s, actions).sent == s.sent
    decreases |actions|
  {
    if actions != [] {
      StepKeepsSilent(s, actions[0]);
      NothingSentWhileSilent(Step(s, actions[0]), actions[1..]);
    }
  }

  /** After disconnecting a session that had a peer, the buttons send nothing
      until a new peer delivers a new data channel. */
  lemma SilentAfterDisconnect(s: Session, actions: seq<Action>)
    requires s.peer.Some?
    requires forall i :: 0 <= i < |actions| ==> Admissible(actions[i]) && !actions[i].DataChannelArrives?
    ensures Run(Disconnect(s), actions).sent == s.sent
  {
    NothingSentWhileSilent(Disconnect(s), actions);
  }

  /** From the initial state: connect, receive candidates before the offer,
      then the offer: the new peer holds exactly those candidates in arrival
      order, and the relay saw a "join" and one "answer". */
  lemma ConnectThenEarlyCandidates(cs: seq<Candidate>, sdp: string, answer: string)
    ensures var t := DispatchOffer(ArriveAll(Connect(Initial), cs), sdp, answer);
      && t.peer.Some? && t.peer.value.applied == cs
      && t.outbox == [Join(Room), Answer(answer, Room)]
  {
    EarlyCandidatesFlushedInOrder(Connect(Initial), cs, sdp, answer);
  }
}
