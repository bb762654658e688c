/** Values shared by the browser viewer and the device: peer connections, data
    channels and the events carried by the signalling relay.  The peer
    connection and the data channel are kept as plain values; what the
    browser's or the Python library's transport does inside them is not
    modelled. */
module Signaling {

  datatype Option<+T> = None | Some(value: T)

  /** Signalling states of a peer connection, named as in the JSEP offer/answer
      state machine (section 3.2 of RFC 8829). */
  datatype SignalingState = Stable | HaveLocalOffer | HaveRemoteOffer | Closed

  /** A network candidate, kept as its candidate line. */
  type Candidate = string

  /** A peer connection as far as the session logic can observe it: its local
      and remote session descriptions (their SDP text), its signalling state,
      the remote candidates applied to it in order, and how many ICE restarts
      were requested on it. */
  datatype Peer = Peer(
    localSdp: Option<string>,
    remoteSdp: Option<string>,
    signalingState: SignalingState,
    applied: seq<Candidate>,
    iceRestarts: nat)

  /** A freshly constructed peer connection. */
  function NewPeer(): Peer
  {
    Peer(None, None, Stable, [], 0)
  }

  /** `close()` on a peer connection. */
  function Close(p: Peer): (q: Peer)
    ensures q.signalingState.Closed?
    ensures q.(signalingState := p.signalingState) == p
  {
    p.(signalingState := SignalingState.Closed)
  }

  /** The `readyState` of a data channel. */
  datatype ReadyState = Connecting | Open | Closing | Closed

  /** A data channel: its label (`name` here, `label` being a keyword) and state. */
  datatype Channel = Channel(name: string, readyState: ReadyState)

  /** Events emitted on the signalling socket. */
  datatype Event =
    | Join(room: string)
    | Leave(room: string)
    | Answer(sdp: string, room: string)
    | Offer(sdp: string, room: string, fromDevice: bool)
    | LocalCandidate(candidate: Candidate, room: string)

  /** The rendezvous room shared by the viewer and the device. */
  const Room: string := "jetson-room"
}
