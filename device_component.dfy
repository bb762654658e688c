/** The device script's module-level state (`pc`, `control_channel`,
    `received_messages` and what the socket has emitted) as one object, and
    its handlers as methods proved against `DeviceLogic`. */
module DeviceComponent {
  import opened Signaling
  import D = DeviceLogic

  class Device {
    var pc: Option<Peer>
    var controlChannel: Option<Channel>
    var outbox: seq<Event>
    var received: seq<string>

    function Snapshot(): D.DeviceState
      reads this
    {
      D.DeviceState(pc, controlChannel, outbox, received)
    }

    constructor ()
      ensures Snapshot() == D.Boot
    {
      pc, controlChannel, outbox, received := None, None, [], [];
    }

    /** `createPeerConnection`: a new peer, and its "control" channel becomes
        the global one. */
    method CreatePeerConnection() returns (p: Peer)
      modifies this`controlChannel
      ensures p == NewPeer()
      ensures controlChannel == Some(D.ControlChannel)
    {
      p := NewPeer();
      controlChannel := Some(Channel("control", Connecting));
    }

    method OnAnswer(data: map<string, string>)
      modifies this`pc
      ensures Snapshot() == D.OnAnswer(old(Snapshot()), data)
    {
      if !("sdp" in data && data["sdp"] != "") || !D.HasMediaSection(data["sdp"]) {
        return;
      }
      if pc.Some? && pc.value.signalingState == HaveLocalOffer {
        if "type" !in data {
          return;
        }
        pc := Some(pc.value.(remoteSdp := Some(data["sdp"]), signalingState := Stable));
      }
    }

    method OnRenegotiate(offerSdp: string)
      modifies this`pc, this`controlChannel, this`outbox
      ensures Snapshot() == D.OnRenegotiate(old(Snapshot()), offerSdp)
    {
      if pc.None? || pc.value.signalingState.Closed? {
        var pcNew := CreatePeerConnection();
        pc := Some(pcNew);
      } else {
        pc := Some(pc.value.(iceRestarts := pc.value.iceRestarts + 1));
      }
      pc := Some(pc.value.(localSdp := Some(offerSdp), signalingState := HaveLocalOffer));
      outbox := outbox + [Offer(offerSdp, Room, true)];
    }

    /** `on_control_message`: logs the message and hands it to the decoder. */
    method OnControlMessage(msg: string) returns (c: D.Command)
      modifies this`received
      ensures Snapshot() == D.ReceiveMessage(old(Snapshot()), msg)
      ensures c == D.Decode(msg)
    {
      received := received + [msg];
      c := D.Decode(msg);
    }
  }
}
