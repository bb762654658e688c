/** The viewer component as an object: its React state, its refs and what
    the socket and the browser hold for it are fields, and each handler is a
    method that updates them step by step.  Every method is proved to take
    the component from `old(Snapshot())` to the `ViewerLogic` transition of
    it, so the properties proved there hold of these methods. */
module ViewerComponent {
  import opened Signaling
  import L = ViewerLogic

  class Viewer {
    var peer: Option<Peer>
    var queues: seq<seq<Candidate>>
    var outbox: seq<Event>
    var retired: seq<Peer>
    var channel: Option<Channel>
    var hasStream: bool
    var isConnected: bool
    var powerOn: bool
    var activeButton: Option<string>
    var sent: seq<string>

    function Snapshot(): L.Session
      reads this
    {
      L.Session(peer, queues, outbox, retired, channel, hasStream, isConnected, powerOn, activeButton, sent)
    }

    constructor ()
      ensures Snapshot() == L.Initial
    {
      peer, queues, outbox, retired := None, [], [], [];
      channel, hasStream, isConnected, powerOn, activeButton, sent := None, false, false, false, None, [];
    }

    method SendControlMessage(msg: string)
      modifies this`sent
      ensures sent == L.Transmit(old(sent), channel, msg)
      ensures L.IsOpen(channel) <==> sent == old(sent) + [msg]
    {
      if channel.Some? && channel.value.readyState == Open {
        sent := sent + [msg];
      }
    }

    method HandleMove(direction: string)
      requires direction in L.Moves
      modifies this`sent
      ensures Snapshot() == L.HandleMove(old(Snapshot()), direction)
    {
      var msg := L.Moves[direction];
      SendControlMessage(msg);
    }

    method HandleZoom(direction: string)
      requires direction in L.Zooms
      modifies this`sent
      ensures Snapshot() == L.HandleZoom(old(Snapshot()), direction)
    {
      var msg := L.Zooms[direction];
      SendControlMessage(msg);
    }

    method HandlePower(command: string)
      modifies this`sent, this`powerOn
      ensures Snapshot() == L.HandlePower(old(Snapshot()), command)
    {
      if hasStream {
        SendControlMessage(command);
        if command == "turn on" {
          powerOn := true;
        }
      }
    }

    method HandleMainPower()
      modifies this`sent, this`powerOn, this`activeButton
      ensures Snapshot() == L.HandleMainPower(old(Snapshot()))
    {
      if hasStream {
        if powerOn {
          SendControlMessage("turn off");
          powerOn := false;
          activeButton := None;
        } else {
          SendControlMessage("turn on");
          SendControlMessage("1");
          powerOn := true;
          activeButton := Some("1");
        }
      }
    }

    method HandlePowerSelection(num: string)
      modifies this`sent, this`activeButton
      ensures Snapshot() == L.HandlePowerSelection(old(Snapshot()), num)
    {
      activeButton := Some(num);
      SendControlMessage(num);
    }

    method InitPeerConnection()
      modifies this`peer, this`queues
      ensures Snapshot() == L.InitPeer(old(Snapshot()))
    {
      var candidateQueue: seq<Candidate> := [];
      peer := Some(NewPeer());
      queues := queues + [candidateQueue];
    }

    method OnIceCandidate(found: Option<Candidate>)
      modifies this`outbox
      ensures Snapshot() == L.OnIceCandidate(old(Snapshot()), found)
    {
      if found.Some? {
        outbox := outbox + [LocalCandidate(found.value, Room)];
      }
    }

    method OnTrack(streams: nat)
      modifies this`hasStream
      ensures Snapshot() == L.OnTrack(old(Snapshot()), streams)
    {
      if streams > 0 {
        hasStream := true;
      }
    }

    method OnDataChannel(ch: Channel)
      modifies this`channel
      ensures Snapshot() == L.OnDataChannel(old(Snapshot()), ch)
    {
      if ch.name == "control" {
        channel := Some(ch);
      }
    }

    method OnChannelOpen()
      modifies this`channel
      ensures Snapshot() == L.OnChannelOpen(old(Snapshot()))
    {
      if channel.Some? && channel.value.readyState == Connecting {
        channel := Some(channel.value.(readyState := Open));
      }
    }

    /** The k-th "candidate" listener. */
    method CandidateListener(k: nat, c: Candidate)
      requires k < |queues|
      modifies this`peer, this`queues
      ensures Snapshot() == L.CandidateListener(old(Snapshot()), k, c)
    {
      if peer.Some? {
        if peer.value.remoteSdp.Some? {
          peer := Some(peer.value.(applied := peer.value.applied + [c]));
        } else {
          queues := queues[k := queues[k] + [c]];
        }
      }
    }

    /** The socket delivers a "candidate" event to each listener in turn. */
    method EmitCandidate(c: Candidate)
      modifies this`peer, this`queues
      ensures Snapshot() == L.DispatchCandidate(old(Snapshot()), c)
    {
      var n := |queues|;
      var i := 0;
      while i < n
        invariant 0 <= i <= n == |queues|
        invariant Snapshot() == L.CandidateListeners(old(Snapshot()), c, i)
      {
        CandidateListener(i, c);
        i := i + 1;
      }
    }

    /** The k-th "offer" listener, with its queue drained by a `shift` loop. */
    method OfferListener(k: nat, sdp: string, answer: string)
      requires k < |queues|
      modifies this`peer, this`queues, this`outbox, this`retired, this`channel
      ensures Snapshot() == L.OfferListener(old(Snapshot()), k, sdp, answer)
    {
      if peer.None? || peer.value.remoteSdp == Some(sdp) {
        return;
      }
      if peer.value.signalingState != Stable {
        retired := retired + [Close(peer.value)];
        channel := L.ClosedChannel(channel);
        InitPeerConnection();
      }
      ghost var s1 := Snapshot();
      peer := Some(peer.value.(remoteSdp := Some(sdp), signalingState := HaveRemoteOffer));
      ghost var q0, p0, qs0 := queues[k], peer.value, queues;
      ghost var i := 0;
      assert p0.applied + q0[..0] == p0.applied;
      while queues[k] != []
        invariant 0 <= i <= |q0|
        invariant queues == qs0[k := q0[i..]]
        invariant peer == Some(p0.(applied := p0.applied + q0[..i]))
        invariant outbox == s1.outbox && retired == s1.retired && channel == s1.channel
        decreases |queues[k]|
      {
        var pending := queues[k][0];
        assert pending == q0[i] && queues[k][1..] == q0[i + 1..];
        queues := queues[k := queues[k][1..]];
        peer := Some(peer.value.(applied := peer.value.applied + [pending]));
        assert q0[..i + 1] == q0[..i] + [pending];
        assert p0.applied + q0[..i] + [pending] == p0.applied + q0[..i + 1];
        i := i + 1;
      }
      assert q0[..i] == q0;
      peer := Some(peer.value.(localSdp := Some(answer), signalingState := Stable));
      outbox := outbox + [Answer(answer, Room)];
    }

    /** The socket delivers an "offer" event to each listener registered when
        it arrives, in turn. */
    method EmitOffer(sdp: string, answer: string)
      modifies this`peer, this`queues, this`outbox, this`retired, this`channel
      ensures Snapshot() == L.DispatchOffer(old(Snapshot()), sdp, answer)
    {
      var n := |queues|;
      var i := 0;
      while i < n
        invariant 0 <= i <= n <= |queues|
        invariant n == |old(queues)|
        invariant Snapshot() == L.OfferListeners(old(Snapshot()), sdp, answer, i)
      {
        OfferListener(i, sdp, answer);
        i := i + 1;
      }
    }

    method Connect()
      modifies this`peer, this`queues, this`outbox, this`isConnected
      ensures Snapshot() == L.Connect(old(Snapshot()))
    {
      if !isConnected {
        InitPeerConnection();
        outbox := outbox + [Join(Room)];
        isConnected := true;
      }
    }

    method Disconnect()
      modifies this`peer, this`queues, this`outbox, this`retired, this`channel, this`isConnected, this`hasStream, this`powerOn
      ensures Snapshot() == L.Disconnect(old(Snapshot()))
    {
      outbox := outbox + [Leave(Room)];
      if peer.Some? {
        retired := retired + [Close(peer.value)];
        channel := L.ClosedChannel(channel);
        peer := None;
      }
      isConnected := false;
      if hasStream {
        hasStream := false;
      }
      powerOn := false;
      queues := [];
    }
  }
}
