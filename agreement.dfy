/** What the viewer sends against what the device decodes: every button's
    token reaches the command its label names, except that switching the
    power off sends "turn off", which the device does not recognise. */
module Agreement {
  import opened Signaling
  import L = ViewerLogic
  import D = DeviceLogic

  /** Each movement and zoom button is decoded as the matching command. */
  lemma MovesAndZoomsDecoded()
    ensures D.Decode(L.Moves["up"]) == D.TiltUp
    ensures D.Decode(L.Moves["down"]) == D.TiltDown
    ensures D.Decode(L.Moves["left"]) == D.PanLeft
    ensures D.Decode(L.Moves["right"]) == D.PanRight
    ensures D.Decode(L.Zooms["in"]) == D.ZoomIn
    ensures D.Decode(L.Zooms["out"]) == D.ZoomOut
  {
  }

  /** The commands a session's newly sent messages decode to. */
  function Decoded(log: seq<string>): (cs: seq<D.Command>)
    ensures |cs| == |log|
    ensures forall i :: 0 <= i < |log| ==> cs[i] == D.Decode(log[i])
    decreases |log|
  {
    if log == [] then [] else [D.Decode(log[0])] + Decoded(log[1..])
  }

  /** The main power button over an open channel: switching on reaches the
      device as "power on, mode 1"; switching off reaches it as an
      unrecognised message. */
  lemma MainPowerAsDecoded(s: L.Session)
    requires s.hasStream && L.IsOpen(s.channel)
    ensures var t := L.HandleMainPower(s);
      && |t.sent| >= |s.sent|
      && Decoded(t.sent[|s.sent|..]) == (if s.powerOn then [D.Unrecognised("turn off")] else [D.PowerOn, D.Mode1])
  {
    var t := L.HandleMainPower(s);
    if s.powerOn {
      assert t.sent[|s.sent|..] == ["turn off"];
    } else {
      assert t.sent[|s.sent|..] == ["turn on", "1"];
    }
  }

  /** The numbered buttons select the matching mode on the device. */
  lemma SelectionDecoded(s: L.Session, num: string)
    requires num in {"1", "2", "3"} && L.IsOpen(s.channel)
    ensures var t := L.HandlePowerSelection(s, num);
      && |t.sent| == |s.sent| + 1
      && D.Decode(t.sent[|s.sent|]) == (if num == "1" then D.Mode1 else if num == "2" then D.Mode2 else D.Mode3)
  {
  }
}
