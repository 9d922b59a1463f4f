/**
 The agent's pure decisions: whether a gated request is granted, and what the
 two one-shot pairing callbacks ask of the bus and the main loop.
 */
module Decisions {
  import opened AgentTypes

  /** A decision together with the effects taken on the way to it. */
  datatype Verdict = Verdict(reply: Reply, effects: seq<Effect>)

  /** The single authorization decision behind every gated agent method. */
  function AuthBackend(mode: int, buttonHigh: bool, allowConnect: bool, device: Path): (v: Verdict)
    // the only two outcomes: an empty return or the Rejected error
    ensures v.reply == Done || v.reply == Rejected(REJECTED_ERROR, REJECTION_MESSAGE)
    // mode 0: granted exactly while the button is HIGH, and nothing is trusted
    ensures mode == 0 ==> (v.reply == Done <==> buttonHigh) && v.effects == []
    // any other mode: granted exactly while the window is open, then the device is trusted once
    ensures mode != 0 ==> (v.reply == Done <==> allowConnect)
    ensures mode != 0 && allowConnect ==> v.effects == [SetTrusted(device)]
    // a rejection has no effect at all
    ensures v.reply.Rejected? ==> v.effects == []
  {
    if mode == 0 then
      if buttonHigh then Verdict(Done, [])
      else Verdict(Rejected(REJECTED_ERROR, REJECTION_MESSAGE), [])
    else if allowConnect then
      Verdict(Done, [SetTrusted(device)])
    else
      Verdict(Rejected(REJECTED_ERROR, REJECTION_MESSAGE), [])
  }

  /** In mode 0 the window plays no part in the decision. */
  lemma HoldModeIgnoresWindow(buttonHigh: bool, device: Path)
    ensures AuthBackend(0, buttonHigh, true, device) == AuthBackend(0, buttonHigh, false, device)
  {
  }

  /** Outside mode 0 the button level plays no part in the decision. */
  lemma WindowModeIgnoresButton(mode: int, allowConnect: bool, device: Path)
    requires mode != 0
    ensures AuthBackend(mode, true, allowConnect, device) == AuthBackend(mode, false, allowConnect, device)
  {
  }

  /** The success callback of Device1.Pair: trust, connect, then stop the loop. */
  function PairReply(devPath: Path): (effects: seq<Effect>)
    ensures |effects| == 3 && effects[|effects| - 1] == Quit
    ensures effects[0] == SetTrusted(devPath) && effects[1] == DevConnect(devPath)
  {
    [SetTrusted(devPath), DevConnect(devPath), Quit]
  }

  /** The error callback of Device1.Pair; `deviceObj` is the paired device, if one was resolved. */
  function PairError(errorName: string, deviceObj: Option<Path>): (effects: seq<Effect>)
    // the loop is always stopped, last and once
    ensures |effects| > 0 && effects[|effects| - 1] == Quit
    ensures forall i :: 0 <= i < |effects| - 1 ==> effects[i] != Quit
    // a cancel is issued only on a missing reply, and only when there is a device to cancel
    ensures (exists i :: 0 <= i < |effects| && effects[i].CancelPairing?) <==>
              (errorName == NO_REPLY_ERROR && deviceObj.Some?)
    ensures forall i :: 0 <= i < |effects| && effects[i].CancelPairing? ==>
              deviceObj == Some(effects[i].device)
    // nothing else happens: no trust, no connect
    ensures |effects| <= 2 && forall i :: 0 <= i < |effects| ==> effects[i] == Quit || effects[i].CancelPairing?
  {
    if errorName == NO_REPLY_ERROR && deviceObj.Some? then
      var effects := [CancelPairing(deviceObj.value), Quit];
      assert effects[0].CancelPairing?;
      effects
    else
      [Quit]
  }
}
