/**
 The registered agent object. Its fields are the Agent's own (the window flag,
 the held timer source, exit_on_release) and the parts of the world it acts on:
 the main loop's live timer sources and the log of effects. Every method is
 specified by the function of the same name in AgentSpec, through Snapshot().
 */
module AgentClass {
  import opened AgentTypes
  import Decisions
  import AgentSpec

  class Agent {
    const mode: int
    var allowConnect: bool
    var lastTimeout: Option<Handle>
    var exitOnRelease: bool
    var timers: map<Handle, int>
    var nextId: Handle
    var trace: seq<Effect>

    ghost function Snapshot(): AgentSpec.State
      reads this
    {
      AgentSpec.State(mode, allowConnect, lastTimeout, exitOnRelease, timers, nextId, trace)
    }

    ghost predicate Valid()
      reads this
    {
      AgentSpec.Inv(Snapshot())
    }

    constructor (mode: int)
      ensures Valid() && Snapshot() == AgentSpec.Initial(mode)
    {
      this.mode := mode;
      allowConnect := false;
      lastTimeout := None;
      exitOnRelease := true;
      timers := map[];
      nextId := 1;
      trace := [];
    }

    method SetExitOnRelease(exitOnRelease: bool)
      requires Valid()
      modifies this`exitOnRelease
      ensures Valid() && this.exitOnRelease == exitOnRelease
      ensures Snapshot() == AgentSpec.SetExitOnRelease(old(Snapshot()), exitOnRelease)
    {
      this.exitOnRelease := exitOnRelease;
    }

    /** The bus revoked the agent: stop the loop only when it was meant to exit. */
    method Release() returns (reply: Reply)
      requires Valid()
      modifies this`trace
      ensures Valid() && reply == Done
      ensures trace == old(trace) + (if exitOnRelease then [Quit] else [])
      ensures Snapshot() == AgentSpec.Release(old(Snapshot()))
    {
      if exitOnRelease {
        MainLoopQuit();
      }
      reply := Done;
    }

    /** mainloop.quit() */
    method MainLoopQuit()
      requires Valid()
      modifies this`trace
      ensures Valid() && trace == old(trace) + [Quit]
    {
      trace := trace + [Quit];
      assert trace[|trace| - 1] == Quit;
    }

    /** GObject.source_remove(h) */
    method RemoveSource(h: Handle)
      modifies this`timers, this`trace
      ensures timers == old(timers) - {h} && trace == old(trace) + [SourceRemove(h)]
    {
      timers := timers - {h};
      trace := trace + [SourceRemove(h)];
    }

    /** GObject.timeout_add_seconds(seconds, ...): a new source due `seconds` after `now`. */
    method AddTimeoutSeconds(seconds: int, now: int) returns (h: Handle)
      modifies this`timers, this`nextId, this`trace
      ensures h == old(nextId) && nextId == h + 1
      ensures timers == old(timers)[h := now + seconds]
      ensures trace == old(trace) + [TimeoutAdd(h, seconds)]
    {
      h := nextId;
      nextId := nextId + 1;
      timers := timers[h := now + seconds];
      trace := trace + [TimeoutAdd(h, seconds)];
    }

    /** A button press (or start-up in mode 1) opens the window for a full period from `now`. */
    method TemporaryAllowConnect(now: int)
      requires Valid()
      modifies this
      ensures Valid()
      ensures allowConnect && lastTimeout == Some(old(nextId)) && old(nextId) !in old(timers)
      ensures timers[old(nextId)] == now + CONNECTION_TIMEOUT
      ensures old(lastTimeout).Some? ==>
                trace == old(trace) + [SourceRemove(old(lastTimeout).value), TimeoutAdd(old(nextId), CONNECTION_TIMEOUT)]
      ensures Snapshot() == AgentSpec.TemporaryAllowConnect(old(Snapshot()), now)
    {
      allowConnect := true;
      if lastTimeout.Some? {
        RemoveSource(lastTimeout.value);
        lastTimeout := None;
      }
      var h := AddTimeoutSeconds(CONNECTION_TIMEOUT, now);
      lastTimeout := Some(h);
    }

    /**
     Close the window. Nothing removes the held source, so on its own this
     does not keep Valid(); the two callers below restore it.
     */
    method ResetAllowConnect()
      modifies this`allowConnect, this`lastTimeout
      ensures !allowConnect && lastTimeout == None
      ensures Snapshot() == AgentSpec.ResetAllowConnect(old(Snapshot()))
    {
      allowConnect := false;
      lastTimeout := None;
    }

    /** SIGINT: close the window, then stop the loop. */
    method InterruptHandler()
      requires Valid()
      modifies this
      ensures Valid() && !allowConnect && lastTimeout == None
      ensures trace == old(trace) + [Quit] && timers == old(timers)
      ensures Snapshot() == AgentSpec.InterruptHandler(old(Snapshot()))
    {
      ResetAllowConnect();
      trace := trace + [Quit];
      assert trace[|trace| - 1] == Quit;
    }

    /** The main loop dispatches the due source `h` to ResetAllowConnect and then destroys it. */
    method TimerFires(h: Handle, now: int)
      requires Valid() && h in timers && timers[h] <= now
      modifies this
      ensures Valid() && !allowConnect && lastTimeout == None
      ensures timers == old(timers) - {h}
      ensures Quit !in old(trace) ==> old(lastTimeout) == Some(h)
      ensures Snapshot() == AgentSpec.TimerFires(old(Snapshot()), h, now)
    {
      ResetAllowConnect();
      timers := timers - {h};
    }

    /** auth_backend: the verdict of Decisions.AuthBackend, its effects logged. */
    method AuthBackend(device: Path, buttonHigh: bool) returns (reply: Reply)
      requires Valid()
      modifies this`trace
      ensures Valid()
      ensures reply == AgentSpec.Gate(old(Snapshot()), device, buttonHigh).reply
      ensures Snapshot() == AgentSpec.Gate(old(Snapshot()), device, buttonHigh).next
    {
      var v := Decisions.AuthBackend(mode, buttonHigh, allowConnect, device);
      trace := trace + v.effects;
      reply := v.reply;
    }

    method AuthorizeService(device: Path, uuid: string, buttonHigh: bool) returns (reply: Reply)
      requires Valid()
      modifies this`trace
      ensures Valid()
      ensures reply == AgentSpec.Gate(old(Snapshot()), device, buttonHigh).reply
      ensures Snapshot() == AgentSpec.Gate(old(Snapshot()), device, buttonHigh).next
    {
      reply := AuthBackend(device, buttonHigh);
    }

    /** Trusts the device unconditionally and answers with the PIN the operator typed. */
    method RequestPinCode(device: Path, typedPin: string) returns (reply: Reply)
      requires Valid()
      modifies this`trace
      ensures Valid() && reply == PinCode(typedPin)
      ensures Snapshot() == old(Snapshot()).(trace := old(trace) + [SetTrusted(device)])
    {
      trace := trace + [SetTrusted(device)];
      reply := PinCode(typedPin);
    }

    /** Trusts the device unconditionally and answers with the passkey the operator typed. */
    method RequestPasskey(device: Path, typedPasskey: UInt32) returns (reply: Reply)
      requires Valid()
      modifies this`trace
      ensures Valid() && reply == Passkey(typedPasskey)
      ensures Snapshot() == old(Snapshot()).(trace := old(trace) + [SetTrusted(device)])
    {
      trace := trace + [SetTrusted(device)];
      reply := Passkey(typedPasskey);
    }

    /** Display only: changes nothing. */
    method DisplayPasskey(device: Path, passkey: UInt32, entered: UInt16) returns (reply: Reply)
      ensures reply == Done
    {
      reply := Done;
    }

    /** Display only: changes nothing. */
    method DisplayPinCode(device: Path, pincode: string) returns (reply: Reply)
      ensures reply == Done
    {
      reply := Done;
    }

    method RequestConfirmation(device: Path, passkey: UInt32, buttonHigh: bool) returns (reply: Reply)
      requires Valid()
      modifies this`trace
      ensures Valid()
      ensures reply == AgentSpec.Gate(old(Snapshot()), device, buttonHigh).reply
      ensures Snapshot() == AgentSpec.Gate(old(Snapshot()), device, buttonHigh).next
    {
      reply := AuthBackend(device, buttonHigh);
    }

    method RequestAuthorization(device: Path, buttonHigh: bool) returns (reply: Reply)
      requires Valid()
      modifies this`trace
      ensures Valid()
      ensures reply == AgentSpec.Gate(old(Snapshot()), device, buttonHigh).reply
      ensures Snapshot() == AgentSpec.Gate(old(Snapshot()), device, buttonHigh).next
    {
      reply := AuthBackend(device, buttonHigh);
    }

    /** Logged only: changes nothing. */
    method Cancel() returns (reply: Reply)
      ensures reply == Done
    {
      reply := Done;
    }
  }

  /**
   The start-up sequence of the script: construct the agent, register it for
   one device or as the default agent, and in mode 1 open the window once.
   */
  method Startup(mode: int, target: Option<Path>, now: int) returns (agent: Agent)
    ensures fresh(agent) && agent.Valid()
    ensures agent.Snapshot() == AgentSpec.Startup(mode, target, now)
  {
    agent := new Agent(mode);
    if target.Some? {
      agent.SetExitOnRelease(false);
      agent.trace := agent.trace + [PairRequest(target.value)];
    } else {
      agent.trace := agent.trace + [RequestDefaultAgent];
    }
    if mode == 1 {
      agent.TemporaryAllowConnect(now);
    }
  }
}
