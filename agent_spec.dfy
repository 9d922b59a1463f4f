/**
 The agent's state as a value, and one function per operation of the agent.
 The class in AgentClass mutates the same fields in place; each of its methods
 is specified by the function here of the same name.

 The state also holds the parts of the world the agent acts on: the live timer
 sources of the main loop (each with the time it becomes due) and the log of
 effects the agent has had so far.
 */
module AgentSpec {
  import opened AgentTypes
  import Decisions

  datatype State = State(
    mode: int,                   // the configured BUTTON_MODE
    allowConnect: bool,          // is the pairing window open?
    lastTimeout: Option<Handle>, // the source that will close the window
    exitOnRelease: bool,
    timers: map<Handle, int>,    // live timer sources and the time each becomes due
    nextId: Handle,              // the id the main loop hands out next
    trace: seq<Effect>)

  /** The handle held in the window's slot, as a set. */
  function SlotSet(s: State): set<Handle>
  {
    if s.lastTimeout.Some? then {s.lastTimeout.value} else {}
  }

  /** Live timer sources the agent no longer holds: each will still reset the window. */
  function Orphans(s: State): set<Handle>
  {
    s.timers.Keys - SlotSet(s)
  }

  predicate NoOrphans(s: State)
  {
    Orphans(s) == {}
  }

  /** When the open window is due to close. */
  function WindowDeadline(s: State): Option<int>
  {
    if s.lastTimeout.Some? && s.lastTimeout.value in s.timers then Some(s.timers[s.lastTimeout.value]) else None
  }

  /**
   The invariant every reachable state keeps: ids are fresh, the window is open
   exactly when a source is held, the held source is live, and a live source
   that is not held exists only once the loop has been asked to quit.
   */
  ghost predicate Inv(s: State)
  {
    && (forall h :: h in s.timers ==> h < s.nextId)
    && (s.allowConnect <==> s.lastTimeout.Some?)
    && (s.lastTimeout.Some? ==> s.lastTimeout.value in s.timers)
    && (Orphans(s) != {} ==> Quit in s.trace)
  }

  lemma QuitKept(t: seq<Effect>, u: seq<Effect>)
    requires t <= u && Quit in t
    ensures Quit in u
  {
  }

  /** A freshly constructed Agent: window closed, no source held, exit on release. */
  function Initial(mode: int): (s: State)
    ensures Inv(s) && NoOrphans(s)
    ensures !s.allowConnect && s.exitOnRelease && s.timers == map[] && s.trace == []
  {
    State(mode, false, None, true, map[], 1, [])
  }

  function SetExitOnRelease(s: State, exitOnRelease: bool): (r: State)
    ensures r.exitOnRelease == exitOnRelease
    ensures r.(exitOnRelease := s.exitOnRelease) == s
    ensures Inv(s) ==> Inv(r)
  {
    s.(exitOnRelease := exitOnRelease)
  }

  /**
   Open the window for a full CONNECTION_TIMEOUT from `now`: cancel the held
   source first, then arm a fresh one and hold it.
   */
  function TemporaryAllowConnect(s: State, now: int): (r: State)
    ensures r.allowConnect && r.lastTimeout == Some(s.nextId)
    // a full fresh countdown from now, whatever the previous deadline was
    ensures WindowDeadline(r) == Some(now + CONNECTION_TIMEOUT)
    // the held source is removed before the new one is armed
    ensures s.lastTimeout.Some? ==>
              r.trace == s.trace + [SourceRemove(s.lastTimeout.value), TimeoutAdd(s.nextId, CONNECTION_TIMEOUT)]
    ensures s.lastTimeout.None? ==> r.trace == s.trace + [TimeoutAdd(s.nextId, CONNECTION_TIMEOUT)]
    ensures r.timers.Keys == s.timers.Keys - SlotSet(s) + {s.nextId}
    ensures r.mode == s.mode && r.exitOnRelease == s.exitOnRelease && r.nextId == s.nextId + 1
    // every other live source keeps its due time
    ensures Inv(s) ==> forall k | k in Orphans(s) :: k in r.timers && r.timers[k] == s.timers[k]
    // the invariant holds, with no new orphan: a single live source when there was none before
    ensures Inv(s) ==> Inv(r) && Orphans(r) == Orphans(s) && s.nextId !in s.timers
    ensures Inv(s) && NoOrphans(s) ==> r.timers.Keys == {s.nextId}
  {
    var removed :=
      if s.lastTimeout.Some?
      then s.(timers := s.timers - {s.lastTimeout.value}, lastTimeout := None,
              trace := s.trace + [SourceRemove(s.lastTimeout.value)])
      else s;
    var h := s.nextId;
    removed.(allowConnect := true, lastTimeout := Some(h),
             timers := removed.timers[h := now + CONNECTION_TIMEOUT], nextId := h + 1,
             trace := removed.trace + [TimeoutAdd(h, CONNECTION_TIMEOUT)])
  }

  /** Close the window: clear the flag and forget the held source, without removing it. */
  function ResetAllowConnect(s: State): (r: State)
    ensures !r.allowConnect && r.lastTimeout == None
    ensures r.(allowConnect := s.allowConnect, lastTimeout := s.lastTimeout) == s
    // the source that was held stays live
    ensures Orphans(r) == s.timers.Keys
  {
    s.(allowConnect := false, lastTimeout := None)
  }

  /** SIGINT: close the window, then ask the loop to quit. */
  function InterruptHandler(s: State): (r: State)
    ensures !r.allowConnect && r.lastTimeout == None && r.trace == s.trace + [Quit]
    ensures r.timers == s.timers && r.nextId == s.nextId
    ensures r.mode == s.mode && r.exitOnRelease == s.exitOnRelease
    ensures Inv(s) ==> Inv(r)
    // with a window open, its source is left live though nothing holds it
    ensures Inv(s) && s.allowConnect ==> s.lastTimeout.value in Orphans(r)
  {
    var r := ResetAllowConnect(s).(trace := s.trace + [Quit]);
    assert Quit == r.trace[|s.trace|];
    r
  }

  /**
   The main loop dispatches the due source `h`: it runs ResetAllowConnect, and
   because that returns None the loop then destroys the source.
   */
  function TimerFires(s: State, h: Handle, now: int): (r: State)
    requires h in s.timers && s.timers[h] <= now
    ensures !r.allowConnect && r.lastTimeout == None
    ensures r.timers == s.timers - {h} && r.trace == s.trace && r.nextId == s.nextId
    ensures r.mode == s.mode && r.exitOnRelease == s.exitOnRelease
    ensures Inv(s) ==> Inv(r)
    // before any orphan exists, the source that fires is always the one held
    ensures Inv(s) && NoOrphans(s) ==> s.lastTimeout == Some(h) && NoOrphans(r) && r.timers == map[]
  {
    ResetAllowConnect(s).(timers := s.timers - {h})
  }

  /** A dispatched agent method: its reply and the state after it. */
  datatype Response = Response(reply: Reply, next: State)

  /** auth_backend run inside a gated method: its verdict, its effects logged. */
  function Gate(s: State, device: Path, buttonHigh: bool): Response
  {
    var v := Decisions.AuthBackend(s.mode, buttonHigh, s.allowConnect, device);
    Response(v.reply, s.(trace := s.trace + v.effects))
  }

  /** The bus revoked the agent: the loop is asked to quit exactly when exit_on_release is set. */
  function Release(s: State): (r: State)
    ensures SameAgent(s, r) && s.trace <= r.trace
    ensures r.trace[|s.trace|..] == (if s.exitOnRelease then [Quit] else [])
  {
    if s.exitOnRelease then s.(trace := s.trace + [Quit]) else s
  }

  /** The methods the agent exports on its bus interface. */
  datatype Request =
    | ReleaseAgent
    | AuthorizeService(device: Path, uuid: string)
    | RequestPinCode(device: Path)
    | RequestPasskey(device: Path)
    | DisplayPasskey(device: Path, passkey: UInt32, entered: UInt16)
    | DisplayPinCode(device: Path, pincode: string)
    | RequestConfirmation(device: Path, passkey: UInt32)
    | RequestAuthorization(device: Path)
    | Cancel
  {
    /** The methods that go through auth_backend. */
    predicate IsGated()
    {
      AuthorizeService? || RequestConfirmation? || RequestAuthorization?
    }
  }

  /** The same window, timers and configuration. */
  predicate SameAgent(s: State, r: State)
  {
    r.(trace := s.trace) == s
  }

  /** Serve one bus call. */
  function Dispatch(s: State, req: Request, inputs: Inputs): (r: Response)
    // no agent method touches the window, the timers or the configuration
    ensures SameAgent(s, r.next) && s.trace <= r.next.trace
    ensures Inv(s) ==> Inv(r.next)
  {
    var r := match req
      case ReleaseAgent => Response(Done, Release(s))
      case AuthorizeService(device, _) => Gate(s, device, inputs.buttonHigh)
      case RequestPinCode(device) =>
        Response(PinCode(inputs.typedPin), s.(trace := s.trace + [SetTrusted(device)]))
      case RequestPasskey(device) =>
        Response(Passkey(inputs.typedPasskey), s.(trace := s.trace + [SetTrusted(device)]))
      case DisplayPasskey(_, _, _) => Response(Done, s)
      case DisplayPinCode(_, _) => Response(Done, s)
      case RequestConfirmation(device, _) => Gate(s, device, inputs.buttonHigh)
      case RequestAuthorization(device) => Gate(s, device, inputs.buttonHigh)
      case Cancel => Response(Done, s);
    if Quit in s.trace then QuitKept(s.trace, r.next.trace); r else r
  }

  /** The gated methods answer exactly what auth_backend decides for their device. */
  lemma GatedMethodsFollowAuthBackend(s: State, req: Request, inputs: Inputs)
    requires req.IsGated()
    ensures var v := Decisions.AuthBackend(s.mode, inputs.buttonHigh, s.allowConnect, req.device);
              Dispatch(s, req, inputs).reply == v.reply &&
              Dispatch(s, req, inputs).next.trace == s.trace + v.effects
  {
  }

  /** RequestPinCode and RequestPasskey trust the device whatever the window or button. */
  lemma KeyRequestsTrustUnconditionally(s: State, req: Request, inputs: Inputs)
    requires req.RequestPinCode? || req.RequestPasskey?
    ensures Dispatch(s, req, inputs).next.trace == s.trace + [SetTrusted(req.device)]
    ensures Dispatch(s, req, inputs).reply ==
              (if req.RequestPinCode? then PinCode(inputs.typedPin) else Passkey(inputs.typedPasskey))
  {
  }

  /** DisplayPasskey and DisplayPinCode change nothing. */
  lemma DisplayChangesNothing(s: State, req: Request, inputs: Inputs)
    requires req.DisplayPasskey? || req.DisplayPinCode?
    ensures Dispatch(s, req, inputs) == Response(Done, s)
  {
  }

  /** Cancel changes nothing. */
  lemma CancelChangesNothing(s: State, inputs: Inputs)
    ensures Dispatch(s, Cancel, inputs) == Response(Done, s)
  {
  }

  /** Closing the window twice is closing it once. */
  lemma ResetIdempotent(s: State)
    ensures ResetAllowConnect(ResetAllowConnect(s)) == ResetAllowConnect(s)
  {
  }

  /**
   Process start-up: the agent is constructed; with a target device it stops
   exiting on release and asks to pair, otherwise it asks to become the default
   agent; in mode 1 the window is then opened once.
   */
  function Startup(mode: int, target: Option<Path>, now: int): (s: State)
    ensures Inv(s) && NoOrphans(s) && s.mode == mode
    ensures s.exitOnRelease <==> target.None?
    ensures s.allowConnect <==> mode == 1
    ensures mode == 1 ==> WindowDeadline(s) == Some(now + CONNECTION_TIMEOUT)
    ensures Quit !in s.trace
  {
    var constructed := Initial(mode);
    var registered :=
      if target.Some?
      then SetExitOnRelease(constructed, false).(trace := [PairRequest(target.value)])
      else constructed.(trace := [RequestDefaultAgent]);
    if mode == 1 then TemporaryAllowConnect(registered, now) else registered
  }
}
