/**
 Runs of the agent: every event the main loop can dispatch to it, in order,
 each at a time in seconds. A run starts from start-up or from any state
 that keeps the invariant, and the lemmas here say what holds along it.
 */
module Runs {
  import opened AgentTypes
  import Decisions
  import opened AgentSpec

  datatype Occurrence =
    | ButtonPress                                  // a rising edge on the button's GPIO line
    | TimerFire(h: Handle)                         // the main loop dispatches timer source h
    | SigInt
    | Call(req: Request, inputs: Inputs)           // an agent method called over the bus
    | PairReplied(devPath: Path)                   // Device1.Pair returned
    | PairFailed(errorName: string, deviceObj: Option<Path>) // Device1.Pair failed

  datatype Event = Event(time: int, what: Occurrence)

  /** Log the effects of a callback that touches nothing else. */
  function AppendEffects(s: State, effects: seq<Effect>): (r: State)
    ensures SameAgent(s, r) && s.trace <= r.trace
    ensures Inv(s) ==> Inv(r)
  {
    var r := s.(trace := s.trace + effects);
    if Quit in s.trace then QuitKept(s.trace, r.trace); r else r
  }

  /**
   One dispatched event. The edge callback is registered only in mode 1, and
   a timer source fires only while it is live and once it is due.
   */
  function Step(s: State, e: Event): (r: State)
    ensures s.trace <= r.trace
    ensures r.mode == s.mode && r.exitOnRelease == s.exitOnRelease
    ensures Inv(s) ==> Inv(r)
    // a press re-arms a full window in mode 1 and is ignored in every other mode
    ensures e.what.ButtonPress? && s.mode == 1 ==>
              r.allowConnect && WindowDeadline(r) == Some(e.time + CONNECTION_TIMEOUT)
    ensures e.what.ButtonPress? && s.mode != 1 ==> r == s
  {
    match e.what
    case ButtonPress => if s.mode == 1 then TemporaryAllowConnect(s, e.time) else s
    case TimerFire(h) => if h in s.timers && s.timers[h] <= e.time then TimerFires(s, h, e.time) else s
    case SigInt => InterruptHandler(s)
    case Call(req, inputs) => Dispatch(s, req, inputs).next
    case PairReplied(devPath) => AppendEffects(s, Decisions.PairReply(devPath))
    case PairFailed(errorName, deviceObj) => AppendEffects(s, Decisions.PairError(errorName, deviceObj))
  }

  /** The state after dispatching `evs` in order; the effect log only grows and the invariant holds throughout. */
  function Run(s: State, evs: seq<Event>): (r: State)
    ensures s.trace <= r.trace
    ensures r.mode == s.mode && r.exitOnRelease == s.exitOnRelease
    ensures Inv(s) ==> Inv(r)
    decreases |evs|
  {
    if evs == [] then s else Run(Step(s, evs[0]), evs[1..])
  }

  /** Until the loop is asked to quit, the only live timer source is the window's, and only while it is open. */
  lemma AtMostOneTimer(s: State)
    requires Inv(s) && Quit !in s.trace
    ensures |s.timers.Keys| <= 1
    ensures s.allowConnect <==> |s.timers.Keys| == 1
  {
    assert s.timers.Keys <= SlotSet(s);
    if s.allowConnect {
      assert s.timers.Keys == {s.lastTimeout.value};
    } else {
      assert s.timers.Keys == {};
    }
  }

  /** The same for every run from start-up. */
  lemma AtMostOneTimerAfterStartup(mode: int, target: Option<Path>, now: int, evs: seq<Event>)
    requires Quit !in Run(Startup(mode, target, now), evs).trace
    ensures var s := Run(Startup(mode, target, now), evs);
              |s.timers.Keys| <= 1 && (s.allowConnect <==> |s.timers.Keys| == 1)
  {
    AtMostOneTimer(Run(Startup(mode, target, now), evs));
  }

  /** Every event comes less than CONNECTION_TIMEOUT after the latest arming: `armedAt` or a later press. */
  ghost predicate KeptUp(armedAt: int, evs: seq<Event>)
    decreases |evs|
  {
    evs == [] ||
    (evs[0].time < armedAt + CONNECTION_TIMEOUT &&
     KeptUp(if evs[0].what.ButtonPress? then evs[0].time else armedAt, evs[1..]))
  }

  predicate NoSigInt(evs: seq<Event>)
  {
    forall i :: 0 <= i < |evs| ==> !evs[i].what.SigInt?
  }

  /** One step of WindowStaysOpen: the window is still open, and its deadline is that of the latest arming. */
  lemma StepKeepsWindowOpen(s: State, armedAt: int, e: Event)
    requires Inv(s) && NoOrphans(s) && s.mode == 1
    requires WindowDeadline(s) == Some(armedAt + CONNECTION_TIMEOUT)
    requires !e.what.SigInt? && e.time < armedAt + CONNECTION_TIMEOUT
    ensures var r := Step(s, e);
              Inv(r) && NoOrphans(r) && r.mode == 1 &&
              WindowDeadline(r) == Some((if e.what.ButtonPress? then e.time else armedAt) + CONNECTION_TIMEOUT)
  {
  }

  /**
   The window stays open as long as every event arrives less than
   CONNECTION_TIMEOUT after the latest arming and no SIGINT comes: each press
   restarts a full countdown, and nothing else can close it early.
   */
  lemma {:induction false} WindowStaysOpen(s: State, armedAt: int, evs: seq<Event>)
    requires Inv(s) && NoOrphans(s) && s.mode == 1
    requires WindowDeadline(s) == Some(armedAt + CONNECTION_TIMEOUT)
    requires NoSigInt(evs) && KeptUp(armedAt, evs)
    ensures Run(s, evs).allowConnect
    decreases |evs|
  {
    if evs != [] {
      StepKeepsWindowOpen(s, armedAt, evs[0]);
      WindowStaysOpen(Step(s, evs[0]), if evs[0].what.ButtonPress? then evs[0].time else armedAt, evs[1..]);
    }
  }

  /** A press at `t0` opens a window that no event before `t0 + CONNECTION_TIMEOUT` can close, save SIGINT. */
  lemma {:induction false} OpenUntilDeadline(s: State, t0: int, evs: seq<Event>)
    requires Inv(s) && NoOrphans(s) && s.mode == 1
    requires NoSigInt(evs)
    requires forall i :: 0 <= i < |evs| ==> t0 <= evs[i].time < t0 + CONNECTION_TIMEOUT
    ensures Run(Step(s, Event(t0, ButtonPress)), evs).allowConnect
  {
    WithinKeepsUp(t0, t0, evs);
    WindowStaysOpen(Step(s, Event(t0, ButtonPress)), t0, evs);
  }

  /** Events all within CONNECTION_TIMEOUT after `t0` keep up with any arming at or after `t0`. */
  lemma {:induction false} WithinKeepsUp(armedAt: int, t0: int, evs: seq<Event>)
    requires t0 <= armedAt
    requires forall i :: 0 <= i < |evs| ==> t0 <= evs[i].time < t0 + CONNECTION_TIMEOUT
    ensures KeptUp(armedAt, evs)
    decreases |evs|
  {
    if evs != [] {
      forall i | 0 <= i < |evs[1..]|
        ensures t0 <= evs[1..][i].time < t0 + CONNECTION_TIMEOUT
      {
        assert evs[1..][i] == evs[i + 1];
      }
      WithinKeepsUp(if evs[0].what.ButtonPress? then evs[0].time else armedAt, t0, evs[1..]);
    }
  }

  /** Outside mode 1 there is no edge callback and no start-up arming, so a closed window stays closed. */
  lemma {:induction false} NoWindowOutsideModeOne(s: State, evs: seq<Event>)
    requires Inv(s) && s.mode != 1 && !s.allowConnect
    ensures !Run(s, evs).allowConnect
    decreases |evs|
  {
    if evs != [] {
      var r := Step(s, evs[0]);
      match evs[0].what {
        case Call(req, inputs) =>
          assert SameAgent(s, Dispatch(s, req, inputs).next);
        case _ =>
      }
      NoWindowOutsideModeOne(r, evs[1..]);
    }
  }

  /**
   A BUTTON_MODE other than 0 and 1 gates on a window that is never opened:
   every gated request of every run from start-up is rejected.
   */
  lemma UnknownModeRejectsAll(mode: int, target: Option<Path>, now: int, evs: seq<Event>,
                              device: Path, buttonHigh: bool)
    requires mode != 0 && mode != 1
    ensures Gate(Run(Startup(mode, target, now), evs), device, buttonHigh).reply ==
              Rejected(REJECTED_ERROR, REJECTION_MESSAGE)
  {
    NoWindowOutsideModeOne(Startup(mode, target, now), evs);
  }

  /** With the configured BUTTON_MODE the window is open from start-up, before any press. */
  lemma ConfiguredStartupOpensWindow(target: Option<Path>, now: int)
    ensures Startup(BUTTON_MODE, target, now).allowConnect
    ensures WindowDeadline(Startup(BUTTON_MODE, target, now)) == Some(now + CONNECTION_TIMEOUT)
  {
  }

  /** exit_on_release is cleared only by start-up with a target device, so Release quits exactly without one. */
  lemma ReleaseQuitsIffNoTarget(mode: int, target: Option<Path>, now: int, evs: seq<Event>, inputs: Inputs)
    ensures var s := Run(Startup(mode, target, now), evs);
              Dispatch(s, ReleaseAgent, inputs).next.trace == s.trace + (if target.None? then [Quit] else [])
  {
  }

  /** After SIGINT every gated request is rejected outside mode 0, whatever was open before. */
  lemma InterruptClosesWindow(s: State, device: Path, buttonHigh: bool)
    requires s.mode != 0
    ensures Gate(InterruptHandler(s), device, buttonHigh).reply == Rejected(REJECTED_ERROR, REJECTION_MESSAGE)
    ensures InterruptHandler(InterruptHandler(s)).(trace := []) == InterruptHandler(s).(trace := [])
  {
  }

  /**
   ResetAllowConnect has no guard on the handle: after SIGINT the window's
   source stays live, and if the loop still dispatches a press and then that
   source, it closes the fresh window at 60 s although the press was at 20 s.
   */
  lemma StaleSourceAfterInterrupt()
    ensures var s := Run(Startup(1, None, 0),
                         [Event(10, SigInt), Event(20, ButtonPress), Event(60, TimerFire(1))]);
              !s.allowConnect && s.timers == map[2 := 80] && s.lastTimeout == None
  {
  }

  /**
   Mode 1 with the window opened at start-up (t = 0): device A is granted at
   t = 0 and trusted; once the source has fired, device B is rejected at t = 65;
   a press at t = 65 lets B through at t = 66.
   */
  lemma WindowScenario(a: Path, b: Path, inputs: Inputs)
    ensures var s0 := Startup(1, None, 0);
            var s1 := Dispatch(s0, RequestAuthorization(a), inputs);
            var s2 := Step(s1.next, Event(65, TimerFire(1)));
            var s3 := Dispatch(s2, RequestAuthorization(b), inputs);
            var s4 := Step(s3.next, Event(65, ButtonPress));
            var s5 := Dispatch(s4, RequestAuthorization(b), inputs);
              && s1.reply == Done && s1.next.trace == s0.trace + [SetTrusted(a)]
              && s3.reply == Rejected(REJECTED_ERROR, REJECTION_MESSAGE) && s3.next.trace == s2.trace
              && s5.reply == Done && s5.next.trace == s4.trace + [SetTrusted(b)]
  {
  }
}
