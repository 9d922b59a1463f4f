# HifiBerry pairing agent: the authorization window

This project models the pairing agent of the HifiBerry Bluetooth speaker
script (`hifiberry.py`), a BlueZ agent that gates its authorization requests
on a physical button. In mode 0 a request is granted while the button is held
down. In mode 1 a request is granted while a 60-second window is open. The
window opens once at start-up and again on every press. `RequestPinCode` and
`RequestPasskey` are not gated: they trust the device in every mode, with no
press. It covers three parts:

- **The window.** `Agent.allow_connect` is the window flag. `Agent.last_timeout`
  holds the main-loop timer source that will close the window.
  `temporary_allow_connect` opens the window: it cancels the held source and
  arms a new one, due `CONNECTION_TIMEOUT` (60) seconds later.
  `reset_allow_connect` closes it, and `interrupt_handler` (SIGINT) closes it
  and then stops the main loop.
- **The decision `auth_backend`.** Every gated agent method goes through it.
- **The handlers.** The other agent methods, plus the two one-shot callbacks
  of `Device1.Pair`.

Modules:

- `AgentTypes` (types.dfy): the constants, timer handles, effects and replies.
  An effect is one of: a `Trusted` write, `Connect`, `CancelPairing`, `Pair`,
  `RequestDefaultAgent`, `source_remove`, `timeout_add_seconds` or
  `mainloop.quit`. The effects are logged in order.
- `Decisions` (decisions.dfy): `auth_backend`, `pair_reply` and `pair_error`
  as pure functions, each returning a reply and its effects.
- `AgentSpec` (agent_spec.dfy): the agent's state as a value. This includes
  the live timer sources with their due times and the effect log. There is one
  function per agent operation, the bus dispatcher, the start-up sequence and
  the invariant.
- `AgentClass` (agent.dfy): the class `Agent`. Its methods update its fields in
  place, and each method is tied to the `AgentSpec` function of the same name
  through `Snapshot()`. It also holds the start-up method.
- `Runs` (runs.dfy): runs of the agent. A run is a sequence of timed events:
  button press, timer source fires, SIGINT, bus call, pair reply, pair error.
  The lemmas here hold along every run.

The world is represented like this:

- The GPIO level is a `bool` input to each call.
- The operator's typed PIN or passkey is an input.
- A button press is an event.
- The clock is the `time` of each event.
- The GLib timer is a store of live sources with due times: `timeout_add_seconds`
  adds one, `source_remove` removes one.
- `mainloop.quit()` and the bus calls are entries in the effect log.

`BUTTON_MODE` is an integer, as in the source. `auth_backend` tests for `0`,
while the edge callback and the start-up arming test for `1`.

Three behaviours of the code worth noting:

- `reset_allow_connect` neither removes the held source nor checks which
  source fired. There is no stale-timer guard and closing does not cancel a
  pending timer. After SIGINT the window's source stays live
  (`StaleSourceAfterInterrupt`).
- Granting in mode 0 does not mark the device trusted.
- `exit_on_release` starts true and is cleared when a target device is given.
  So `Release` stops the loop for the long-lived default agent, not for the
  one-shot pairing run.

## Model

| member | source | states |
|---|---|---|
| Decisions.AuthBackend | hifiberry.py:105-121 | there are two replies, an empty return or `org.bluez.Error.Rejected` with "Pairing rejected by user"; mode 0 grants iff the button is HIGH and trusts nothing; any other mode grants iff the window is open, and on a grant it trusts the device exactly once; a rejection has no effect |
| Decisions.HoldModeIgnoresWindow | hifiberry.py:108-114 | in mode 0 the window flag has no influence on the decision |
| Decisions.WindowModeIgnoresButton | hifiberry.py:115-121 | outside mode 0 the button level has no influence on the decision |
| Decisions.PairReply | hifiberry.py:202-206 | the pair-success callback trusts the device, then connects it, then asks the loop to quit, in that order |
| Decisions.PairError | hifiberry.py:209-217 | CancelPairing is issued iff the error is `org.freedesktop.DBus.Error.NoReply` and a device object exists, and it goes to that device; the loop is asked to quit in every case, last and once; nothing else is done |
| AgentSpec.Initial | hifiberry.py:88-93 | a new agent has the window closed, no source held, `exit_on_release` true, and it satisfies the invariant |
| AgentSpec.SetExitOnRelease | hifiberry.py:95-96 | sets only the flag; keeps the invariant |
| AgentSpec.TemporaryAllowConnect | hifiberry.py:123-135 | opens the window and holds the newly armed source, which is due exactly 60 s from now whatever the old deadline was; the held source is removed before the new one is armed; the id counter advances by one; no new stray source appears and every other live source keeps its due time; with none before, exactly one source is live |
| AgentSpec.ResetAllowConnect | hifiberry.py:137-140 | clears the flag and the slot and nothing else; every live source, the one held before included, stays live |
| AgentSpec.ResetIdempotent | hifiberry.py:137-140 | closing twice equals closing once |
| AgentSpec.InterruptHandler | hifiberry.py:142-147 | SIGINT always leaves the window closed and the slot empty, then logs one quit; it keeps the invariant; with a window open, that window's source is left live with nothing holding it |
| AgentSpec.TimerFires | hifiberry.py:131-140 | a due source runs `reset_allow_connect` and is destroyed; the window is closed afterwards; before any stray source exists, the firing source is always the held one and nothing is left live |
| AgentSpec.Release | hifiberry.py:98-103 | Release asks the loop to quit iff `exit_on_release` holds and changes nothing else |
| AgentSpec.Dispatch | hifiberry.py:98-199 | no agent method changes the window, the timer sources or the configuration; the effect log only grows; the invariant is kept |
| AgentSpec.GatedMethodsFollowAuthBackend | hifiberry.py:149-194 | AuthorizeService, RequestConfirmation and RequestAuthorization reply exactly what `auth_backend` decides for their device and log exactly its effects |
| AgentSpec.KeyRequestsTrustUnconditionally | hifiberry.py:156-169 | RequestPinCode and RequestPasskey trust the device whatever the window or button state, and return the typed answer |
| AgentSpec.DisplayChangesNothing | hifiberry.py:171-180 | DisplayPasskey and DisplayPinCode return empty and change no state |
| AgentSpec.CancelChangesNothing | hifiberry.py:196-199 | Cancel returns empty and changes no state |
| AgentSpec.Startup | hifiberry.py:257-286 | after start-up the invariant holds and there is no stray source; `exit_on_release` is true iff no target device was given; the window is open iff the mode is 1, and then it is due 60 s after start |
| AgentClass.Agent.constructor | hifiberry.py:88-93 | the new object is the agent's initial state |
| AgentClass.Agent.SetExitOnRelease | hifiberry.py:95-96 | sets the flag and only the flag |
| AgentClass.Agent.Release | hifiberry.py:98-103 | logs a quit iff `exit_on_release` holds, and only that |
| AgentClass.Agent.TemporaryAllowConnect | hifiberry.py:123-135 | the window is open and holds a fresh source, due 60 s from now; the old held source is removed before the new one is armed; the invariant is kept |
| AgentClass.Agent.ResetAllowConnect | hifiberry.py:137-140 | the flag is false and the slot empty; nothing else changes (it does not promise the invariant) |
| AgentClass.Agent.InterruptHandler | hifiberry.py:142-147 | the flag is false and the slot empty whatever the prior state; a quit is logged; the sources are untouched; the invariant is kept |
| AgentClass.Agent.TimerFires | hifiberry.py:131-140 | the fired source is gone and the window is closed; until a quit has been logged, the source that fires is the held one |
| AgentClass.Agent.AuthBackend | hifiberry.py:105-121 | replies and logs what `Decisions.AuthBackend` decides for the current mode, window and button level |
| AgentClass.Agent.AuthorizeService | hifiberry.py:149-154 | the outcome of `auth_backend` for the device |
| AgentClass.Agent.RequestPinCode | hifiberry.py:156-161 | trusts the device unconditionally and returns the typed PIN |
| AgentClass.Agent.RequestPasskey | hifiberry.py:163-169 | trusts the device unconditionally and returns the typed passkey |
| AgentClass.Agent.DisplayPasskey | hifiberry.py:171-175 | returns empty and modifies nothing |
| AgentClass.Agent.DisplayPinCode | hifiberry.py:177-180 | returns empty and modifies nothing |
| AgentClass.Agent.RequestConfirmation | hifiberry.py:182-187 | the outcome of `auth_backend` for the device |
| AgentClass.Agent.RequestAuthorization | hifiberry.py:189-194 | the outcome of `auth_backend` for the device |
| AgentClass.Agent.Cancel | hifiberry.py:196-199 | returns empty and modifies nothing |
| AgentClass.Startup | hifiberry.py:257-286 | the constructed agent's state is `AgentSpec.Startup`: target device or default agent, then the mode-1 arming |
| Runs.Step | hifiberry.py:274-286 | one dispatched event grows the effect log, keeps the mode and `exit_on_release`, and keeps the invariant; in mode 1 a press opens the window due 60 s after the press; in any other mode a press changes nothing |
| Runs.Run | hifiberry.py:291 | along any run the effect log only grows, the mode and `exit_on_release` never change, and the invariant holds |
| Runs.AtMostOneTimer | hifiberry.py:123-140 | until a quit is requested, at most one timer source is live, and exactly one while the window is open |
| Runs.AtMostOneTimerAfterStartup | hifiberry.py:284-286 | the same along every run from start-up |
| Runs.WindowStaysOpen | hifiberry.py:123-135 | with no SIGINT, the window is still open after any run in which each event comes less than 60 s after the most recent arming; each press restarts the countdown |
| Runs.OpenUntilDeadline | hifiberry.py:131-134 | after a press at `t0`, no run of events within `[t0, t0 + 60)` without SIGINT closes the window |
| Runs.NoWindowOutsideModeOne | hifiberry.py:274-286 | outside mode 1 a closed window stays closed along every run |
| Runs.ConfiguredStartupOpensWindow | hifiberry.py:284-286 | with the configured `BUTTON_MODE` (1) the window is open from start-up, due 60 s later, before any press |
| Runs.UnknownModeRejectsAll | hifiberry.py:105-121 | with `BUTTON_MODE` neither 0 nor 1, every gated request of every run from start-up is rejected |
| Runs.ReleaseQuitsIffNoTarget | hifiberry.py:93-103 | along every run from start-up, Release asks the loop to quit iff no target device was given |
| Runs.InterruptClosesWindow | hifiberry.py:142-147 | after SIGINT every gated request is rejected outside mode 0; a second SIGINT leaves the same state apart from the log |
| Runs.StaleSourceAfterInterrupt | hifiberry.py:137-147 | with no guard on the handle: SIGINT at 10 s, a press at 20 s, and the old source firing at 60 s close the fresh window; the new source is left live with nothing holding it |
| Runs.WindowScenario | hifiberry.py:115-135 | mode 1, window opened at start-up: A is granted and trusted at 0 s; after the source fired, B is rejected at 65 s with no effect; after a press at 65 s, B is granted and trusted at 66 s |

## Left out

- `set_adapter_name` (hifiberry.py:64-82) is left out: it polls a D-Bus property against the wall clock with `time.sleep`.
- `ask()` console input is left out: the typed PIN or passkey is an input to the call.
- `RequestPasskey` conversion is left out: the typed passkey arrives already as a 32-bit value, so a failing `dbus.UInt32` conversion of the operator's text is not modelled.
- GPIO setup, edge detection and the 200 ms debounce (hifiberry.py:272-282) are left out: RPi.GPIO is not visible. A rising edge is a `ButtonPress` event and the level is a `bool` input.
- Decisions.AuthBackend, Decisions.PairReply, Decisions.PairError and AgentSpec.Dispatch: every bus call the agent makes is assumed to succeed. A `DBusException` from `set_trusted` inside `auth_backend` (hifiberry.py:117) would reach the caller as an error reply other than `Rejected`. A raising `set_trusted` or `dev_connect` in `pair_reply` (hifiberry.py:204-205), or a raising `CancelPairing` in `pair_error` (hifiberry.py:213), would skip `mainloop.quit()`. None of these failures is modelled.
- Signal timing is left out: a Python SIGINT handler runs between bytecodes of the main thread, so it can interrupt a bus callback midway (for example between hifiberry.py:115 and 117). The model runs `interrupt_handler` only between whole events.
- Threading is left out: RPi.GPIO runs edge callbacks on its own thread, and the model serialises them with the main loop's dispatch.
- GLib timers are only partly modelled. A source fires only while live and once due. That is assumed of GLib, not enforced by this code. A due source is never forced to fire: a run may simply contain no `TimerFire` event, and then the window stays open past its deadline. That the window closes after 60 s is shown only through `TimerFires` and `WindowScenario`. The due time is taken as exactly 60 s after arming: whole-second rounding and dispatch latency are not modelled. Source ids come from a counter.
- Dispatch after `mainloop.quit()` is not stopped: the model keeps dispatching events. Properties that need the loop to be still running say "no quit logged yet".
- The `pin` argument of `temporary_allow_connect` is not modelled: the code never uses it (it is the GPIO channel, or `None` at start-up).
- The `dev_path` and `device_obj` globals are not fields: they are passed to the pairing callbacks as arguments.
- D-Bus transport is left out: method registration, signatures, object paths, `RegisterAgent` and the capability string. `Rejected` is an error reply, not an exception class.
- Bootstrap is left out: option parsing, the `hci` argument fix-up, `bluezutils.find_device`, signal registration and `print` logging (hifiberry.py:220-291).
- button.py is left out: it is a GPIO polling loop that only logs level changes.
