# Parameter bridge between an audio engine and a web UI

This project models `imagiro::ParameterAttachment`. It is the glue between a
plugin processor's parameter set and the JavaScript UI in an embedded web
view. The bridge has three pieces of state:

- the parameters it is registered on as a listener;
- one `ignoreCallbacks` flag for the whole bridge;
- a FIFO of pending UI pushes. Each `MessageManager::callAsync` in
  `sendStateToBrowser` appends one `(uid, value)` pair, and the message thread
  delivers the pairs later.

The UI calls six command handlers: set-value, begin-gesture, end-gesture,
get-spec, get-display and set-display. The engine calls the listener
`parameterChangedSync` synchronously from its setters.

Files:

- `engine.dfy` (module `Engine`): the engine side. It has parameters with a
  user value, a default, a range and a gesture state, a fixed enumeration
  order, and the engine's converters. The converters are left uninterpreted.
  They are the per-parameter `valueFunction` and `getDisplayValueForUserValue`.
  Class `Processor` holds the parameter map and updates it in place.
- `bridge.dfy` (module `Bridge`): the bridge as a state machine over values.
  There is one function per callback and command handler, and `Step` handles
  one event. An event is a UI command or a change the engine makes on its own.
- `parameter_attachment.dfy` (module `Attachment`): class
  `ParameterAttachment` with the fields `registered`, `ignoreCallbacks` and
  `outbox`. These are updated in place. The registration loops and the
  get-spec loop are written as loops. Every state-changing method is proved to
  produce the state its `Bridge` function gives.
- `traces.dfy` (module `Traces`): lemmas about whole sequences of events.

The engine's setter fires the listener *before it returns*. The model writes
that re-entry out in `SetUserValueNotifying`. The setter stores the value and
then, if the bridge is registered on that parameter, runs
`ParameterChangedSync`. That ordering is what makes suppression observable:
set-value holds the flag true across this call, so the re-entrant callback
queues nothing.

Two behaviours are kept exactly as the code has them:

- **The flag is global.** While it is set, a change to *any* parameter is
  dropped, not only the one the UI is setting (`ParameterChangedSync`:
  `s.ignoreCallbacks ==> t == s`, for every uid). This is a known limitation
  of the design, and the model does not change it.
- **Set-display can push twice.** Set-display does not raise the flag. On a
  parameter the bridge listens to, with the flag clear, the listener pushes
  once and the explicit `sendStateToBrowser` call at line 87 pushes again. Both
  pushes carry the converted value. A caller might expect one push per
  set-display; the handler pushes twice when the bridge listens and the flag
  is clear. `Bridge.SetDisplayValue` and `Traces.EmittedBy` state the two
  pushes.

## Model

| member | source | states |
|---|---|---|
| `Engine.Processor.SetUserValue` | src/attachment/ParameterAttachment.cpp:32 | the engine setter stores exactly the new user value of that one parameter, and nothing else changes |
| `Engine.Processor.BeginChangeGesture` | src/attachment/ParameterAttachment.cpp:40 | begin-gesture marks only the named parameter's gesture as active |
| `Engine.Processor.EndChangeGesture` | src/attachment/ParameterAttachment.cpp:47 | end-gesture marks only the named parameter's gesture as finished |
| `Bridge.AddListeners` | src/attachment/ParameterAttachment.cpp:8-12 | afterwards the bridge is registered on every enumerated parameter (exactly the engine's parameter set); values, flag and queue are unchanged |
| `Bridge.RemoveListeners` | src/attachment/ParameterAttachment.cpp:14-18 | afterwards the bridge is registered on no parameter; values, flag and queue are unchanged |
| `Bridge.ParameterChangedSync` | src/attachment/ParameterAttachment.cpp:95-98 | with the flag set, nothing changes, whatever the parameter; with it clear, exactly one push is appended, carrying the uid and the value read at notification time |
| `Bridge.SetUserValueNotifying` | src/attachment/ParameterAttachment.cpp:32 | the engine setter with its synchronous listener call: the value is stored, and one push `(uid, new value)` is queued exactly when the bridge listens to that parameter and the flag is clear |
| `Bridge.UpdatePluginParameter` | src/attachment/ParameterAttachment.cpp:21-35 | set-value on a known uid stores the sent value; the queue is unchanged (no echo); the flag ends as it started; an unknown uid changes nothing |
| `Bridge.SetGesture` | src/attachment/ParameterAttachment.cpp:36-49 | begin/end-gesture set only the named parameter's gesture state; no value, registration, flag or queue changes; an unknown uid changes nothing |
| `Bridge.ParameterSpec` | src/attachment/ParameterAttachment.cpp:114-131 | one record per enumerated parameter, in enumeration order, each carrying that parameter's uid, name, current value, default and range |
| `Bridge.GetDisplayValue` | src/attachment/ParameterAttachment.cpp:57-75 | empty reply exactly for an unknown uid; otherwise the converter's display of the override value when one is sent, or of the current value when none is sent |
| `Bridge.SetDisplayValue` | src/attachment/ParameterAttachment.cpp:77-91 | the parameter takes the converter's value for the string; the queue gains the listener push (only when listening with the flag clear) and then the explicit push, both `(uid, converted value)`, so the last entry is always that; an unknown uid changes nothing |
| `Bridge.Step` | src/attachment/ParameterAttachment.cpp:20-93 | no handler changes the flag, the registrations or the parameter set, and the queue only grows; an event naming an unknown uid returns the empty reply and changes nothing; get-spec and get-display change nothing |
| `Attachment.ParameterAttachment.AddListeners` | src/attachment/ParameterAttachment.cpp:8-12 | the registration loop yields the state of `Bridge.AddListeners`: registered on every parameter |
| `Attachment.ParameterAttachment.RemoveListeners` | src/attachment/ParameterAttachment.cpp:14-18 | the destructor's loop yields the state of `Bridge.RemoveListeners`: registered on none |
| `Attachment.ParameterAttachment.SendStateToBrowser` | src/attachment/ParameterAttachment.cpp:100-112 | appends exactly `(uid, current value)` to the queue |
| `Attachment.ParameterAttachment.ParameterChangedSync` | src/attachment/ParameterAttachment.cpp:95-98 | follows `Bridge.ParameterChangedSync` |
| `Attachment.ParameterAttachment.SetUserValueNotifying` | src/attachment/ParameterAttachment.cpp:32 | follows `Bridge.SetUserValueNotifying`: the listener runs inside the setter |
| `Attachment.ParameterAttachment.UpdatePluginParameter` | src/attachment/ParameterAttachment.cpp:21-35 | the saved and restored flag around the setter gives the state of `Bridge.UpdatePluginParameter`: the queue is unchanged and the flag is as before |
| `Attachment.ParameterAttachment.StartPluginParameterGesture` | src/attachment/ParameterAttachment.cpp:36-42 | follows `Bridge.SetGesture` with the gesture active |
| `Attachment.ParameterAttachment.EndPluginParameterGesture` | src/attachment/ParameterAttachment.cpp:43-49 | follows `Bridge.SetGesture` with the gesture finished |
| `Attachment.ParameterAttachment.GetParameterSpec` | src/attachment/ParameterAttachment.cpp:114-131 | the loop returns one record per enumerated parameter, in order, whose uid, name, value, default and range min/max/step are the engine's current fields; it modifies nothing |
| `Attachment.ParameterAttachment.GetDisplayValue` | src/attachment/ParameterAttachment.cpp:57-75 | empty exactly for an unknown uid; otherwise the display of the override or of the current value; it modifies nothing |
| `Attachment.ParameterAttachment.SetDisplayValue` | src/attachment/ParameterAttachment.cpp:77-91 | follows `Bridge.SetDisplayValue` |
| `Traces.RunKeepsFlagAndRegistration` | src/attachment/ParameterAttachment.cpp:31 | across any sequence of events the flag keeps its value, so starting clear it is never left set; registrations and the parameter set are unchanged; the queue only grows |
| `Traces.StepEmits` | src/attachment/ParameterAttachment.cpp:95-103 | with the flag clear, one event appends exactly the pushes `EmittedBy` lists |
| `Traces.RunEmits` | src/attachment/ParameterAttachment.cpp:95-103 | with the flag clear, the queue after any trace is the old queue followed by exactly the pushes the events emit, in order |
| `Traces.EngineChangesPushEach` | src/attachment/ParameterAttachment.cpp:95-103 | with the flag clear, engine-side changes to listened parameters each queue exactly one push, in order, carrying the value that change set |
| `Traces.UiCommandsAreSilent` | src/attachment/ParameterAttachment.cpp:29-49 | any trace of set-value, gesture and query commands queues nothing |
| `Traces.LastPushAppend` | src/attachment/ParameterAttachment.cpp:103 | the latest queued push for a uid after appending is the latest in the appended part, if there is one |
| `Traces.StepKeepsSynced` | src/attachment/ParameterAttachment.cpp:85-103 | with the flag clear on a listened parameter, every event except set-value keeps the latest queued push for it equal to its engine value; an engine change or set-display of it establishes that |
| `Traces.RunKeepsSynced` | src/attachment/ParameterAttachment.cpp:85-103 | across any trace without set-value, once the latest queued push for a listened parameter carries its engine value (or the trace changes it from the engine or by set-display), this holds at the end: a UI applying pushes in order shows the engine's value |
| `Traces.SetValueLeavesStalePush` | src/attachment/ParameterAttachment.cpp:29-33 | set-value neither queues nor withdraws a push: after an engine change of `u` to `a` and a set-value of `u` to `b != a`, the engine holds `b` while the latest queued push for `u` still carries `a` |
| `Traces.SessionLifecycle` | src/attachment/ParameterAttachment.cpp:8-18 | attach, handle any events, destroy: registered on every parameter while attached, the flag clear after every handler, registered on none at the end |

Helpers without a row: `Bridge.SendStateToBrowser` (the enqueue),
`Bridge.SpecRecord` (the record of lines 117-128), `Traces.Run`,
`Traces.EmittedBy`, `Traces.Emitted`, `Traces.EmittedEngineChanges`,
`Traces.NothingEmitted`, `Traces.LastPush`, `Traces.LastPushSingle`,
`Traces.LastEmitted`, `Traces.StepValue`, `Traces.SyncedValue`, `Traces.Synced`,
`Traces.Syncs` and `Traces.SomeSyncs`.

## Left out

- `src/attachment/PluginInfoAttachment.h`: RPC glue over the version manager,
  the config file, URL launching, OS detection and build constants. It is not
  part of this model.
- `ParameterAttachment.h` is not part of this model. The constructor assumes
  what the member initialisers evidently give: no registrations, the flag
  clear, nothing queued. Who calls `addListeners` and `addBindings` is also
  not modelled.
- Thread hopping: `MessageManager::callAsync` is modelled only as an append
  to a FIFO. The message thread draining it is not an operation of the model,
  and nothing is said about the audio thread and the UI thread running at the
  same time. `Traces.LastPush` describes what a UI shows once the queue is
  drained.
- The push payload: the JSON object and `evaluateJavascript`
  (lines 104-110) are I/O. Only the `(uid, value)` pair is kept.
- Argument decoding: reading `args[0]`, `payload["parameter"]` and
  `args[1]`, and the absence of a second argument to set-display, are not
  modelled. Handlers take typed arguments, and get-display's optional second
  argument is an `Option`.
- `Bridge.UpdatePluginParameter`: receives the value already parsed. The
  string-to-float parse at line 27 (`getFloatValue`) is not modelled.
- Floating-point values are an abstract type `Engine.Value`. The model makes
  no numeric claims. For example, `min <= max` and the default lying within
  the range hold or fail according to the engine; the bridge enforces
  neither.
- The converters (`valueFunction`, `getDisplayValueForUserValue`) are
  uninterpreted functions supplied with the engine. Their parse failures are
  their own business.
- The converters are fixed functions of the uid and the string or value. The
  source passes the live parameter and its current configuration
  (`param->getConfig()->valueFunction(*param, …)` at line 85, and
  `param->getDisplayValueForUserValue` at line 70). The model does not capture
  a converter whose result depends on the parameter's current state or on a
  configuration that changes.
- `Bridge.UpdatePluginParameter`: the engine setter cannot fail in the model.
  `juce::ScopedValueSetter` (line 31) restores the flag even when
  `setUserValueNotifingHost` throws. The model's explicit save-and-restore in
  `Attachment.ParameterAttachment.UpdatePluginParameter` gives the same result
  only because nothing throws. The "flag restored when the setter fails" half
  of that promise is not modelled.
- `Engine.Processor.SetUserValue`: stores the value exactly as given. Any
  snapping or clamping the engine does inside its setter is not modelled.
- Host notification: `setUserValueNotifingHost` and
  `setUserValueAsUserAction` differ only towards the host. Both are modelled
  as "store, then fire listeners". What begin/end-gesture tell the host is
  reduced to a per-parameter boolean.
- Only this bridge is modelled as a listener. Other listeners of the same
  parameters are not modelled.
- The `getName(100)` truncation and the `choc::value` container mechanics:
  the spec record carries the name as the engine gives it.
- Set-value does not clear stale pushes that are already queued for the same
  parameter. `Traces.RunKeepsSynced` therefore excludes set-value. When a
  push queued by an earlier engine change is delivered after a set-value, the
  UI shows the older value until the next change.
  `Traces.SetValueLeavesStalePush` proves this for one engine change followed
  by one set-value. The model does not change this behaviour.
