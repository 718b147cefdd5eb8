/** The parameter bridge as a state machine over values: what each listener
    callback and each UI command does to the engine's parameters, the
    bridge's listener registrations, its echo-suppression flag and its queue of
    pending UI pushes. The class `Attachment.ParameterAttachment` is proved to
    follow these functions step by step. */
module Bridge {
  import opened Engine

  /** One queued `window.ui.updateParameterState` call: the uid and the value
      read when the push was queued. */
  datatype Push = Push(uid: Uid, value: Value)

  /** The engine's fixed parts: enumeration order and converters. */
  datatype Env = Env(
    order: seq<Uid>,
    valueFunction: (Uid, string) -> Value,
    displayFunction: (Uid, Value) -> DisplayValue)

  /** Everything the bridge can change: parameter values and gesture states
      (through the engine), the set of parameters it listens to, the
      suppression flag, and the FIFO of pushes the message thread has yet
      to deliver. */
  datatype State = State(
    params: map<Uid, Param>,
    registered: set<Uid>,
    ignoreCallbacks: bool,
    outbox: seq<Push>)

  ghost predicate Valid(env: Env, s: State) {
    Enumerates(env.order, s.params) && s.registered <= s.params.Keys
  }

  /** The three pieces of bridge state other than the engine's. */
  ghost predicate SameBridge(s: State, t: State) {
    t.registered == s.registered && t.ignoreCallbacks == s.ignoreCallbacks && t.outbox == s.outbox
  }

  /** The record `getParameterSpec` builds for one parameter. */
  datatype SpecRange = SpecRange(min: Value, max: Value, step: Value)
  datatype ParamSpec = ParamSpec(uid: Uid, name: string, value: Value,
                                 defaultVal: Value, range: SpecRange)

  function SpecRecord(uid: Uid, p: Param): ParamSpec {
    ParamSpec(uid, p.name, p.userValue, p.userDefault,
              SpecRange(p.range.start, p.range.end, p.range.interval))
  }

  // ---------------------------------------------------------------------
  // Registration

  /** `addListeners`: listen to every parameter the engine enumerates. */
  function AddListeners(env: Env, s: State): (t: State)
    ensures t.registered == s.registered + (set u | u in env.order)
    ensures Valid(env, s) ==> Valid(env, t) && t.registered == s.params.Keys
    ensures t.params == s.params && t.ignoreCallbacks == s.ignoreCallbacks && t.outbox == s.outbox
  {
    s.(registered := s.registered + (set u | u in env.order))
  }

  /** The destructor: stop listening to every parameter the engine enumerates. */
  function RemoveListeners(env: Env, s: State): (t: State)
    ensures t.registered == s.registered - (set u | u in env.order)
    ensures Valid(env, s) ==> Valid(env, t) && t.registered == {}
    ensures t.params == s.params && t.ignoreCallbacks == s.ignoreCallbacks && t.outbox == s.outbox
  {
    s.(registered := s.registered - (set u | u in env.order))
  }

  // ---------------------------------------------------------------------
  // Change propagation

  /** `sendStateToBrowser`: read the parameter's uid and current value now and
      queue a push carrying them. */
  function SendStateToBrowser(s: State, uid: Uid): State
    requires uid in s.params
  {
    s.(outbox := s.outbox + [Push(uid, s.params[uid].userValue)])
  }

  /** `parameterChangedSync`, the listener callback: push unless suppressed.
      The flag is global, so while it is set a change to ANY parameter is
      dropped, not only the one the UI is setting. */
  function ParameterChangedSync(s: State, uid: Uid): (t: State)
    requires uid in s.params
    ensures s.ignoreCallbacks ==> t == s
    ensures !s.ignoreCallbacks ==> t.outbox == s.outbox + [Push(uid, s.params[uid].userValue)]
    ensures t.params == s.params && t.registered == s.registered
    ensures t.ignoreCallbacks == s.ignoreCallbacks
  {
    if s.ignoreCallbacks then s else SendStateToBrowser(s, uid)
  }

  /** The engine's setter (`setUserValueNotifingHost`,
      `setUserValueAsUserAction`, or a change from host automation): store the
      value, then call the listener synchronously if the bridge is registered
      on this parameter. */
  function SetUserValueNotifying(s: State, uid: Uid, v: Value): (t: State)
    requires uid in s.params
    ensures t.params == s.params[uid := s.params[uid].(userValue := v)]
    ensures t.registered == s.registered && t.ignoreCallbacks == s.ignoreCallbacks
    ensures t.outbox == if uid in s.registered && !s.ignoreCallbacks
                        then s.outbox + [Push(uid, v)] else s.outbox
  {
    var stored := s.(params := s.params[uid := s.params[uid].(userValue := v)]);
    if uid in s.registered then ParameterChangedSync(stored, uid) else stored
  }

  // ---------------------------------------------------------------------
  // Command handlers

  /** `juce_updatePluginParameter`: set the value with the flag held true for
      the duration of the engine call, then put the flag back as it was. */
  function UpdatePluginParameter(s: State, uid: Uid, v: Value): (t: State)
    ensures uid !in s.params ==> t == s
    ensures uid in s.params ==> t.params == s.params[uid := s.params[uid].(userValue := v)]
    ensures t.outbox == s.outbox
    ensures t.ignoreCallbacks == s.ignoreCallbacks
    ensures t.registered == s.registered
  {
    if uid !in s.params then s
    else
      var during := SetUserValueNotifying(s.(ignoreCallbacks := true), uid, v);
      during.(ignoreCallbacks := s.ignoreCallbacks)
  }

  /** `juce_startPluginParameterGesture` / `juce_endPluginParameterGesture`. */
  function SetGesture(s: State, uid: Uid, active: bool): (t: State)
    ensures uid !in s.params ==> t == s
    ensures SameBridge(s, t) && t.params.Keys == s.params.Keys
    ensures uid in s.params ==> t.params[uid] == s.params[uid].(gestureActive := active)
    ensures forall u :: u in s.params ==> t.params[u].userValue == s.params[u].userValue
    ensures forall u :: u in s.params && u != uid ==> t.params[u] == s.params[u]
  {
    if uid !in s.params then s
    else s.(params := s.params[uid := s.params[uid].(gestureActive := active)])
  }

  /** `getParameterSpec` / `juce_getPluginParameters`: one record per
      parameter, in enumeration order. */
  function ParameterSpec(order: seq<Uid>, params: map<Uid, Param>): (r: seq<ParamSpec>)
    requires forall i :: 0 <= i < |order| ==> order[i] in params
    ensures |r| == |order|
    ensures forall i :: 0 <= i < |order| ==> r[i] == SpecRecord(order[i], params[order[i]])
  {
    if order == [] then []
    else [SpecRecord(order[0], params[order[0]])] + ParameterSpec(order[1..], params)
  }

  /** `juce_getDisplayValue`: format the override value when the UI sends one,
      the parameter's current value otherwise; `None` is the empty reply for an
      unknown uid. */
  function GetDisplayValue(env: Env, s: State, uid: Uid, preview: Option<Value>): (r: Option<DisplayValue>)
    ensures r.None? <==> uid !in s.params
    ensures uid in s.params && preview.None? ==> r == Some(env.displayFunction(uid, s.params[uid].userValue))
    ensures uid in s.params && preview.Some? ==> r == Some(env.displayFunction(uid, preview.value))
  {
    if uid !in s.params then None
    else
      var userVal := if preview.Some? then preview.value else s.params[uid].userValue;
      Some(env.displayFunction(uid, userVal))
  }

  /** `juce_setDisplayValue`: parse the string with the parameter's own
      converter, set the result as a user action (the flag is NOT raised, so
      the listener may push), then push explicitly. */
  function SetDisplayValue(env: Env, s: State, uid: Uid, text: string): (t: State)
    ensures uid !in s.params ==> t == s
    ensures uid in s.params ==>
      var v := env.valueFunction(uid, text);
      && t.params == s.params[uid := s.params[uid].(userValue := v)]
      && t.outbox == s.outbox
                     + (if uid in s.registered && !s.ignoreCallbacks then [Push(uid, v)] else [])
                     + [Push(uid, v)]
    ensures t.registered == s.registered && t.ignoreCallbacks == s.ignoreCallbacks
  {
    if uid !in s.params then s
    else
      var v := env.valueFunction(uid, text);
      SendStateToBrowser(SetUserValueNotifying(s, uid, v), uid)
  }

  // ---------------------------------------------------------------------
  // One event at a time

  datatype Option<T> = None | Some(value: T)

  /** The reply a handler returns to the UI; `Empty` is `return {}`. */
  datatype Reply = Empty | Spec(records: seq<ParamSpec>) | Display(display: DisplayValue)

  /** What can happen to the bridge: a UI command, or a change to a parameter
      that the engine makes on its own (host automation, internal modulation). */
  datatype Event =
    | UpdateParameter(uid: Uid, value: Value)
    | StartGesture(uid: Uid)
    | EndGesture(uid: Uid)
    | GetParameters
    | GetDisplay(uid: Uid, preview: Option<Value>)
    | SetDisplay(uid: Uid, text: string)
    | EngineChange(uid: Uid, value: Value)

  datatype Outcome = Outcome(state: State, reply: Reply)

  function Step(env: Env, s: State, e: Event): (o: Outcome)
    requires Valid(env, s)
    ensures Valid(env, o.state)
    ensures o.state.ignoreCallbacks == s.ignoreCallbacks && o.state.registered == s.registered
    ensures o.state.params.Keys == s.params.Keys
    ensures s.outbox <= o.state.outbox
    ensures !e.GetParameters? && e.uid !in s.params ==> o == Outcome(s, Empty)
    ensures e.GetParameters? || e.GetDisplay? ==> o.state == s
    ensures !e.GetParameters? && !e.GetDisplay? ==> o.reply == Empty
  {
    match e
    case UpdateParameter(uid, v) => Outcome(UpdatePluginParameter(s, uid, v), Empty)
    case StartGesture(uid) => Outcome(SetGesture(s, uid, true), Empty)
    case EndGesture(uid) => Outcome(SetGesture(s, uid, false), Empty)
    case GetParameters => Outcome(s, Spec(ParameterSpec(env.order, s.params)))
    case GetDisplay(uid, preview) =>
      var r := GetDisplayValue(env, s, uid, preview);
      Outcome(s, if r.Some? then Display(r.value) else Empty)
    case SetDisplay(uid, text) => Outcome(SetDisplayValue(env, s, uid, text), Empty)
    case EngineChange(uid, v) =>
      Outcome(if uid in s.params then SetUserValueNotifying(s, uid, v) else s, Empty)
  }
}
