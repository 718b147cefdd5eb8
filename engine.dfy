/** The parameter engine the bridge is attached to: the processor's parameter
    set, each parameter's user value, default, range and gesture state, and the
    per-parameter display converters. The engine owns all of this; the bridge
    only reads it and calls its setters. */
module Engine {

  /** A parameter's stable unique id (its `getUID()`). */
  type Uid = string

  /** A user-space parameter value. The engine stores floating-point numbers;
      the bridge never computes with them, so the model keeps them abstract. */
  type Value

  /** The user range `{start, end, interval}` (`getUserRange()`). */
  datatype Range = Range(start: Value, end: Value, interval: Value)

  /** What `getDisplayValueForUserValue` yields: a formatted number and its unit. */
  datatype DisplayValue = DisplayValue(value: string, suffix: string)

  /** One engine parameter. `gestureActive` is the state that
      `beginChangeGesture` and `endChangeGesture` toggle. */
  datatype Param = Param(
    name: string,
    userValue: Value,
    userDefault: Value,
    range: Range,
    gestureActive: bool)

  /** No id occurs twice in the enumeration order. */
  ghost predicate Distinct(order: seq<Uid>) {
    forall i, j :: 0 <= i < j < |order| ==> order[i] != order[j]
  }

  /** The enumeration `getPluginParameters()` lists exactly the parameters
      `getParameter(uid)` can find, each once. */
  ghost predicate Enumerates(order: seq<Uid>, params: map<Uid, Param>) {
    Distinct(order) && forall u :: u in params <==> u in order
  }

  /** The processor: a fixed, ordered parameter set whose values change in place.
      `valueFunction` is each parameter's display-string parser
      (`getConfig()->valueFunction`), `displayFunction` its formatter
      (`getDisplayValueForUserValue`). Both belong to the engine and are left
      uninterpreted. */
  class Processor {
    const parameterOrder: seq<Uid>
    const valueFunction: (Uid, string) -> Value
    const displayFunction: (Uid, Value) -> DisplayValue
    var params: map<Uid, Param>

    ghost predicate Valid()
      reads this
    {
      Enumerates(parameterOrder, params)
    }

    constructor (order: seq<Uid>, initial: map<Uid, Param>,
                 parse: (Uid, string) -> Value, format: (Uid, Value) -> DisplayValue)
      requires Enumerates(order, initial)
      ensures Valid()
      ensures parameterOrder == order && params == initial
      ensures valueFunction == parse && displayFunction == format
    {
      parameterOrder := order;
      params := initial;
      valueFunction := parse;
      displayFunction := format;
    }

    /** Stores a new user value for `uid`. Listener dispatch is the caller's
        business (see `Attachment.ParameterAttachment.SetUserValueNotifying`). */
    method SetUserValue(uid: Uid, v: Value)
      requires Valid() && uid in params
      modifies this
      ensures Valid()
      ensures params == old(params)[uid := old(params)[uid].(userValue := v)]
    {
      params := params[uid := params[uid].(userValue := v)];
    }

    /** `beginChangeGesture`: marks a user-interactive edit of `uid` as started. */
    method BeginChangeGesture(uid: Uid)
      requires Valid() && uid in params
      modifies this
      ensures Valid()
      ensures params == old(params)[uid := old(params)[uid].(gestureActive := true)]
    {
      params := params[uid := params[uid].(gestureActive := true)];
    }

    /** `endChangeGesture`: marks the user-interactive edit of `uid` as finished. */
    method EndChangeGesture(uid: Uid)
      requires Valid() && uid in params
      modifies this
      ensures Valid()
      ensures params == old(params)[uid := old(params)[uid].(gestureActive := false)]
    {
      params := params[uid := params[uid].(gestureActive := false)];
    }
  }
}
