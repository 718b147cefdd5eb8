/** The bridge object itself: the listener registrations, the
    `ignoreCallbacks` flag and the queue that `MessageManager::callAsync`
    feeds, updated in place. Every method is proved to follow the matching
    function of module `Bridge`. */
module Attachment {
  import opened Engine
  import opened Bridge

  class ParameterAttachment {
    const processor: Processor
    var registered: set<Uid>
    var ignoreCallbacks: bool
    var outbox: seq<Push>

    ghost function Env(): Bridge.Env {
      Bridge.Env(processor.parameterOrder, processor.valueFunction, processor.displayFunction)
    }

    ghost function State(): Bridge.State
      reads this, processor
    {
      Bridge.State(processor.params, registered, ignoreCallbacks, outbox)
    }

    ghost predicate Valid()
      reads this, processor
    {
      Bridge.Valid(Env(), State())
    }

    /** A bridge that listens to nothing yet, has the flag clear and nothing
        queued. */
    constructor (p: Processor)
      requires p.Valid()
      ensures Valid()
      ensures processor == p && State() == Bridge.State(p.params, {}, false, [])
    {
      processor := p;
      registered := {};
      ignoreCallbacks := false;
      outbox := [];
    }

    /** `addListeners`: register on each parameter in enumeration order. */
    method AddListeners()
      requires Valid()
      modifies this
      ensures Valid()
      ensures State() == Bridge.AddListeners(Env(), old(State()))
      ensures registered == processor.params.Keys
    {
      var order := processor.parameterOrder;
      for i := 0 to |order|
        invariant registered == old(registered) + (set u | u in order[..i])
        invariant ignoreCallbacks == old(ignoreCallbacks) && outbox == old(outbox)
      {
        assert order[..i + 1] == order[..i] + [order[i]];
        registered := registered + {order[i]};
      }
      assert order[..|order|] == order;
    }

    /** The destructor: remove the listener from each parameter in
        enumeration order, whether or not it was ever added. */
    method RemoveListeners()
      requires Valid()
      modifies this
      ensures Valid()
      ensures State() == Bridge.RemoveListeners(Env(), old(State()))
      ensures registered == {}
    {
      var order := processor.parameterOrder;
      for i := 0 to |order|
        invariant registered == old(registered) - (set u | u in order[..i])
        invariant ignoreCallbacks == old(ignoreCallbacks) && outbox == old(outbox)
      {
        assert order[..i + 1] == order[..i] + [order[i]];
        registered := registered - {order[i]};
      }
      assert order[..|order|] == order;
    }

    /** `sendStateToBrowser`: capture uid and current value now, deliver later. */
    method SendStateToBrowser(uid: Uid)
      requires Valid() && uid in processor.params
      modifies this
      ensures Valid()
      ensures State() == Bridge.SendStateToBrowser(old(State()), uid)
      ensures outbox == old(outbox) + [Push(uid, processor.params[uid].userValue)]
    {
      var value := processor.params[uid].userValue;
      outbox := outbox + [Push(uid, value)];
    }

    /** `parameterChangedSync`: the listener callback. */
    method ParameterChangedSync(uid: Uid)
      requires Valid() && uid in processor.params
      modifies this
      ensures Valid()
      ensures State() == Bridge.ParameterChangedSync(old(State()), uid)
    {
      if !ignoreCallbacks {
        SendStateToBrowser(uid);
      }
    }

    /** The engine's setter together with its synchronous listener dispatch:
        the callback runs before the setter returns, which is what makes the
        flag observable. Host automation changes a parameter the same way. */
    method SetUserValueNotifying(uid: Uid, v: Value)
      requires Valid() && uid in processor.params
      modifies this, processor
      ensures Valid()
      ensures State() == Bridge.SetUserValueNotifying(old(State()), uid, v)
    {
      processor.SetUserValue(uid, v);
      if uid in registered {
        ParameterChangedSync(uid);
      }
    }

    /** `juce_updatePluginParameter`: the scoped setter holds the flag true
        across the engine call and restores the saved value afterwards. */
    method UpdatePluginParameter(uid: Uid, newValue: Value)
      requires Valid()
      modifies this, processor
      ensures Valid()
      ensures State() == Bridge.UpdatePluginParameter(old(State()), uid, newValue)
      ensures outbox == old(outbox) && ignoreCallbacks == old(ignoreCallbacks)
    {
      if uid in processor.params {
        var saved := ignoreCallbacks;
        ignoreCallbacks := true;
        SetUserValueNotifying(uid, newValue);
        ignoreCallbacks := saved;
      }
    }

    /** `juce_startPluginParameterGesture`. */
    method StartPluginParameterGesture(uid: Uid)
      requires Valid()
      modifies processor
      ensures Valid()
      ensures State() == Bridge.SetGesture(old(State()), uid, true)
    {
      if uid in processor.params {
        processor.BeginChangeGesture(uid);
      }
    }

    /** `juce_endPluginParameterGesture`. */
    method EndPluginParameterGesture(uid: Uid)
      requires Valid()
      modifies processor
      ensures Valid()
      ensures State() == Bridge.SetGesture(old(State()), uid, false)
    {
      if uid in processor.params {
        processor.EndChangeGesture(uid);
      }
    }

    /** `getParameterSpec`: append one record per enumerated parameter. */
    method GetParameterSpec() returns (spec: seq<ParamSpec>)
      requires Valid()
      ensures |spec| == |processor.parameterOrder|
      ensures forall i :: 0 <= i < |spec| ==>
        var u := processor.parameterOrder[i];
        var p := processor.params[u];
        && spec[i].uid == u && spec[i].name == p.name
        && spec[i].value == p.userValue && spec[i].defaultVal == p.userDefault
        && spec[i].range == SpecRange(p.range.start, p.range.end, p.range.interval)
    {
      var order := processor.parameterOrder;
      spec := [];
      for i := 0 to |order|
        invariant |spec| == i
        invariant forall k :: 0 <= k < i ==> spec[k] == SpecRecord(order[k], processor.params[order[k]])
      {
        var p := processor.params[order[i]];
        spec := spec + [SpecRecord(order[i], p)];
      }
    }

    /** `juce_getDisplayValue`; `None` is the empty reply. */
    method GetDisplayValue(uid: Uid, preview: Option<Value>) returns (r: Option<DisplayValue>)
      requires Valid()
      ensures r.None? <==> uid !in processor.params
      ensures uid in processor.params ==>
        r == Some(processor.displayFunction(uid,
                    if preview.Some? then preview.value else processor.params[uid].userValue))
    {
      if uid !in processor.params {
        return None;
      }
      var userVal := processor.params[uid].userValue;
      if preview.Some? {
        userVal := preview.value;
      }
      r := Some(processor.displayFunction(uid, userVal));
    }

    /** `juce_setDisplayValue`. */
    method SetDisplayValue(uid: Uid, displayValue: string)
      requires Valid()
      modifies this, processor
      ensures Valid()
      ensures State() == Bridge.SetDisplayValue(Env(), old(State()), uid, displayValue)
    {
      if uid !in processor.params {
        return;
      }
      var v := processor.valueFunction(uid, displayValue);
      SetUserValueNotifying(uid, v);
      SendStateToBrowser(uid);
    }
  }
}
