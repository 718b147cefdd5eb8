/** Properties of whole sequences of events: UI commands interleaved with
    changes the engine makes on its own. */
module Traces {
  import opened Engine
  import opened Bridge

  /** The state after handling `evs` in order. */
  function Run(env: Env, s: State, evs: seq<Event>): State
    requires Valid(env, s)
    decreases |evs|
  {
    if evs == [] then s else Run(env, Step(env, s, evs[0]).state, evs[1..])
  }

  /** No event handler leaves the flag changed, or registers or unregisters
      anything; pushes are only ever appended. Starting from a clear flag, the
      flag is clear after every handler. */
  lemma {:induction false} RunKeepsFlagAndRegistration(env: Env, s: State, evs: seq<Event>)
    requires Valid(env, s)
    ensures Valid(env, Run(env, s, evs))
    ensures Run(env, s, evs).ignoreCallbacks == s.ignoreCallbacks
    ensures Run(env, s, evs).registered == s.registered
    ensures Run(env, s, evs).params.Keys == s.params.Keys
    ensures s.outbox <= Run(env, s, evs).outbox
    decreases |evs|
  {
    if evs != [] {
      var t := Step(env, s, evs[0]).state;
      RunKeepsFlagAndRegistration(env, t, evs[1..]);
    }
  }

  // ---------------------------------------------------------------------
  // Exactly which pushes are queued

  /** The pushes one event queues while the flag is clear: one per engine
      change of a parameter the bridge listens to, none for set-value, the
      gestures or the queries, and for set-display the listener's push (when
      listening) followed by the explicit one. */
  function EmittedBy(env: Env, known: set<Uid>, registered: set<Uid>, e: Event): seq<Push> {
    match e
    case EngineChange(u, v) => if u in registered then [Push(u, v)] else []
    case SetDisplay(u, text) =>
      if u !in known then []
      else
        var p := Push(u, env.valueFunction(u, text));
        (if u in registered then [p] else []) + [p]
    case _ => []
  }

  function Emitted(env: Env, known: set<Uid>, registered: set<Uid>, evs: seq<Event>): seq<Push>
    decreases |evs|
  {
    if evs == [] then []
    else EmittedBy(env, known, registered, evs[0]) + Emitted(env, known, registered, evs[1..])
  }

  lemma StepEmits(env: Env, s: State, e: Event)
    requires Valid(env, s) && !s.ignoreCallbacks
    ensures Step(env, s, e).state.outbox == s.outbox + EmittedBy(env, s.params.Keys, s.registered, e)
  {
  }

  /** With the flag clear, the queue after a trace is the queue before it
      followed by exactly the pushes the events emit, in order. */
  lemma {:induction false} RunEmits(env: Env, s: State, evs: seq<Event>)
    requires Valid(env, s) && !s.ignoreCallbacks
    ensures Run(env, s, evs).outbox == s.outbox + Emitted(env, s.params.Keys, s.registered, evs)
    decreases |evs|
  {
    if evs != [] {
      var t := Step(env, s, evs[0]).state;
      var first := EmittedBy(env, s.params.Keys, s.registered, evs[0]);
      var rest := Emitted(env, s.params.Keys, s.registered, evs[1..]);
      StepEmits(env, s, evs[0]);
      assert t.outbox == s.outbox + first;
      RunEmits(env, t, evs[1..]);
      assert Run(env, s, evs).outbox == t.outbox + rest;
      assert Emitted(env, s.params.Keys, s.registered, evs) == first + rest;
      assert s.outbox + first + rest == s.outbox + (first + rest);
    }
  }

  /** A trace of engine-side changes to listened parameters, flag clear:
      one push per change, in order, each carrying the value the change set
      (the value read when it was notified, not a later one). */
  lemma {:induction false} EngineChangesPushEach(env: Env, s: State, evs: seq<Event>)
    requires Valid(env, s) && !s.ignoreCallbacks
    requires forall i :: 0 <= i < |evs| ==> evs[i].EngineChange? && evs[i].uid in s.registered
    ensures |Run(env, s, evs).outbox| == |s.outbox| + |evs|
    ensures Run(env, s, evs).outbox[..|s.outbox|] == s.outbox
    ensures forall i :: 0 <= i < |evs| ==>
      Run(env, s, evs).outbox[|s.outbox| + i] == Push(evs[i].uid, evs[i].value)
  {
    RunEmits(env, s, evs);
    EmittedEngineChanges(env, s.params.Keys, s.registered, evs);
  }

  lemma {:induction false} EmittedEngineChanges(env: Env, known: set<Uid>, registered: set<Uid>, evs: seq<Event>)
    requires forall i :: 0 <= i < |evs| ==> evs[i].EngineChange? && evs[i].uid in registered
    ensures |Emitted(env, known, registered, evs)| == |evs|
    ensures forall i :: 0 <= i < |evs| ==>
      Emitted(env, known, registered, evs)[i] == Push(evs[i].uid, evs[i].value)
  {
    if evs != [] {
      EmittedEngineChanges(env, known, registered, evs[1..]);
      forall i | 0 <= i < |evs|
        ensures Emitted(env, known, registered, evs)[i] == Push(evs[i].uid, evs[i].value)
      {
        if i > 0 {
          assert evs[1..][i - 1] == evs[i];
        }
      }
    }
  }

  /** A trace of set-value commands, gestures and queries queues nothing. */
  lemma {:induction false} UiCommandsAreSilent(env: Env, s: State, evs: seq<Event>)
    requires Valid(env, s) && !s.ignoreCallbacks
    requires forall i :: 0 <= i < |evs| ==> !evs[i].EngineChange? && !evs[i].SetDisplay?
    ensures Run(env, s, evs).outbox == s.outbox
  {
    RunEmits(env, s, evs);
    NothingEmitted(env, s.params.Keys, s.registered, evs);
  }

  lemma {:induction false} NothingEmitted(env: Env, known: set<Uid>, registered: set<Uid>, evs: seq<Event>)
    requires forall i :: 0 <= i < |evs| ==> !evs[i].EngineChange? && !evs[i].SetDisplay?
    ensures Emitted(env, known, registered, evs) == []
  {
    if evs != [] {
      NothingEmitted(env, known, registered, evs[1..]);
    }
  }

  // ---------------------------------------------------------------------
  // The queue's latest entry per parameter

  /** The value of the last queued push for `u`, if any: what a UI that
      applies pushes in order shows for `u` once the queue is drained. */
  function LastPush(q: seq<Push>, u: Uid): Option<Value>
    decreases |q|
  {
    if q == [] then None
    else if q[|q| - 1].uid == u then Some(q[|q| - 1].value)
    else LastPush(q[..|q| - 1], u)
  }

  lemma {:induction false} LastPushAppend(q: seq<Push>, r: seq<Push>, u: Uid)
    ensures LastPush(q + r, u) == if LastPush(r, u).Some? then LastPush(r, u) else LastPush(q, u)
    decreases |r|
  {
    if r != [] {
      var qr := q + r;
      assert qr[..|qr| - 1] == q + r[..|r| - 1];
      LastPushAppend(q, r[..|r| - 1], u);
    } else {
      assert q + r == q;
    }
  }

  /** The last queued push for `u` carries `u`'s current engine value. */
  ghost predicate Synced(s: State, u: Uid) {
    u in s.params && LastPush(s.outbox, u) == Some(s.params[u].userValue)
  }

  /** An event that ends with the engine's value for `u` queued. */
  predicate Syncs(e: Event, u: Uid) {
    (e.EngineChange? || e.SetDisplay?) && e.uid == u
  }

  /** The value an event that `Syncs` leaves in the engine. */
  function SyncedValue(env: Env, e: Event): Value
    requires e.EngineChange? || e.SetDisplay?
  {
    if e.EngineChange? then e.value else env.valueFunction(e.uid, e.text)
  }

  lemma LastPushSingle(p: Push, u: Uid)
    ensures LastPush([p], u) == if p.uid == u then Some(p.value) else None
  {
  }

  /** The latest push an event emits for `u`: the synced value when the event
      syncs a listened `u`, none when the event concerns another parameter. */
  lemma LastEmitted(env: Env, known: set<Uid>, registered: set<Uid>, e: Event, u: Uid)
    requires registered <= known && u in registered
    ensures Syncs(e, u) ==> LastPush(EmittedBy(env, known, registered, e), u) == Some(SyncedValue(env, e))
    ensures !Syncs(e, u) ==> LastPush(EmittedBy(env, known, registered, e), u) == None
  {
    match e
    case SetDisplay(w, text) =>
      if w in known {
        var p := Push(w, env.valueFunction(w, text));
        LastPushSingle(p, u);
        LastPushAppend(if w in registered then [p] else [], [p], u);
      }
    case EngineChange(w, v) =>
      LastPushSingle(Push(w, v), u);
    case _ =>
  }

  /** An event other than set-value leaves `u`'s value alone unless it syncs `u`. */
  lemma StepValue(env: Env, s: State, e: Event, u: Uid)
    requires Valid(env, s) && u in s.params && !e.UpdateParameter?
    ensures u in Step(env, s, e).state.params
    ensures Step(env, s, e).state.params[u].userValue
            == if Syncs(e, u) then SyncedValue(env, e) else s.params[u].userValue
  {
  }

  /** Some event of the trace syncs `u`. */
  predicate SomeSyncs(evs: seq<Event>, u: Uid) {
    exists i :: 0 <= i < |evs| && Syncs(evs[i], u)
  }

  lemma StepKeepsSynced(env: Env, s: State, e: Event, u: Uid)
    requires Valid(env, s) && !s.ignoreCallbacks && u in s.registered
    requires !e.UpdateParameter?
    requires Synced(s, u) || Syncs(e, u)
    ensures Synced(Step(env, s, e).state, u)
  {
    var emitted := EmittedBy(env, s.params.Keys, s.registered, e);
    StepEmits(env, s, e);
    LastPushAppend(s.outbox, emitted, u);
    LastEmitted(env, s.params.Keys, s.registered, e, u);
    StepValue(env, s, e, u);
  }

  /** Without set-value commands and with the flag clear, once the engine's
      value for a listened parameter `u` is the latest one queued (it was at
      the start, or an engine change or set-display of `u` happened), it stays
      so: a UI that applies every push in order ends up showing the engine's
      current value. Set-value is excluded because it deliberately queues
      nothing: the UI already holds the value it sent. */
  lemma {:induction false} RunKeepsSynced(env: Env, s: State, evs: seq<Event>, u: Uid)
    requires Valid(env, s) && !s.ignoreCallbacks && u in s.registered
    requires forall i :: 0 <= i < |evs| ==> !evs[i].UpdateParameter?
    requires Synced(s, u) || SomeSyncs(evs, u)
    ensures Synced(Run(env, s, evs), u)
    decreases |evs|
  {
    if evs != [] {
      var t := Step(env, s, evs[0]).state;
      if Synced(s, u) || Syncs(evs[0], u) {
        StepKeepsSynced(env, s, evs[0], u);
      } else {
        var i :| 0 <= i < |evs| && Syncs(evs[i], u);
        assert i != 0;
        assert Syncs(evs[1..][i - 1], u);
      }
      RunKeepsSynced(env, t, evs[1..], u);
    }
  }

  /** Set-value queues nothing and does not withdraw what is already queued:
      after an engine change of `u` to `a` and then a set-value of `u` to
      `b`, the engine holds `b` while the latest queued push for `u` still
      carries `a`. A UI that applies that push after sending `b` shows `a`
      until the next change. */
  lemma SetValueLeavesStalePush(env: Env, s: State, u: Uid, a: Value, b: Value)
    requires Valid(env, s) && !s.ignoreCallbacks && u in s.registered && a != b
    ensures var t := Run(env, s, [EngineChange(u, a), UpdateParameter(u, b)]);
      && u in t.params && t.params[u].userValue == b
      && LastPush(t.outbox, u) == Some(a)
      && !Synced(t, u)
  {
    var evs := [EngineChange(u, a), UpdateParameter(u, b)];
    var s1 := SetUserValueNotifying(s, u, a);
    assert Step(env, s, evs[0]).state == s1;
    assert s1.outbox == s.outbox + [Push(u, a)];
    var s2 := UpdatePluginParameter(s1, u, b);
    assert Step(env, s1, evs[1]).state == s2;
    assert evs[1..] == [UpdateParameter(u, b)];
    assert Run(env, s1, evs[1..]) == Run(env, s2, []);
    assert Run(env, s, evs) == s2;
    assert s2.outbox == s.outbox + [Push(u, a)];
    LastPushAppend(s.outbox, [Push(u, a)], u);
    LastPushSingle(Push(u, a), u);
  }

  // ---------------------------------------------------------------------
  // A whole attachment lifetime

  /** Construct, attach, handle any events, destroy: while attached the bridge
      listens to every parameter and the flag is clear between handlers; after
      destruction it listens to none and the flag is still clear. */
  lemma SessionLifecycle(env: Env, params: map<Uid, Param>, evs: seq<Event>)
    requires Enumerates(env.order, params)
    ensures var attached := AddListeners(env, State(params, {}, false, []));
      && Valid(env, attached) && attached.registered == params.Keys
      && Run(env, attached, evs).registered == params.Keys
      && !Run(env, attached, evs).ignoreCallbacks
      && Valid(env, Run(env, attached, evs))
      && RemoveListeners(env, Run(env, attached, evs)).registered == {}
      && !RemoveListeners(env, Run(env, attached, evs)).ignoreCallbacks
  {
    var attached := AddListeners(env, State(params, {}, false, []));
    RunKeepsFlagAndRegistration(env, attached, evs);
  }
}
