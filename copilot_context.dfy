/**
  The shared context the hook works against: the store cell that
  `setCoagentStates` replaces and the session slot that `setAgentSession`
  replaces. Each method is one of the hook's writes, specified by the pure
  functions of `UseCoagent` and `AgentSessions`.
 */
module CopilotContexts {
  import opened Wrappers
  import opened UseCoagent
  import opened AgentSessions

  class CopilotContext<T(==)> {
    var coagentStates: Store<T>
    var agentSession: Session

    constructor (states: Store<T>, session: Session)
      ensures coagentStates == states && agentSession == session
    {
      coagentStates := states;
      agentSession := session;
    }

    /** The hook's `setState`: the store cell is replaced by a copy in which
        only the hook's entry has a new `state`. */
    method SetState(o: Options<T>, arg: StateArg<T>)
      modifies this
      ensures coagentStates == SetStateUpdate(old(coagentStates), o, arg)
      ensures coagentStates.Keys == old(coagentStates).Keys + {o.name}
      ensures forall k :: k in old(coagentStates) && k != o.name ==> coagentStates[k] == old(coagentStates)[k]
      ensures GetCoagentState(coagentStates, o).state == Resolve(arg, GetCoagentState(old(coagentStates), o).state)
      ensures WellKeyed(old(coagentStates)) ==> WellKeyed(coagentStates)
      ensures agentSession == old(agentSession)
    {
      ghost var before := coagentStates;
      coagentStates := SetStateUpdate(coagentStates, o, arg);
      ReadAfterWrite(before, o, arg);
      if WellKeyed(before) {
        SetStatePreservesWellKeyed(before, o, arg);
      }
    }

    /** The hook's effect, run after a render that saw the store `snapshot`
        and, when this is not the first render, the dependency `prevKey`. It
        returns the dependency to remember and whether it wrote. */
    method RunEffect(o: Options<T>, snapshot: Store<T>, prevKey: Option<JsValue<T>>)
      returns (key: JsValue<T>, wrote: bool)
      modifies this
      ensures key == DepKey(o)
      ensures wrote <==> EffectFires(prevKey, o) && EffectWrite(o, snapshot).Some?
      ensures wrote ==> coagentStates == SetStateUpdate(old(coagentStates), o, Lit(EffectWrite(o, snapshot).value))
      ensures !wrote ==> coagentStates == old(coagentStates)
      ensures agentSession == old(agentSession)
    {
      key := DepKey(o);
      wrote := false;
      if EffectFires(prevKey, o) {
        if IsExternalStateManagement(o) {
          SetState(o, Lit(o.state.value));
          wrote := true;
        } else if o.name !in snapshot {
          SetState(o, Lit(SeedValue(o)));
          wrote := true;
        }
      }
    }

    /** One render of the hook followed by its effect: the returned view is
        computed from the store as it was, then the effect runs against that
        same store. */
    method UseCoAgent(o: Options<T>, prevKey: Option<JsValue<T>>)
      returns (view: CoagentView<T>, key: JsValue<T>, wrote: bool)
      modifies this
      ensures view == UseCoAgentView(o, old(coagentStates))
      ensures key == DepKey(o)
      ensures IsExternalStateManagement(o) ==> (wrote <==> EffectFires(prevKey, o))
      ensures !IsExternalStateManagement(o) ==> (wrote <==> EffectFires(prevKey, o) && o.name !in old(coagentStates))
      ensures !IsExternalStateManagement(o) && prevKey == Some(Undefined) ==> !wrote
      ensures coagentStates == if wrote then AfterEffect(o, old(coagentStates)) else old(coagentStates)
      ensures wrote && IsExternalStateManagement(o) ==> coagentStates[o.name].state == o.state.value
      ensures wrote && !IsExternalStateManagement(o) ==> coagentStates[o.name].state == SeedValue(o)
      ensures agentSession == old(agentSession)
    {
      var snapshot := coagentStates;
      view := UseCoAgentView(o, snapshot);
      key, wrote := RunEffect(o, snapshot, prevKey);
    }

    /** `start`: the session slot names this hook's agent. */
    method StartAgent(name: string)
      modifies this
      ensures agentSession == Some(AgentSession(name))
      ensures coagentStates == old(coagentStates)
    {
      agentSession := StartSession(name);
    }

    /** `stop`, handed a context whose session slot read `seen`: clears the
        live slot when `seen` holds this agent's session; otherwise leaves it
        and reports the warning. */
    method StopAgent(name: string, seen: Session) returns (warned: bool)
      modifies this
      ensures (agentSession, warned) == StopSession(old(agentSession), seen, name)
      ensures warned <==> !(seen.Some? && seen.value.agentName == name)
      ensures warned ==> agentSession == old(agentSession)
      ensures !warned ==> agentSession == None
      ensures coagentStates == old(coagentStates)
    {
      if seen.Some? && seen.value.agentName == name {
        agentSession := None;
        warned := false;
      } else {
        warned := true;
      }
    }
  }

  /** The hook's life in internal mode: the first render seeds the store once,
      a `setState` updater then changes it, and a later render with another
      `initialState` neither writes nor loses the update. */
  method InternalLifecycle(ctx: CopilotContext<int>)
    requires "a" !in ctx.coagentStates
    modifies ctx
  {
    var first := WithInternalStateManagementAndInitial("a", Of(1));
    var view, key, wrote := ctx.UseCoAgent(first, None);
    assert view.state == Of(1) && !view.running && wrote;
    ctx.SetState(first, Upd(Increment));
    var later := WithInternalStateManagementAndInitial("a", Of(10));
    var view2, key2, wrote2 := ctx.UseCoAgent(later, Some(key));
    assert view2.state == Of(2) && !wrote2;
  }

  /** The hook's life in external mode: the external state is mirrored into
      the store, and a render with an equal external state does not write again. */
  method ExternalLifecycle(ctx: CopilotContext<int>)
    modifies ctx
  {
    var o := WithExternalStateManagement("b", Of(5));
    var view, key, wrote := ctx.UseCoAgent(o, None);
    assert view.state == Of(5) && wrote && ctx.coagentStates["b"].state == Of(5);
    var view2, key2, wrote2 := ctx.UseCoAgent(o, Some(key));
    assert view2.state == Of(5) && !wrote2;
  }

  /** Start and stop, each stop handed a context read after the previous write. */
  method SessionLifecycle(ctx: CopilotContext<int>)
    modifies ctx
  {
    ctx.StartAgent("agentX");
    var warned := ctx.StopAgent("agentY", ctx.agentSession);
    assert warned && ctx.agentSession == Some(AgentSession("agentX"));
    warned := ctx.StopAgent("agentX", ctx.agentSession);
    assert !warned && ctx.agentSession == None;
  }

  /** `start(ctx); stop(ctx)` in one handler, with a context rendered while
      the slot was empty: the stop warns and the started session stays. */
  method StaleContextLifecycle(ctx: CopilotContext<int>)
    requires ctx.agentSession == None
    modifies ctx
  {
    var seen := ctx.agentSession;
    ctx.StartAgent("agentX");
    var warned := ctx.StopAgent("agentX", seen);
    assert warned && ctx.agentSession == Some(AgentSession("agentX"));
  }
}
