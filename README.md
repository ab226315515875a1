# useCoAgent state reconciliation, modelled in Dafny

This project models the core of CopilotKit's `useCoAgent` React hook. The hook exposes one named "coagent" entry of a shared keyed store to a component. The store state is either owned by the hook (internal management) or mirrored from a value the caller owns (external management). The model covers:

- the store entry `CoagentState`, with fields `name`, `state`, `running`, `active`, `threadId`, `nodeName` and `runId`;
- the read `getCoagentState`, which falls back to a default entry that the read itself does not write;
- the copy-on-write update behind `setState`, which takes a literal or an updater function;
- the two structural mode tests, and the name, node name, state and running flag the hook returns;
- the effect that mirrors external state into the store, or seeds it once in internal mode;
- the `start` / `stop` closures that write the shared agent-session slot.

Layout:

- `wrappers.dfy`: `Option`.
- `use_coagent.dfy`: module `UseCoagent`. The data model and every pure operation as functions, with lemmas for the properties.
- `agent_session.dfy`: module `AgentSessions`. The session slot, `start` and `stop` as functions, and a fold over a sequence of calls.
- `copilot_context.dfy`: module `CopilotContexts`. A class `CopilotContext` holds the two shared cells the hook writes, the store and the session slot. Its methods are the hook's writes, and each is specified by the functions above. Four client methods go through the internal and external lifecycles, a session lifecycle, and a stop handed a stale context.

Modelling decisions:

- JavaScript values are `JsValue<T> = Undefined | EmptyObject | Of(T)`. The hook substitutes `{}` for missing state, and an `initialState` key may be present while holding `undefined`.
- The options object is a record that records which keys are present. The hook tests key presence: `"state" in options && "setState" in options` for external mode, and `"initialState" in options` separately. So an object with all three keys returns the external state, but its synthesised default entry still takes its state from `initialState` (`MixedOptions`). The three variants of the union are the `Mode` datatype, computed by `Classify`.
- "Is the name stored" is map membership. The source tests the truthiness of `coagentStates[name]`. That is the same thing for the entry objects this hook writes.
- The effect's dependency `JSON.stringify(options.state)` is `DepKey`, compared by equality on `JsValue<T>`. The serialiser is assumed injective. `JSON.stringify(undefined)` is `undefined`, so `DepKey` is `Undefined` in internal mode and for an external state that is `undefined`.
- The effect tests whether the name is stored against the store of the render that scheduled it (`snapshot`). Its `setState` then applies to the store as it is at write time.
- `console.warn` is the `warned` result of `StopAgent` / `StopSession`.
- `stop` reads `agentSession` from the context value it is handed, which is the slot as of the render that produced that context, and writes the live slot. `StopSession` and `StopAgent` therefore take that view (`seen`) apart from the live slot.

## Model

| member | source | states |
|---|---|---|
| `UseCoagent.Classify` | CopilotKit/packages/react-core/src/hooks/use-coagent.ts:38-50 | built from the source's two tests, `IsExternalStateManagement` (line 41) and `IsInternalStateManagementWithInitial` (line 49): external exactly when both the `state` and `setState` keys are present; otherwise with-initial exactly when the `initialState` key is present; otherwise plain internal |
| `UseCoagent.ShapesClassify` | CopilotKit/packages/react-core/src/hooks/use-coagent.ts:5-24 | each of the three declared option shapes is classified as its own variant |
| `UseCoagent.MixedOptions` | CopilotKit/packages/react-core/src/hooks/use-coagent.ts:38-60 | with every key present, the mode is external and the returned state is `options.state`, but a synthesised entry's state is `initialState`, because the two tests are independent |
| `UseCoagent.GetCoagentState` | CopilotKit/packages/react-core/src/hooks/use-coagent.ts:54-67 | present name: exactly the stored entry; absent name: an entry with that name, `running` and `active` false, no ids, and state `initialState` when that key is present, else `{}` |
| `UseCoagent.SetStateUpdate` | CopilotKit/packages/react-core/src/hooks/use-coagent.ts:72-85 | the new store's keys are the old keys plus the name, and every other stored entry is unchanged |
| `UseCoagent.ReadAfterWrite` | CopilotKit/packages/react-core/src/hooks/use-coagent.ts:71-85 | after a literal `v`, the read gives `v`; after an updater `f`, it gives `f` of the stored state, or of the default state when the name was absent |
| `UseCoagent.SetStateKeepsOtherFields` | CopilotKit/packages/react-core/src/hooks/use-coagent.ts:78-84 | in the written entry, `name`, `running`, `active`, `threadId`, `nodeName` and `runId` are those of the stored entry, or the defaults when the name was absent |
| `UseCoagent.WriteBackIsIdentity` | CopilotKit/packages/react-core/src/hooks/use-coagent.ts:78-84 | writing back the stored state of a present entry gives back the same store |
| `UseCoagent.LastLiteralWins` | CopilotKit/packages/react-core/src/hooks/use-coagent.ts:71-85 | a literal write after any earlier write gives the same store as the literal write alone |
| `UseCoagent.SetStatePreservesWellKeyed` | CopilotKit/packages/react-core/src/hooks/use-coagent.ts:73-84 | if every entry is stored under its own name, that still holds after a write |
| `UseCoagent.ApplyAllComposes` | CopilotKit/packages/react-core/src/hooks/use-coagent.ts:72-85 | after a non-empty run of queued updates, the entry is the first read's entry with the updates folded over its state; the keys gain only the name, and other entries are unchanged |
| `UseCoagent.FoldStateEndsWithLiteral` | CopilotKit/packages/react-core/src/hooks/use-coagent.ts:75-76 | when the last update of a run is a literal, that literal is the resulting state |
| `UseCoagent.UseCoAgentView` | CopilotKit/packages/react-core/src/hooks/use-coagent.ts:88-107 | the returned state is `options.state` in external mode, else the stored state, else the default state; `running` is true exactly for a stored running entry; `nodeName` is the stored one or none |
| `UseCoagent.SeedValue` | CopilotKit/packages/react-core/src/hooks/use-coagent.ts:97 | the seed is never `undefined`: it is `initialState` when that is present and not `undefined`, else `{}` |
| `UseCoagent.EffectWrite` | CopilotKit/packages/react-core/src/hooks/use-coagent.ts:93-98 | the effect writes nothing exactly when the mode is internal and the name is stored; in external mode it writes `options.state`; in internal mode with the name absent it writes `SeedValue`, which is never `undefined` |
| `UseCoagent.ExternalMirror` | CopilotKit/packages/react-core/src/hooks/use-coagent.ts:94-95 | with `AfterEffect` as the store once the effect body and its `setState` have run: in external mode the effect leaves the name stored with `options.state`, and the returned state is the same before and after |
| `UseCoagent.SeedOnce` | CopilotKit/packages/react-core/src/hooks/use-coagent.ts:96-97 | with `AfterEffect` as the store after the effect: in internal mode the effect seeds an absent name with the seed value and leaves a stored one alone; after it, no internal render for that name writes again, whatever its `initialState` |
| `UseCoagent.InternalFiresOnlyOnMount` | CopilotKit/packages/react-core/src/hooks/use-coagent.ts:99 | `DepKey` is the dependency expression and `EffectFires` the trigger (no previous key, or a previous key unequal to it); between two internal renders `DepKey` never changes, so the effect runs only on the first render |
| `UseCoagent.ExternalFiresOnChange` | CopilotKit/packages/react-core/src/hooks/use-coagent.ts:99 | between two external renders `EffectFires` on the previous `DepKey` holds exactly when the external state changed |
| `UseCoagent.SeedMatchesFirstRead` | CopilotKit/packages/react-core/src/hooks/use-coagent.ts:88-97 | for an absent internal name, the state returned after seeding equals the first render's exactly when `initialState` is not a present key holding `undefined` |
| `UseCoagent.IncrementScenario` | CopilotKit/packages/react-core/src/hooks/use-coagent.ts:54-90 | with `initialState` 1 on an absent name, the first read is 1 and not running, and after an incrementing updater the read is 2 |
| `AgentSessions.StartSession` | CopilotKit/packages/react-core/src/hooks/use-coagent.ts:117-122 | the slot names the given agent, with no regard to what it held |
| `AgentSessions.StopSession` | CopilotKit/packages/react-core/src/hooks/use-coagent.ts:124-131 | warns exactly when the slot seen through the context does not hold a session of that name; when it warns the live slot is unchanged, otherwise it is cleared |
| `AgentSessions.StopAfterStart` | CopilotKit/packages/react-core/src/hooks/use-coagent.ts:117-131 | when the stop's context was read after the start: start then stop with the same name clears the slot without a warning; with another name the slot keeps the started session and a warning is given |
| `AgentSessions.StopWithStaleContext` | CopilotKit/packages/react-core/src/hooks/use-coagent.ts:117-131 | `start(ctx); stop(ctx)` with a context that showed an empty slot: the stop warns and the started session stays |
| `AgentSessions.SecondStopWarns` | CopilotKit/packages/react-core/src/hooks/use-coagent.ts:124-131 | a second stop with the same name, whose context was read after the first, always warns and changes nothing |
| `AgentSessions.LastStartWins` | CopilotKit/packages/react-core/src/hooks/use-coagent.ts:117-122 | after any calls, whatever slot each stop saw, a final start decides the slot |
| `AgentSessions.SessionWasStarted` | CopilotKit/packages/react-core/src/hooks/use-coagent.ts:117-131 | after any calls, whatever slot each stop saw, the slot is empty, or is the initial session, or names an agent that one of the calls started |
| `CopilotContexts.CopilotContext.SetState` | CopilotKit/packages/react-core/src/hooks/use-coagent.ts:71-86 | the store cell becomes the copy-on-write update of the old one, with read-after-write, the frame on other keys and the well-keyed invariant kept; the session is untouched |
| `CopilotContexts.CopilotContext.RunEffect` | CopilotKit/packages/react-core/src/hooks/use-coagent.ts:93-99 | returns the dependency to remember; it writes exactly when the dependency changed and the render's store calls for a write, and then the cell is the update with that literal, else unchanged |
| `CopilotContexts.CopilotContext.UseCoAgent` | CopilotKit/packages/react-core/src/hooks/use-coagent.ts:88-114 | the view comes from the store before the effect; in external mode it writes exactly when the dependency changed, leaving `options.state` stored; in internal mode it writes only when the dependency changed and the name was absent, leaving the seed stored |
| `CopilotContexts.CopilotContext.StartAgent` | CopilotKit/packages/react-core/src/hooks/use-coagent.ts:117-122 | the session slot names this agent; the store is untouched |
| `CopilotContexts.CopilotContext.StopAgent` | CopilotKit/packages/react-core/src/hooks/use-coagent.ts:124-131 | the live slot is cleared exactly when the slot seen through the context held this agent's session; otherwise it is unchanged and `warned` is true; the store is untouched |

## Left out

- React host mechanics: when effects are scheduled, how the dependency array is compared, and when re-renders happen. The effect is a method called with the render's store and the previous dependency. `None` stands for the first render.
- `JSON.stringify`: replaced by equality on `JsValue<T>`, so the serialiser is assumed injective. Values it serialises alike are told apart here, so the model re-runs the effect where the source does not. Examples are `{a: undefined}` and `{}`; `NaN`, `Infinity` and `null`, which all become `"null"`; a `Map` or `Set` and `{}`; and `EmptyObject` and `Of(t)` for a `t` that is itself an empty object. In the other direction, `JSON.stringify` writes keys in insertion order, so `{a:1,b:2}` and `{b:2,a:1}` serialise differently. If equality on `T` ignores key order, the model misses a re-run the source makes.
- `useCopilotContext`: the context is the `CopilotContext` object that the methods act on, not an ambient lookup. The `context` argument of `start` / `stop` is that same object.
- Stale contexts: `stop` decides on the slot its context value shows, which is a render-time snapshot. `StopSession` and `StopAgent` take that view as `seen`, but the model does not say which render a caller's context comes from. `StopWithStaleContext` shows the case where the start happened after that render.
- StopAfterStart: holds only when the stop's context was read after the start's write was rendered. With a context from before it, `StopWithStaleContext` applies.
- SecondStopWarns: holds only when the second stop's context was read after the first stop's write was rendered.
- `LastStartWins` and `SessionWasStarted` hold whatever slot each stop saw.
- `console.warn`: this is I/O, so it is the boolean `warned`.
- `typeof newState === "function"`: a literal and an updater are separate constructors. Function values are not part of `JsValue`. So the model does not capture that an external `state` or an `initialState` that is itself a function would be called as an updater by the effect's `setState`.
- Truthiness of `coagentStates[name]`: the model tests map membership. Names that JavaScript resolves through the object prototype (for example `"toString"`) are not modelled.
- The external `setState` callback in the options: the hook never calls it, so only whether the key is present is kept.
- `threadId` in the return type: the hook declares it but never sets it. The returned view therefore omits it.
- Agent execution and transport are not part of this file. The hook only records the desired session.
