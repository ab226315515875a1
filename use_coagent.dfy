/**
  The state-reconciliation core of the `useCoAgent` hook, as pure functions:
  the keyed store of coagent entries, the read that falls back to a default
  entry, the copy-on-write update behind `setState`, the two structural mode
  tests, the view the hook returns, and the write decision of its effect.
 */
module UseCoagent {
  import opened Wrappers

  /** A JavaScript value as the store sees it: `undefined`, the empty object
      literal `{}` the hook falls back to, or a value of the caller's type. */
  datatype JsValue<T> = Undefined | EmptyObject | Of(value: T)

  /** One entry of the shared store. Only `state` is written by this hook;
      the other fields belong to the agent executor. */
  datatype CoagentState<T> = CoagentState(
    name: string,
    state: JsValue<T>,
    running: bool,
    active: bool,
    threadId: Option<string>,
    nodeName: Option<string>,
    runId: Option<string>)

  /** The shared store: one entry per coagent name. */
  type Store<T> = map<string, CoagentState<T>>

  /** The options object of the hook. The hook tells its three variants apart
      by which keys are present, so presence is recorded key by key: `None` is
      an absent key, `Some(Undefined)` a key present with value `undefined`.
      The external `setState` callback is never called by the hook, so only
      its presence is kept. */
  datatype Options<T> = Options(
    name: string,
    initialState: Option<JsValue<T>>,
    state: Option<JsValue<T>>,
    hasSetState: bool)

  /** The three variants of the options union. */
  datatype Mode = External | InternalWithInitial | Internal

  /** The argument of `setState`: a literal value, or an updater applied to
      the previous state. */
  datatype StateArg<!T> = Lit(v: JsValue<T>) | Upd(f: JsValue<T> -> JsValue<T>)

  /** The data part of what the hook returns (the closures are methods of the
      context class). */
  datatype CoagentView<T> = CoagentView(
    name: string,
    nodeName: Option<string>,
    state: JsValue<T>,
    running: bool)

  // ---------------------------------------------------------------------------
  // Option shapes and the mode discriminator
  // ---------------------------------------------------------------------------

  /** `{ name, initialState }` */
  function WithInternalStateManagementAndInitial<T>(name: string, initialState: JsValue<T>): Options<T>
  {
    Options(name, Some(initialState), None, false)
  }

  /** `{ name }`, with the optional `initialState` left out */
  function WithInternalStateManagement<T>(name: string): Options<T>
  {
    Options(name, None, None, false)
  }

  /** `{ name, state, setState }` */
  function WithExternalStateManagement<T>(name: string, state: JsValue<T>): Options<T>
  {
    Options(name, None, Some(state), true)
  }

  /** External management: both the `state` and the `setState` keys are present. */
  predicate IsExternalStateManagement<T>(o: Options<T>)
  {
    o.state.Some? && o.hasSetState
  }

  /** Internal management with an initial value: the `initialState` key is present. */
  predicate IsInternalStateManagementWithInitial<T>(o: Options<T>)
  {
    o.initialState.Some?
  }

  /** The variant the options belong to; external management takes precedence. */
  function Classify<T>(o: Options<T>): (m: Mode)
    ensures m == External <==> o.state.Some? && o.hasSetState
    ensures m == InternalWithInitial <==> !(o.state.Some? && o.hasSetState) && o.initialState.Some?
    ensures m == Internal <==> !(o.state.Some? && o.hasSetState) && o.initialState.None?
  {
    if IsExternalStateManagement(o) then External
    else if IsInternalStateManagementWithInitial(o) then InternalWithInitial
    else Internal
  }

  /** Each of the three declared shapes is classified as its own variant. */
  lemma ShapesClassify<T>(name: string, init: JsValue<T>, state: JsValue<T>)
    ensures Classify(WithInternalStateManagementAndInitial(name, init)) == InternalWithInitial
    ensures Classify(WithInternalStateManagement<T>(name)) == Internal
    ensures Classify(WithExternalStateManagement(name, state)) == External
  {
  }

  // ---------------------------------------------------------------------------
  // Reading an entry
  // ---------------------------------------------------------------------------

  /** The `state` of a synthesised entry: `initialState` when that key is
      present (whatever its value), else `{}`. */
  function DefaultState<T>(o: Options<T>): JsValue<T>
  {
    if IsInternalStateManagementWithInitial(o) then o.initialState.value else EmptyObject
  }

  /** The entry synthesised for a name the store does not hold. */
  function DefaultEntry<T>(o: Options<T>): CoagentState<T>
  {
    CoagentState(o.name, DefaultState(o), false, false, None, None, None)
  }

  /** The stored entry for the hook's name, or a default one; the read itself
      does not write the default to the store. */
  function GetCoagentState<T>(s: Store<T>, o: Options<T>): (r: CoagentState<T>)
    ensures o.name in s ==> r == s[o.name]
    ensures o.name !in s ==>
      && r.name == o.name
      && !r.running && !r.active
      && r.threadId == None && r.nodeName == None && r.runId == None
    ensures o.name !in s ==>
      r.state == (if o.initialState.Some? then o.initialState.value else EmptyObject)
  {
    if o.name in s then s[o.name] else DefaultEntry(o)
  }

  // ---------------------------------------------------------------------------
  // Writing the state of an entry
  // ---------------------------------------------------------------------------

  /** The new state: the literal itself, or the updater applied to the previous state. */
  function Resolve<T>(arg: StateArg<T>, prev: JsValue<T>): JsValue<T>
  {
    match arg
    case Lit(v) => v
    case Upd(f) => f(prev)
  }

  /** The updater `setState` hands to `setCoagentStates`: a new store in which
      the hook's entry (the stored one or the default one) has its `state`
      replaced, and nothing else differs. */
  function SetStateUpdate<T>(s: Store<T>, o: Options<T>, arg: StateArg<T>): (s': Store<T>)
    ensures s'.Keys == s.Keys + {o.name}
    ensures forall k :: k in s && k != o.name ==> k in s' && s'[k] == s[k]
  {
    var prev := GetCoagentState(s, o);
    s[o.name := prev.(state := Resolve(arg, prev.state))]
  }

  /** Read after write: a literal is read back as written, an updater's result
      is its value on the previous entry's state, and that previous entry is
      the default one when the name was absent. */
  lemma ReadAfterWrite<T>(s: Store<T>, o: Options<T>, arg: StateArg<T>)
    ensures arg.Lit? ==> GetCoagentState(SetStateUpdate(s, o, arg), o).state == arg.v
    ensures arg.Upd? && o.name in s ==>
      GetCoagentState(SetStateUpdate(s, o, arg), o).state == arg.f(s[o.name].state)
    ensures arg.Upd? && o.name !in s ==>
      GetCoagentState(SetStateUpdate(s, o, arg), o).state == arg.f(DefaultState(o))
  {
  }

  /** Inside the written entry only `state` changes: every other field is
      carried over from the stored entry, or is the default one when the name
      was absent. */
  lemma SetStateKeepsOtherFields<T>(s: Store<T>, o: Options<T>, arg: StateArg<T>)
    ensures var e := SetStateUpdate(s, o, arg)[o.name];
      if o.name in s then
        && e.name == s[o.name].name && e.running == s[o.name].running
        && e.active == s[o.name].active && e.threadId == s[o.name].threadId
        && e.nodeName == s[o.name].nodeName && e.runId == s[o.name].runId
      else
        && e.name == o.name && !e.running && !e.active
        && e.threadId == None && e.nodeName == None && e.runId == None
  {
  }

  /** Writing back the state just read leaves a store holding the name unchanged. */
  lemma WriteBackIsIdentity<T>(s: Store<T>, o: Options<T>)
    requires o.name in s
    ensures SetStateUpdate(s, o, Lit(s[o.name].state)) == s
  {
  }

  /** A literal write overrides any earlier write to the same entry. */
  lemma LastLiteralWins<T>(s: Store<T>, o: Options<T>, a: StateArg<T>, v: JsValue<T>)
    ensures SetStateUpdate(SetStateUpdate(s, o, a), o, Lit(v)) == SetStateUpdate(s, o, Lit(v))
  {
  }

  /** Every entry is stored under its own name. */
  ghost predicate WellKeyed<T>(s: Store<T>)
  {
    forall k :: k in s ==> s[k].name == k
  }

  /** A write keeps every entry under its own name, so the store never holds
      two diverging entries for one name. */
  lemma SetStatePreservesWellKeyed<T>(s: Store<T>, o: Options<T>, arg: StateArg<T>)
    requires WellKeyed(s)
    ensures WellKeyed(SetStateUpdate(s, o, arg))
  {
  }

  /** Updates queued one after another: each one sees the store the previous
      one produced. */
  function ApplyAll<T>(s: Store<T>, o: Options<T>, args: seq<StateArg<T>>): Store<T>
    decreases |args|
  {
    if args == [] then s else ApplyAll(SetStateUpdate(s, o, args[0]), o, args[1..])
  }

  /** The same updates applied to the state value alone. */
  function FoldState<T>(prev: JsValue<T>, args: seq<StateArg<T>>): JsValue<T>
    decreases |args|
  {
    if args == [] then prev else FoldState(Resolve(args[0], prev), args[1..])
  }

  /** A run of `setState` calls composes: the final state is the updates
      folded over the first read's state, the other fields of the entry are
      those of the first read, and no other entry changes. */
  lemma {:induction false} ApplyAllComposes<T>(s: Store<T>, o: Options<T>, args: seq<StateArg<T>>)
    requires |args| > 0
    ensures ApplyAll(s, o, args).Keys == s.Keys + {o.name}
    ensures var e := GetCoagentState(s, o);
      ApplyAll(s, o, args)[o.name] == e.(state := FoldState(e.state, args))
    ensures forall k :: k in s && k != o.name ==> ApplyAll(s, o, args)[k] == s[k]
    decreases |args|
  {
    var s1 := SetStateUpdate(s, o, args[0]);
    var e := GetCoagentState(s, o);
    assert GetCoagentState(s1, o) == e.(state := Resolve(args[0], e.state));
    if |args| > 1 {
      ApplyAllComposes(s1, o, args[1..]);
    } else {
      assert args[1..] == [];
    }
  }

  /** When the last queued update is a literal, it is the state that remains. */
  lemma {:induction false} FoldStateEndsWithLiteral<T>(prev: JsValue<T>, args: seq<StateArg<T>>, v: JsValue<T>)
    ensures FoldState(prev, args + [Lit(v)]) == v
    decreases |args|
  {
    if args == [] {
      assert [Lit(v)][1..] == [];
    } else {
      assert (args + [Lit(v)])[1..] == args[1..] + [Lit(v)];
      FoldStateEndsWithLiteral(Resolve(args[0], prev), args[1..], v);
    }
  }

  // ---------------------------------------------------------------------------
  // What the hook returns
  // ---------------------------------------------------------------------------

  /** The name, node name, state and running flag the hook returns for its
      options and the store it renders against. */
  function UseCoAgentView<T>(o: Options<T>, s: Store<T>): (r: CoagentView<T>)
    ensures r.name == o.name
    ensures r.running <==> o.name in s && s[o.name].running
    ensures r.nodeName == (if o.name in s then s[o.name].nodeName else None)
    ensures IsExternalStateManagement(o) ==> r.state == o.state.value
    ensures !IsExternalStateManagement(o) && o.name in s ==> r.state == s[o.name].state
    ensures !IsExternalStateManagement(o) && o.name !in s ==> r.state == DefaultState(o)
  {
    var e := GetCoagentState(s, o);
    CoagentView(o.name, e.nodeName, if IsExternalStateManagement(o) then o.state.value else e.state, e.running)
  }

  /** An options object with every key: the returned state is the external
      one, yet a synthesised entry still takes its state from `initialState`,
      since the two structural tests are made independently. */
  lemma MixedOptions<T>(name: string, init: JsValue<T>, state: JsValue<T>, s: Store<T>)
    requires name !in s
    ensures var o := Options(name, Some(init), Some(state), true);
      && Classify(o) == External
      && UseCoAgentView(o, s).state == state
      && GetCoagentState(s, o).state == init
  {
  }

  // ---------------------------------------------------------------------------
  // The effect
  // ---------------------------------------------------------------------------

  /** The effect's dependency: the external state (standing for its
      serialisation) in external mode, `undefined` otherwise. */
  function DepKey<T>(o: Options<T>): JsValue<T>
  {
    if IsExternalStateManagement(o) then o.state.value else Undefined
  }

  /** The effect runs on the first render (no previous key) and whenever the
      dependency differs from the previous render's. */
  predicate EffectFires<T(==)>(prevKey: Option<JsValue<T>>, o: Options<T>)
  {
    prevKey.None? || prevKey.value != DepKey(o)
  }

  /** The value seeded in internal mode: `initialState`, or `{}` when it is
      `undefined` (an absent key reads as `undefined`). */
  function SeedValue<T>(o: Options<T>): (v: JsValue<T>)
    ensures v != Undefined
    ensures o.initialState.Some? && o.initialState.value != Undefined ==> v == o.initialState.value
    ensures o.initialState.None? || o.initialState.value == Undefined ==> v == EmptyObject
  {
    var init := if o.initialState.Some? then o.initialState.value else Undefined;
    if init.Undefined? then EmptyObject else init
  }

  /** What the effect writes when it runs, given the store of the render that
      scheduled it: the external state, or the seed when the name is not yet
      stored, or nothing. */
  function EffectWrite<T>(o: Options<T>, snapshot: Store<T>): (w: Option<JsValue<T>>)
    ensures w.None? <==> !IsExternalStateManagement(o) && o.name in snapshot
    ensures IsExternalStateManagement(o) ==> w == Some(o.state.value)
    ensures !IsExternalStateManagement(o) && o.name !in snapshot ==> w == Some(SeedValue(o))
    ensures !IsExternalStateManagement(o) && w.Some? ==> w.value != Undefined
  {
    if IsExternalStateManagement(o) then Some(o.state.value)
    else if o.name !in snapshot then Some(SeedValue(o))
    else None
  }

  /** The store once the effect has run against the store it was scheduled with. */
  function AfterEffect<T>(o: Options<T>, s: Store<T>): Store<T>
  {
    match EffectWrite(o, s)
    case None => s
    case Some(v) => SetStateUpdate(s, o, Lit(v))
  }

  /** External mode mirrors the caller's state into the store, and what the
      hook returns is the same before and after the write. */
  lemma ExternalMirror<T>(o: Options<T>, s: Store<T>)
    requires IsExternalStateManagement(o)
    ensures o.name in AfterEffect(o, s)
    ensures AfterEffect(o, s)[o.name].state == o.state.value
    ensures UseCoAgentView(o, AfterEffect(o, s)).state == UseCoAgentView(o, s).state
  {
  }

  /** Seeding happens once: after the effect in internal mode the name is
      stored, so no later internal render writes again, whatever its
      `initialState`. */
  lemma SeedOnce<T>(o: Options<T>, later: Options<T>, s: Store<T>)
    requires !IsExternalStateManagement(o) && !IsExternalStateManagement(later)
    requires later.name == o.name
    ensures EffectWrite(later, AfterEffect(o, s)) == None
    ensures o.name in s ==> AfterEffect(o, s) == s
    ensures o.name !in s ==> AfterEffect(o, s)[o.name].state == SeedValue(o)
  {
  }

  /** In internal mode the dependency never changes, so the effect runs only
      on the first render. */
  lemma InternalFiresOnlyOnMount<T>(previous: Options<T>, o: Options<T>)
    requires !IsExternalStateManagement(previous) && !IsExternalStateManagement(o)
    ensures !EffectFires(Some(DepKey(previous)), o)
    ensures EffectFires(None, o)
  {
  }

  /** In external mode the effect runs again exactly when the external state
      changed: an equal value does not trigger a second write. */
  lemma ExternalFiresOnChange<T>(previous: Options<T>, o: Options<T>)
    requires IsExternalStateManagement(previous) && IsExternalStateManagement(o)
    ensures EffectFires(Some(DepKey(previous)), o) <==> previous.state.value != o.state.value
  {
  }

  /** The seeded state agrees with what the first render returned exactly
      when `initialState` is not a present key holding `undefined`: then the
      first read gives `undefined` and the seed gives `{}`. */
  lemma SeedMatchesFirstRead<T>(o: Options<T>, s: Store<T>)
    requires !IsExternalStateManagement(o) && o.name !in s
    ensures UseCoAgentView(o, AfterEffect(o, s)).state == UseCoAgentView(o, s).state
      <==> o.initialState != Some(Undefined)
  {
  }

  // ---------------------------------------------------------------------------
  // A worked scenario
  // ---------------------------------------------------------------------------

  function Increment(v: JsValue<int>): JsValue<int>
  {
    if v.Of? then Of(v.value + 1) else v
  }

  /** `{ name: "a", initialState: 1 }`: the first read returns 1 and is not
      running; an incrementing `setState` makes the next read return 2. */
  lemma IncrementScenario(s: Store<int>)
    requires "a" !in s
    ensures var o := WithInternalStateManagementAndInitial("a", Of(1));
      && UseCoAgentView(o, s).state == Of(1)
      && !UseCoAgentView(o, s).running
      && UseCoAgentView(o, SetStateUpdate(s, o, Upd(Increment))).state == Of(2)
  {
  }
}
