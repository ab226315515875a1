/**
  The session slot the hook's `start` and `stop` write: at most one agent
  session at a time, named by the agent it belongs to.

  `stop` decides on the slot as the context value handed to it shows it
  (`seen`), which is the slot as of the render that produced that context,
  while its write goes to the live slot. When the context was read after
  the last session write, `seen` is the live slot itself.
 */
module AgentSessions {
  import opened Wrappers

  datatype AgentSession = AgentSession(agentName: string)

  /** The slot: `None` stands for no session (`null`). */
  type Session = Option<AgentSession>

  /** `startAgent`: the slot names `name`, whatever it held before. */
  function StartSession(name: string): (next: Session)
    ensures next.Some? && next.value.agentName == name
  {
    Some(AgentSession(name))
  }

  /** `stopAgent`: the new live slot and whether a warning was emitted, given
      the live slot `session` and the slot `seen` in the caller's context. The
      slot is cleared exactly when `seen` holds a session of `name`; otherwise
      the live slot is kept and the warning is emitted. */
  function StopSession(session: Session, seen: Session, name: string): (r: (Session, bool))
    ensures r.1 <==> !(seen.Some? && seen.value.agentName == name)
    ensures r.1 ==> r.0 == session
    ensures !r.1 ==> r.0 == None
  {
    if seen.Some? && seen.value.agentName == name then (None, false)
    else (session, true)
  }

  /** With a context read after the start: start then stop with the same name
      clears the slot; with another name it leaves the started session and warns. */
  lemma StopAfterStart(started: string, stopped: string)
    ensures var s := StartSession(started);
      StopSession(s, s, stopped) == if started == stopped then (None, false) else (s, true)
  {
  }

  /** `start(ctx); stop(ctx)` in one handler, with a context that showed an
      empty slot: the stop does not see the start, so it warns and the
      started session stays. */
  lemma StopWithStaleContext(name: string)
    ensures StopSession(StartSession(name), None, name) == (StartSession(name), true)
  {
  }

  /** Stopping twice, the second time with a context read after the first
      stop: the second stop always warns and changes nothing. */
  lemma SecondStopWarns(session: Session, name: string)
    ensures var once := StopSession(session, session, name).0;
      StopSession(once, once, name) == (once, true)
  {
  }

  /** A call of one of the hook's `start` or `stop` closures; a stop carries
      the slot as its context showed it. */
  datatype SessionCall = Start(name: string) | Stop(name: string, seen: Session)

  /** The live slot after one call. */
  function Step(session: Session, call: SessionCall): Session
  {
    match call
    case Start(n) => StartSession(n)
    case Stop(n, seen) => StopSession(session, seen, n).0
  }

  /** The live slot after a sequence of calls; no call is guarded, so calls
      take effect in the order they are made. */
  function RunCalls(session: Session, calls: seq<SessionCall>): Session
    decreases |calls|
  {
    if calls == [] then session else RunCalls(Step(session, calls[0]), calls[1..])
  }

  /** Running calls one batch after another is running them all at once. */
  lemma {:induction false} RunCallsAppend(session: Session, calls: seq<SessionCall>, more: seq<SessionCall>)
    ensures RunCalls(session, calls + more) == RunCalls(RunCalls(session, calls), more)
    decreases |calls|
  {
    if calls == [] {
      assert calls + more == more;
    } else {
      assert (calls + more)[1..] == calls[1..] + more;
      RunCallsAppend(Step(session, calls[0]), calls[1..], more);
    }
  }

  /** Last caller wins: a final `start` decides the slot, whatever came
      before and whatever the stops saw. */
  lemma LastStartWins(session: Session, calls: seq<SessionCall>, name: string)
    ensures RunCalls(session, calls + [Start(name)]) == Some(AgentSession(name))
  {
    RunCallsAppend(session, calls, [Start(name)]);
    assert [Start(name)][1..] == [];
  }

  /** The slot only ever names the agent it started with or one that some
      call started, whatever the stops saw. */
  lemma {:induction false} SessionWasStarted(session: Session, calls: seq<SessionCall>)
    ensures var r := RunCalls(session, calls);
      r.None? || r == session || exists i :: 0 <= i < |calls| && calls[i] == Start(r.value.agentName)
    decreases |calls|
  {
    if calls != [] {
      var next := Step(session, calls[0]);
      SessionWasStarted(next, calls[1..]);
      var r := RunCalls(session, calls);
      assert r == RunCalls(next, calls[1..]);
      if r.Some? && r != session {
        if r == next {
          assert calls[0] == Start(r.value.agentName);
        } else {
          var i :| 0 <= i < |calls[1..]| && calls[1..][i] == Start(r.value.agentName);
          assert calls[i + 1] == Start(r.value.agentName);
        }
      }
    }
  }
}
