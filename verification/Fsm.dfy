/**
 The timed state machine. Handlers are identified by numbers; what a handler answers to a callback
 is a parameter of the call that asks it, and callbacks do not call back into the machine.
 Durations are nanoseconds, and the time step of an update is given after speed scaling.
 */
module Fsm {
  import opened Common

  type StateId = int
  type Handler = nat

  /** Callbacks in the order they are made. */
  datatype Call =
    | PreSwitch(from: StateId, to: StateId)
    | PreExit(handler: Handler, next: StateId, timeout: bool)
    | PreEnter(handler: Handler, last: StateId, timeout: bool)
    | PostExit(handler: Handler, next: StateId, timeout: bool)
    | PostEnter(handler: Handler, last: StateId, timeout: bool)
    | PostSwitch(from: StateId, to: StateId)
    | NextOnTimeout(handler: Handler)
    | Run(handler: Handler, dt: int)
    | Trigger(handler: Handler)

  /** What the timers have seen: a state was entered for some duration, or scaled time went by. */
  datatype Event = Entered(duration: int) | Ticked(dt: int)

  /** The duration the last switch set; 0 before the first. */
  function Duration(h: seq<Event>): int {
    if h == [] then 0
    else match h[|h| - 1] case Entered(d) => d case Ticked(_) => Duration(h[..|h| - 1])
  }

  /** The scaled time that went by since the last switch. */
  function Elapsed(h: seq<Event>): int {
    if h == [] then 0
    else match h[|h| - 1] case Entered(_) => 0 case Ticked(dt) => Elapsed(h[..|h| - 1]) + dt
  }

  lemma AfterEntered(h: seq<Event>, d: int)
    ensures Duration(h + [Entered(d)]) == d && Elapsed(h + [Entered(d)]) == 0
  {
  }

  lemma AfterTicked(h: seq<Event>, dt: int)
    ensures Duration(h + [Ticked(dt)]) == Duration(h) && Elapsed(h + [Ticked(dt)]) == Elapsed(h) + dt
  {
    assert (h + [Ticked(dt)])[..|h|] == h;
  }

  function Find(states: map<StateId, Option<Handler>>, state: StateId): Option<Handler> {
    if state in states then states[state] else None
  }

  /** The callbacks of a switch; the hooks around it are optional. */
  function SwitchCalls(pre: bool, post: bool, from: StateId, to: StateId, leaving: Handler, entering: Handler, timeout: bool): seq<Call> {
    (if pre then [PreSwitch(from, to)] else [])
    + [PreExit(leaving, to, timeout), PreEnter(entering, from, timeout), PostExit(leaving, to, timeout), PostEnter(entering, from, timeout)]
    + (if post then [PostSwitch(from, to)] else [])
  }

  /**
   The old state is told first that it will be left, then the new one that it will be entered; when
   the switch is made they are told again in that order, and the two hooks stand around it all.
   */
  lemma SwitchOrder(pre: bool, post: bool, from: StateId, to: StateId, leaving: Handler, entering: Handler, timeout: bool)
    ensures var n, calls := if pre then 1 else 0, SwitchCalls(pre, post, from, to, leaving, entering, timeout);
      && |calls| == n + 4 + (if post then 1 else 0)
      && (pre ==> calls[0] == PreSwitch(from, to))
      && calls[n] == PreExit(leaving, to, timeout) && calls[n + 1] == PreEnter(entering, from, timeout)
      && calls[n + 2] == PostExit(leaving, to, timeout) && calls[n + 3] == PostEnter(entering, from, timeout)
      && (post ==> calls[n + 4] == PostSwitch(from, to))
  {
    var four := [PreExit(leaving, to, timeout), PreEnter(entering, from, timeout), PostExit(leaving, to, timeout), PostEnter(entering, from, timeout)];
    var before, behind := if pre then [PreSwitch(from, to)] else [], if post then [PostSwitch(from, to)] else [];
    var calls := SwitchCalls(pre, post, from, to, leaving, entering, timeout);
    assert calls == before + four + behind;
    hide SwitchCalls;
    assert forall i :: 0 <= i < 4 ==> calls[|before| + i] == four[i];
  }

  class Machine {
    var defaultState: StateId
    var states: map<StateId, Option<Handler>>
    var preSwitch: bool
    var postSwitch: bool
    var lastState: StateId
    var currentState: StateId
    var left: int
    var total: int
    var cached: Option<Handler>
    ghost var history: seq<Event>

    /**
     The cached handler is the one registered for the current state, and none only if there is none.
     The time left is what remains of the duration the last switch set; in an endless state,
     one of negative duration, it stands still.
     */
    ghost predicate Valid()
      reads this
    {
      && cached == Find(states, currentState)
      && total == Duration(history)
      && left == if total >= 0 then total - Elapsed(history) else total
    }

    constructor (defaultState: StateId)
      ensures Valid() && currentState == defaultState && lastState == defaultState && this.defaultState == defaultState
      ensures states == map[] && history == [] && !preSwitch && !postSwitch
    {
      this.defaultState, currentState, lastState := defaultState, defaultState, defaultState;
      states, preSwitch, postSwitch := map[], false, false;
      left, total, cached, history := 0, 0, None, [];
    }

    method Register(state: StateId, value: Option<Handler>)
      requires Valid()
      modifies this`states, this`cached
      ensures Valid() && states == old(states)[state := value]
    {
      states := states[state := value];
      if state == currentState { cached := value; }
    }

    /** The registry is rebuilt from scratch; the current state and its timers survive, the hooks do not. */
    method Recover(defaultState: StateId, registered: map<StateId, Option<Handler>>)
      requires Valid()
      modifies this`defaultState, this`states, this`preSwitch, this`postSwitch, this`cached
      ensures Valid() && this.defaultState == defaultState && states == registered && !preSwitch && !postSwitch
    {
      this.defaultState, states, preSwitch, postSwitch := defaultState, registered, false, false;
      cached := Find(states, currentState);
    }

    /** A switch happens exactly when both states have a handler; otherwise nothing changes and nobody is called. */
    method SwitchState(newState: StateId, timeout: bool, duration: int) returns (switched: bool, calls: seq<Call>)
      requires Valid()
      modifies this`currentState, this`lastState, this`left, this`total, this`cached, this`history
      ensures Valid()
      ensures switched <==> old(Find(states, currentState)).Some? && Find(states, newState).Some?
      ensures switched ==> currentState == newState && lastState == old(currentState) && history == old(history) + [Entered(duration)]
      ensures switched ==> total == duration && left == duration
      ensures switched ==>
                calls == SwitchCalls(preSwitch, postSwitch, lastState, newState,
                                     old(Find(states, currentState)).value, Find(states, newState).value, timeout)
      ensures !switched ==> calls == [] && currentState == old(currentState) && lastState == old(lastState) && history == old(history)
      ensures !switched ==> left == old(left) && total == old(total)
    {
      if cached == None { cached := Find(states, currentState); }
      var oldState, oldInfo, newInfo := currentState, cached, Find(states, newState);
      if oldInfo == None || newInfo == None { return false, []; }
      calls := [];
      if preSwitch { calls := calls + [PreSwitch(oldState, newState)]; }
      calls := calls + [PreExit(oldInfo.value, newState, timeout)] + [PreEnter(newInfo.value, oldState, timeout)];

      currentState, cached, lastState := newState, newInfo, oldState;
      left := duration;
      total := duration;
      AfterEntered(history, duration);
      history := history + [Entered(duration)];

      calls := calls + [PostExit(oldInfo.value, newState, timeout)] + [PostEnter(newInfo.value, oldState, timeout)];
      if postSwitch { calls := calls + [PostSwitch(oldState, newState)]; }
      switched := true;
    }

    method Switch(newState: StateId, duration: int) returns (switched: bool, calls: seq<Call>)
      requires Valid()
      modifies this`currentState, this`lastState, this`left, this`total, this`cached, this`history
      ensures Valid()
      ensures switched <==> old(Find(states, currentState)).Some? && Find(states, newState).Some?
      ensures switched ==> currentState == newState && lastState == old(currentState) && history == old(history) + [Entered(duration)]
      ensures switched ==>
                calls == SwitchCalls(preSwitch, postSwitch, lastState, newState,
                                     old(Find(states, currentState)).value, Find(states, newState).value, false)
      ensures !switched ==> calls == [] && currentState == old(currentState) && lastState == old(lastState) && history == old(history)
    {
      switched, calls := SwitchState(newState, false, duration);
    }

    /** The state an update works on: the default state when the current one has no handler. */
    ghost function Working(): (state: StateId)
      reads this
      ensures state == currentState || state == defaultState
      ensures state == defaultState <== currentState !in states || states[currentState] == None
      ensures state == currentState <== currentState in states && states[currentState] != None
    {
      if Find(states, currentState).Some? then currentState else defaultState
    }

    /**
     `next` and `duration` are what the handlers would answer. A timeout is requested exactly when
     the state has a duration and the scaled time since it was entered exceeds it. A request that
     names a state without a handler leaves state and timers as they are, so it is made again.
     */
    method Update(dt: int, next: StateId, duration: int) returns (requested: bool, calls: seq<Call>)
      requires Valid()
      modifies this`currentState, this`lastState, this`left, this`total, this`cached, this`history
      ensures Valid()
      ensures requested <==> old(Find(states, Working())).Some? && old(Duration(history)) >= 0
                             && old(Elapsed(history)) + dt > old(Duration(history))
      ensures old(Find(states, Working())).None? ==> calls == [] && currentState == defaultState && history == old(history)
      ensures old(Find(states, Working())).Some? && !requested ==>
                && currentState == old(Working()) && lastState == old(lastState) && history == old(history) + [Ticked(dt)]
                && calls == [Run(old(Find(states, Working())).value, dt)]
      ensures requested && Find(states, next).None? ==>
                && currentState == old(Working()) && lastState == old(lastState) && history == old(history) + [Ticked(dt)]
                && calls == [NextOnTimeout(old(Find(states, Working())).value), Run(old(Find(states, Working())).value, dt)]
      ensures requested && Find(states, next).Some? ==>
                && currentState == next && lastState == old(Working()) && history == old(history) + [Ticked(dt), Entered(duration)]
                && calls == [NextOnTimeout(old(Find(states, Working())).value)]
                            + SwitchCalls(preSwitch, postSwitch, lastState, next, old(Find(states, Working())).value, Find(states, next).value, true)
                            + [Run(Find(states, next).value, dt)]
    {
      hide SwitchCalls, Duration, Elapsed;
      calls, requested := [], false;
      if cached == None {
        currentState := defaultState;
        cached := Find(states, defaultState);
      }
      if cached == None { return; }
      AfterTicked(history, dt);
      history := history + [Ticked(dt)];
      if total >= 0 {
        left := left - dt;
        if left < 0 {
          requested := true;
          var asked := cached.value;
          var _, more := SwitchState(next, true, duration);
          assert old(history) + [Ticked(dt)] + [Entered(duration)] == old(history) + [Ticked(dt), Entered(duration)];
          calls := [NextOnTimeout(asked)] + more;
        }
      }
      calls := calls + [Run(cached.value, dt)];
    }

    method TriggerEvent() returns (calls: seq<Call>)
      requires Valid()
      modifies this`cached
      ensures Valid() && cached == old(cached)
      ensures calls == if Find(states, currentState).Some? then [Trigger(Find(states, currentState).value)] else []
    {
      if cached == None { cached := Find(states, currentState); }
      calls := if cached.Some? then [Trigger(cached.value)] else [];
    }
  }
}
