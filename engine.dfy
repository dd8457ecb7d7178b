/**
 * The generated state machine object and its handler, as objects whose
 * fields change in place. Each method is proved to do what the functions
 * of module Semantics say.
 */
module Engine {
  import opened Wrappers
  import opened NameLists
  import opened Definition
  import opened Semantics

  /**
   * The user's handler. Its callbacks (`&mut self`) are recorded in
   * `trace`; its guards (`&self`) read it without changing it, and the
   * guards asked are recorded in `queries` for observation only. What a
   * callback posts back to the machine, and what a guard answers, is given
   * by `behaviour` from the calls received so far; the owner may replace
   * it between events, as it may edit the handler through
   * `get_handler_mut`.
   */
  class Handler {
    var trace: seq<Call>
    var queries: seq<Name>
    var behaviour: Oracle

    constructor(behaviour: Oracle)
      ensures this.behaviour == behaviour
      ensures trace == [] && queries == []
    {
      this.behaviour := behaviour;
      trace := [];
      queries := [];
    }

    /** A guard method: its answer depends only on what the handler has received. */
    method Guard(g: Name) returns (v: bool)
      modifies this`queries
      ensures v == behaviour.guard(trace, g)
      ensures queries == old(queries) + [g]
    {
      v := behaviour.guard(trace, g);
      queries := queries + [g];
    }

    /** A callback (entry/exit hook, action, unexpected-event handler); returns the event it posts, if any. */
    method Receive(c: Call) returns (posted: Option<Event>)
      modifies this`trace
      ensures trace == old(trace) + [c]
      ensures posted == behaviour.post(trace)
    {
      trace := trace + [c];
      posted := behaviour.post(trace);
    }
  }

  /** The object `statemachine!` generates: the current state and the one-slot event buffer. */
  class Machine {
    const info: Info
    const handler: Handler
    var state: Name
    var buffered: Option<Event>

    /** The machine and its handler as a value of the semantics. */
    function Snapshot(): Config
      reads this, handler
    {
      Config(state, buffered, handler.trace, handler.queries)
    }

    /** Consistent state blocks, and a current state that they declare. */
    ghost predicate Valid()
      reads this
    {
      ValidDefs(info.defs) && state in Names(info.defs)
    }

    /** `new`: the machine starts in the initial state with nothing buffered. */
    constructor(info: Info, handler: Handler)
      requires ValidInfo(info) && info.initial in info.states
      ensures this.info == info && this.handler == handler
      ensures state == info.initial && buffered == None
      ensures Valid()
    {
      this.info := info;
      this.handler := handler;
      state := info.initial;
      buffered := None;
    }

    /** `get_state` */
    method GetState() returns (s: Name)
      ensures s == state
    {
      s := state;
    }

    /** `event_from_handler`: the event replaces whatever was buffered. */
    method EventFromHandler(ev: Event)
      modifies this`buffered
      ensures buffered == Some(ev)
    {
      buffered := Some(ev);
    }

    /** A callback into the handler, which may post an event back from inside it. */
    method Notify(c: Call)
      modifies this`buffered, handler`trace
      ensures Snapshot() == Semantics.Notify(handler.behaviour, old(Snapshot()), c)
    {
      var posted := handler.Receive(c);
      if posted.Some? {
        EventFromHandler(posted.value);
      }
    }

    /** `call_on_exit`: the exit hook of the current state, if it has one. */
    method CallOnExit(from: Name, ev: Event, to: Name)
      modifies this`buffered, handler`trace
      ensures Snapshot() == Semantics.CallOnExit(info, handler.behaviour, old(Snapshot()), from, ev, to)
    {
      var d := Lookup(info.defs, state);
      if d.Some? && d.value.onExit.Some? {
        Notify(ExitCall(d.value.onExit.value, from, ev, to));
      }
    }

    /** `call_on_entry`: the entry hook of the current state, if it has one. */
    method CallOnEntry(from: Name, ev: Event, to: Name)
      modifies this`buffered, handler`trace
      ensures Snapshot() == Semantics.CallOnEntry(info, handler.behaviour, old(Snapshot()), from, ev, to)
    {
      var d := Lookup(info.defs, state);
      if d.Some? && d.value.onEntry.Some? {
        Notify(EntryCall(d.value.onEntry.value, from, ev, to));
      }
    }

    /** The body of a match arm: exit hook, action, state update, entry hook. */
    method Take(ev: Event, t: Transition)
      modifies this`state, this`buffered, handler`trace
      ensures Snapshot() == Semantics.Take(info, handler.behaviour, old(Snapshot()), ev, t)
    {
      var from := state;
      CallOnExit(from, ev, t.target);
      if t.action.Some? {
        Notify(ActionCall(t.action.value, from, ev, ActionPayload(info, ev), t.target));
      }
      state := t.target;
      CallOnEntry(from, ev, t.target);
    }

    /** The `_ =>` arm. */
    method Fallback(ev: Event)
      modifies this`buffered, handler`trace
      ensures Snapshot() == Semantics.Fallback(info, handler.behaviour, old(Snapshot()), ev)
    {
      if info.unexpected.Some? {
        Notify(UnexpectedCall(info.unexpected.value, state, ev));
      }
    }

    /** The `match state { ... }` of `event`: the arms of the current state in order, the first that fires is taken. */
    method Dispatch(ev: Event)
      modifies this`state, this`buffered, handler`trace, handler`queries
      ensures Snapshot() == Semantics.Dispatch(info, handler.behaviour, old(Snapshot()), ev)
    {
      ghost var start := Snapshot();
      var ts := TransitionsFrom(info, state);
      var i := 0;
      while i < |ts|
        invariant i <= |ts|
        invariant Snapshot() == start.(queries := handler.queries)
        invariant Semantics.Dispatch(info, handler.behaviour, start, ev) == Scan(info, handler.behaviour, Snapshot(), ev, ts, i)
        decreases |ts| - i
      {
        var t := ts[i];
        if t.event == ev.name {
          if t.guard.None? {
            Take(ev, t);
            return;
          }
          var fires := handler.Guard(t.guard.value);
          if fires {
            Take(ev, t);
            return;
          }
        }
        i := i + 1;
      }
      Fallback(ev);
    }

    /**
     * `event`: dispatch, then take the buffered event and handle it the
     * same way. `fuel` bounds how many buffered events are handled; the
     * result says whether the buffer was drained within it.
     */
    method HandleEvent(ev: Event, fuel: nat) returns (settled: bool)
      requires Valid()
      modifies this`state, this`buffered, handler`trace, handler`queries
      ensures Valid()
      ensures (Snapshot(), settled) == Run(info, handler.behaviour, old(Snapshot()), ev, fuel)
      decreases fuel
    {
      ghost var o := handler.behaviour;
      ghost var start := Snapshot();
      DispatchKeepsDeclared(info, o, start, ev);
      RunUnfold(info, o, start, ev, fuel);
      Dispatch(ev);
      assert handler.behaviour == o && Snapshot() == Semantics.Dispatch(info, o, start, ev);
      if buffered.None? {
        settled := true;
      } else if fuel == 0 {
        settled := false;
      } else {
        var next := buffered.value;
        buffered := None;
        settled := HandleEvent(next, fuel - 1);
      }
    }
  }
}
