/**
 * What the code generated by `statemachine!` does when an event arrives,
 * as functions over a snapshot of the machine and its handler.
 *
 * The handler is seen through its behaviour: the answer of each guard and
 * the event (if any) that a callback posts back through
 * `event_from_handler`. Both may depend on every call the handler has
 * received so far, which is everything that can have changed it.
 */
module Semantics {
  import opened Wrappers
  import opened NameLists
  import opened Definition

  /** A value of the generated event enum: its variant, and its payload when `EventPayload` is declared. */
  datatype Event = Event(name: Name, payload: Option<int>)

  /** A call into the handler that may change it (`&mut self`), with the arguments the generated code passes. */
  datatype Call =
    | ExitCall(hook: Name, from: Name, event: Event, to: Name)
    | ActionCall(action: Name, from: Name, event: Event, payload: Option<int>, to: Name)
    | EntryCall(hook: Name, from: Name, event: Event, to: Name)
    | UnexpectedCall(handler: Name, state: Name, event: Event)

  /** The handler's answers: a guard's value, and the event a callback posts, given the calls received so far. */
  datatype Oracle = Oracle(guard: (seq<Call>, Name) -> bool, post: seq<Call> -> Option<Event>)

  /**
   * The current state, the one-slot buffered event, the calls the handler
   * has received, and the guards it has been asked, in order.
   */
  datatype Config = Config(state: Name, slot: Option<Event>, trace: seq<Call>, queries: seq<Name>)

  // ----- The state blocks of the definition -----

  /** The block declared for state `s`, if any: the arm `State::s => ...` of the generated matches. */
  function Lookup(defs: seq<StateDef>, s: Name): (r: Option<StateDef>)
    ensures r.Some? ==> r.value in defs && r.value.name == s
    ensures r.None? ==> forall i :: 0 <= i < |defs| ==> defs[i].name != s
  {
    if defs == [] then None
    else if defs[0].name == s then Some(defs[0])
    else
      var r := Lookup(defs[1..], s);
      assert forall i :: 1 <= i < |defs| ==> defs[i] == defs[1..][i - 1];
      r
  }

  function TransitionsFrom(info: Info, s: Name): seq<Transition> {
    var d := Lookup(info.defs, s);
    if d.Some? then d.value.transitions else []
  }

  function ExitHook(info: Info, s: Name): Option<Name> {
    var d := Lookup(info.defs, s);
    if d.Some? then d.value.onExit else None
  }

  function EntryHook(info: Info, s: Name): Option<Name> {
    var d := Lookup(info.defs, s);
    if d.Some? then d.value.onEntry else None
  }

  /** The payload an action receives: the event's own, when the machine declares `EventPayload`. */
  function ActionPayload(info: Info, ev: Event): Option<int> {
    if info.payload.Some? then ev.payload else None
  }

  // ----- One event -----

  /** A handler callback: the call is received, then an event it posts overwrites the slot. */
  function Notify(o: Oracle, cfg: Config, c: Call): Config {
    var trace := cfg.trace + [c];
    var posted := o.post(trace);
    cfg.(trace := trace, slot := if posted.Some? then posted else cfg.slot)
  }

  /** `call_on_exit`: the exit hook of the state current at the time of the call, if it has one. */
  function CallOnExit(info: Info, o: Oracle, cfg: Config, from: Name, ev: Event, to: Name): Config {
    var h := ExitHook(info, cfg.state);
    if h.Some? then Notify(o, cfg, ExitCall(h.value, from, ev, to)) else cfg
  }

  /** `call_on_entry`: the entry hook of the state current at the time of the call, if it has one. */
  function CallOnEntry(info: Info, o: Oracle, cfg: Config, from: Name, ev: Event, to: Name): Config {
    var h := EntryHook(info, cfg.state);
    if h.Some? then Notify(o, cfg, EntryCall(h.value, from, ev, to)) else cfg
  }

  /** A taken transition: exit hook, action, the state update, entry hook. */
  function Take(info: Info, o: Oracle, cfg: Config, ev: Event, t: Transition): Config {
    var from := cfg.state;
    var exited := CallOnExit(info, o, cfg, from, ev, t.target);
    var acted := if t.action.Some? then Notify(o, exited, ActionCall(t.action.value, from, ev, ActionPayload(info, ev), t.target)) else exited;
    CallOnEntry(info, o, acted.(state := t.target), from, ev, t.target)
  }

  /** The `_ =>` arm: the unexpected-event handler with the current state, if one is declared. */
  function Fallback(info: Info, o: Oracle, cfg: Config, ev: Event): Config {
    if info.unexpected.Some? then Notify(o, cfg, UnexpectedCall(info.unexpected.value, cfg.state, ev)) else cfg
  }

  /** The arms of the state's match from arm `i` on: pattern first, then the guard, first success wins. */
  function Scan(info: Info, o: Oracle, cfg: Config, ev: Event, ts: seq<Transition>, i: nat): Config
    requires i <= |ts|
    decreases |ts| - i
  {
    if i == |ts| then Fallback(info, o, cfg, ev)
    else
      var t := ts[i];
      if t.event != ev.name then Scan(info, o, cfg, ev, ts, i + 1)
      else if t.guard.None? then Take(info, o, cfg, ev, t)
      else
        var asked := cfg.(queries := cfg.queries + [t.guard.value]);
        if o.guard(cfg.trace, t.guard.value) then Take(info, o, asked, ev, t)
        else Scan(info, o, asked, ev, ts, i + 1)
  }

  /** The `match state { ... }` of `event`. */
  function Dispatch(info: Info, o: Oracle, cfg: Config, ev: Event): Config {
    Scan(info, o, cfg, ev, TransitionsFrom(info, cfg.state), 0)
  }

  /**
   * `event`: dispatch, then take the buffered event and, if there was one,
   * handle it the same way. Each buffered event handled uses one unit of
   * `fuel`; when none is left the pending event stays in the slot and the
   * flag says the machine has not settled.
   */
  function Run(info: Info, o: Oracle, cfg: Config, ev: Event, fuel: nat): (Config, bool)
    decreases fuel
  {
    var c := Dispatch(info, o, cfg, ev);
    if c.slot.None? then (c, true)
    else if fuel == 0 then (c, false)
    else Run(info, o, c.(slot := None), c.slot.value, fuel - 1)
  }

  // ----- First match wins, else fallback -----

  /** An arm that fires: the event matches and the guard, if any, holds. */
  predicate Eligible(o: Oracle, trace: seq<Call>, ev: Event, t: Transition) {
    t.event == ev.name && (t.guard.None? || o.guard(trace, t.guard.value))
  }

  /** The guards of the arms `lo` to `hi - 1` whose event matches: those the match asks, in order. */
  function Asked(ts: seq<Transition>, ev: Event, lo: nat, hi: nat): seq<Name>
    requires lo <= hi <= |ts|
    decreases hi - lo
  {
    if lo == hi then []
    else
      AskedBy(ts[lo], ev) + Asked(ts, ev, lo + 1, hi)
  }

  /** The guard that arm `t` asks for event `ev`, if its pattern matches. */
  function AskedBy(t: Transition, ev: Event): seq<Name> {
    if t.event == ev.name && t.guard.Some? then [t.guard.value] else []
  }

  /**
   * The match takes the first arm that fires, after asking the guards of
   * the matching arms before it and its own.
   */
  lemma {:induction false} ScanTakesFirstEligible(info: Info, o: Oracle, cfg: Config, ev: Event, ts: seq<Transition>, i: nat, k: nat)
    requires i <= k < |ts| && Eligible(o, cfg.trace, ev, ts[k])
    requires forall j :: i <= j < k ==> !Eligible(o, cfg.trace, ev, ts[j])
    ensures Scan(info, o, cfg, ev, ts, i) == Take(info, o, cfg.(queries := cfg.queries + Asked(ts, ev, i, k + 1)), ev, ts[k])
    decreases k - i
  {
    var t := ts[i];
    var asked := cfg.(queries := cfg.queries + AskedBy(t, ev));
    if i == k {
      ScanFires(info, o, cfg, ev, ts, i);
      assert Asked(ts, ev, i, k + 1) == AskedBy(t, ev) + Asked(ts, ev, k + 1, k + 1);
      assert Asked(ts, ev, i, k + 1) == AskedBy(t, ev);
    } else {
      ScanStep(info, o, cfg, ev, ts, i);
      ScanTakesFirstEligible(info, o, asked, ev, ts, i + 1, k);
      assert Asked(ts, ev, i, k + 1) == AskedBy(t, ev) + Asked(ts, ev, i + 1, k + 1);
      assert cfg.queries + Asked(ts, ev, i, k + 1) == asked.queries + Asked(ts, ev, i + 1, k + 1);
    }
  }

  /** An arm that fires is taken, having asked its guard if it has one. */
  lemma ScanFires(info: Info, o: Oracle, cfg: Config, ev: Event, ts: seq<Transition>, i: nat)
    requires i < |ts| && Eligible(o, cfg.trace, ev, ts[i])
    ensures Scan(info, o, cfg, ev, ts, i) == Take(info, o, cfg.(queries := cfg.queries + AskedBy(ts[i], ev)), ev, ts[i])
  {
    if ts[i].guard.None? {
      assert cfg.(queries := cfg.queries + AskedBy(ts[i], ev)) == cfg;
    }
  }

  /** An arm that does not fire passes on to the next, having asked its guard if its pattern matched. */
  lemma ScanStep(info: Info, o: Oracle, cfg: Config, ev: Event, ts: seq<Transition>, i: nat)
    requires i < |ts| && !Eligible(o, cfg.trace, ev, ts[i])
    ensures Scan(info, o, cfg, ev, ts, i) == Scan(info, o, cfg.(queries := cfg.queries + AskedBy(ts[i], ev)), ev, ts, i + 1)
  {
    if ts[i].event != ev.name {
      assert cfg.(queries := cfg.queries + AskedBy(ts[i], ev)) == cfg;
    }
  }

  /** When no arm fires, the match asks every matching guard and falls back. */
  lemma {:induction false} ScanFallsBack(info: Info, o: Oracle, cfg: Config, ev: Event, ts: seq<Transition>, i: nat)
    requires i <= |ts|
    requires forall j :: i <= j < |ts| ==> !Eligible(o, cfg.trace, ev, ts[j])
    ensures Scan(info, o, cfg, ev, ts, i) == Fallback(info, o, cfg.(queries := cfg.queries + Asked(ts, ev, i, |ts|)), ev)
    decreases |ts| - i
  {
    if i < |ts| {
      var t := ts[i];
      var asked := cfg.(queries := cfg.queries + AskedBy(t, ev));
      ScanStep(info, o, cfg, ev, ts, i);
      ScanFallsBack(info, o, asked, ev, ts, i + 1);
      assert Asked(ts, ev, i, |ts|) == AskedBy(t, ev) + Asked(ts, ev, i + 1, |ts|);
      assert cfg.queries + Asked(ts, ev, i, |ts|) == asked.queries + Asked(ts, ev, i + 1, |ts|);
    } else {
      assert cfg.queries + [] == cfg.queries;
    }
  }

  // ----- Call order of a taken transition, and the one-slot buffer -----

  /** The handler calls `cs`, one after the other. */
  function NotifyAll(o: Oracle, cfg: Config, cs: seq<Call>): Config
    decreases |cs|
  {
    if cs == [] then cfg else NotifyAll(o, Notify(o, cfg, cs[0]), cs[1..])
  }

  /** The slot after the calls `cs` following `trace`: the event posted last, else what the slot held. */
  function LastPost(o: Oracle, trace: seq<Call>, cs: seq<Call>, slot: Option<Event>): Option<Event>
    decreases |cs|
  {
    if cs == [] then slot
    else
      var posted := o.post(trace + cs);
      if posted.Some? then posted else LastPost(o, trace, cs[..|cs| - 1], slot)
  }

  function OptionCall(o: Option<Call>): seq<Call> {
    if o.Some? then [o.value] else []
  }

  /** The calls of a taken transition from `from`: exit hook, action, entry hook of the target, those that exist. */
  function TakeCalls(info: Info, from: Name, ev: Event, t: Transition): seq<Call> {
    var exit := ExitHook(info, from);
    var entry := EntryHook(info, t.target);
    OptionCall(if exit.Some? then Some(ExitCall(exit.value, from, ev, t.target)) else None)
      + OptionCall(if t.action.Some? then Some(ActionCall(t.action.value, from, ev, ActionPayload(info, ev), t.target)) else None)
      + OptionCall(if entry.Some? then Some(EntryCall(entry.value, from, ev, t.target)) else None)
  }

  lemma {:induction false} NotifyAllAppend(o: Oracle, cfg: Config, cs: seq<Call>, c: Call)
    ensures NotifyAll(o, cfg, cs + [c]) == Notify(o, NotifyAll(o, cfg, cs), c)
    decreases |cs|
  {
    if cs == [] {
      assert [] + [c] == [c];
    } else {
      assert (cs + [c])[1..] == cs[1..] + [c];
      NotifyAllAppend(o, Notify(o, cfg, cs[0]), cs[1..], c);
    }
  }

  /** Calling the handler records exactly the calls, in order, and leaves in the slot the event posted last. */
  lemma {:induction false} NotifyAllRecords(o: Oracle, cfg: Config, cs: seq<Call>)
    ensures NotifyAll(o, cfg, cs) == cfg.(trace := cfg.trace + cs, slot := LastPost(o, cfg.trace, cs, cfg.slot))
    decreases |cs|
  {
    if cs != [] {
      var init, c := cs[..|cs| - 1], cs[|cs| - 1];
      assert cs == init + [c];
      NotifyAllAppend(o, cfg, init, c);
      NotifyAllRecords(o, cfg, init);
      assert (cfg.trace + init) + [c] == cfg.trace + cs;
    }
  }

  /**
   * A taken transition changes the state to the target, calls the exit
   * hook of the source, the action and the entry hook of the target, in
   * that order and each with (source, event, target), and asks nothing.
   */
  lemma TakeCallOrder(info: Info, o: Oracle, cfg: Config, ev: Event, t: Transition)
    ensures Take(info, o, cfg, ev, t) == NotifyAll(o, cfg, TakeCalls(info, cfg.state, ev, t)).(state := t.target)
  {
    var from := cfg.state;
    var exit := ExitHook(info, from);
    var entry := EntryHook(info, t.target);
    var e := OptionCall(if exit.Some? then Some(ExitCall(exit.value, from, ev, t.target)) else None);
    var a := OptionCall(if t.action.Some? then Some(ActionCall(t.action.value, from, ev, ActionPayload(info, ev), t.target)) else None);
    var n := OptionCall(if entry.Some? then Some(EntryCall(entry.value, from, ev, t.target)) else None);
    NotifyAllSplit(o, cfg, e, a);
    NotifyAllSplit(o, cfg, e + a, n);
    assert NotifyAll(o, cfg, e) == CallOnExit(info, o, cfg, from, ev, t.target);
    var acted := NotifyAll(o, NotifyAll(o, cfg, e), a);
    assert acted == (if t.action.Some? then Notify(o, NotifyAll(o, cfg, e), ActionCall(t.action.value, from, ev, ActionPayload(info, ev), t.target)) else NotifyAll(o, cfg, e));
    assert NotifyAll(o, acted, n).(state := t.target) == CallOnEntry(info, o, acted.(state := t.target), from, ev, t.target);
  }

  lemma {:induction false} NotifyAllSplit(o: Oracle, cfg: Config, xs: seq<Call>, ys: seq<Call>)
    ensures NotifyAll(o, cfg, xs + ys) == NotifyAll(o, NotifyAll(o, cfg, xs), ys)
    decreases |xs|
  {
    if xs != [] {
      assert (xs + ys)[0] == xs[0] && (xs + ys)[1..] == xs[1..] + ys;
      NotifyAllSplit(o, Notify(o, cfg, xs[0]), xs[1..], ys);
    } else {
      assert xs + ys == ys;
    }
  }

  /** What the handler posts during the call `cs[j]`, the calls before it having been received. */
  function PostedAt(o: Oracle, trace: seq<Call>, cs: seq<Call>, j: nat): Option<Event>
    requires j < |cs|
  {
    o.post(trace + cs[..j + 1])
  }

  lemma PostedAtPrefix(o: Oracle, trace: seq<Call>, cs: seq<Call>, init: seq<Call>)
    requires cs != [] && init == cs[..|cs| - 1]
    ensures forall j :: 0 <= j < |init| ==> PostedAt(o, trace, init, j) == PostedAt(o, trace, cs, j)
    ensures PostedAt(o, trace, cs, |cs| - 1) == o.post(trace + cs)
  {
    forall j | 0 <= j < |init| ensures PostedAt(o, trace, init, j) == PostedAt(o, trace, cs, j) {
      assert init[..j + 1] == cs[..j + 1];
    }
    assert cs[..|cs|] == cs;
  }

  /**
   * The one-slot buffer keeps only the event posted last: after a posting
   * call `m`, calls that post nothing leave that event in the slot.
   */
  lemma {:induction false} LastPostIsLatest(o: Oracle, trace: seq<Call>, cs: seq<Call>, slot: Option<Event>, m: nat)
    requires m < |cs| && PostedAt(o, trace, cs, m).Some?
    requires forall j :: m < j < |cs| ==> PostedAt(o, trace, cs, j).None?
    ensures LastPost(o, trace, cs, slot) == PostedAt(o, trace, cs, m)
    decreases |cs|
  {
    var init := cs[..|cs| - 1];
    PostedAtPrefix(o, trace, cs, init);
    if m < |cs| - 1 {
      LastPostIsLatest(o, trace, init, slot, m);
    }
  }

  /** When no call posts, the slot keeps what it held. */
  lemma {:induction false} LastPostKeepsSlot(o: Oracle, trace: seq<Call>, cs: seq<Call>, slot: Option<Event>)
    requires forall j :: 0 <= j < |cs| ==> PostedAt(o, trace, cs, j).None?
    ensures LastPost(o, trace, cs, slot) == slot
    decreases |cs|
  {
    if cs != [] {
      var init := cs[..|cs| - 1];
      PostedAtPrefix(o, trace, cs, init);
      LastPostKeepsSlot(o, trace, init, slot);
    }
  }

  /** With a handler that posts nothing, a taken transition records its calls and leaves the slot as it was. */
  lemma TakeSilent(info: Info, o: Oracle, cfg: Config, ev: Event, t: Transition)
    requires forall trace :: o.post(trace).None?
    ensures Take(info, o, cfg, ev, t) == cfg.(state := t.target, trace := cfg.trace + TakeCalls(info, cfg.state, ev, t))
  {
    var cs := TakeCalls(info, cfg.state, ev, t);
    TakeCallOrder(info, o, cfg, ev, t);
    NotifyAllRecords(o, cfg, cs);
    LastPostKeepsSlot(o, cfg.trace, cs, cfg.slot);
  }

  // ----- The drain and the declared states -----

  /** The run has settled exactly when the slot is empty at its end. */
  lemma {:induction false} RunSettledIffDrained(info: Info, o: Oracle, cfg: Config, ev: Event, fuel: nat)
    ensures Run(info, o, cfg, ev, fuel).1 <==> Run(info, o, cfg, ev, fuel).0.slot.None?
    decreases fuel
  {
    var c := Dispatch(info, o, cfg, ev);
    if c.slot.Some? && fuel > 0 {
      RunSettledIffDrained(info, o, c.(slot := None), c.slot.value, fuel - 1);
    }
  }

  /** More fuel changes nothing once a run has settled. */
  lemma {:induction false} RunFuelMonotone(info: Info, o: Oracle, cfg: Config, ev: Event, fuel: nat, more: nat)
    requires fuel <= more
    requires Run(info, o, cfg, ev, fuel).1
    ensures Run(info, o, cfg, ev, more) == Run(info, o, cfg, ev, fuel)
    decreases fuel
  {
    var c := Dispatch(info, o, cfg, ev);
    if c.slot.Some? {
      RunFuelMonotone(info, o, c.(slot := None), c.slot.value, fuel - 1, more - 1);
    }
  }

  /** Every transition target of a consistent definition is a declared state, so the machine stays among them. */
  lemma DispatchKeepsDeclared(info: Info, o: Oracle, cfg: Config, ev: Event)
    requires TargetsDeclared(info.defs)
    requires cfg.state in Names(info.defs)
    ensures Dispatch(info, o, cfg, ev).state in Names(info.defs)
  {
    var ts := TransitionsFrom(info, cfg.state);
    var d := Lookup(info.defs, cfg.state);
    assert d.Some? by {
      var names := Names(info.defs);
      var i :| 0 <= i < |names| && names[i] == cfg.state;
      assert info.defs[i].name == cfg.state;
    }
    var i :| 0 <= i < |info.defs| && info.defs[i] == d.value;
    ScanStaysIn(info, o, cfg, ev, ts, 0, Names(info.defs));
  }

  /** `event` handles the buffered event, if any, after dispatching the given one. */
  lemma RunUnfold(info: Info, o: Oracle, cfg: Config, ev: Event, fuel: nat)
    ensures var c := Dispatch(info, o, cfg, ev);
      Run(info, o, cfg, ev, fuel) ==
        if c.slot.None? then (c, true)
        else if fuel == 0 then (c, false)
        else Run(info, o, c.(slot := None), c.slot.value, fuel - 1)
  {
  }

  lemma {:induction false} ScanStaysIn(info: Info, o: Oracle, cfg: Config, ev: Event, ts: seq<Transition>, i: nat, states: seq<Name>)
    requires i <= |ts|
    requires cfg.state in states
    requires forall j :: 0 <= j < |ts| ==> ts[j].target in states
    ensures Scan(info, o, cfg, ev, ts, i).state in states
    decreases |ts| - i
  {
    if i < |ts| {
      var t := ts[i];
      if t.event == ev.name {
        TakeCallOrder(info, o, cfg, ev, t);
        TakeCallOrder(info, o, cfg.(queries := cfg.queries + OptionList(t.guard)), ev, t);
      }
      ScanStaysIn(info, o, cfg, ev, ts, i + 1, states);
      ScanStaysIn(info, o, cfg.(queries := cfg.queries + OptionList(t.guard)), ev, ts, i + 1, states);
    }
  }

  lemma {:induction false} RunKeepsDeclared(info: Info, o: Oracle, cfg: Config, ev: Event, fuel: nat)
    requires TargetsDeclared(info.defs)
    requires cfg.state in Names(info.defs)
    ensures Run(info, o, cfg, ev, fuel).0.state in Names(info.defs)
    decreases fuel
  {
    var c := Dispatch(info, o, cfg, ev);
    DispatchKeepsDeclared(info, o, cfg, ev);
    if c.slot.Some? && fuel > 0 {
      RunKeepsDeclared(info, o, c.(slot := None), c.slot.value, fuel - 1);
    }
  }

  /** With unique state names, the arm for a state is the block declared under its name. */
  lemma {:induction false} LookupFindsDeclared(defs: seq<StateDef>, i: nat)
    requires NoDup(Names(defs)) && i < |defs|
    ensures Lookup(defs, defs[i].name) == Some(defs[i])
    decreases i
  {
    if i > 0 {
      assert Names(defs)[0] != Names(defs)[i];
      var rest := defs[1..];
      assert forall j :: 0 <= j < |rest| ==> Names(rest)[j] == Names(defs)[j + 1];
      LookupFindsDeclared(rest, i - 1);
    }
  }
}
