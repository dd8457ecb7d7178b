/**
 * The machines and tests of the crate's own test suite (src/lib.rs),
 * replayed against the model: each macro input is given as the state
 * blocks it writes out, and each test drives a Machine the way the test
 * drives the generated struct.
 */
module Scenarios {
  import opened Wrappers
  import opened NameLists
  import opened Definition
  import opened Parser
  import opened ParserSoundness
  import opened Rendering
  import opened Semantics
  import opened Engine

  /** A consistent definition written out as macro input is accepted, and the result is one the machine can run. */
  lemma RenderedValidAccepted(h: Header, defs: seq<StateDef>)
    requires Renderable(defs) && ValidDefs(defs)
    ensures ParseResult(Render(h, defs)) == Ok(Build(h, defs))
    ensures ValidInfo(Build(h, defs))
  {
    ParseRendered(h, defs);
    ValidateIsValidDefs(defs);
    ParseSound(Render(h, defs));
  }

  /** Event names longer than either hook keyword cannot be read as one. */
  lemma LongEventsNoHooks(defs: seq<StateDef>)
    requires forall i, j :: 0 <= i < |defs| && 0 <= j < |defs[i].transitions| ==> |defs[i].transitions[j].event| > 7
    ensures forall i :: 0 <= i < |defs| ==> NoHookEvents(defs[i].transitions)
  {
  }

  /** `TestStatemachine::new(handler)` for the macro input `Render(h, defs)`. */
  method Start(h: Header, defs: seq<StateDef>, o: Oracle) returns (m: Machine)
    requires Renderable(defs) && ValidDefs(defs) && h.initial in Names(defs)
    ensures fresh(m) && fresh(m.handler)
    ensures m.info.defs == defs && m.info.payload == h.payload && m.info.unexpected == h.unexpected && m.Valid()
    ensures m.state == h.initial && m.buffered == None
    ensures m.handler.behaviour == o && m.handler.trace == [] && m.handler.queries == []
  {
    RenderedValidAccepted(h, defs);
    var handler := new Handler(o);
    m := new Machine(Build(h, defs), handler);
  }

  function Plain(event: Name, target: Name): Transition {
    Transition(event, None, None, target)
  }

  function Signal(name: Name): Event {
    Event(name, None)
  }

  /** A handler whose guards are all false and whose callbacks post nothing. */
  function Quiet(): Oracle {
    Oracle((trace, g) => false, trace => None)
  }

  // ----- TestStatemachine -----

  const FirstHeader := Header("TestStatemachine", "MyInitialState", None, Some("unexpected_handler"))

  function FirstDefs(): seq<StateDef> {
    [ StateDef("MyInitialState", None, None, [Plain("MyFirstEvent", "MyThirdState"), Plain("MyThirdEvent", "MySecondState")]),
      StateDef("MySecondState", None, None, [Plain("MySecondEvent", "MyInitialState")]),
      StateDef("MyThirdState", None, None, []) ]
  }

  lemma FirstDefsValid()
    ensures Renderable(FirstDefs()) && ValidDefs(FirstDefs()) && FirstHeader.initial in Names(FirstDefs())
  {
    var defs := FirstDefs();
    assert Names(defs) == ["MyInitialState", "MySecondState", "MyThirdState"];
    assert NoDup(Names(defs));
    assert forall i :: 0 <= i < |defs| ==> GuardedFirst(defs[i].transitions);
    assert forall i :: 0 <= i < |defs| ==> UniqueTriggers(defs[i].transitions);
    assert forall i, j :: 0 <= i < |defs| && 0 <= j < |defs[i].transitions| ==> defs[i].transitions[j].target in Names(defs);
    LongEventsNoHooks(defs);
  }

  lemma DeadEndFirst(info: Info)
    requires info.defs == FirstDefs()
    ensures Run(info, Quiet(), Config("MyInitialState", None, [], []), Signal("MyFirstEvent"), 0)
      == (Config("MyThirdState", None, [], []), true)
  {
    var cfg := Config("MyInitialState", None, [], []);
    assert Lookup(info.defs, "MyInitialState") == Some(FirstDefs()[0]);
    ScanTakesFirstEligible(info, Quiet(), cfg, Signal("MyFirstEvent"), FirstDefs()[0].transitions, 0, 0);
  }

  lemma DeadEndSecond(info: Info)
    requires info.defs == FirstDefs() && info.unexpected == Some("unexpected_handler")
    ensures Run(info, Quiet(), Config("MyThirdState", None, [], []), Signal("MySecondEvent"), 0)
      == (Config("MyThirdState", None, [UnexpectedCall("unexpected_handler", "MyThirdState", Signal("MySecondEvent"))], []), true)
  {
    var cfg := Config("MyThirdState", None, [], []);
    assert Lookup(info.defs, "MyThirdState") == Some(FirstDefs()[2]);
    ScanFallsBack(info, Quiet(), cfg, Signal("MySecondEvent"), [], 0);
    assert TransitionsFrom(info, "MyThirdState") == [];
    var c := Dispatch(info, Quiet(), cfg, Signal("MySecondEvent"));
    assert c == Fallback(info, Quiet(), cfg, Signal("MySecondEvent"));
    assert Quiet().post([UnexpectedCall("unexpected_handler", "MyThirdState", Signal("MySecondEvent"))]) == None;
    assert c.slot == None;
    assert c.trace == [UnexpectedCall("unexpected_handler", "MyThirdState", Signal("MySecondEvent"))];
    assert c.queries == [];
    assert c.state == "MyThirdState";
    RunUnfold(info, Quiet(), cfg, Signal("MySecondEvent"), 0);
  }

  /** `handle_event_with_dead_end` and `handle_events_in_owning_struct`. */
  method HandleEventWithDeadEnd() {
    FirstDefsValid();
    var m := Start(FirstHeader, FirstDefs(), Quiet());
    var s := m.GetState();
    assert s == "MyInitialState";
    DeadEndFirst(m.info);
    var settled := m.HandleEvent(Signal("MyFirstEvent"), 0);
    s := m.GetState();
    assert s == "MyThirdState" && m.handler.trace == [];
    DeadEndSecond(m.info);
    settled := m.HandleEvent(Signal("MySecondEvent"), 0);
    s := m.GetState();
    assert s == "MyThirdState";
    assert m.handler.trace == [UnexpectedCall("unexpected_handler", "MyThirdState", Signal("MySecondEvent"))];
  }

  lemma LoopFirst(info: Info)
    requires info.defs == FirstDefs()
    ensures Run(info, Quiet(), Config("MyInitialState", None, [], []), Signal("MyThirdEvent"), 0)
      == (Config("MySecondState", None, [], []), true)
  {
    var cfg, ev := Config("MyInitialState", None, [], []), Signal("MyThirdEvent");
    assert Lookup(info.defs, "MyInitialState") == Some(FirstDefs()[0]);
    assert "MyFirstEvent"[2] != "MyThirdEvent"[2];
    ScanTakesFirstEligible(info, Quiet(), cfg, ev, FirstDefs()[0].transitions, 0, 1);
    RunUnfold(info, Quiet(), cfg, ev, 0);
  }

  lemma LoopSecond(info: Info)
    requires info.defs == FirstDefs()
    ensures Run(info, Quiet(), Config("MySecondState", None, [], []), Signal("MySecondEvent"), 0)
      == (Config("MyInitialState", None, [], []), true)
  {
    var cfg, ev := Config("MySecondState", None, [], []), Signal("MySecondEvent");
    assert Lookup(info.defs, "MySecondState") == Some(FirstDefs()[1]);
    ScanTakesFirstEligible(info, Quiet(), cfg, ev, FirstDefs()[1].transitions, 0, 0);
    RunUnfold(info, Quiet(), cfg, ev, 0);
  }

  /** `handle_event_in_a_loop` */
  method HandleEventInALoop() {
    FirstDefsValid();
    var m := Start(FirstHeader, FirstDefs(), Quiet());
    LoopFirst(m.info);
    LoopSecond(m.info);
    var settled := m.HandleEvent(Signal("MyThirdEvent"), 0);
    var s := m.GetState();
    assert s == "MySecondState";
    settled := m.HandleEvent(Signal("MySecondEvent"), 0);
    s := m.GetState();
    assert s == "MyInitialState" && m.handler.trace == [];
  }

  // ----- TestStatemachine2 -----

  const GuardHeader := Header("TestStatemachine2", "MyInitialState", None, None)

  function GuardDefs(): seq<StateDef> {
    [ StateDef("MyInitialState", None, None, [Transition("MyFirstEvent", Some("test_guard"), None, "MyThirdState"), Plain("MyFirstEvent", "MyInitialState")]),
      StateDef("MyThirdState", None, None, []) ]
  }

  lemma GuardDefsValid()
    ensures Renderable(GuardDefs()) && ValidDefs(GuardDefs()) && GuardHeader.initial in Names(GuardDefs())
  {
    var defs := GuardDefs();
    assert Names(defs) == ["MyInitialState", "MyThirdState"];
    assert NoDup(Names(defs));
    assert forall i :: 0 <= i < |defs| ==> GuardedFirst(defs[i].transitions);
    assert forall i :: 0 <= i < |defs| ==> UniqueTriggers(defs[i].transitions);
    assert forall i, j :: 0 <= i < |defs| && 0 <= j < |defs[i].transitions| ==> defs[i].transitions[j].target in Names(defs);
    LongEventsNoHooks(defs);
  }

  /** A handler whose guards are all true and whose callbacks post nothing. */
  function Agreeing(): Oracle {
    Oracle((trace, g) => true, trace => None)
  }

  lemma GuardFirst(info: Info)
    requires info.defs == GuardDefs()
    ensures Run(info, Quiet(), Config("MyInitialState", None, [], []), Signal("MyFirstEvent"), 0)
      == (Config("MyInitialState", None, [], ["test_guard"]), true)
  {
    var cfg, ev := Config("MyInitialState", None, [], []), Signal("MyFirstEvent");
    var ts := GuardDefs()[0].transitions;
    assert Lookup(info.defs, "MyInitialState") == Some(GuardDefs()[0]);
    ScanTakesFirstEligible(info, Quiet(), cfg, ev, ts, 0, 1);
    assert Asked(ts, ev, 0, 2) == ["test_guard"];
    var asked := cfg.(queries := ["test_guard"]);
    assert Dispatch(info, Quiet(), cfg, ev) == Take(info, Quiet(), asked, ev, ts[1]);
    TakeSilent(info, Quiet(), asked, ev, ts[1]);
    assert TakeCalls(info, "MyInitialState", ev, ts[1]) == [];
    assert Dispatch(info, Quiet(), cfg, ev) == Config("MyInitialState", None, [], ["test_guard"]);
    RunUnfold(info, Quiet(), cfg, ev, 0);
  }

  lemma GuardSecond(info: Info)
    requires info.defs == GuardDefs()
    ensures Run(info, Agreeing(), Config("MyInitialState", None, [], ["test_guard"]), Signal("MyFirstEvent"), 0)
      == (Config("MyThirdState", None, [], ["test_guard", "test_guard"]), true)
  {
    var cfg, ev := Config("MyInitialState", None, [], ["test_guard"]), Signal("MyFirstEvent");
    var ts := GuardDefs()[0].transitions;
    assert Lookup(info.defs, "MyInitialState") == Some(GuardDefs()[0]);
    ScanTakesFirstEligible(info, Agreeing(), cfg, ev, ts, 0, 0);
    assert Asked(ts, ev, 0, 1) == ["test_guard"];
    var asked := cfg.(queries := ["test_guard", "test_guard"]);
    assert Dispatch(info, Agreeing(), cfg, ev) == Take(info, Agreeing(), asked, ev, ts[0]);
    TakeSilent(info, Agreeing(), asked, ev, ts[0]);
    assert TakeCalls(info, "MyInitialState", ev, ts[0]) == [];
    assert Dispatch(info, Agreeing(), cfg, ev) == Config("MyThirdState", None, [], ["test_guard", "test_guard"]);
    RunUnfold(info, Agreeing(), cfg, ev, 0);
  }

  /** `guard_test`: a false guard passes to the next arm; once the handler's guard value is set, the guarded arm is taken. */
  method GuardTest() {
    GuardDefsValid();
    var m := Start(GuardHeader, GuardDefs(), Quiet());
    GuardFirst(m.info);
    GuardSecond(m.info);
    var settled := m.HandleEvent(Signal("MyFirstEvent"), 0);
    var s := m.GetState();
    assert s == "MyInitialState" && m.handler.queries == ["test_guard"];
    m.handler.behaviour := Agreeing();
    settled := m.HandleEvent(Signal("MyFirstEvent"), 0);
    s := m.GetState();
    assert s == "MyThirdState" && m.handler.queries == ["test_guard", "test_guard"];
  }

  // ----- TestStatemachine3 -----

  const ActionHeader := Header("TestStatemachine3", "MyInitialState", None, None)

  function ActionDefs(): seq<StateDef> {
    [ StateDef("MyInitialState", None, None, [Transition("MyFirstEvent", None, Some("action_handler"), "MySecondState")]),
      StateDef("MySecondState", None, None, []) ]
  }

  lemma ActionDefsValid()
    ensures Renderable(ActionDefs()) && ValidDefs(ActionDefs()) && ActionHeader.initial in Names(ActionDefs())
  {
    var defs := ActionDefs();
    assert Names(defs) == ["MyInitialState", "MySecondState"];
    assert NoDup(Names(defs));
    assert forall i :: 0 <= i < |defs| ==> GuardedFirst(defs[i].transitions);
    assert forall i :: 0 <= i < |defs| ==> UniqueTriggers(defs[i].transitions);
    assert forall i, j :: 0 <= i < |defs| && 0 <= j < |defs[i].transitions| ==> defs[i].transitions[j].target in Names(defs);
    LongEventsNoHooks(defs);
  }

  lemma ActionFirst(info: Info)
    requires info.defs == ActionDefs() && info.payload == None
    ensures Run(info, Quiet(), Config("MyInitialState", None, [], []), Signal("MyFirstEvent"), 0)
      == (Config("MySecondState", None, [ActionCall("action_handler", "MyInitialState", Signal("MyFirstEvent"), None, "MySecondState")], []), true)
  {
    var cfg, ev := Config("MyInitialState", None, [], []), Signal("MyFirstEvent");
    assert Lookup(info.defs, "MyInitialState") == Some(ActionDefs()[0]);
    assert Lookup(info.defs, "MySecondState") == Some(ActionDefs()[1]);
    var ts := ActionDefs()[0].transitions;
    ScanTakesFirstEligible(info, Quiet(), cfg, ev, ts, 0, 0);
    assert Asked(ts, ev, 0, 1) == [];
    assert Dispatch(info, Quiet(), cfg, ev) == Take(info, Quiet(), cfg, ev, ts[0]);
    TakeSilent(info, Quiet(), cfg, ev, ts[0]);
    var call := ActionCall("action_handler", "MyInitialState", ev, None, "MySecondState");
    assert TakeCalls(info, "MyInitialState", ev, ts[0]) == [call];
    assert Dispatch(info, Quiet(), cfg, ev) == Config("MySecondState", None, [call], []);
    RunUnfold(info, Quiet(), cfg, ev, 0);
  }

  /** `action_test`: the action receives the source state, the event and the target state. */
  method ActionTest() {
    ActionDefsValid();
    var m := Start(ActionHeader, ActionDefs(), Quiet());
    ActionFirst(m.info);
    var settled := m.HandleEvent(Signal("MyFirstEvent"), 0);
    var s := m.GetState();
    assert s == "MySecondState";
    assert m.handler.trace == [ActionCall("action_handler", "MyInitialState", Signal("MyFirstEvent"), None, "MySecondState")];
  }

  // ----- TestStatemachine4 -----

  const EmitHeader := Header("TestStatemachine4", "MyInitialState", None, None)

  function EmitDefs(): seq<StateDef> {
    [ StateDef("MyInitialState", None, None, [Transition("MyFirstEvent", None, Some("action_handler"), "MyInitialState"), Plain("MyActionEvent", "MySecondState")]),
      StateDef("MySecondState", None, None, []) ]
  }

  lemma EmitDefsValid()
    ensures Renderable(EmitDefs()) && ValidDefs(EmitDefs()) && EmitHeader.initial in Names(EmitDefs())
  {
    var defs := EmitDefs();
    assert Names(defs) == ["MyInitialState", "MySecondState"];
    assert NoDup(Names(defs));
    assert forall i :: 0 <= i < |defs| ==> GuardedFirst(defs[i].transitions);
    assert forall i :: 0 <= i < |defs| ==> UniqueTriggers(defs[i].transitions);
    assert forall i, j :: 0 <= i < |defs| && 0 <= j < |defs[i].transitions| ==> defs[i].transitions[j].target in Names(defs);
    LongEventsNoHooks(defs);
  }

  /** The test's handler: its action posts `MyActionEvent` through `event_from_handler`. */
  function Emitting(): Oracle {
    Oracle((trace, g) => false, (trace: seq<Call>) => if |trace| > 0 && trace[|trace| - 1].ActionCall? then Some(Signal("MyActionEvent")) else None)
  }

  lemma EmitFirst(info: Info)
    requires info.defs == EmitDefs() && info.payload == None
    ensures var call := ActionCall("action_handler", "MyInitialState", Signal("MyFirstEvent"), None, "MyInitialState");
      Dispatch(info, Emitting(), Config("MyInitialState", None, [], []), Signal("MyFirstEvent"))
        == Config("MyInitialState", Some(Signal("MyActionEvent")), [call], [])
  {
    var cfg, ev := Config("MyInitialState", None, [], []), Signal("MyFirstEvent");
    assert Lookup(info.defs, "MyInitialState") == Some(EmitDefs()[0]);
    ScanTakesFirstEligible(info, Emitting(), cfg, ev, EmitDefs()[0].transitions, 0, 0);
  }

  lemma EmitPosted(info: Info)
    requires info.defs == EmitDefs()
    ensures var call := ActionCall("action_handler", "MyInitialState", Signal("MyFirstEvent"), None, "MyInitialState");
      Dispatch(info, Emitting(), Config("MyInitialState", None, [call], []), Signal("MyActionEvent"))
        == Config("MySecondState", None, [call], [])
  {
    var call := ActionCall("action_handler", "MyInitialState", Signal("MyFirstEvent"), None, "MyInitialState");
    var cfg, ev := Config("MyInitialState", None, [call], []), Signal("MyActionEvent");
    assert Lookup(info.defs, "MyInitialState") == Some(EmitDefs()[0]);
    ScanTakesFirstEligible(info, Emitting(), cfg, ev, EmitDefs()[0].transitions, 0, 1);
  }

  lemma EmitRun(info: Info)
    requires info.defs == EmitDefs() && info.payload == None
    ensures var call := ActionCall("action_handler", "MyInitialState", Signal("MyFirstEvent"), None, "MyInitialState");
      Run(info, Emitting(), Config("MyInitialState", None, [], []), Signal("MyFirstEvent"), 1)
        == (Config("MySecondState", None, [call], []), true)
  {
    var call := ActionCall("action_handler", "MyInitialState", Signal("MyFirstEvent"), None, "MyInitialState");
    EmitFirst(info);
    EmitPosted(info);
    RunUnfold(info, Emitting(), Config("MyInitialState", None, [], []), Signal("MyFirstEvent"), 1);
    RunUnfold(info, Emitting(), Config("MyInitialState", None, [call], []), Signal("MyActionEvent"), 0);
  }

  /** `action_emitting_event_test`: the event posted by the action is handled before `event` returns. */
  method ActionEmittingEventTest() {
    EmitDefsValid();
    var m := Start(EmitHeader, EmitDefs(), Emitting());
    EmitRun(m.info);
    var settled := m.HandleEvent(Signal("MyFirstEvent"), 1);
    var s := m.GetState();
    assert s == "MySecondState" && settled && m.buffered == None;
  }

  // ----- TestStatemachine5 -----

  const HooksHeader := Header("TestStatemachine5", "MyInitialState", None, None)

  function HooksDefs(): seq<StateDef> {
    [ StateDef("MyInitialState", Some("enter_initial_state"), Some("exit_initial_state"), [Plain("MyFirstEvent", "MyInitialState"), Plain("MySecondEvent", "MySecondState")]),
      StateDef("MySecondState", Some("enter_second_state"), None, []) ]
  }

  lemma HooksDefsValid()
    ensures Renderable(HooksDefs()) && ValidDefs(HooksDefs()) && HooksHeader.initial in Names(HooksDefs())
  {
    var defs := HooksDefs();
    assert Names(defs) == ["MyInitialState", "MySecondState"];
    assert NoDup(Names(defs));
    assert forall i :: 0 <= i < |defs| ==> GuardedFirst(defs[i].transitions);
    assert forall i :: 0 <= i < |defs| ==> UniqueTriggers(defs[i].transitions);
    assert forall i, j :: 0 <= i < |defs| && 0 <= j < |defs[i].transitions| ==> defs[i].transitions[j].target in Names(defs);
    LongEventsNoHooks(defs);
  }

  lemma HooksFirst(info: Info)
    requires info.defs == HooksDefs()
    ensures var ev := Signal("MyFirstEvent");
      Run(info, Quiet(), Config("MyInitialState", None, [], []), ev, 0)
        == (Config("MyInitialState", None, [
              ExitCall("exit_initial_state", "MyInitialState", ev, "MyInitialState"),
              EntryCall("enter_initial_state", "MyInitialState", ev, "MyInitialState")], []), true)
  {
    var cfg, ev := Config("MyInitialState", None, [], []), Signal("MyFirstEvent");
    assert Lookup(info.defs, "MyInitialState") == Some(HooksDefs()[0]);
    var ts := HooksDefs()[0].transitions;
    ScanTakesFirstEligible(info, Quiet(), cfg, ev, ts, 0, 0);
    assert Asked(ts, ev, 0, 1) == [];
    assert Dispatch(info, Quiet(), cfg, ev) == Take(info, Quiet(), cfg, ev, ts[0]);
    TakeSilent(info, Quiet(), cfg, ev, ts[0]);
    var calls := [
      ExitCall("exit_initial_state", "MyInitialState", ev, "MyInitialState"),
      EntryCall("enter_initial_state", "MyInitialState", ev, "MyInitialState")];
    assert TakeCalls(info, "MyInitialState", ev, ts[0]) == calls;
    assert Dispatch(info, Quiet(), cfg, ev) == Config("MyInitialState", None, calls, []);
    RunUnfold(info, Quiet(), cfg, ev, 0);
  }

  lemma HooksSecond(info: Info, trace: seq<Call>)
    requires info.defs == HooksDefs()
    ensures var ev := Signal("MySecondEvent");
      Run(info, Quiet(), Config("MyInitialState", None, trace, []), ev, 0)
        == (Config("MySecondState", None, trace + [
              ExitCall("exit_initial_state", "MyInitialState", ev, "MySecondState"),
              EntryCall("enter_second_state", "MyInitialState", ev, "MySecondState")], []), true)
  {
    var cfg, ev := Config("MyInitialState", None, trace, []), Signal("MySecondEvent");
    assert Lookup(info.defs, "MyInitialState") == Some(HooksDefs()[0]);
    assert Lookup(info.defs, "MySecondState") == Some(HooksDefs()[1]);
    var ts := HooksDefs()[0].transitions;
    assert "MyFirstEvent" != "MySecondEvent";
    ScanTakesFirstEligible(info, Quiet(), cfg, ev, ts, 0, 1);
    assert Asked(ts, ev, 0, 2) == [];
    assert Dispatch(info, Quiet(), cfg, ev) == Take(info, Quiet(), cfg, ev, ts[1]);
    TakeSilent(info, Quiet(), cfg, ev, ts[1]);
    var calls := [
      ExitCall("exit_initial_state", "MyInitialState", ev, "MySecondState"),
      EntryCall("enter_second_state", "MyInitialState", ev, "MySecondState")];
    assert TakeCalls(info, "MyInitialState", ev, ts[1]) == calls;
    assert Dispatch(info, Quiet(), cfg, ev) == Config("MySecondState", None, trace + calls, []);
    RunUnfold(info, Quiet(), cfg, ev, 0);
  }

  /** `on_entry_exit_test`: a self-transition leaves and re-enters the state; entry hooks are those of the target. */
  method OnEntryExitTest() {
    HooksDefsValid();
    var m := Start(HooksHeader, HooksDefs(), Quiet());
    HooksFirst(m.info);
    var first, second := Signal("MyFirstEvent"), Signal("MySecondEvent");
    var settled := m.HandleEvent(first, 0);
    var s := m.GetState();
    assert s == "MyInitialState";
    assert m.handler.trace == [
      ExitCall("exit_initial_state", "MyInitialState", first, "MyInitialState"),
      EntryCall("enter_initial_state", "MyInitialState", first, "MyInitialState")];
    HooksSecond(m.info, m.handler.trace);
    settled := m.HandleEvent(second, 0);
    assert m.handler.trace[2..] == [
      ExitCall("exit_initial_state", "MyInitialState", second, "MySecondState"),
      EntryCall("enter_second_state", "MyInitialState", second, "MySecondState")];
  }

  // ----- TestStatemachine6 -----

  const PayloadHeader := Header("TestStatemachine6", "MyInitialState", Some("MyEventPayload"), None)

  function PayloadDefs(): seq<StateDef> {
    [ StateDef("MyInitialState", None, None, [Transition("MySecondEvent", None, Some("action_with_payload"), "MySecondState")]),
      StateDef("MySecondState", None, None, []) ]
  }

  lemma PayloadDefsValid()
    ensures Renderable(PayloadDefs()) && ValidDefs(PayloadDefs()) && PayloadHeader.initial in Names(PayloadDefs())
  {
    var defs := PayloadDefs();
    assert Names(defs) == ["MyInitialState", "MySecondState"];
    assert NoDup(Names(defs));
    assert forall i :: 0 <= i < |defs| ==> GuardedFirst(defs[i].transitions);
    assert forall i :: 0 <= i < |defs| ==> UniqueTriggers(defs[i].transitions);
    assert forall i, j :: 0 <= i < |defs| && 0 <= j < |defs[i].transitions| ==> defs[i].transitions[j].target in Names(defs);
    LongEventsNoHooks(defs);
  }

  lemma PayloadFirst(info: Info)
    requires info.defs == PayloadDefs() && info.payload == Some("MyEventPayload")
    ensures var ev := Event("MySecondEvent", Some(1234));
      Run(info, Quiet(), Config("MyInitialState", None, [], []), ev, 0)
        == (Config("MySecondState", None, [ActionCall("action_with_payload", "MyInitialState", ev, Some(1234), "MySecondState")], []), true)
  {
    var cfg, ev := Config("MyInitialState", None, [], []), Event("MySecondEvent", Some(1234));
    assert Lookup(info.defs, "MyInitialState") == Some(PayloadDefs()[0]);
    assert Lookup(info.defs, "MySecondState") == Some(PayloadDefs()[1]);
    var ts := PayloadDefs()[0].transitions;
    ScanTakesFirstEligible(info, Quiet(), cfg, ev, ts, 0, 0);
    assert Asked(ts, ev, 0, 1) == [];
    assert Dispatch(info, Quiet(), cfg, ev) == Take(info, Quiet(), cfg, ev, ts[0]);
    TakeSilent(info, Quiet(), cfg, ev, ts[0]);
    var call := ActionCall("action_with_payload", "MyInitialState", ev, Some(1234), "MySecondState");
    assert TakeCalls(info, "MyInitialState", ev, ts[0]) == [call];
    assert Dispatch(info, Quiet(), cfg, ev) == Config("MySecondState", None, [call], []);
    RunUnfold(info, Quiet(), cfg, ev, 0);
  }

  /** `event_payload_test`: the action receives the event's payload. */
  method EventPayloadTest() {
    PayloadDefsValid();
    var m := Start(PayloadHeader, PayloadDefs(), Quiet());
    PayloadFirst(m.info);
    var ev := Event("MySecondEvent", Some(1234));
    var settled := m.HandleEvent(ev, 0);
    var s := m.GetState();
    assert s == "MySecondState";
    assert m.handler.trace == [ActionCall("action_with_payload", "MyInitialState", ev, Some(1234), "MySecondState")];
  }
}
