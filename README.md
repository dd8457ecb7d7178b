# simple_statemachine: the `statemachine!` macro, modelled in Dafny

`simple_statemachine` is a Rust crate whose procedural macro `statemachine!`
turns a small declarative description into a state machine:

```
Name          Machine
InitialState  Idle
EventPayload  Payload            (optional)
UnexpectedHandler  on_unexpected (optional)

Idle {
    OnEntry enter_idle           (optional)
    OnExit  leave_idle           (optional)
    Start[ready] == begin => Busy
    Start => Idle
}
Busy {}
```

The macro has two halves, and this project models both.

* **The parser**, `StatemachineInfo::parse`, reads the description.
  - It collects the states, and the event, hook, guard and action names, each list deduplicated in first-seen order.
  - It rejects four kinds of input:
    - a duplicate state;
    - a guarded trigger after an unguarded one in the same state;
    - a repeated event/guard trigger;
    - a transition to an undeclared state.
  - Modules `Definition`, `Parser`, `ParserSoundness` and `Rendering`.
* **The generated code.** Modules `Semantics`, `Engine` and `Surface`.
  - The machine struct holds:
    - the current state;
    - a one-slot buffer for an event posted by the handler;
    - the user's handler.
  - Its `event` method matches on the current state. It takes the first arm whose event matches and whose guard (if any) holds. Otherwise it calls the unexpected-event handler.
  - A taken transition calls, in order: the exit hook of the old state, the action, then the state update, then the entry hook of the new state.
  - After each dispatch, the buffered event (if any) is taken and handled the same way.
  - The handler trait and the event enum are generated from the collected name lists.

Module by module:

* **Definition** holds:
  - the parsed definition `Info`, with its state blocks `StateDef` and transitions `Transition`;
  - the rules the parser enforces, stated twice: as the parser's check functions (`TriggerError`, `StateError`, `BlocksError`) and as declarative predicates (`GuardedFirst`, `UniqueTriggers`, `ValidDefs`, `ValidInfo`);
  - lemmas that the two statements agree.
* **Parser** has the parse as pure functions (`ParseResult` and its parts) and as an imperative method `Parse`. `Parse` keeps the Rust code's nested loops and early returns, and is proved equal to `ParseResult`.
* **ParserSoundness** proves that every accepted input gives a valid definition (`ValidInfo`).
* **Rendering** proves completeness. It writes any `Renderable` definition out as the tokens a user would type. Parsing those tokens gives back exactly that definition, or exactly the first error the parser's checks hit.
* **Semantics** defines dispatch as functions over a snapshot `Config`. It proves:
  - first match wins, else fallback;
  - the call order;
  - the behaviour of the one-slot buffer;
  - that the machine stays in a declared state.
* **Engine** is the generated struct and the handler, as classes. Their fields change in place, and each method is proved to do what `Semantics` says.
* **Surface** models the generated handler trait and event enum. It proves that the guard methods, the action methods and the event variants are exactly those the definition uses, that every hook a state declares has its method, and that every call the dispatcher makes is to a declared method.
* **Scenarios** replays the crate's own tests (`src/lib.rs`) against the model.

## Model

| member | source | states |
|---|---|---|
| NameLists.AddNew | statemachine_proc_macros/src/lib.rs:400-402 | appending a name unless present: the result holds exactly the old names and the new one, keeps the old list as a prefix, and keeps it duplicate-free |
| NameLists.Dedup | statemachine_proc_macros/src/lib.rs:350-354 | a collected name list has no duplicates and holds exactly the names seen |
| NameLists.DedupFirstSeenOrder | statemachine_proc_macros/src/lib.rs:399-425 | the collected list keeps names in the order of their first occurrence |
| Definition.TriggerError | statemachine_proc_macros/src/lib.rs:431-452 | a line is accepted iff, when guarded, no earlier line of its state is unguarded, and no earlier line has the same event with the same guard (both unguarded, or equal guards) |
| Definition.UndefinedIn | statemachine_proc_macros/src/lib.rs:471-476 | no target is reported iff every target of the lines is a declared state; a reported target is undeclared |
| Definition.UndefinedTargetOf | statemachine_proc_macros/src/lib.rs:469-477 | no target is reported iff every transition of every state targets a declared state; a reported target is undeclared |
| Definition.StateErrorNone | statemachine_proc_macros/src/lib.rs:431-452 | a state's lines pass both checks iff guarded lines come first and no trigger repeats |
| Definition.BlocksErrorNone | statemachine_proc_macros/src/lib.rs:357-466 | the blocks pass iff state names are unique and each block's lines pass |
| Definition.ValidateIsValidDefs | statemachine_proc_macros/src/lib.rs:357-477 | the parser's checks all pass iff the definition has unique states, guarded-first lines, unique triggers and declared targets |
| Definition.StateErrorOfPrefix | statemachine_proc_macros/src/lib.rs:434-451 | the first rejected line decides the error: later lines cannot change it |
| Definition.BlocksErrorOfPrefix | statemachine_proc_macros/src/lib.rs:361 | the first rejected block decides the error: later blocks cannot change it |
| Definition.StateError | statemachine_proc_macros/src/lib.rs:431-453 | the first rejection among a state's lines, line by line; `StateErrorNone` states when there is none and `StateErrorOfPrefix` that the first one decides |
| Definition.BlocksError | statemachine_proc_macros/src/lib.rs:357-466 | the first rejection while the blocks are read, a duplicate state before the block's lines; `BlocksErrorNone` and `BlocksErrorOfPrefix` state its properties |
| Definition.Validate | statemachine_proc_macros/src/lib.rs:357-477 | the block rejections, then the undefined-target post-pass; `ValidateIsValidDefs` states it accepts exactly the consistent definitions |
| Parser.IdentAt | statemachine_proc_macros/src/lib.rs:333 | reading an identifier succeeds exactly on an identifier token, else "expected identifier" |
| Parser.Clause | statemachine_proc_macros/src/lib.rs:339-342 | an optional `Keyword ident` clause: absent leaves the position and means the keyword is not next; present means keyword then the named identifier, two tokens on |
| Parser.ParseHeader | statemachine_proc_macros/src/lib.rs:332-348 | the header ends within the input |
| Parser.ParseHooks | statemachine_proc_macros/src/lib.rs:376-393 | the hook clauses never move backwards and stay within the block |
| Parser.ParseGuard | statemachine_proc_macros/src/lib.rs:405-415 | an absent guard consumes nothing and leaves no stray tokens |
| Parser.ParseTrigger | statemachine_proc_macros/src/lib.rs:399-428 | a transition line consumes at least one token and stays within the block |
| Parser.ParseTransition | statemachine_proc_macros/src/lib.rs:399-453 | an accepted line consumes at least one token and stays within the block |
| Parser.Collect | statemachine_proc_macros/src/lib.rs:399-425 | the event, guard and action of a line added to their lists if new; `ParserSoundness.BlocksKeep` states the lists stay the first-seen deduplication of the names read |
| Parser.ParseBody | statemachine_proc_macros/src/lib.rs:375-459 | the inner loop over a block's hooks and lines; `Parser.ParseBlock` computes it and `Rendering.LinesRead` gives its value |
| Parser.ParseBlocks | statemachine_proc_macros/src/lib.rs:357-466 | the outer loop over the state blocks; `Parser.ReadBlocks` computes it and `ParserSoundness.BlocksKeep` and `Rendering.BlocksRead` state its result |
| Parser.ParseResult | statemachine_proc_macros/src/lib.rs:329-493 | the whole parse; `Parser.Parse` computes it, `ParserSoundness.ParseSound` states soundness and `Rendering.ParseRendered` completeness |
| Parser.ReadHooks | statemachine_proc_macros/src/lib.rs:377-393 | the imperative hook reading computes exactly `ParseHooks` (the `OnEntry` then `OnExit` clauses, each hook added to the list if new) |
| Parser.ReadGuard | statemachine_proc_macros/src/lib.rs:405-415 | the guard bracket computes exactly `ParseGuard`, and the guard list gains the guard if new |
| Parser.ReadTrigger | statemachine_proc_macros/src/lib.rs:399-428 | a transition line computes exactly `ParseTrigger`, and the event, guard and action lists gain its names as `Collect` says |
| Parser.ParseLine | statemachine_proc_macros/src/lib.rs:399-453 | one line with its two checks computes exactly `ParseTransition` |
| Parser.ParseBlock | statemachine_proc_macros/src/lib.rs:368-459 | the inner loop over a block computes exactly `ParseBody` |
| Parser.ReadBlock | statemachine_proc_macros/src/lib.rs:358-373 | one turn of the outer loop is a step of `ParseBlocks`: its error, or the accumulated lists after the block and the rest of the blocks |
| Parser.ReadBlocks | statemachine_proc_macros/src/lib.rs:357-466 | the outer loop computes exactly `ParseBlocks` |
| Parser.FindUndefinedTarget | statemachine_proc_macros/src/lib.rs:469-477 | the post-pass finds exactly the first undeclared target, state by state and line by line |
| Parser.Parse | statemachine_proc_macros/src/lib.rs:329-493 | the imperative parser computes exactly `ParseResult` |
| ParserSoundness.BlocksKeep | statemachine_proc_macros/src/lib.rs:357-466 | the accumulated lists stay the deduplicated events, guards, actions, hooks and states of the blocks read so far, and the blocks stay free of rejected lines |
| ParserSoundness.ParseSound | statemachine_proc_macros/src/lib.rs:329-493 | every accepted input gives a definition with unique states, guarded-first lines, unique triggers and declared targets, whose lists are the first-seen deduplication of the names used and whose hook list covers every hook |
| Rendering.HeaderRead | statemachine_proc_macros/src/lib.rs:332-348 | a written-out header reads back exactly |
| Rendering.HooksRead | statemachine_proc_macros/src/lib.rs:377-393 | written-out hooks read back exactly, and the hook list gains them if new |
| Rendering.LinesRead | statemachine_proc_macros/src/lib.rs:376-458 | written-out lines read back exactly when they pass both checks, and otherwise give the first check's error |
| Rendering.BlocksRead | statemachine_proc_macros/src/lib.rs:357-466 | written-out blocks read back exactly with the collected lists, or give the first block error |
| Rendering.ParseRendered | statemachine_proc_macros/src/lib.rs:329-493 | parsing a written-out definition gives the definition with its first-seen lists, or exactly the first error the checks report |
| Rendering.RenderedAcceptedIffValid | statemachine_proc_macros/src/lib.rs:357-477 | a written-out definition is accepted iff it has unique states, guarded-first lines, unique triggers and declared targets |
| Semantics.Notify | statemachine_proc_macros/src/lib.rs:138-140 | a callback is recorded and an event it posts overwrites the slot; `NotifyAllRecords`, `LastPostIsLatest` and `LastPostKeepsSlot` state the slot's behaviour |
| Semantics.CallOnExit | statemachine_proc_macros/src/lib.rs:152-162 | the exit hook of the current state, if any; `TakeCallOrder` places it first |
| Semantics.CallOnEntry | statemachine_proc_macros/src/lib.rs:141-151 | the entry hook of the current state, if any; `TakeCallOrder` places it last, after the state update |
| Semantics.Take | statemachine_proc_macros/src/lib.rs:205-240 | the body of a match arm; `TakeCallOrder` states its calls and their order, `TakeSilent` its result without posts |
| Semantics.Fallback | statemachine_proc_macros/src/lib.rs:189-199 | the `_` arm; `ScanFallsBack` states when it is reached and `Surface.FallbackFits` what it calls |
| Semantics.Scan | statemachine_proc_macros/src/lib.rs:176-240 | the arms of the current state in order; `ScanTakesFirstEligible` and `ScanFallsBack` state first match wins, else fallback |
| Semantics.Dispatch | statemachine_proc_macros/src/lib.rs:127-132 | the `match state` of `event`; `DispatchKeepsDeclared` states it keeps the state declared |
| Semantics.Run | statemachine_proc_macros/src/lib.rs:127-137 | `event` with its buffered events; `RunSettledIffDrained`, `RunFuelMonotone` and `RunKeepsDeclared` state its properties |
| Semantics.Lookup | statemachine_proc_macros/src/lib.rs:176-201 | the state's block, when there is one, has the state's name; none means no block declares it |
| Semantics.LookupFindsDeclared | statemachine_proc_macros/src/lib.rs:176-201 | with unique state names, each declared state's match arm is its own block |
| Semantics.ScanTakesFirstEligible | statemachine_proc_macros/src/lib.rs:205-240 | the match takes the first arm whose event matches and whose guard holds, after asking exactly the guards of the matching arms up to it |
| Semantics.ScanFallsBack | statemachine_proc_macros/src/lib.rs:176-201 | when no arm fires, the `_` arm calls the unexpected-event handler, after asking every matching arm's guard |
| Semantics.TakeCallOrder | statemachine_proc_macros/src/lib.rs:205-240 | a taken transition makes exactly the calls exit hook of the old state, action, entry hook of the target, in that order, and ends in the target |
| Semantics.NotifyAllRecords | statemachine_proc_macros/src/lib.rs:138-140 | a run of callbacks records them all in order and leaves in the slot the last event posted, or the old slot |
| Semantics.LastPostIsLatest | statemachine_proc_macros/src/lib.rs:138-140 | the slot holds the latest event posted: an earlier post is overwritten |
| Semantics.LastPostKeepsSlot | statemachine_proc_macros/src/lib.rs:138-140 | callbacks that post nothing leave the slot unchanged |
| Semantics.TakeSilent | statemachine_proc_macros/src/lib.rs:205-240 | with a handler that posts nothing, a transition moves to its target and records exactly its calls |
| Semantics.RunSettledIffDrained | statemachine_proc_macros/src/lib.rs:127-137 | `event` reports settled iff the buffer is empty at the end |
| Semantics.RunFuelMonotone | statemachine_proc_macros/src/lib.rs:127-137 | once the buffer drains, more fuel changes nothing |
| Semantics.DispatchKeepsDeclared | statemachine_proc_macros/src/lib.rs:176-240 | when all targets are declared, one dispatch keeps the machine in a declared state |
| Semantics.ScanStaysIn | statemachine_proc_macros/src/lib.rs:176-240 | the match leaves the current state or one of the arms' targets |
| Semantics.RunKeepsDeclared | statemachine_proc_macros/src/lib.rs:127-137 | when all targets are declared, a whole `event` call, buffered events included, keeps the machine in a declared state |
| Engine.Handler.constructor | src/lib.rs:45-69 | a fresh handler has received nothing |
| Engine.Handler.Guard | statemachine_proc_macros/src/lib.rs:244-252 | a guard (`&self`) answers from the calls received and changes nothing but the record of guards asked |
| Engine.Handler.Receive | statemachine_proc_macros/src/lib.rs:254-285 | a callback (`&mut self`) is recorded, and returns the event it posts |
| Engine.Machine.constructor | statemachine_proc_macros/src/lib.rs:105-112 | `new` starts in the initial state with an empty buffer |
| Engine.Machine.GetState | statemachine_proc_macros/src/lib.rs:124-126 | `get_state` returns the current state |
| Engine.Machine.EventFromHandler | statemachine_proc_macros/src/lib.rs:138-140 | `event_from_handler` overwrites the one-slot buffer |
| Engine.Machine.Notify | statemachine_proc_macros/src/lib.rs:138-140 | a callback is recorded, and an event it posts overwrites the buffer, as `Semantics.Notify` says |
| Engine.Machine.CallOnExit | statemachine_proc_macros/src/lib.rs:152-162 | `call_on_exit` calls the current state's exit hook, if any, as `Semantics.CallOnExit` says |
| Engine.Machine.CallOnEntry | statemachine_proc_macros/src/lib.rs:141-151 | `call_on_entry` calls the current state's entry hook, if any, as `Semantics.CallOnEntry` says |
| Engine.Machine.Take | statemachine_proc_macros/src/lib.rs:205-240 | a match arm's body does exit hook, action, state update, entry hook, as `Semantics.Take` says |
| Engine.Machine.Fallback | statemachine_proc_macros/src/lib.rs:176-201 | the `_` arm calls the unexpected-event handler, if declared |
| Engine.Machine.Dispatch | statemachine_proc_macros/src/lib.rs:176-240 | the match over the current state's arms does what `Semantics.Dispatch` says |
| Engine.Machine.HandleEvent | statemachine_proc_macros/src/lib.rs:127-137 | `event` does what `Semantics.Run` says, and the machine stays in a declared state |
| Scenarios.RenderedValidAccepted | statemachine_proc_macros/src/lib.rs:329-493 | a consistent written-out definition is accepted as itself, and the result is a valid definition |
| Scenarios.FirstDefsValid | src/lib.rs:150-163 | the first test machine is consistent and starts in a declared state |
| Scenarios.DeadEndFirst | src/lib.rs:168-176 | `MyFirstEvent` in `MyInitialState` moves to `MyThirdState` |
| Scenarios.DeadEndSecond | src/lib.rs:189-203 | `MySecondEvent` in `MyThirdState` stays there and calls the unexpected-event handler with that state and event |
| Scenarios.LoopFirst | src/lib.rs:178-186 | `MyThirdEvent` moves from `MyInitialState` to `MySecondState` |
| Scenarios.LoopSecond | src/lib.rs:178-186 | `MySecondEvent` moves back to `MyInitialState` |
| Scenarios.GuardDefsValid | src/lib.rs:206-215 | the guard test machine is consistent |
| Scenarios.GuardFirst | src/lib.rs:218-223 | with the guard false, the guarded arm is skipped and the unguarded arm keeps the state |
| Scenarios.GuardSecond | src/lib.rs:224-226 | with the guard true, the guarded arm moves to `MyThirdState` |
| Scenarios.ActionDefsValid | src/lib.rs:228-236 | the action test machine is consistent |
| Scenarios.ActionFirst | src/lib.rs:239-261 | the action is called once with old state, event and new state, and the state changes |
| Scenarios.EmitDefsValid | src/lib.rs:263-273 | the emitting-action machine is consistent |
| Scenarios.EmitFirst | src/lib.rs:276-283 | the action posts `MyActionEvent` into the buffer while the first event is dispatched |
| Scenarios.EmitPosted | src/lib.rs:276-283 | the posted event moves to `MySecondState` |
| Scenarios.EmitRun | src/lib.rs:276-283 | one `event` call handles the posted event too, ending in `MySecondState` with the buffer empty |
| Scenarios.HooksDefsValid | src/lib.rs:286-299 | the hooks test machine is consistent |
| Scenarios.HooksFirst | src/lib.rs:302-409 | a self-transition calls the exit hook, then the entry hook, of the same state |
| Scenarios.HooksSecond | src/lib.rs:302-409 | a transition calls the old state's exit hook, then the new state's entry hook |
| Scenarios.PayloadDefsValid | src/lib.rs:410-420 | the payload test machine is consistent |
| Scenarios.PayloadFirst | src/lib.rs:423-431 | the action receives the event's payload |
| Scenarios.Start | statemachine_proc_macros/src/lib.rs:105-112 | a machine built from a consistent definition starts in its initial state with a fresh handler |
| Surface.GuardSignature | statemachine_proc_macros/src/lib.rs:244-252 | `fn g(&self) -> bool`; `GuardMethodsExact` and `GuardsFit` state which guards get one |
| Surface.ActionSignature | statemachine_proc_macros/src/lib.rs:254-272 | `fn a(&mut self, old_state, event, [payload,] new_state)`; `ActionMethodsExact` and `TakeCallsFit` state which actions get one |
| Surface.HookSignature | statemachine_proc_macros/src/lib.rs:273-285 | `fn h(&mut self, old_state, event, new_state)`; `HookMethodsCover` and `TakeCallsFit` state which hooks get one |
| Surface.UnexpectedSignature | statemachine_proc_macros/src/lib.rs:42-49 | `fn u(&mut self, state, event)`; `UnexpectedMethodExact` and `FallbackFits` state when it is declared |
| Surface.HandlerTrait | statemachine_proc_macros/src/lib.rs:164-169 | the trait's methods in order; `TraitParts` states its parts and the `Exact`/`Cover` lemmas their contents |
| Surface.EventVariants | statemachine_proc_macros/src/lib.rs:27-35 | the event enum's variants; `EventVariantsExact` and `EventVariantsDistinct` state its contents |
| Surface.TraitParts | statemachine_proc_macros/src/lib.rs:164-169 | the trait is the unexpected-event handler (if any), the hooks, the guards and the actions, and nothing else |
| Surface.GuardMethodsExact | statemachine_proc_macros/src/lib.rs:244-252 | the trait has a `&self -> bool` method for a name iff some transition uses it as a guard |
| Surface.ActionMethodsExact | statemachine_proc_macros/src/lib.rs:254-272 | the action methods, with a payload parameter exactly when `EventPayload` is declared, are those of the actions some transition uses |
| Surface.HookMethodsCover | statemachine_proc_macros/src/lib.rs:273-285 | every entry and exit hook a state declares has its trait method |
| Surface.UnexpectedMethodExact | statemachine_proc_macros/src/lib.rs:42-49 | the trait has the unexpected-event handler method iff `UnexpectedHandler` names it |
| Surface.TraitListsDistinct | statemachine_proc_macros/src/lib.rs:244-285 | no hook, guard or action method is declared twice |
| Surface.EventVariantsExact | statemachine_proc_macros/src/lib.rs:27-35 | the event enum has a variant for a name iff some transition uses that event, each carrying the declared payload type |
| Surface.EventVariantsDistinct | statemachine_proc_macros/src/lib.rs:27-35 | no event variant is declared twice |
| Surface.TakeCallsFit | statemachine_proc_macros/src/lib.rs:205-240 | every call of a taken transition is to a declared hook or action method, and a payload is passed only when one is declared |
| Surface.GuardsFit | statemachine_proc_macros/src/lib.rs:205-240 | every guard the match asks is a declared `&self -> bool` method |
| Surface.FallbackFits | statemachine_proc_macros/src/lib.rs:176-201 | the `_` arm calls only the declared unexpected-event handler |

## Left out

- Lexing and spans. The parser works on an already-lexed token tree: identifiers, braces and brackets with their contents, `==`, `=>` and other tokens. Rust keywords such as `fn` are lexed as `Other` tokens, never as `Ident`, so an identifier position holding one is rejected as in the Rust code, where syn's `Ident` parse refuses keywords. Error messages and their spans are reduced to an error kind.
- syn's keyword peeking is modelled as comparing the next token with the keyword's identifier. A state, event or hook named like a keyword is therefore read as the keyword, as in the Rust code. `Rendering` therefore writes out only `Renderable` definitions: at least one state, no event named `OnEntry` or `OnExit` (it would be read as a hook clause), and a first state not named `EventPayload` or `UnexpectedHandler` (the header's optional-clause peeks would read it as that clause).
- syn reports tokens left inside a guard bracket only once the parse is otherwise done. The model keeps this as the `stray` flag and reports it after the target check.
- Token emission through `quote!`. Only the meaning of the generated code is modelled: its dispatch (`Semantics`, `Engine`) and its declarations (`Surface`). Neither the text nor the derive attributes are modelled.
- `Rc<RefCell<...>>` sharing and borrow panics. The handler is a separate object that the machine calls. A callback cannot re-enter `event` directly: it can only post through `event_from_handler`, as the crate documents.
- A guard that posts an event. Guards take `&self` and are modelled as read-only.
- The handler accessors (`get_handler`, `get_handler_ref`, `get_handler_mut`) are not modelled as methods. The owner's edits through them are modelled by replacing the handler's `behaviour`.
- Engine.Machine.HandleEvent: an event chain that posts forever is cut off by `fuel`. When the fuel runs out, the pending event stays in the slot and the result says the machine has not settled. The Rust code has no such bound.
- The payload type is fixed to `int`. The generated code only passes the payload through.
- The model's events are not restricted to the variants the enum declares. An undeclared event simply matches no arm.
- The parser does not check that `InitialState` is a declared state, so `Engine.Machine.constructor` requires it. The Rust compiler rejects such a machine when the generated enum lacks the variant.
- ParserSoundness.ParseSound: the hook list is shown duplicate-free and covering every state's entry and exit hooks, but its exact names and order are not stated for every input. The parser pushes each hook as it reads it, so the list also holds a hook that a later `OnEntry`/`OnExit` of the same state overwrites, in reading order, including hook clauses that follow transition lines. The definition does not record that reading order. For written-out definitions, where each block starts with at most one of each clause, `Rendering.ParseRendered` states the list exactly: the first-seen deduplication of the states' hooks.
- Surface.HookMethodsCover: when a state names a second `OnEntry` or `OnExit`, the hook list keeps the overwritten name. So the trait's hooks are shown to cover the declared hooks, but not the converse.
- Method names shared by a guard, an action or a hook. The macro does not check for these; the Rust compiler rejects the duplicate trait method. `Surface.TraitListsDistinct` states distinctness within each list only.
- `Surface.ActionMethodsExact` is stated about the action part of the trait. Without a payload, an action method has the parameters of a hook of the same name.
