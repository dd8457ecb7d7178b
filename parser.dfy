/**
 * `StatemachineInfo::parse`: the front end of the `statemachine!` macro,
 * over an already-lexed token tree.
 *
 * The pure functions below state, step by step, what the parse computes
 * (they carry the accumulated lists the way the Rust code carries its `Vec`
 * locals); the method `Parse` is the imperative parser, with its nested
 * loops and early returns, proved to compute exactly `ParseResult`.
 */
module Parser {
  import opened Wrappers
  import opened NameLists
  import opened Definition

  /** The header clauses `Name`, `InitialState`, `EventPayload`, `UnexpectedHandler`. */
  datatype Header = Header(name: Name, initial: Name, payload: Option<Name>, unexpected: Option<Name>)

  /**
   * What the parse has accumulated: the `states`, `events`, `onentryexits`,
   * `guards`, `actions` and `state_transitions` vectors, and whether a guard
   * bracket held tokens after its identifier (which the parsing library
   * reports as "unexpected token" once the parse is otherwise done).
   */
  datatype Acc = Acc(
    states: seq<Name>,
    events: seq<Name>,
    onEntryExits: seq<Name>,
    guards: seq<Name>,
    actions: seq<Name>,
    defs: seq<StateDef>,
    stray: bool)

  const Start := Acc([], [], [], [], [], [], false)

  /** `parse::<Ident>()` at index `i`. */
  function IdentAt(ts: seq<Token>, i: nat): (r: Result<Name, ParseError>)
    ensures r.Ok? <==> i < |ts| && ts[i].Ident?
    ensures r.Ok? ==> ts[i] == Ident(r.value)
    ensures r.Err? ==> r.error == ExpectedIdent
  {
    if i < |ts| && ts[i].Ident? then Ok(ts[i].name) else Err(ExpectedIdent)
  }

  /** An optional clause `lead <ident>` at `pos`: `peek(lead)`, then the identifier that must follow. */
  function Clause(ts: seq<Token>, pos: nat, lead: Token): (r: Result<(Option<Name>, nat), ParseError>)
    requires pos <= |ts|
    ensures r.Ok? && r.value.0.None? ==> r.value.1 == pos && !(pos < |ts| && ts[pos] == lead)
    ensures r.Ok? && r.value.0.Some? ==> r.value.1 == pos + 2 <= |ts| && ts[pos] == lead && ts[pos + 1] == Ident(r.value.0.value)
    ensures r.Err? ==> r.error == ExpectedIdent
  {
    if pos < |ts| && ts[pos] == lead then
      var id :- IdentAt(ts, pos + 1);
      Ok((Some(id), pos + 2))
    else
      Ok((None, pos))
  }

  /** The header, and the index of the first state block. */
  function ParseHeader(ts: seq<Token>): (r: Result<(Header, nat), ParseError>)
    ensures r.Ok? ==> r.value.1 <= |ts|
  {
    if !(0 < |ts| && ts[0] == Ident("Name")) then Err(ExpectedKeyword("Name"))
    else
      var name :- IdentAt(ts, 1);
      if !(2 < |ts| && ts[2] == Ident("InitialState")) then Err(ExpectedKeyword("InitialState"))
      else
        var initial :- IdentAt(ts, 3);
        var payload :- Clause(ts, 4, Ident("EventPayload"));
        var unexpected :- Clause(ts, payload.1, Ident("UnexpectedHandler"));
        Ok((Header(name, initial, payload.0, unexpected.0), unexpected.1))
  }

  /** The `OnEntry` then `OnExit` checks at the top of each turn of the block loop. */
  function ParseHooks(body: seq<Token>, pos: nat, def: StateDef, acc: Acc): (r: Result<(nat, StateDef, Acc), ParseError>)
    requires pos <= |body|
    ensures r.Ok? ==> pos <= r.value.0 <= |body|
  {
    var entry :- Clause(body, pos, Ident("OnEntry"));
    var def1 := if entry.0.Some? then def.(onEntry := entry.0) else def;
    var acc1 := if entry.0.Some? then acc.(onEntryExits := AddNew(acc.onEntryExits, entry.0.value)) else acc;
    var exit :- Clause(body, entry.1, Ident("OnExit"));
    var def2 := if exit.0.Some? then def1.(onExit := exit.0) else def1;
    var acc2 := if exit.0.Some? then acc1.(onEntryExits := AddNew(acc1.onEntryExits, exit.0.value)) else acc1;
    Ok((exit.1, def2, acc2))
  }

  /** An optional `[guard]`; the flag says whether the brackets held more than the identifier. */
  function ParseGuard(body: seq<Token>, pos: nat): (r: Result<(Option<Name>, nat, bool), ParseError>)
    requires pos <= |body|
    ensures r.Ok? ==> pos <= r.value.1 <= |body|
    ensures r.Ok? && r.value.0.None? ==> r.value.1 == pos && !r.value.2
  {
    if pos < |body| && body[pos].Brackets? then
      var g :- IdentAt(body[pos].inner, 0);
      Ok((Some(g), pos + 1, |body[pos].inner| > 1))
    else
      Ok((None, pos, false))
  }

  /** The tokens of one transition line `Event [guard]? (== action)? => Target`. */
  function ParseTrigger(body: seq<Token>, pos: nat): (r: Result<(Transition, nat, bool), ParseError>)
    requires pos < |body|
    ensures r.Ok? ==> pos < r.value.1 <= |body|
  {
    var event :- IdentAt(body, pos);
    var guard :- ParseGuard(body, pos + 1);
    var action :- Clause(body, guard.1, EqEq);
    if !(action.1 < |body| && body[action.1] == FatArrow) then Err(ExpectedFatArrow)
    else
      var target :- IdentAt(body, action.1 + 1);
      Ok((Transition(event, guard.0, action.0, target), action.1 + 2, guard.2))
  }

  /** The lists after reading transition `t`: its event, guard and action are added if new. */
  function Collect(acc: Acc, t: Transition, trailing: bool): Acc {
    acc.(events := AddNew(acc.events, t.event),
         guards := if t.guard.Some? then AddNew(acc.guards, t.guard.value) else acc.guards,
         actions := if t.action.Some? then AddNew(acc.actions, t.action.value) else acc.actions,
         stray := acc.stray || trailing)
  }

  /** One transition line, with its two checks against the earlier lines of the block. */
  function ParseTransition(body: seq<Token>, pos: nat, def: StateDef, acc: Acc): (r: Result<(nat, StateDef, Acc), ParseError>)
    requires pos < |body|
    ensures r.Ok? ==> pos < r.value.0 <= |body|
  {
    var trigger :- ParseTrigger(body, pos);
    var t := trigger.0;
    var e := TriggerError(def.transitions, t);
    if e.Some? then Err(e.value)
    else Ok((trigger.1, def.(transitions := def.transitions + [t]), Collect(acc, t, trigger.2)))
  }

  /** The contents of one state block, from `pos` on. */
  function ParseBody(body: seq<Token>, pos: nat, def: StateDef, acc: Acc): Result<(StateDef, Acc), ParseError>
    requires pos <= |body|
    decreases |body| - pos
  {
    var hooks :- ParseHooks(body, pos, def, acc);
    if hooks.0 == |body| then Ok((hooks.1, hooks.2))
    else
      var next :- ParseTransition(body, hooks.0, hooks.1, hooks.2);
      ParseBody(body, next.0, next.1, next.2)
  }

  /** The state blocks, from `pos` to the end of the input (at least one block). */
  function ParseBlocks(ts: seq<Token>, pos: nat, acc: Acc): Result<Acc, ParseError>
    requires pos <= |ts|
    decreases |ts| - pos
  {
    var name :- IdentAt(ts, pos);
    if name in acc.states then Err(DuplicateState(name))
    else if !(pos + 1 < |ts| && ts[pos + 1].Braces?) then Err(ExpectedBraces)
    else
      var block :- ParseBody(ts[pos + 1].inner, 0, StateDef(name, None, None, []), acc.(states := acc.states + [name]));
      var acc' := block.1.(defs := block.1.defs + [block.0]);
      if pos + 2 == |ts| then Ok(acc') else ParseBlocks(ts, pos + 2, acc')
  }

  /** The whole parse: header, blocks, the undefined-target post-pass, and the stray-token report. */
  function ParseResult(ts: seq<Token>): Result<Info, ParseError> {
    var header :- ParseHeader(ts);
    var acc :- ParseBlocks(ts, header.1, Start);
    var undefined := UndefinedTargetOf(acc.states, acc.defs);
    if undefined.Some? then Err(UndefinedTarget(undefined.value))
    else if acc.stray then Err(UnexpectedToken)
    else
      var h := header.0;
      Ok(Info(h.name, h.initial, h.payload, h.unexpected, acc.states, acc.events, acc.onEntryExits, acc.guards, acc.actions, acc.defs))
  }

  /** One turn of the outer loop: the state's name, its braces and its block, added to `acc`. */
  method ReadBlock(ts: seq<Token>, pos: nat, acc: Acc) returns (r: Result<Acc, ParseError>)
    requires pos <= |ts|
    ensures r.Err? ==> ParseBlocks(ts, pos, acc) == Err(r.error)
    ensures r.Ok? ==> pos + 2 <= |ts| && ParseBlocks(ts, pos, acc) == if pos + 2 == |ts| then Ok(r.value) else ParseBlocks(ts, pos + 2, r.value)
  {
    if !(pos < |ts| && ts[pos].Ident?) {
      return Err(ExpectedIdent);
    }
    var name := ts[pos].name;
    if name in acc.states {
      return Err(DuplicateState(name));
    }
    if !(pos + 1 < |ts| && ts[pos + 1].Braces?) {
      return Err(ExpectedBraces);
    }
    var block := ParseBlock(ts[pos + 1].inner, name, acc.(states := acc.states + [name]));
    if block.Err? {
      return Err(block.error);
    }
    r := Ok(block.value.1.(defs := block.value.1.defs + [block.value.0]));
  }

  /**
   * The parser. The outer loop reads one `State { ... }` block per turn
   * (`ParseBlock` holds the inner loop over the block's lines), then the
   * post-pass looks for an undefined target.
   */
  method Parse(ts: seq<Token>) returns (r: Result<Info, ParseError>)
    ensures r == ParseResult(ts)
  {
    var header := ParseHeader(ts);
    if header.Err? {
      return Err(header.error);
    }
    var blocks := ReadBlocks(ts, header.value.1);
    if blocks.Err? {
      return Err(blocks.error);
    }
    var acc := blocks.value;
    var undefined := FindUndefinedTarget(acc.states, acc.defs);
    if undefined.Some? {
      return Err(UndefinedTarget(undefined.value));
    }
    if acc.stray {
      return Err(UnexpectedToken);
    }
    var h := header.value.0;
    r := Ok(Info(h.name, h.initial, h.payload, h.unexpected, acc.states, acc.events, acc.onEntryExits, acc.guards, acc.actions, acc.defs));
  }

  /** The outer loop: one `State { ... }` block per turn until the input is used up. */
  method ReadBlocks(ts: seq<Token>, start: nat) returns (r: Result<Acc, ParseError>)
    requires start <= |ts|
    ensures r == ParseBlocks(ts, start, Start)
  {
    var pos := start;
    var acc := Start;
    while true
      invariant pos <= |ts|
      invariant ParseBlocks(ts, start, Start) == ParseBlocks(ts, pos, acc)
      decreases |ts| - pos
    {
      var step := ReadBlock(ts, pos, acc);
      if step.Err? {
        return step;
      }
      if pos + 2 == |ts| {
        return step;
      }
      acc, pos := step.value, pos + 2;
    }
  }

  /** The inner loop: hooks, then a transition line, until the block is empty. */
  method ParseBlock(body: seq<Token>, name: Name, acc0: Acc) returns (r: Result<(StateDef, Acc), ParseError>)
    ensures r == ParseBody(body, 0, StateDef(name, None, None, []), acc0)
  {
    var def := StateDef(name, None, None, []);
    var acc := acc0;
    if |body| == 0 {
      assert ParseHooks(body, 0, def, acc) == Ok((0, def, acc));
      return Ok((def, acc));
    }
    var p := 0;
    while true
      invariant p < |body|
      invariant ParseBody(body, 0, StateDef(name, None, None, []), acc0) == ParseBody(body, p, def, acc)
      decreases |body| - p
    {
      var hooks := ReadHooks(body, p, def, acc);
      if hooks.Err? {
        return Err(hooks.error);
      }
      p, def, acc := hooks.value.0, hooks.value.1, hooks.value.2;
      if p == |body| {
        return Ok((def, acc));
      }
      var line := ParseLine(body, p, def, acc);
      if line.Err? {
        return Err(line.error);
      }
      p, def, acc := line.value.0, line.value.1, line.value.2;
      if p == |body| {
        assert ParseHooks(body, p, def, acc) == Ok((p, def, acc));
        return Ok((def, acc));
      }
    }
  }

  /** The `OnEntry` then `OnExit` checks at the top of a turn of the block loop; a hook name is added to the list if new. */
  method ReadHooks(body: seq<Token>, p0: nat, def0: StateDef, acc0: Acc) returns (r: Result<(nat, StateDef, Acc), ParseError>)
    requires p0 <= |body|
    ensures r == ParseHooks(body, p0, def0, acc0)
  {
    var p, def, acc := p0, def0, acc0;
    if p < |body| && body[p] == Ident("OnEntry") {
      if !(p + 1 < |body| && body[p + 1].Ident?) {
        return Err(ExpectedIdent);
      }
      var hook := body[p + 1].name;
      if hook !in acc.onEntryExits {
        acc := acc.(onEntryExits := acc.onEntryExits + [hook]);
      }
      def := def.(onEntry := Some(hook));
      p := p + 2;
    }
    if p < |body| && body[p] == Ident("OnExit") {
      if !(p + 1 < |body| && body[p + 1].Ident?) {
        return Err(ExpectedIdent);
      }
      var hook := body[p + 1].name;
      if hook !in acc.onEntryExits {
        acc := acc.(onEntryExits := acc.onEntryExits + [hook]);
      }
      def := def.(onExit := Some(hook));
      p := p + 2;
    }
    r := Ok((p, def, acc));
  }

  /** The guard bracket `[guard]` of a transition line, if present; the guard is added to the guard list if new. */
  method ReadGuard(body: seq<Token>, p: nat, acc0: Acc) returns (r: Result<(Option<Name>, nat, bool), ParseError>, acc: Acc)
    requires p <= |body|
    ensures r == ParseGuard(body, p)
    ensures r.Ok? && r.value.0.None? ==> acc == acc0
    ensures r.Ok? && r.value.0.Some? ==> acc == acc0.(guards := AddNew(acc0.guards, r.value.0.value), stray := acc0.stray || r.value.2)
  {
    acc := acc0;
    if !(p < |body| && body[p].Brackets?) {
      return Ok((None, p, false)), acc;
    }
    var inner := body[p].inner;
    if !(0 < |inner| && inner[0].Ident?) {
      return Err(ExpectedIdent), acc;
    }
    var g := inner[0].name;
    if g !in acc.guards {
      acc := acc.(guards := acc.guards + [g]);
    }
    if |inner| > 1 {
      acc := acc.(stray := true);
    }
    r := Ok((Some(g), p + 1, |inner| > 1));
  }

  /** The tokens of one transition line; its event, guard and action are added to the lists as they are read. */
  method ReadTrigger(body: seq<Token>, p0: nat, acc0: Acc) returns (r: Result<(Transition, nat, bool), ParseError>, acc: Acc)
    requires p0 < |body|
    ensures r == ParseTrigger(body, p0)
    ensures r.Ok? ==> acc == Collect(acc0, r.value.0, r.value.2)
  {
    acc := acc0;
    if !body[p0].Ident? {
      return Err(ExpectedIdent), acc;
    }
    var event := body[p0].name;
    if event !in acc.events {
      acc := acc.(events := acc.events + [event]);
    }
    var guard;
    ghost var accEvent := acc;
    guard, acc := ReadGuard(body, p0 + 1, acc);
    if guard.Err? {
      return Err(guard.error), acc;
    }
    var p := guard.value.1;
    var action: Option<Name> := None;
    if p < |body| && body[p] == EqEq {
      if !(p + 1 < |body| && body[p + 1].Ident?) {
        return Err(ExpectedIdent), acc;
      }
      var a := body[p + 1].name;
      if a !in acc.actions {
        acc := acc.(actions := acc.actions + [a]);
      }
      action := Some(a);
      p := p + 2;
    }
    assert Clause(body, guard.value.1, EqEq) == Ok((action, p));
    if !(p < |body| && body[p] == FatArrow) {
      return Err(ExpectedFatArrow), acc;
    }
    if !(p + 1 < |body| && body[p + 1].Ident?) {
      return Err(ExpectedIdent), acc;
    }
    var t := Transition(event, guard.value.0, action, body[p + 1].name);
    r := Ok((t, p + 2, guard.value.2));
  }

  /** One transition line: its tokens, then the two checks against the earlier lines of the block. */
  method ParseLine(body: seq<Token>, p0: nat, def: StateDef, acc0: Acc) returns (r: Result<(nat, StateDef, Acc), ParseError>)
    requires p0 < |body|
    ensures r == ParseTransition(body, p0, def, acc0)
  {
    var trigger, acc := ReadTrigger(body, p0, acc0);
    if trigger.Err? {
      return Err(trigger.error);
    }
    var t := trigger.value.0;
    var rejected := TriggerError(def.transitions, t);
    if rejected.Some? {
      return Err(rejected.value);
    }
    r := Ok((trigger.value.1, def.(transitions := def.transitions + [t]), acc));
  }

  /** The post-pass: the first target, state by state and line by line, that names no declared state. */
  method FindUndefinedTarget(states: seq<Name>, defs: seq<StateDef>) returns (u: Option<Name>)
    ensures u == UndefinedTargetOf(states, defs)
  {
    var i := 0;
    while i < |defs|
      invariant 0 <= i <= |defs|
      invariant UndefinedTargetOf(states, defs) == UndefinedTargetOf(states, defs[i..])
    {
      var transitions := defs[i].transitions;
      var j := 0;
      while j < |transitions|
        invariant 0 <= j <= |transitions|
        invariant UndefinedIn(states, transitions) == UndefinedIn(states, transitions[j..])
      {
        if transitions[j].target !in states {
          return Some(transitions[j].target);
        }
        assert transitions[j..][1..] == transitions[j + 1..];
        j := j + 1;
      }
      assert transitions[j..] == [];
      assert defs[i..][1..] == defs[i + 1..];
      i := i + 1;
    }
    assert defs[i..] == [];
    u := None;
  }
}
