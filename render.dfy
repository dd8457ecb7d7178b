/**
 * Completeness of the parser. A definition is written out as the token
 * tree a user would write inside `statemachine!{ ... }`, and parsing that
 * tree gives back exactly the definition with its collected name lists
 * when the definition is consistent, and otherwise exactly the first
 * rejection the parser's checks make, in the order it makes them.
 */
module Rendering {
  import opened Wrappers
  import opened NameLists
  import opened Definition
  import opened Parser
  import opened ParserSoundness

  // ----- Writing a definition out as tokens -----

  /** `lead <ident>` when the clause is present, nothing otherwise. */
  function ClauseTokens(lead: Token, o: Option<Name>): seq<Token> {
    if o.Some? then [lead, Ident(o.value)] else []
  }

  function HeaderTokens(h: Header): seq<Token> {
    [Ident("Name"), Ident(h.name), Ident("InitialState"), Ident(h.initial)]
      + ClauseTokens(Ident("EventPayload"), h.payload)
      + ClauseTokens(Ident("UnexpectedHandler"), h.unexpected)
  }

  function GuardTokens(guard: Option<Name>): seq<Token> {
    if guard.Some? then [Brackets([Ident(guard.value)])] else []
  }

  /** `Event [guard] == action => Target`, with the optional parts left out when absent. */
  function TransitionTokens(t: Transition): seq<Token> {
    [Ident(t.event)] + GuardTokens(t.guard) + ClauseTokens(EqEq, t.action) + [FatArrow, Ident(t.target)]
  }

  function TransitionsTokens(ts: seq<Transition>): seq<Token> {
    if ts == [] then [] else TransitionTokens(ts[0]) + TransitionsTokens(ts[1..])
  }

  function HookTokens(d: StateDef): seq<Token> {
    ClauseTokens(Ident("OnEntry"), d.onEntry) + ClauseTokens(Ident("OnExit"), d.onExit)
  }

  function BodyTokens(d: StateDef): seq<Token> {
    HookTokens(d) + TransitionsTokens(d.transitions)
  }

  /** `State { body }` for each block. */
  function BlocksTokens(defs: seq<StateDef>): seq<Token> {
    if defs == [] then [] else [Ident(defs[0].name), Braces(BodyTokens(defs[0]))] + BlocksTokens(defs[1..])
  }

  function Render(h: Header, defs: seq<StateDef>): seq<Token> {
    HeaderTokens(h) + BlocksTokens(defs)
  }

  predicate IsHookKeyword(e: Name) {
    e == "OnEntry" || e == "OnExit"
  }

  predicate NoHookEvents(ts: seq<Transition>) {
    forall j :: 0 <= j < |ts| ==> !IsHookKeyword(ts[j].event)
  }

  /**
   * The definitions whose written-out form reads back as written: at least
   * one block (the grammar demands one), a first state whose name is not
   * the keyword of an optional header clause, and no event spelled like a
   * hook keyword (such a line would be read as a hook clause).
   */
  predicate Renderable(defs: seq<StateDef>) {
    && |defs| > 0
    && defs[0].name != "EventPayload" && defs[0].name != "UnexpectedHandler"
    && forall i :: 0 <= i < |defs| ==> NoHookEvents(defs[i].transitions)
  }

  // ----- What the parser should return -----

  function AddOption(xs: seq<Name>, o: Option<Name>): seq<Name> {
    if o.Some? then AddNew(xs, o.value) else xs
  }

  /** The definition with every name list collected in first-seen order. */
  function Build(h: Header, defs: seq<StateDef>): Info {
    var ts := Transitions(defs);
    Info(h.name, h.initial, h.payload, h.unexpected,
         Names(defs), Dedup(EventsOf(ts)), Dedup(HooksOf(defs)), Dedup(GuardsOf(ts)), Dedup(ActionsOf(ts)), defs)
  }

  /** The definition, or the first rejection. */
  function Expected(h: Header, defs: seq<StateDef>): Result<Info, ParseError> {
    var e := Validate(defs);
    if e.Some? then Err(e.value) else Ok(Build(h, defs))
  }

  // ----- Reading the pieces back -----

  lemma ClauseRead(ts: seq<Token>, pre: seq<Token>, lead: Token, o: Option<Name>, post: seq<Token>)
    requires ts == pre + ClauseTokens(lead, o) + post
    requires o.None? && post != [] ==> post[0] != lead
    ensures Clause(ts, |pre|, lead) == Ok((o, |pre| + |ClauseTokens(lead, o)|))
  {
    if o.Some? {
      assert ts[|pre|] == lead && ts[|pre| + 1] == Ident(o.value);
    } else if post != [] {
      assert ts[|pre|] == post[0];
    }
  }

  lemma HeaderRead(h: Header, rest: seq<Token>)
    requires rest != [] ==> rest[0] != Ident("EventPayload") && rest[0] != Ident("UnexpectedHandler")
    ensures ParseHeader(HeaderTokens(h) + rest) == Ok((h, |HeaderTokens(h)|))
  {
    var ts := HeaderTokens(h) + rest;
    var fixed := [Ident("Name"), Ident(h.name), Ident("InitialState"), Ident(h.initial)];
    var payload := ClauseTokens(Ident("EventPayload"), h.payload);
    var unexpected := ClauseTokens(Ident("UnexpectedHandler"), h.unexpected);
    assert ts == fixed + payload + (unexpected + rest);
    assert ts[..4] == fixed;
    ClauseRead(ts, fixed, Ident("EventPayload"), h.payload, unexpected + rest);
    assert ts == (fixed + payload) + unexpected + rest;
    ClauseRead(ts, fixed + payload, Ident("UnexpectedHandler"), h.unexpected, rest);
  }

  lemma TriggerRead(body: seq<Token>, pre: seq<Token>, t: Transition, post: seq<Token>)
    requires body == pre + TransitionTokens(t) + post
    ensures body[|pre|] == Ident(t.event)
    ensures ParseTrigger(body, |pre|) == Ok((t, |pre + TransitionTokens(t)|, false))
  {
    var p := |pre|;
    var guard := GuardTokens(t.guard);
    var action := ClauseTokens(EqEq, t.action);
    var tail := [FatArrow, Ident(t.target)] + post;
    assert body == pre + [Ident(t.event)] + guard + action + tail;
    assert body[p] == Ident(t.event);
    var p1 := p + 1 + |guard|;
    assert ParseGuard(body, p + 1) == Ok((t.guard, p1, false)) by {
      if t.guard.Some? {
        assert body[p + 1] == Brackets([Ident(t.guard.value)]);
      } else {
        assert body[p + 1] == (action + tail)[0];
      }
    }
    ClauseRead(body, pre + [Ident(t.event)] + guard, EqEq, t.action, tail);
    var p2 := p1 + |action|;
    assert body[p2] == FatArrow && body[p2 + 1] == Ident(t.target);
    assert |pre + TransitionTokens(t)| == p2 + 2;
  }

  lemma NoHooksAt(body: seq<Token>, pos: nat, cur: StateDef, acc: Acc)
    requires pos <= |body|
    requires pos < |body| ==> body[pos] != Ident("OnEntry") && body[pos] != Ident("OnExit")
    ensures ParseHooks(body, pos, cur, acc) == Ok((pos, cur, acc))
  {
  }

  lemma HooksRead(body: seq<Token>, pre: seq<Token>, d: StateDef, post: seq<Token>, cur: StateDef, acc: Acc)
    requires body == pre + HookTokens(d) + post
    requires post != [] ==> post[0] != Ident("OnEntry") && post[0] != Ident("OnExit")
    requires cur.onEntry.None? && cur.onExit.None?
    ensures ParseHooks(body, |pre|, cur, acc) ==
      Ok((|pre| + |HookTokens(d)|, cur.(onEntry := d.onEntry, onExit := d.onExit),
          acc.(onEntryExits := AddOption(AddOption(acc.onEntryExits, d.onEntry), d.onExit))))
  {
    var entry := ClauseTokens(Ident("OnEntry"), d.onEntry);
    var exit := ClauseTokens(Ident("OnExit"), d.onExit);
    HooksSplit(pre, entry, exit, post);
    ClauseRead(body, pre, Ident("OnEntry"), d.onEntry, exit + post);
    ClauseRead(body, pre + entry, Ident("OnExit"), d.onExit, post);
  }

  lemma HooksSplit(pre: seq<Token>, entry: seq<Token>, exit: seq<Token>, post: seq<Token>)
    ensures pre + (entry + exit) + post == pre + entry + (exit + post)
    ensures pre + (entry + exit) + post == (pre + entry) + exit + post
    ensures |pre + entry| == |pre| + |entry|
  {
  }

  /** What reading the rest of a block yields: the first rejection, or the block `d` with the lists' other parts kept. */
  predicate BodyOutcome(r: Result<(StateDef, Acc), ParseError>, e: Option<ParseError>, d: StateDef, acc: Acc) {
    && (e.Some? ==> r == Err(e.value))
    && (e.None? ==>
          && r.Ok? && r.value.0 == d
          && r.value.1.onEntryExits == acc.onEntryExits && r.value.1.stray == acc.stray && r.value.1.defs == acc.defs)
  }

  /** A line read without rejection leaves the outcome of the rest of the block unchanged. */
  lemma OutcomeStep(r: Result<(StateDef, Acc), ParseError>, next: Result<(StateDef, Acc), ParseError>,
                    e: Option<ParseError>, cur: StateDef, rest: seq<Transition>, acc: Acc, acc': Acc)
    requires r == next
    requires acc'.onEntryExits == acc.onEntryExits && acc'.stray == acc.stray && acc'.defs == acc.defs
    requires BodyOutcome(next, e, cur.(transitions := cur.transitions + rest), acc')
    ensures BodyOutcome(r, e, cur.(transitions := cur.transitions + rest), acc)
  {
  }

  /** One turn of the block loop when no hook clause comes first and the line is accepted. */
  lemma BodyTurn(body: seq<Token>, pos: nat, cur: StateDef, acc: Acc, next: nat, cur': StateDef, acc': Acc)
    requires pos < |body|
    requires body[pos] != Ident("OnEntry") && body[pos] != Ident("OnExit")
    requires ParseTransition(body, pos, cur, acc) == Ok((next, cur', acc'))
    ensures ParseBody(body, pos, cur, acc) == ParseBody(body, next, cur', acc')
  {
    NoHooksAt(body, pos, cur, acc);
  }

  /** One turn of the block loop when no hook clause comes first and the line is rejected. */
  lemma BodyStops(body: seq<Token>, pos: nat, cur: StateDef, acc: Acc, e: ParseError)
    requires pos < |body|
    requires body[pos] != Ident("OnEntry") && body[pos] != Ident("OnExit")
    requires ParseTransition(body, pos, cur, acc) == Err(e)
    ensures ParseBody(body, pos, cur, acc) == Err(e)
  {
    NoHooksAt(body, pos, cur, acc);
  }

  /** A line whose tokens read as `t`: rejected by the two checks, or added to the block and the lists. */
  lemma LineRead(body: seq<Token>, pos: nat, t: Transition, next: nat, cur: StateDef, acc: Acc)
    requires pos < |body|
    requires ParseTrigger(body, pos) == Ok((t, next, false))
    ensures TriggerError(cur.transitions, t).Some? ==>
      ParseTransition(body, pos, cur, acc) == Err(TriggerError(cur.transitions, t).value)
    ensures TriggerError(cur.transitions, t).None? ==>
      ParseTransition(body, pos, cur, acc) == Ok((next, cur.(transitions := cur.transitions + [t]), Collect(acc, t, false)))
  {
  }

  /** One turn of the block loop on a written-out line: the line is rejected, or the loop goes on after it. */
  lemma LineTurn(body: seq<Token>, pre: seq<Token>, t: Transition, post: seq<Token>, cur: StateDef, acc: Acc)
    requires body == pre + TransitionTokens(t) + post
    requires !IsHookKeyword(t.event)
    ensures TriggerError(cur.transitions, t).Some? ==> ParseBody(body, |pre|, cur, acc) == Err(TriggerError(cur.transitions, t).value)
    ensures TriggerError(cur.transitions, t).None? ==>
      ParseBody(body, |pre|, cur, acc) == ParseBody(body, |pre + TransitionTokens(t)|, cur.(transitions := cur.transitions + [t]), Collect(acc, t, false))
  {
    TriggerRead(body, pre, t, post);
    LineRead(body, |pre|, t, |pre + TransitionTokens(t)|, cur, acc);
    var e := TriggerError(cur.transitions, t);
    if e.Some? {
      BodyStops(body, |pre|, cur, acc, e.value);
    } else {
      BodyTurn(body, |pre|, cur, acc, |pre + TransitionTokens(t)|, cur.(transitions := cur.transitions + [t]), Collect(acc, t, false));
    }
  }

  /** The rejection of a block's lines, line by line. */
  lemma StateErrorStep(prior: seq<Transition>, rest: seq<Transition>)
    requires rest != [] && StateError(prior).None?
    ensures TriggerError(prior, rest[0]).Some? ==> StateError(prior + rest) == TriggerError(prior, rest[0])
    ensures TriggerError(prior, rest[0]).None? ==> StateError(prior + [rest[0]]).None? && (prior + [rest[0]]) + rest[1..] == prior + rest
  {
    StateErrorSnoc(prior, rest[0]);
    if TriggerError(prior, rest[0]).Some? {
      StateErrorStays(prior, rest);
    } else {
      SnocRest(prior, rest);
    }
  }

  lemma StateErrorStays(prior: seq<Transition>, rest: seq<Transition>)
    requires rest != [] && StateError(prior + [rest[0]]).Some?
    ensures StateError(prior + rest) == StateError(prior + [rest[0]])
  {
    assert (prior + rest)[..|prior| + 1] == prior + [rest[0]];
    StateErrorOfPrefix(prior + rest, |prior| + 1);
  }

  lemma NoHookEventsTail(ts: seq<Transition>)
    requires ts != [] && NoHookEvents(ts)
    ensures !IsHookKeyword(ts[0].event) && NoHookEvents(ts[1..])
  {
    forall j | 0 <= j < |ts[1..]| ensures !IsHookKeyword(ts[1..][j].event) {
      assert ts[1..][j] == ts[j + 1];
    }
  }

  lemma LinesSplit(body: seq<Token>, pre: seq<Token>, rest: seq<Transition>)
    requires body == pre + TransitionsTokens(rest) && rest != []
    ensures body == pre + TransitionTokens(rest[0]) + TransitionsTokens(rest[1..])
    ensures body == (pre + TransitionTokens(rest[0])) + TransitionsTokens(rest[1..])
  {
  }

  /** The first of the lines `rest` is rejected. */
  lemma LineStops(body: seq<Token>, pre: seq<Token>, rest: seq<Transition>, cur: StateDef, acc: Acc)
    requires body == pre + TransitionsTokens(rest) && rest != [] && !IsHookKeyword(rest[0].event)
    requires TriggerError(cur.transitions, rest[0]).Some?
    ensures ParseBody(body, |pre|, cur, acc) == Err(TriggerError(cur.transitions, rest[0]).value)
  {
    LinesSplit(body, pre, rest);
    LineTurn(body, pre, rest[0], TransitionsTokens(rest[1..]), cur, acc);
  }

  /** The first of the lines `rest` is accepted, and the loop goes on after it. */
  lemma LineGoesOn(body: seq<Token>, pre: seq<Token>, rest: seq<Transition>, cur: StateDef, acc: Acc)
    requires body == pre + TransitionsTokens(rest) && rest != [] && !IsHookKeyword(rest[0].event)
    requires TriggerError(cur.transitions, rest[0]).None?
    ensures body == (pre + TransitionTokens(rest[0])) + TransitionsTokens(rest[1..])
    ensures var t := rest[0];
      ParseBody(body, |pre|, cur, acc) ==
        ParseBody(body, |pre + TransitionTokens(t)|, cur.(transitions := cur.transitions + [t]), Collect(acc, t, false))
  {
    LinesSplit(body, pre, rest);
    LineTurn(body, pre, rest[0], TransitionsTokens(rest[1..]), cur, acc);
  }

  /** The transition lines `rest` of a block, read after the lines already in `cur`. */
  lemma {:induction false} LinesRead(body: seq<Token>, pre: seq<Token>, rest: seq<Transition>, cur: StateDef, acc: Acc)
    requires body == pre + TransitionsTokens(rest)
    requires NoHookEvents(rest)
    requires StateError(cur.transitions).None?
    ensures BodyOutcome(ParseBody(body, |pre|, cur, acc), StateError(cur.transitions + rest),
                        cur.(transitions := cur.transitions + rest), acc)
    decreases |rest|
  {
    if rest == [] {
      assert body == pre;
      assert cur.transitions + rest == cur.transitions;
      NoHooksAt(body, |pre|, cur, acc);
      return;
    }
    var t := rest[0];
    NoHookEventsTail(rest);
    StateErrorStep(cur.transitions, rest);
    if TriggerError(cur.transitions, t).Some? {
      LineStops(body, pre, rest, cur, acc);
    } else {
      var pre', cur', acc' := pre + TransitionTokens(t), cur.(transitions := cur.transitions + [t]), Collect(acc, t, false);
      LineGoesOn(body, pre, rest, cur, acc);
      LinesRead(body, pre', rest[1..], cur', acc');
      OutcomeStep(ParseBody(body, |pre|, cur, acc), ParseBody(body, |pre'|, cur', acc'),
                  StateError(cur'.transitions + rest[1..]), cur', rest[1..], acc, acc');
    }
  }

  /** A whole block body: its hooks, then its lines. */
  lemma BodyRead(d: StateDef, acc: Acc)
    requires NoHookEvents(d.transitions)
    ensures BodyOutcome(ParseBody(BodyTokens(d), 0, StateDef(d.name, None, None, []), acc), StateError(d.transitions),
                        d, acc.(onEntryExits := AddOption(AddOption(acc.onEntryExits, d.onEntry), d.onExit)))
  {
    var body := BodyTokens(d);
    var lines := TransitionsTokens(d.transitions);
    if d.transitions != [] {
      assert lines[0] == Ident(d.transitions[0].event);
      assert !IsHookKeyword(d.transitions[0].event);
    }
    assert body == [] + HookTokens(d) + lines;
    HooksRead(body, [], d, lines, StateDef(d.name, None, None, []), acc);
    var cur := StateDef(d.name, d.onEntry, d.onExit, []);
    var acc1 := acc.(onEntryExits := AddOption(AddOption(acc.onEntryExits, d.onEntry), d.onExit));
    var p := |HookTokens(d)|;
    assert p < |body| ==> body[p] == lines[0];
    NoHooksAt(body, p, cur, acc1);
    assert ParseBody(body, 0, StateDef(d.name, None, None, []), acc) == ParseBody(body, p, cur, acc1);
    LinesRead(body, HookTokens(d), d.transitions, cur, acc1);
    assert cur.transitions + d.transitions == d.transitions;
  }

  lemma DedupOption(xs: seq<Name>, o: Option<Name>)
    ensures Dedup(xs + OptionList(o)) == AddOption(Dedup(xs), o)
  {
    if o.Some? {
      DedupSnoc(xs, o.value);
    } else {
      assert xs + OptionList(o) == xs;
    }
  }

  lemma HooksSnoc(defs: seq<StateDef>, d: StateDef)
    ensures Dedup(HooksOf(defs + [d])) == AddOption(AddOption(Dedup(HooksOf(defs)), d.onEntry), d.onExit)
  {
    assert (defs + [d])[..|defs|] == defs;
    var withEntry := HooksOf(defs) + OptionList(d.onEntry);
    assert HooksOf(defs + [d]) == withEntry + OptionList(d.onExit);
    DedupOption(withEntry, d.onExit);
    DedupOption(HooksOf(defs), d.onEntry);
  }

  /** One turn of the outer loop: a state name, its braces, and the block inside them. */
  lemma BlocksTurn(ts: seq<Token>, pos: nat, acc: Acc, name: Name, inner: seq<Token>)
    requires pos + 1 < |ts| && ts[pos] == Ident(name) && ts[pos + 1] == Braces(inner)
    ensures ParseBlocks(ts, pos, acc) ==
      if name in acc.states then Err(DuplicateState(name))
      else
        var b := ParseBody(inner, 0, StateDef(name, None, None, []), acc.(states := acc.states + [name]));
        if b.Err? then Err(b.error)
        else
          var acc' := b.value.1.(defs := b.value.1.defs + [b.value.0]);
          if pos + 2 == |ts| then Ok(acc') else ParseBlocks(ts, pos + 2, acc')
  {
  }

  /** The rejection of the blocks, block by block. */
  lemma BlocksErrorStep(prior: seq<StateDef>, rest: seq<StateDef>)
    requires rest != [] && BlocksError(prior).None?
    ensures var d := rest[0];
      && (d.name in Names(prior) ==> BlocksError(prior + rest) == Some(DuplicateState(d.name)))
      && (d.name !in Names(prior) && StateError(d.transitions).Some? ==> BlocksError(prior + rest) == StateError(d.transitions))
      && (d.name !in Names(prior) && StateError(d.transitions).None? ==>
            BlocksError(prior + [d]).None? && (prior + [d]) + rest[1..] == prior + rest)
  {
    BlocksErrorSnoc(prior, rest[0]);
    if BlocksError(prior + [rest[0]]).Some? {
      BlocksErrorStays(prior, rest);
    } else {
      SnocRest(prior, rest);
    }
  }

  lemma BlocksErrorStays(prior: seq<StateDef>, rest: seq<StateDef>)
    requires rest != [] && BlocksError(prior + [rest[0]]).Some?
    ensures BlocksError(prior + rest) == BlocksError(prior + [rest[0]])
  {
    assert (prior + rest)[..|prior| + 1] == prior + [rest[0]];
    BlocksErrorOfPrefix(prior + rest, |prior| + 1);
  }

  lemma SnocRest<T>(prior: seq<T>, rest: seq<T>)
    requires rest != []
    ensures (prior + [rest[0]]) + rest[1..] == prior + rest
  {
  }

  /** What reading the remaining blocks yields: the first rejection, or all the blocks with their lists. */
  ghost predicate BlocksOutcome(r: Result<Acc, ParseError>, defs: seq<StateDef>) {
    var e := BlocksError(defs);
    && (e.Some? ==> r == Err(e.value))
    && (e.None? ==>
          && r.Ok? && r.value.defs == defs && !r.value.stray
          && r.value.onEntryExits == Dedup(HooksOf(defs)) && Tracks(defs, r.value))
  }

  /** The lists after a block read without rejection. */
  lemma BlockDone(prior: seq<StateDef>, d: StateDef, acc: Acc)
    requires Tracks(prior, acc) && acc.defs == prior && !acc.stray && acc.onEntryExits == Dedup(HooksOf(prior))
    requires d.name !in acc.states && NoHookEvents(d.transitions) && StateError(d.transitions).None?
    ensures var b := ParseBody(BodyTokens(d), 0, StateDef(d.name, None, None, []), acc.(states := acc.states + [d.name]));
      && b.Ok? && b.value.0 == d
      && var acc' := b.value.1.(defs := b.value.1.defs + [b.value.0]);
      && Tracks(prior + [d], acc') && acc'.defs == prior + [d] && !acc'.stray
      && acc'.onEntryExits == Dedup(HooksOf(prior + [d]))
  {
    var acc1 := acc.(states := acc.states + [d.name]);
    OpenBlockKeeps(prior, d.name, acc);
    BodyRead(d, acc1);
    BodyKeeps(BodyTokens(d), 0, prior, StateDef(d.name, None, None, []), acc1);
    HooksSnoc(prior, d);
  }

  lemma NoHookBlocksTail(defs: seq<StateDef>)
    requires defs != [] && forall i :: 0 <= i < |defs| ==> NoHookEvents(defs[i].transitions)
    ensures NoHookEvents(defs[0].transitions)
    ensures forall i :: 0 <= i < |defs[1..]| ==> NoHookEvents(defs[1..][i].transitions)
  {
    forall i | 0 <= i < |defs[1..]| ensures NoHookEvents(defs[1..][i].transitions) {
      assert defs[1..][i] == defs[i + 1];
    }
  }

  /** The blocks `rest`, read after the blocks `prior`. */
  lemma {:induction false} BlocksRead(ts: seq<Token>, pre: seq<Token>, prior: seq<StateDef>, rest: seq<StateDef>, acc: Acc)
    requires ts == pre + BlocksTokens(rest)
    requires rest != []
    requires forall i :: 0 <= i < |rest| ==> NoHookEvents(rest[i].transitions)
    requires Tracks(prior, acc) && acc.defs == prior && !acc.stray && acc.onEntryExits == Dedup(HooksOf(prior))
    ensures BlocksOutcome(ParseBlocks(ts, |pre|, acc), prior + rest)
    decreases |rest|
  {
    var d := rest[0];
    var pos := |pre|;
    var pre' := pre + [Ident(d.name), Braces(BodyTokens(d))];
    BlocksSplit(ts, pre, rest);
    BlocksErrorStep(prior, rest);
    NoHookBlocksTail(rest);
    if d.name in acc.states {
      BlocksTurn(ts, pos, acc, d.name, BodyTokens(d));
      return;
    }
    var acc1 := acc.(states := acc.states + [d.name]);
    var b := ParseBody(BodyTokens(d), 0, StateDef(d.name, None, None, []), acc1);
    BodyRead(d, acc1);
    if StateError(d.transitions).Some? {
      assert ParseBlocks(ts, pos, acc) == Err(b.error) by {
        BlocksTurn(ts, pos, acc, d.name, BodyTokens(d));
      }
      return;
    }
    BlockDone(prior, d, acc);
    var acc' := b.value.1.(defs := b.value.1.defs + [b.value.0]);
    assert ParseBlocks(ts, pos, acc) == if pos + 2 == |ts| then Ok(acc') else ParseBlocks(ts, pos + 2, acc') by {
      BlocksTurn(ts, pos, acc, d.name, BodyTokens(d));
    }
    if rest[1..] != [] {
      BlocksRead(ts, pre', prior + [d], rest[1..], acc');
    } else {
      LastOne(prior, rest);
    }
  }

  lemma BlocksSplit(ts: seq<Token>, pre: seq<Token>, rest: seq<StateDef>)
    requires ts == pre + BlocksTokens(rest) && rest != []
    ensures ts == (pre + [Ident(rest[0].name), Braces(BodyTokens(rest[0]))]) + BlocksTokens(rest[1..])
    ensures ts[|pre|] == Ident(rest[0].name) && ts[|pre| + 1] == Braces(BodyTokens(rest[0]))
  {
    assert ts == pre + [Ident(rest[0].name), Braces(BodyTokens(rest[0]))] + BlocksTokens(rest[1..]);
  }

  lemma LastOne<T>(prior: seq<T>, rest: seq<T>)
    requires rest != [] && rest[1..] == []
    ensures prior + rest == prior + [rest[0]]
  {
    assert rest == [rest[0]] + rest[1..];
  }

  // ----- The theorem -----

  /**
   * Parsing a written-out definition returns exactly that definition with
   * its collected lists when it is consistent, and otherwise the first
   * rejection: a duplicate state or a bad transition line, block by block
   * and line by line, then the first undefined target.
   */
  lemma ParseRendered(h: Header, defs: seq<StateDef>)
    requires Renderable(defs)
    ensures ParseResult(Render(h, defs)) == Expected(h, defs)
  {
    var ts := Render(h, defs);
    var blocks := BlocksTokens(defs);
    assert blocks[0] == Ident(defs[0].name);
    HeaderRead(h, blocks);
    assert Tracks([], Start);
    BlocksRead(ts, HeaderTokens(h), [], defs, Start);
    assert [] + defs == defs;
  }

  /** A written-out definition is accepted exactly when it is consistent. */
  lemma RenderedAcceptedIffValid(h: Header, defs: seq<StateDef>)
    requires Renderable(defs)
    ensures ParseResult(Render(h, defs)).Ok? <==> ValidDefs(defs)
  {
    ParseRendered(h, defs);
    ValidateIsValidDefs(defs);
  }
}
