/**
 * The state-machine definition: the lexed token tree the `statemachine!`
 * macro receives, the parsed definition (`StatemachineInfo`, `StateInfo`,
 * `TransitionInfo`), and the consistency rules the parser enforces.
 */
module Definition {
  import opened Wrappers
  import opened NameLists

  /**
   * An already-lexed token tree: identifiers, `{ }` and `[ ]` groups with
   * their contents, the `==` and `=>` punctuation, and anything else.
   * Rust keywords are `Other`: they are never identifiers.
   */
  datatype Token =
    | Ident(name: Name)
    | Braces(inner: seq<Token>)
    | Brackets(inner: seq<Token>)
    | EqEq
    | FatArrow
    | Other

  /** One line `Event [guard] == action => Target` of a state block. */
  datatype Transition = Transition(event: Name, guard: Option<Name>, action: Option<Name>, target: Name)

  /** One state block `State { OnEntry h OnExit h transitions }`. */
  datatype StateDef = StateDef(name: Name, onEntry: Option<Name>, onExit: Option<Name>, transitions: seq<Transition>)

  /** The parsed definition with the collected name lists. */
  datatype Info = Info(
    name: Name,
    initial: Name,
    payload: Option<Name>,
    unexpected: Option<Name>,
    states: seq<Name>,
    events: seq<Name>,
    onEntryExits: seq<Name>,
    guards: seq<Name>,
    actions: seq<Name>,
    defs: seq<StateDef>)

  /** The errors the parser reports, without their source spans. */
  datatype ParseError =
    | ExpectedKeyword(keyword: Name)
    | ExpectedIdent
    | ExpectedBraces
    | ExpectedFatArrow
    | DuplicateState(state: Name)
    | GuardAfterUnguarded(event: Name)
    | DuplicateTrigger(event: Name)
    | UndefinedTarget(target: Name)
    | UnexpectedToken

  // ----- Collected names -----

  /** The declared state names, in declaration order. */
  function Names(defs: seq<StateDef>): (r: seq<Name>)
    ensures |r| == |defs|
    ensures forall i :: 0 <= i < |defs| ==> r[i] == defs[i].name
  {
    if defs == [] then [] else Names(defs[..|defs| - 1]) + [defs[|defs| - 1].name]
  }

  /** Every transition of every state, state by state, in declaration order. */
  function Transitions(defs: seq<StateDef>): seq<Transition> {
    if defs == [] then [] else Transitions(defs[..|defs| - 1]) + defs[|defs| - 1].transitions
  }

  /** The event of each transition. */
  function EventsOf(ts: seq<Transition>): (r: seq<Name>)
    ensures |r| == |ts|
    ensures forall i :: 0 <= i < |ts| ==> r[i] == ts[i].event
  {
    if ts == [] then [] else EventsOf(ts[..|ts| - 1]) + [ts[|ts| - 1].event]
  }

  function OptionList(o: Option<Name>): seq<Name> {
    if o.Some? then [o.value] else []
  }

  /** The guard names of the guarded transitions. */
  function GuardsOf(ts: seq<Transition>): seq<Name>
  {
    if ts == [] then []
    else
      GuardsOf(ts[..|ts| - 1]) + OptionList(ts[|ts| - 1].guard)
  }

  /** The action names of the transitions that have one. */
  function ActionsOf(ts: seq<Transition>): seq<Name>
  {
    if ts == [] then []
    else
      ActionsOf(ts[..|ts| - 1]) + OptionList(ts[|ts| - 1].action)
  }

  /** The entry hook, then the exit hook, of each state. */
  function HooksOf(defs: seq<StateDef>): seq<Name>
  {
    if defs == [] then []
    else
      HooksOf(defs[..|defs| - 1]) + OptionList(defs[|defs| - 1].onEntry) + OptionList(defs[|defs| - 1].onExit)
  }

  // ----- The validation rules, in the order the parser applies them -----

  /** Two transitions fire on the same event with the same guard identity ("no guard" being one identity). */
  predicate SameTrigger(a: Transition, b: Transition) {
    a.event == b.event && a.guard == b.guard
  }

  /** Why transition `t` may not follow the transitions `prior` of its state, if it may not. */
  function TriggerError(prior: seq<Transition>, t: Transition): (r: Option<ParseError>)
    ensures r.None? <==>
      && (t.guard.Some? ==> forall i :: 0 <= i < |prior| ==> prior[i].guard.Some?)
      && (forall i :: 0 <= i < |prior| ==> !SameTrigger(prior[i], t))
  {
    if t.guard.Some? && exists i :: 0 <= i < |prior| && prior[i].guard.None? then
      Some(GuardAfterUnguarded(t.event))
    else if exists i :: 0 <= i < |prior| && SameTrigger(prior[i], t) then
      Some(DuplicateTrigger(t.event))
    else
      None
  }

  /** The first rejection among the transitions of one state block. */
  function StateError(ts: seq<Transition>): Option<ParseError> {
    if ts == [] then None
    else
      var init := ts[..|ts| - 1];
      var e := StateError(init);
      if e.Some? then e else TriggerError(init, ts[|ts| - 1])
  }

  /** The first rejection made while the state blocks are read: a duplicate state or a bad transition. */
  function BlocksError(defs: seq<StateDef>): Option<ParseError> {
    if defs == [] then None
    else
      var init, d := defs[..|defs| - 1], defs[|defs| - 1];
      var e := BlocksError(init);
      if e.Some? then e
      else if d.name in Names(init) then Some(DuplicateState(d.name))
      else StateError(d.transitions)
  }

  /** The first target, among `ts`, that is not one of `states`. */
  function UndefinedIn(states: seq<Name>, ts: seq<Transition>): (r: Option<Name>)
    ensures r.None? <==> forall i :: 0 <= i < |ts| ==> ts[i].target in states
    ensures r.Some? ==> r.value !in states
  {
    if ts == [] then None
    else if ts[0].target !in states then Some(ts[0].target)
    else UndefinedIn(states, ts[1..])
  }

  /** The first undefined target of the post-pass, state by state, transition by transition. */
  function UndefinedTargetOf(states: seq<Name>, defs: seq<StateDef>): (r: Option<Name>)
    ensures r.None? <==> forall i, j :: 0 <= i < |defs| && 0 <= j < |defs[i].transitions| ==> defs[i].transitions[j].target in states
    ensures r.Some? ==> r.value !in states
  {
    if defs == [] then None
    else
      var e := UndefinedIn(states, defs[0].transitions);
      if e.Some? then e
      else
        var r := UndefinedTargetOf(states, defs[1..]);
        assert forall i :: 1 <= i < |defs| ==> defs[i] == defs[1..][i - 1];
        r
  }

  /** The error the parser reports for well-formed blocks `defs`, if any. */
  function Validate(defs: seq<StateDef>): Option<ParseError> {
    var e := BlocksError(defs);
    if e.Some? then e
    else
      var u := UndefinedTargetOf(Names(defs), defs);
      if u.Some? then Some(UndefinedTarget(u.value)) else None
  }

  // ----- The same rules, stated declaratively -----

  /** Every guarded transition comes before every unguarded one, whatever the events. */
  predicate GuardedFirst(ts: seq<Transition>) {
    forall i, j :: 0 <= i < j < |ts| && ts[i].guard.None? ==> ts[j].guard.None?
  }

  /** No two transitions share an event and a guard identity. */
  predicate UniqueTriggers(ts: seq<Transition>) {
    forall i, j :: 0 <= i < j < |ts| ==> !SameTrigger(ts[i], ts[j])
  }

  /** Whether the state blocks are consistent. */
  predicate ValidDefs(defs: seq<StateDef>) {
    && NoDup(Names(defs))
    && (forall i :: 0 <= i < |defs| ==> GuardedFirst(defs[i].transitions) && UniqueTriggers(defs[i].transitions))
    && TargetsDeclared(defs)
  }

  /** Every transition target is one of the declared states. */
  predicate TargetsDeclared(defs: seq<StateDef>) {
    forall i, j :: 0 <= i < |defs| && 0 <= j < |defs[i].transitions| ==> defs[i].transitions[j].target in Names(defs)
  }

  /** The entry and exit hooks of `d`, where present, are among `hooks`. */
  predicate HooksListed(d: StateDef, hooks: seq<Name>) {
    && (d.onEntry.Some? ==> d.onEntry.value in hooks)
    && (d.onExit.Some? ==> d.onExit.value in hooks)
  }

  /** A definition the parser can return: consistent blocks and exactly the collected name lists. */
  predicate ValidInfo(info: Info) {
    && ValidDefs(info.defs)
    && info.states == Names(info.defs)
    && info.events == Dedup(EventsOf(Transitions(info.defs)))
    && info.guards == Dedup(GuardsOf(Transitions(info.defs)))
    && info.actions == Dedup(ActionsOf(Transitions(info.defs)))
    && NoDup(info.onEntryExits)
    && (forall i :: 0 <= i < |info.defs| ==> HooksListed(info.defs[i], info.onEntryExits))
  }

  // ----- The operational rules agree with the declarative ones -----

  lemma {:induction false} StateErrorNone(ts: seq<Transition>)
    ensures StateError(ts).None? <==> GuardedFirst(ts) && UniqueTriggers(ts)
  {
    if ts != [] {
      var init, t := ts[..|ts| - 1], ts[|ts| - 1];
      StateErrorNone(init);
      assert forall i :: 0 <= i < |init| ==> init[i] == ts[i];
      if StateError(ts).None? {
        assert GuardedFirst(init) && UniqueTriggers(init) && TriggerError(init, t).None?;
      }
      if GuardedFirst(ts) && UniqueTriggers(ts) {
        assert GuardedFirst(init) && UniqueTriggers(init);
      }
    }
  }

  lemma {:induction false} BlocksErrorNone(defs: seq<StateDef>)
    ensures BlocksError(defs).None? <==>
      NoDup(Names(defs)) && forall i :: 0 <= i < |defs| ==> StateError(defs[i].transitions).None?
  {
    if defs != [] {
      var init, d := defs[..|defs| - 1], defs[|defs| - 1];
      BlocksErrorNone(init);
      assert forall i :: 0 <= i < |init| ==> init[i] == defs[i];
      assert Names(defs) == Names(init) + [d.name];
      if NoDup(Names(defs)) {
        assert NoDup(Names(init));
        assert d.name !in Names(init);
      }
    }
  }

  /** The validator rejects exactly the inconsistent definitions. */
  lemma ValidateIsValidDefs(defs: seq<StateDef>)
    ensures Validate(defs).None? <==> ValidDefs(defs)
  {
    BlocksErrorNone(defs);
    forall i | 0 <= i < |defs| {
      StateErrorNone(defs[i].transitions);
    }
  }

  /** Once a prefix of the transitions is rejected, the whole state is rejected with the same error. */
  lemma {:induction false} StateErrorOfPrefix(ts: seq<Transition>, k: nat)
    requires k <= |ts|
    requires StateError(ts[..k]).Some?
    ensures StateError(ts) == StateError(ts[..k])
  {
    if k < |ts| {
      var init := ts[..|ts| - 1];
      assert init[..k] == ts[..k];
      StateErrorOfPrefix(init, k);
    } else {
      assert ts[..k] == ts;
    }
  }

  /** Once a prefix of the blocks is rejected, the whole definition is rejected with the same error. */
  lemma {:induction false} BlocksErrorOfPrefix(defs: seq<StateDef>, k: nat)
    requires k <= |defs|
    requires BlocksError(defs[..k]).Some?
    ensures BlocksError(defs) == BlocksError(defs[..k])
  {
    if k < |defs| {
      var init := defs[..|defs| - 1];
      assert init[..k] == defs[..k];
      BlocksErrorOfPrefix(init, k);
    } else {
      assert defs[..k] == defs;
    }
  }
}
