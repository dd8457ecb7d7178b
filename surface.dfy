/**
 * The interface `statemachine!` derives from the collected name lists:
 * the variants of the event enum, and the methods of the handler trait
 * the user implements. Only the meaning of the generated declarations is
 * modelled (names, receivers, parameters, result), not their Rust text.
 */
module Surface {
  import opened Wrappers
  import opened NameLists
  import opened Definition
  import opened Semantics

  /** A parameter of a handler method, after `self`. */
  datatype Param = OldState | TheEvent | PayloadOf(ty: Name) | NewState | CurrentState

  /** A handler trait method: its name, whether it takes `&mut self`, its parameters, and whether it returns `bool`. */
  datatype Signature = Signature(name: Name, mutates: bool, params: seq<Param>, returnsBool: bool)

  /** A variant of the event enum, with the payload type it carries. */
  datatype Variant = Variant(name: Name, payload: Option<Name>)

  // ----- The generated declarations -----

  /** `fn g(&self) -> bool;` */
  function GuardSignature(g: Name): Signature {
    Signature(g, false, [], true)
  }

  /** `fn a(&mut self, old_state, event, [payload,] new_state);` */
  function ActionSignature(a: Name, payload: Option<Name>): Signature {
    Signature(a, true, [OldState, TheEvent] + (if payload.Some? then [PayloadOf(payload.value)] else []) + [NewState], false)
  }

  /** `fn h(&mut self, old_state, event, new_state);`, for entry and exit hooks alike. */
  function HookSignature(h: Name): Signature {
    Signature(h, true, [OldState, TheEvent, NewState], false)
  }

  /** `fn u(&mut self, state, event);` */
  function UnexpectedSignature(u: Name): Signature {
    Signature(u, true, [CurrentState, TheEvent], false)
  }

  /** The event enum: one variant per collected event, each carrying the payload type when one is declared. */
  function EventVariants(info: Info): seq<Variant> {
    seq(|info.events|, i requires 0 <= i < |info.events| => Variant(info.events[i], info.payload))
  }

  function GuardMethods(guards: seq<Name>): seq<Signature> {
    seq(|guards|, i requires 0 <= i < |guards| => GuardSignature(guards[i]))
  }

  function ActionMethods(actions: seq<Name>, payload: Option<Name>): seq<Signature> {
    seq(|actions|, i requires 0 <= i < |actions| => ActionSignature(actions[i], payload))
  }

  function HookMethods(hooks: seq<Name>): seq<Signature> {
    seq(|hooks|, i requires 0 <= i < |hooks| => HookSignature(hooks[i]))
  }

  /** The handler trait: the unexpected-event handler, the hooks, the guards, then the actions. */
  function HandlerTrait(info: Info): seq<Signature> {
    (if info.unexpected.Some? then [UnexpectedSignature(info.unexpected.value)] else [])
      + HookMethods(info.onEntryExits) + GuardMethods(info.guards) + ActionMethods(info.actions, info.payload)
  }

  function MethodNames(ms: seq<Signature>): seq<Name> {
    seq(|ms|, i requires 0 <= i < |ms| => ms[i].name)
  }

  // ----- Names used by the blocks -----

  lemma {:induction false} TransitionsHold(defs: seq<StateDef>, i: nat, t: Transition)
    requires i < |defs| && t in defs[i].transitions
    ensures t in Transitions(defs)
    decreases |defs|
  {
    var init := defs[..|defs| - 1];
    if i < |defs| - 1 {
      assert init[i] == defs[i];
      TransitionsHold(init, i, t);
    }
  }

  lemma {:induction false} GuardsOfMembers(ts: seq<Transition>)
    ensures forall g :: g in GuardsOf(ts) <==> exists t :: t in ts && t.guard == Some(g)
    decreases |ts|
  {
    if ts != [] {
      var init, last := ts[..|ts| - 1], ts[|ts| - 1];
      GuardsOfMembers(init);
      assert ts == init + [last];
      forall g | exists t :: t in ts && t.guard == Some(g)
        ensures g in GuardsOf(ts)
      {
        var t :| t in ts && t.guard == Some(g);
        if t != last {
          assert t in init;
        }
      }
    }
  }

  lemma {:induction false} ActionsOfMembers(ts: seq<Transition>)
    ensures forall a :: a in ActionsOf(ts) <==> exists t :: t in ts && t.action == Some(a)
    decreases |ts|
  {
    if ts != [] {
      var init, last := ts[..|ts| - 1], ts[|ts| - 1];
      ActionsOfMembers(init);
      assert ts == init + [last];
      forall a | exists t :: t in ts && t.action == Some(a)
        ensures a in ActionsOf(ts)
      {
        var t :| t in ts && t.action == Some(a);
        if t != last {
          assert t in init;
        }
      }
    }
  }

  // ----- Where a method can sit in the trait -----

  lemma GuardMethodsIn(guards: seq<Name>, g: Name)
    ensures GuardSignature(g) in GuardMethods(guards) <==> g in guards
  {
    var ms := GuardMethods(guards);
    if g in guards {
      var k :| 0 <= k < |guards| && guards[k] == g;
      assert ms[k] == GuardSignature(g);
    }
    if GuardSignature(g) in ms {
      var k :| 0 <= k < |ms| && ms[k] == GuardSignature(g);
      assert guards[k] == g;
    }
  }

  lemma ActionMethodsIn(actions: seq<Name>, payload: Option<Name>, a: Name)
    ensures ActionSignature(a, payload) in ActionMethods(actions, payload) <==> a in actions
  {
    var ms := ActionMethods(actions, payload);
    if a in actions {
      var k :| 0 <= k < |actions| && actions[k] == a;
      assert ms[k] == ActionSignature(a, payload);
    }
    if ActionSignature(a, payload) in ms {
      var k :| 0 <= k < |ms| && ms[k] == ActionSignature(a, payload);
      assert actions[k] == a;
    }
  }

  lemma HookMethodsIn(hooks: seq<Name>, h: Name)
    ensures HookSignature(h) in HookMethods(hooks) <==> h in hooks
  {
    var ms := HookMethods(hooks);
    if h in hooks {
      var k :| 0 <= k < |hooks| && hooks[k] == h;
      assert ms[k] == HookSignature(h);
    }
    if HookSignature(h) in ms {
      var k :| 0 <= k < |ms| && ms[k] == HookSignature(h);
      assert hooks[k] == h;
    }
  }

  /** Every method of the trait, and where it comes from. */
  lemma TraitParts(info: Info, s: Signature)
    ensures s in HandlerTrait(info) <==>
      (info.unexpected.Some? && s == UnexpectedSignature(info.unexpected.value))
      || s in HookMethods(info.onEntryExits) || s in GuardMethods(info.guards) || s in ActionMethods(info.actions, info.payload)
  {
    var head := if info.unexpected.Some? then [UnexpectedSignature(info.unexpected.value)] else [];
    var hooks, guards, actions := HookMethods(info.onEntryExits), GuardMethods(info.guards), ActionMethods(info.actions, info.payload);
    assert HandlerTrait(info) == head + hooks + guards + actions;
  }

  /** Only the guard methods take `&self`; only the hook and action methods start with the old state. */
  lemma TraitKinds(info: Info, s: Signature)
    requires s in HookMethods(info.onEntryExits) || s in ActionMethods(info.actions, info.payload)
    ensures s.mutates && |s.params| >= 3 && s.params[0] == OldState
  {
    if s in HookMethods(info.onEntryExits) {
      var k :| 0 <= k < |info.onEntryExits| && HookMethods(info.onEntryExits)[k] == s;
    } else {
      var k :| 0 <= k < |info.actions| && ActionMethods(info.actions, info.payload)[k] == s;
    }
  }

  // ----- The trait matches the definition -----

  /** The trait has a guard method for exactly the guards the transitions use. */
  lemma GuardMethodsExact(info: Info, g: Name)
    requires ValidInfo(info)
    ensures GuardSignature(g) in HandlerTrait(info) <==> exists t :: t in Transitions(info.defs) && t.guard == Some(g)
  {
    GuardsOfMembers(Transitions(info.defs));
    TraitParts(info, GuardSignature(g));
    GuardMethodsIn(info.guards, g);
    if GuardSignature(g) in HookMethods(info.onEntryExits) || GuardSignature(g) in ActionMethods(info.actions, info.payload) {
      TraitKinds(info, GuardSignature(g));
    }
  }

  /**
   * The action methods are exactly those of the actions the transitions use,
   * with the payload parameter when one is declared. (Without a payload an
   * action method has a hook's parameters, so the statement is about the
   * action part of the trait.)
   */
  lemma ActionMethodsExact(info: Info, a: Name)
    requires ValidInfo(info)
    ensures ActionSignature(a, info.payload) in ActionMethods(info.actions, info.payload) <==> exists t :: t in Transitions(info.defs) && t.action == Some(a)
    ensures ActionSignature(a, info.payload) in ActionMethods(info.actions, info.payload) ==> ActionSignature(a, info.payload) in HandlerTrait(info)
  {
    ActionsOfMembers(Transitions(info.defs));
    TraitParts(info, ActionSignature(a, info.payload));
    ActionMethodsIn(info.actions, info.payload, a);
  }

  /** Every entry and exit hook a state declares has its trait method. */
  lemma HookMethodsCover(info: Info, d: StateDef)
    requires ValidInfo(info) && d in info.defs
    ensures d.onEntry.Some? ==> HookSignature(d.onEntry.value) in HandlerTrait(info)
    ensures d.onExit.Some? ==> HookSignature(d.onExit.value) in HandlerTrait(info)
  {
    var i :| 0 <= i < |info.defs| && info.defs[i] == d;
    assert HooksListed(d, info.onEntryExits);
    if d.onEntry.Some? {
      HookMethodsIn(info.onEntryExits, d.onEntry.value);
      TraitParts(info, HookSignature(d.onEntry.value));
    }
    if d.onExit.Some? {
      HookMethodsIn(info.onEntryExits, d.onExit.value);
      TraitParts(info, HookSignature(d.onExit.value));
    }
  }

  /** The unexpected-event handler method is there exactly when `UnexpectedHandler` names it. */
  lemma UnexpectedMethodExact(info: Info, u: Name)
    ensures UnexpectedSignature(u) in HandlerTrait(info) <==> info.unexpected == Some(u)
  {
    var s := UnexpectedSignature(u);
    TraitParts(info, s);
    if s in HookMethods(info.onEntryExits) || s in ActionMethods(info.actions, info.payload) {
      TraitKinds(info, s);
    }
  }

  /** No method name repeats within the hook, guard or action methods, since the lists are deduplicated. */
  lemma TraitListsDistinct(info: Info)
    requires ValidInfo(info)
    ensures NoDup(MethodNames(HookMethods(info.onEntryExits)))
    ensures NoDup(MethodNames(GuardMethods(info.guards)))
    ensures NoDup(MethodNames(ActionMethods(info.actions, info.payload)))
  {
    assert MethodNames(HookMethods(info.onEntryExits)) == info.onEntryExits;
    assert MethodNames(GuardMethods(info.guards)) == info.guards;
    assert MethodNames(ActionMethods(info.actions, info.payload)) == info.actions;
  }

  function VariantNames(vs: seq<Variant>): seq<Name> {
    seq(|vs|, i requires 0 <= i < |vs| => vs[i].name)
  }

  lemma EventsOfMembers(ts: seq<Transition>, e: Name)
    ensures e in EventsOf(ts) <==> exists t :: t in ts && t.event == e
  {
    if e in EventsOf(ts) {
      var j :| 0 <= j < |EventsOf(ts)| && EventsOf(ts)[j] == e;
      assert ts[j] in ts;
    }
    if exists t :: t in ts && t.event == e {
      var t :| t in ts && t.event == e;
      var j :| 0 <= j < |ts| && ts[j] == t;
      assert EventsOf(ts)[j] == e;
    }
  }

  lemma VariantsIn(info: Info, v: Variant)
    ensures v in EventVariants(info) <==> v.name in info.events && v.payload == info.payload
  {
    var vs := EventVariants(info);
    if v in vs {
      var k :| 0 <= k < |vs| && vs[k] == v;
      assert info.events[k] == v.name;
    }
    if v.name in info.events && v.payload == info.payload {
      var k :| 0 <= k < |info.events| && info.events[k] == v.name;
      assert vs[k] == v;
    }
  }

  /** One variant per event that some transition uses, each carrying the declared payload type. */
  lemma EventVariantsExact(info: Info, v: Variant)
    requires info.events == Dedup(EventsOf(Transitions(info.defs)))
    ensures v in EventVariants(info) <==> v.payload == info.payload && exists t :: t in Transitions(info.defs) && t.event == v.name
  {
    VariantsIn(info, v);
    EventsOfMembers(Transitions(info.defs), v.name);
  }

  /** No two variants of the event enum share a name. */
  lemma EventVariantsDistinct(info: Info)
    requires info.events == Dedup(EventsOf(Transitions(info.defs)))
    ensures NoDup(VariantNames(EventVariants(info)))
  {
    assert VariantNames(EventVariants(info)) == info.events;
  }

  // ----- The generated code calls only methods the trait declares -----

  /** A handler call made by the generated code is to a method of the trait, with the parameters it declares. */
  predicate Fits(info: Info, c: Call) {
    match c
    case ExitCall(h, _, _, _) => HookSignature(h) in HandlerTrait(info)
    case EntryCall(h, _, _, _) => HookSignature(h) in HandlerTrait(info)
    case ActionCall(a, _, _, p, _) => ActionSignature(a, info.payload) in HandlerTrait(info) && (p.Some? ==> info.payload.Some?)
    case UnexpectedCall(u, _, _) => UnexpectedSignature(u) in HandlerTrait(info)
  }

  /** An arm of a state's match is one of the definition's transitions. */
  lemma ArmDeclared(info: Info, from: Name, t: Transition)
    requires t in TransitionsFrom(info, from)
    ensures t in Transitions(info.defs)
  {
    var d := Lookup(info.defs, from).value;
    var i :| 0 <= i < |info.defs| && info.defs[i] == d;
    TransitionsHold(info.defs, i, t);
  }

  /** The calls of a taken transition, one by one. */
  lemma TakeCallsAre(info: Info, from: Name, ev: Event, t: Transition, c: Call)
    requires c in TakeCalls(info, from, ev, t)
    ensures c.ExitCall? ==> ExitHook(info, from) == Some(c.hook)
    ensures c.ActionCall? ==> t.action == Some(c.action) && c.payload == ActionPayload(info, ev)
    ensures c.EntryCall? ==> EntryHook(info, t.target) == Some(c.hook)
    ensures !c.UnexpectedCall?
  {
  }

  /** Every call of a transition taken from a state's arms is to a declared trait method. */
  lemma TakeCallsFit(info: Info, from: Name, ev: Event, t: Transition)
    requires ValidInfo(info)
    requires t in TransitionsFrom(info, from)
    ensures forall c :: c in TakeCalls(info, from, ev, t) ==> Fits(info, c)
  {
    forall c | c in TakeCalls(info, from, ev, t) ensures Fits(info, c) {
      TakeCallsAre(info, from, ev, t, c);
      if c.ExitCall? {
        HookMethodsCover(info, Lookup(info.defs, from).value);
      } else if c.ActionCall? {
        ArmDeclared(info, from, t);
        ActionMethodsExact(info, c.action);
      } else {
        HookMethodsCover(info, Lookup(info.defs, t.target).value);
      }
    }
  }

  /** The guard of every arm of a state is a declared `&self` method returning `bool`. */
  lemma GuardsFit(info: Info, from: Name, t: Transition)
    requires ValidInfo(info)
    requires t in TransitionsFrom(info, from) && t.guard.Some?
    ensures GuardSignature(t.guard.value) in HandlerTrait(info)
  {
    ArmDeclared(info, from, t);
    GuardMethodsExact(info, t.guard.value);
  }

  /** The `_ =>` arm calls the declared unexpected-event handler, if any. */
  lemma FallbackFits(info: Info, o: Oracle, cfg: Config, ev: Event)
    ensures forall c :: c in Fallback(info, o, cfg, ev).trace[|cfg.trace|..] ==> Fits(info, c)
  {
    var f := Fallback(info, o, cfg, ev);
    if info.unexpected.Some? {
      UnexpectedMethodExact(info, info.unexpected.value);
      assert f.trace[|cfg.trace|..] == [UnexpectedCall(info.unexpected.value, cfg.state, ev)];
    } else {
      assert f.trace[|cfg.trace|..] == [];
    }
  }
}
