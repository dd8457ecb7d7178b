/**
 * Soundness of the parser: every definition it accepts is consistent
 * (unique states, guarded lines first, no duplicate trigger, every target
 * declared) and carries exactly the deduplicated name lists of its blocks.
 */
module ParserSoundness {
  import opened Wrappers
  import opened NameLists
  import opened Definition
  import opened Parser

  /**
   * The lists collected so far are those of the blocks `defs` (the blocks
   * already read, followed by the one being read, if any), and those
   * blocks have passed the checks made while reading.
   */
  ghost predicate Tracks(defs: seq<StateDef>, acc: Acc) {
    ListsTrack(defs, acc) && HooksTrack(defs, acc.onEntryExits) && BlocksError(defs).None?
  }

  /** The state, event, guard and action lists are those of the blocks `defs`. */
  ghost predicate ListsTrack(defs: seq<StateDef>, acc: Acc) {
    && acc.states == Names(defs)
    && acc.events == Dedup(EventsOf(Transitions(defs)))
    && acc.guards == Dedup(GuardsOf(Transitions(defs)))
    && acc.actions == Dedup(ActionsOf(Transitions(defs)))
  }

  /** The hook list has no duplicate and lists every hook of the blocks `defs`. */
  predicate HooksTrack(defs: seq<StateDef>, hooks: seq<Name>) {
    NoDup(hooks) && forall i :: 0 <= i < |defs| ==> HooksListed(defs[i], hooks)
  }

  // ----- Unfolding the right-recursive definitions by one element -----

  lemma NamesSnoc(defs: seq<StateDef>, d: StateDef)
    ensures Names(defs + [d]) == Names(defs) + [d.name]
  {
    assert (defs + [d])[..|defs|] == defs;
  }

  lemma TransitionsSnoc(defs: seq<StateDef>, d: StateDef)
    ensures Transitions(defs + [d]) == Transitions(defs) + d.transitions
  {
    assert (defs + [d])[..|defs|] == defs;
  }

  lemma BlocksErrorSnoc(defs: seq<StateDef>, d: StateDef)
    ensures BlocksError(defs + [d]) ==
      if BlocksError(defs).Some? then BlocksError(defs)
      else if d.name in Names(defs) then Some(DuplicateState(d.name))
      else StateError(d.transitions)
  {
    assert (defs + [d])[..|defs|] == defs;
  }

  lemma StateErrorSnoc(ts: seq<Transition>, t: Transition)
    ensures StateError(ts + [t]) == if StateError(ts).Some? then StateError(ts) else TriggerError(ts, t)
  {
    assert (ts + [t])[..|ts|] == ts;
  }

  /** The transitions of all blocks after one more line in the last block. */
  lemma TransitionsAppend(prior: seq<StateDef>, cur: StateDef, t: Transition)
    ensures Transitions(prior + [cur.(transitions := cur.transitions + [t])]) == Transitions(prior + [cur]) + [t]
  {
    var a := Transitions(prior);
    TransitionsSnoc(prior, cur);
    TransitionsSnoc(prior, cur.(transitions := cur.transitions + [t]));
    assert a + (cur.transitions + [t]) == (a + cur.transitions) + [t];
  }

  /** Dedup of a list extended by one name. */
  lemma DedupSnoc(xs: seq<Name>, x: Name)
    ensures Dedup(xs + [x]) == AddNew(Dedup(xs), x)
  {
    assert (xs + [x])[..|xs|] == xs;
  }

  /** The event list after one more transition line `t`. */
  lemma EventsSnoc(ts: seq<Transition>, t: Transition)
    ensures Dedup(EventsOf(ts + [t])) == AddNew(Dedup(EventsOf(ts)), t.event)
  {
    assert (ts + [t])[..|ts|] == ts;
    DedupSnoc(EventsOf(ts), t.event);
  }

  /** The guard list after one more transition line `t`. */
  lemma GuardsSnoc(ts: seq<Transition>, t: Transition)
    ensures Dedup(GuardsOf(ts + [t])) == if t.guard.Some? then AddNew(Dedup(GuardsOf(ts)), t.guard.value) else Dedup(GuardsOf(ts))
  {
    assert (ts + [t])[..|ts|] == ts;
    if t.guard.Some? {
      DedupSnoc(GuardsOf(ts), t.guard.value);
    } else {
      assert GuardsOf(ts + [t]) == GuardsOf(ts) + [] == GuardsOf(ts);
    }
  }

  /** The action list after one more transition line `t`. */
  lemma ActionsSnoc(ts: seq<Transition>, t: Transition)
    ensures Dedup(ActionsOf(ts + [t])) == if t.action.Some? then AddNew(Dedup(ActionsOf(ts)), t.action.value) else Dedup(ActionsOf(ts))
  {
    assert (ts + [t])[..|ts|] == ts;
    if t.action.Some? {
      DedupSnoc(ActionsOf(ts), t.action.value);
    } else {
      assert ActionsOf(ts + [t]) == ActionsOf(ts) + [] == ActionsOf(ts);
    }
  }

  // ----- Each step of the parser keeps `Tracks` -----

  /** Changing only the hooks of the block being read keeps `Tracks` once the hook list covers the new hooks. */
  lemma HookEditKeeps(prior: seq<StateDef>, cur: StateDef, cur': StateDef, acc: Acc, acc': Acc)
    requires Tracks(prior + [cur], acc)
    requires cur'.name == cur.name && cur'.transitions == cur.transitions
    requires acc' == acc.(onEntryExits := acc'.onEntryExits)
    requires NoDup(acc'.onEntryExits)
    requires forall h :: h in acc.onEntryExits ==> h in acc'.onEntryExits
    requires HooksListed(cur', acc'.onEntryExits)
    ensures Tracks(prior + [cur'], acc')
  {
    NamesSnoc(prior, cur);
    NamesSnoc(prior, cur');
    TransitionsSnoc(prior, cur);
    TransitionsSnoc(prior, cur');
    BlocksErrorSnoc(prior, cur);
    BlocksErrorSnoc(prior, cur');
    forall i | 0 <= i < |prior|
      ensures HooksListed((prior + [cur'])[i], acc'.onEntryExits)
    {
      assert (prior + [cur])[i] == prior[i] == (prior + [cur'])[i];
    }
  }

  /** The hook clauses change the block's hooks only, and list them. */
  lemma HooksKeep(body: seq<Token>, pos: nat, prior: seq<StateDef>, cur: StateDef, acc: Acc)
    requires pos <= |body|
    requires Tracks(prior + [cur], acc) && acc.defs == prior
    requires ParseHooks(body, pos, cur, acc).Ok?
    ensures var (_, cur', acc') := ParseHooks(body, pos, cur, acc).value;
      && Tracks(prior + [cur'], acc') && acc'.defs == prior
      && cur'.name == cur.name && cur'.transitions == cur.transitions
  {
    var (_, cur', acc') := ParseHooks(body, pos, cur, acc).value;
    assert HooksListed(cur, acc.onEntryExits) by {
      assert (prior + [cur])[|prior|] == cur;
    }
    HooksOnly(body, pos, cur, acc);
    HookEditKeeps(prior, cur, cur', acc, acc');
  }

  /** The hook clauses set the block's hooks and add them to the hook list, and change nothing else. */
  lemma HooksOnly(body: seq<Token>, pos: nat, cur: StateDef, acc: Acc)
    requires pos <= |body|
    requires ParseHooks(body, pos, cur, acc).Ok?
    ensures var (_, cur', acc') := ParseHooks(body, pos, cur, acc).value;
      && cur'.name == cur.name && cur'.transitions == cur.transitions
      && acc' == acc.(onEntryExits := acc'.onEntryExits)
      && (NoDup(acc.onEntryExits) ==> NoDup(acc'.onEntryExits))
      && (forall h :: h in acc.onEntryExits ==> h in acc'.onEntryExits)
      && (HooksListed(cur, acc.onEntryExits) ==> HooksListed(cur', acc'.onEntryExits))
  {
  }

  /** The lists after one more transition line in the block being read. */
  lemma AppendLists(prior: seq<StateDef>, cur: StateDef, t: Transition, acc: Acc, trailing: bool)
    requires ListsTrack(prior + [cur], acc)
    ensures ListsTrack(prior + [cur.(transitions := cur.transitions + [t])], Collect(acc, t, trailing))
  {
    var cur' := cur.(transitions := cur.transitions + [t]);
    var acc' := Collect(acc, t, trailing);
    assert acc'.states == Names(prior + [cur']) by {
      NamesSnoc(prior, cur);
      NamesSnoc(prior, cur');
    }
    var ts := Transitions(prior + [cur]);
    assert Transitions(prior + [cur']) == ts + [t] by {
      TransitionsAppend(prior, cur, t);
    }
    EventsSnoc(ts, t);
    GuardsSnoc(ts, t);
    ActionsSnoc(ts, t);
  }

  /** A transition that passes the two checks keeps the blocks free of errors. */
  lemma AppendChecked(prior: seq<StateDef>, cur: StateDef, t: Transition)
    requires BlocksError(prior + [cur]).None?
    requires TriggerError(cur.transitions, t).None?
    ensures BlocksError(prior + [cur.(transitions := cur.transitions + [t])]).None?
  {
    BlocksErrorSnoc(prior, cur);
    BlocksErrorSnoc(prior, cur.(transitions := cur.transitions + [t]));
    StateErrorSnoc(cur.transitions, t);
  }

  /** Changing the last block but not its hooks keeps the hook list complete. */
  lemma SameHooksKeep(prior: seq<StateDef>, cur: StateDef, cur': StateDef, hooks: seq<Name>)
    requires HooksTrack(prior + [cur], hooks)
    requires cur'.onEntry == cur.onEntry && cur'.onExit == cur.onExit
    ensures HooksTrack(prior + [cur'], hooks)
  {
    forall i | 0 <= i < |prior + [cur']|
      ensures HooksListed((prior + [cur'])[i], hooks)
    {
      if i < |prior| {
        assert (prior + [cur])[i] == prior[i] == (prior + [cur'])[i];
      } else {
        assert (prior + [cur])[i] == cur;
      }
    }
  }

  /** Appending a transition that passes the two checks to the block being read keeps `Tracks`. */
  lemma AppendKeeps(prior: seq<StateDef>, cur: StateDef, t: Transition, acc: Acc, trailing: bool)
    requires Tracks(prior + [cur], acc)
    requires TriggerError(cur.transitions, t).None?
    ensures Tracks(prior + [cur.(transitions := cur.transitions + [t])], Collect(acc, t, trailing))
  {
    AppendLists(prior, cur, t, acc, trailing);
    AppendChecked(prior, cur, t);
    SameHooksKeep(prior, cur, cur.(transitions := cur.transitions + [t]), acc.onEntryExits);
  }

  /** A transition line appends one checked transition to the block and adds its names to the lists. */
  lemma TransitionKeeps(body: seq<Token>, pos: nat, prior: seq<StateDef>, cur: StateDef, acc: Acc)
    requires pos < |body|
    requires Tracks(prior + [cur], acc) && acc.defs == prior
    requires ParseTransition(body, pos, cur, acc).Ok?
    ensures var (_, cur', acc') := ParseTransition(body, pos, cur, acc).value;
      && Tracks(prior + [cur'], acc') && acc'.defs == prior
      && cur'.name == cur.name
  {
    var (t, _, trailing) := ParseTrigger(body, pos).value;
    AppendKeeps(prior, cur, t, acc, trailing);
  }

  /** A whole block body keeps `Tracks` for the block being read. */
  lemma {:induction false} BodyKeeps(body: seq<Token>, pos: nat, prior: seq<StateDef>, cur: StateDef, acc: Acc)
    requires pos <= |body|
    requires Tracks(prior + [cur], acc) && acc.defs == prior
    requires ParseBody(body, pos, cur, acc).Ok?
    ensures var (cur', acc') := ParseBody(body, pos, cur, acc).value;
      && Tracks(prior + [cur'], acc') && acc'.defs == prior
      && cur'.name == cur.name
    decreases |body| - pos
  {
    var hooks := ParseHooks(body, pos, cur, acc).value;
    HooksKeep(body, pos, prior, cur, acc);
    if hooks.0 < |body| {
      var next := ParseTransition(body, hooks.0, hooks.1, hooks.2).value;
      TransitionKeeps(body, hooks.0, prior, hooks.1, hooks.2);
      BodyKeeps(body, next.0, prior, next.1, next.2);
    }
  }

  /** Opening a block with a new state name keeps `Tracks` for the blocks read so far and the empty new one. */
  lemma OpenBlockKeeps(defs: seq<StateDef>, name: Name, acc: Acc)
    requires Tracks(defs, acc)
    requires name !in acc.states
    ensures Tracks(defs + [StateDef(name, None, None, [])], acc.(states := acc.states + [name]))
  {
    var cur := StateDef(name, None, None, []);
    NamesSnoc(defs, cur);
    TransitionsSnoc(defs, cur);
    assert Transitions(defs + [cur]) == Transitions(defs);
    BlocksErrorSnoc(defs, cur);
    forall i | 0 <= i < |defs + [cur]|
      ensures HooksListed((defs + [cur])[i], acc.onEntryExits)
    {
      if i < |defs| {
        assert (defs + [cur])[i] == defs[i];
      }
    }
  }

  /** The remaining blocks keep `Tracks` for the blocks read so far. */
  lemma {:induction false} BlocksKeep(ts: seq<Token>, pos: nat, acc: Acc)
    requires pos <= |ts|
    requires Tracks(acc.defs, acc)
    requires ParseBlocks(ts, pos, acc).Ok?
    ensures Tracks(ParseBlocks(ts, pos, acc).value.defs, ParseBlocks(ts, pos, acc).value)
    decreases |ts| - pos
  {
    var name := ts[pos].name;
    var cur := StateDef(name, None, None, []);
    var acc1 := acc.(states := acc.states + [name]);
    OpenBlockKeeps(acc.defs, name, acc);
    BodyKeeps(ts[pos + 1].inner, 0, acc.defs, cur, acc1);
    var block := ParseBody(ts[pos + 1].inner, 0, cur, acc1).value;
    var acc' := block.1.(defs := block.1.defs + [block.0]);
    assert Tracks(acc'.defs, acc');
    if pos + 2 < |ts| {
      BlocksKeep(ts, pos + 2, acc');
    }
  }

  /** Every definition the parser accepts is consistent and carries the collected name lists. */
  lemma ParseSound(ts: seq<Token>)
    requires ParseResult(ts).Ok?
    ensures ValidInfo(ParseResult(ts).value)
  {
    var header := ParseHeader(ts).value;
    assert Tracks([], Start);
    BlocksKeep(ts, header.1, Start);
    var acc := ParseBlocks(ts, header.1, Start).value;
    ValidateIsValidDefs(acc.defs);
  }
}
