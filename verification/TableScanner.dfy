/**
 The generator's scan loops over positions (scripts/generate_state_machine_docs.py), each proved
 to compute the parser it implements. Every loop's position strictly advances.
 */
module TableScanner {
  import opened Collections
  import opened Text
  import opened Guards
  import opened Tables

  /** extract_block */
  method ExtractBlock(content: string, bracePos: nat) returns (b: string)
    requires bracePos < |content| && content[bracePos] == '{'
    ensures b == Block(content[bracePos..])
  {
    var depth, i := 0, bracePos;
    while i < |content|
      invariant bracePos <= i <= |content| && (depth >= 1 || i == bracePos) && (i == bracePos ==> depth == 0)
      invariant BlockEnd(content[bracePos..], 0) == i - bracePos + BlockEnd(content[i..], depth)
    {
      var c := content[i];
      assert content[i..][0] == c && content[i..][1..] == content[i + 1..];
      if c == '{' {
        depth := depth + 1;
      } else if c == '}' {
        depth := depth - 1;
        if depth == 0 {
          assert content[bracePos..][..i + 1 - bracePos] == content[bracePos..i + 1];
          return content[bracePos..i + 1];
        }
      }
      i := i + 1;
    }
    assert content[i..] == [];
    assert content[bracePos..][..|content| - bracePos] == content[bracePos..];
    return content[bracePos..];
  }

  /** `\s*` matched at a position. */
  method SkipSpaces(s: string, pos: nat) returns (q: nat)
    requires pos <= |s|
    ensures pos <= q <= |s| && s[q..] == LStrip(s[pos..])
  {
    q := pos;
    while q < |s| && IsSpace(s[q])
      invariant pos <= q <= |s| && LStrip(s[pos..]) == LStrip(s[q..])
    {
      assert s[q..][0] == s[q] && s[q..][1..] == s[q + 1..];
      q := q + 1;
    }
    assert q < |s| ==> s[q..][0] == s[q];
  }

  /** The first match of `\bFIELD:`, tried position by position. */
  method SearchField(block: string, field: string) returns (p: Option<nat>)
    ensures p == FindField(block, field, 0)
  {
    var i := 0;
    while !FieldAt(block, i, field)
      invariant i <= |block| && FindField(block, field, 0) == FindField(block, field, i)
      decreases |block| - i
    {
      if i == |block| { return None; }
      i := i + 1;
    }
    return Some(i);
  }

  /** extract_field_value */
  method ExtractFieldValue(block: string, field: string) returns (v: Option<string>)
    ensures v == FieldValue(block, field)
  {
    hide FindField, LStrip, ValueEnd;
    var m := SearchField(block, field);
    if m.None? { return None; }
    var start := SkipSpaces(block, m.value + |field| + 1);
    var pos := ScanValue(block, start);
    assert block[start..][..pos - start] == block[start..pos];
    return Some(Strip(block[start..pos]));
  }

  /** The loop of extract_field_value. */
  method ScanValue(block: string, start: nat) returns (pos: nat)
    requires start <= |block|
    ensures start <= pos <= |block| && pos - start == ValueEnd(block[start..], 0)
  {
    pos := start;
    var depth := 0;
    while pos < |block|
      invariant start <= pos <= |block|
      invariant ValueEnd(block[start..], 0) == pos - start + ValueEnd(block[pos..], depth)
    {
      var c := block[pos];
      assert block[pos..][0] == c && block[pos..][1..] == block[pos + 1..];
      if c == '(' {
        depth := depth + 1;
      } else if c == ')' {
        depth := depth - 1;
      } else if (c == ',' || c == '\n' || c == '}') && depth == 0 {
        break;
      }
      pos := pos + 1;
    }
    assert pos == |block| ==> block[pos..] == [];
  }

  lemma BlockAt(s: string, pos: nat)
    requires pos < |s| && s[pos] == '{'
    ensures s[pos..][0] == '{' && var n := |Block(s[pos..])|; 1 <= n <= |s| - pos && s[pos..][n..] == s[pos + n..]
  {
  }

  lemma StructsStep(s: string, pos: nat, q: nat, from: string, event: string)
    requires pos <= q <= |s| && s[q..] == LStrip(s[pos..])
    ensures q == |s| || s[q] == '}' ==> ParseStructs(s[pos..], from, event) == []
    ensures q < |s| && s[q] == '{' ==>
        ParseStructs(s[pos..], from, event)
        == TransitionOf(Block(s[q..]), from, event) + ParseStructs(s[q + |Block(s[q..])|..], from, event)
    ensures q < |s| && s[q] != '{' && s[q] != '}' ==>
        ParseStructs(s[pos..], from, event) == ParseStructs(s[q + 1..], from, event)
  {
    hide Block, TransitionOf;
    if q < |s| {
      assert s[q..][0] == s[q] && s[q..][1..] == s[q + 1..];
      if s[q] == '{' { BlockAt(s, q); }
    }
  }

  /** parse_transition_structs */
  method ParseTransitionStructs(block: string, from: string, event: string) returns (result: seq<Transition>)
    requires block != []
    ensures result == ParseStructs(block[1..], from, event)
  {
    hide Block, TransitionOf, ParseStructs, LStrip;
    result := [];
    var pos := 1;
    while pos < |block|
      invariant 1 <= pos <= |block|
      invariant result + ParseStructs(block[pos..], from, event) == ParseStructs(block[1..], from, event)
      decreases |block| - pos
    {
      ghost var was := pos;
      pos := SkipSpaces(block, pos);
      StructsStep(block, was, pos, from, event);
      if pos >= |block| || block[pos] == '}' {
        return;
      }
      if block[pos] == '{' {
        var struct := ExtractBlock(block, pos);
        BlockAt(block, pos);
        var one := ReadTransition(struct, from, event);
        result := result + one;
        pos := pos + |struct|;
      } else {
        pos := pos + 1;
      }
    }
    StructsStep(block, |block|, |block|, from, event);
  }

  /** The transition of one struct, if its target is a state. */
  method ReadTransition(struct: string, from: string, event: string) returns (one: seq<Transition>)
    ensures one == TransitionOf(struct, from, event)
  {
    var to := ExtractFieldValue(struct, "To");
    var cond := ExtractFieldValue(struct, "If");
    if to.None? || !IsStateName(to.value) { return []; }
    var guard := if cond.Some? && cond.value != "" then Some(Simplify(cond.value)) else None;
    return [Transition(from, event, Strip(to.value), guard)];
  }

  ghost predicate Openings(openers: seq<string>) { forall o <- openers :: o != [] && o[|o| - 1] == '{' }

  lemma FieldFits(s: string, i: nat, field: string)
    requires i <= |s|
    ensures FieldAt(s, i, field) ==> i + |field| + 1 <= |s|
  {
  }

  /** The match of `FIELD:\s*OPENER` at a position, if there is one. */
  method OpenerAt(s: string, field: string, openers: seq<string>, i: nat) returns (p: Option<nat>)
    requires i <= |s| && Openings(openers)
    ensures p.Some? ==> FindOpener(s, field, openers, i) == p
    ensures p.None? && i == |s| ==> FindOpener(s, field, openers, i) == None
    ensures p.None? && i < |s| ==> FindOpener(s, field, openers, i) == FindOpener(s, field, openers, i + 1)
  {
    hide LStrip, Opening1, IsSpace, FieldAt, StartsWith;
    p := None;
    FieldFits(s, i, field);
    if FieldAt(s, i, field) {
      var q := SkipSpaces(s, i + |field| + 1);
      var o := Opening1(s[q..], openers);
      if o.Some? { p := Some(q + |o.value| - 1); }
    }
  }

  /** The first match of `\bFIELD:\s*OPENER`. */
  method SearchOpener(s: string, field: string, openers: seq<string>) returns (p: Option<nat>)
    requires Openings(openers)
    ensures p == FindOpener(s, field, openers, 0)
  {
    hide FindOpener;
    var i := 0;
    while true
      invariant i <= |s| && FindOpener(s, field, openers, 0) == FindOpener(s, field, openers, i)
      decreases |s| - i
    {
      p := OpenerAt(s, field, openers, i);
      if p.Some? || i == |s| { return; }
      i := i + 1;
    }
  }

  lemma TransitionOpeners()
    ensures forall o <- TRANSITION_OPENERS :: o != [] && o[|o| - 1] == '{'
    ensures forall o <- EVENT_OPENERS :: o != [] && o[|o| - 1] == '{'
  {
  }

  /** The Transitions list of a handler block, if the search finds one. */
  method ReadHandlers(block: string, from: string, event: string) returns (ts: seq<Transition>)
    ensures ts == EventTransitions(block, from, event)
  {
    hide FindOpener, ParseStructs, Block;
    TransitionOpeners();
    var p := SearchOpener(block, "Transitions", TRANSITION_OPENERS);
    if p.None? { return []; }
    var b := ExtractBlock(block, p.value);
    ts := ParseTransitionStructs(b, from, event);
  }

  lemma EventsStep(s: string, pos: nat, q: nat, from: string)
    requires pos <= q <= |s| && s[q..] == LStrip(s[pos..])
    ensures q == |s| || s[q] == '}' ==> ParseEvents(s[pos..], from) == []
    ensures q < |s| && s[q] != '}' && MatchEventKey(s[q..]).None? ==>
      ParseEvents(s[pos..], from) == ParseEvents(s[q + 1..], from)
  {
    hide EventTransitions, MatchEventKey;
    if q < |s| { assert s[q..][0] == s[q] && s[q..][1..] == s[q + 1..]; }
  }

  lemma EventsKeyed(s: string, pos: nat, q: nat, u: nat, from: string)
    requires pos <= q < |s| && s[q..] == LStrip(s[pos..]) && s[q] != '}' && MatchEventKey(s[q..]).Some?
    requires var k := MatchEventKey(s[q..]).value; q + k.length <= u <= |s| && s[u..] == LStrip(s[q + k.length..])
    ensures ParseEvents(s[pos..], from) == (
        if u < |s| && s[u] == '{'
        then EventTransitions(Block(s[u..]), from,
            MatchEventKey(s[q..]).value.name) + ParseEvents(s[u + |Block(s[u..])|..], from)
        else ParseEvents(s[u..], from))
  {
    hide EventTransitions, MatchEventKey, Block;
    var k := MatchEventKey(s[q..]).value;
    assert s[q..][0] == s[q] && s[q..][k.length..] == s[q + k.length..];
    if u < |s| {
      assert s[u..][0] == s[u];
      if s[u] == '{' { BlockAt(s, u); }
    }
  }

  /** parse_event_handlers */
  method ParseEventHandlers(block: string, from: string) returns (result: seq<Transition>)
    requires block != []
    ensures result == ParseEvents(block[1..], from)
  {
    hide Block, BlockEnd, EventTransitions, MatchEventKey, ParseEvents, LStrip, IsSpace;
    result := [];
    var pos := 1;
    while pos < |block|
      invariant 1 <= pos <= |block|
      invariant result + ParseEvents(block[pos..], from) == ParseEvents(block[1..], from)
      decreases |block| - pos
    {
      ghost var was := pos;
      pos := SkipSpaces(block, pos);
      EventsStep(block, was, pos, from);
      if pos >= |block| || block[pos] == '}' {
        return;
      }
      var key := MatchEventKey(block[pos..]);
      if key.Some? {
        ghost var at := pos;
        pos := SkipSpaces(block, pos + key.value.length);
        EventsKeyed(block, was, at, pos, from);
        if pos < |block| && block[pos] == '{' {
          var handlers := ExtractBlock(block, pos);
          BlockAt(block, pos);
          var ts := ReadHandlers(handlers, from, key.value.name);
          result := result + ts;
          pos := pos + |handlers|;
        }
      } else {
        pos := pos + 1;
      }
    }
    EventsStep(block, |block|, |block|, from);
  }

  /** The events map of a state block, if the search finds one. */
  method ReadState(block: string, state: string) returns (ts: seq<Transition>)
    ensures ts == StateTransitions(block, state)
  {
    hide FindOpener, ParseEvents, Block;
    TransitionOpeners();
    var p := SearchOpener(block, "Events", EVENT_OPENERS);
    if p.None? { return []; }
    var b := ExtractBlock(block, p.value);
    ts := ParseEventHandlers(b, state);
  }

  lemma StatesStep(s: string, pos: nat, q: nat)
    requires pos <= q <= |s| && s[q..] == LStrip(s[pos..])
    ensures q == |s| || s[q] == '}' ==> ParseStates(s[pos..]) == []
    ensures q < |s| && s[q] != '}' && MatchKey(s[q..], "State_").None? ==>
      ParseStates(s[pos..]) == ParseStates(s[q + 1..])
  {
    hide StateTransitions, MatchKey;
    if q < |s| { assert s[q..][0] == s[q] && s[q..][1..] == s[q + 1..]; }
  }

  lemma StatesKeyed(s: string, pos: nat, q: nat, u: nat)
    requires pos <= q < |s| && s[q..] == LStrip(s[pos..]) && s[q] != '}' && MatchKey(s[q..], "State_").Some?
    requires var k := MatchKey(s[q..], "State_").value; q + k.length <= u <= |s| && s[u..] == LStrip(s[q + k.length..])
    ensures ParseStates(s[pos..]) == (
        if u < |s| && s[u] == '{'
        then StateTransitions(Block(s[u..]),
            MatchKey(s[q..], "State_").value.name) + ParseStates(s[u + |Block(s[u..])|..])
        else ParseStates(s[u..]))
  {
    hide StateTransitions, MatchKey, Block;
    var k := MatchKey(s[q..], "State_").value;
    assert s[q..][0] == s[q] && s[q..][k.length..] == s[q + k.length..];
    if u < |s| {
      assert s[u..][0] == s[u];
      if s[u] == '{' { BlockAt(s, u); }
    }
  }

  /** The loop of parse_state_machine over the states of the table. */
  method ParseStateMap(block: string) returns (result: seq<Transition>)
    requires block != []
    ensures result == ParseStates(block[1..])
  {
    hide Block, StateTransitions, MatchKey, ParseStates, LStrip;
    result := [];
    var pos := 1;
    while pos < |block|
      invariant 1 <= pos <= |block|
      invariant result + ParseStates(block[pos..]) == ParseStates(block[1..])
      decreases |block| - pos
    {
      ghost var was := pos;
      pos := SkipSpaces(block, pos);
      StatesStep(block, was, pos);
      if pos >= |block| || block[pos] == '}' {
        return;
      }
      var key := MatchKey(block[pos..], "State_");
      if key.Some? {
        ghost var at := pos;
        pos := SkipSpaces(block, pos + key.value.length);
        StatesKeyed(block, was, at, pos);
        if pos < |block| && block[pos] == '{' {
          var state := ExtractBlock(block, pos);
          BlockAt(block, pos);
          var ts := ReadState(state, key.value.name);
          result := result + ts;
          pos := pos + |state|;
        }
      } else {
        pos := pos + 1;
      }
    }
    StatesStep(block, |block|, |block|);
  }

  lemma MarkerBrace(content: string, p: nat)
    requires p + |MARKER| <= |content| && StartsWith(content[p..], MARKER)
    ensures content[p + |MARKER| - 1] == '{'
  {
    assert content[p..][..|MARKER|][|MARKER| - 1] == content[p + |MARKER| - 1];
  }

  /** The transitions parse_state_machine collects from a file. */
  method ParseStateMachine(content: string) returns (transitions: seq<Transition>)
    ensures transitions == ParseMachine(content)
  {
    hide Block, ParseStates, Find;
    var p := Find(content, MARKER, 0);
    if p.None? { return []; }
    MarkerBrace(content, p.value);
    var block := ExtractBlock(content, p.value + |MARKER| - 1);
    transitions := ParseStateMap(block);
  }
}
