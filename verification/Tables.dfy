/**
 The scanners and parsers that read a state machine table out of Go source
 (scripts/generate_state_machine_docs.py): balanced blocks, field values, and the three nested
 loops over transitions, events and states. Each function works on the text still to be read;
 TableScanner holds the loops over positions that compute them.
 */
module Tables {
  import opened Collections
  import opened Text
  import opened Guards

  // ---- balanced blocks ----

  function Brace(depth: int, c: char): int {
    if c == '{' then depth + 1 else if c == '}' then depth - 1 else depth
  }

  /** How far the block reaches in which `depth` braces are open. */
  function BlockEnd(s: string, depth: int): (n: nat)
    ensures n <= |s|
    decreases |s|
  {
    if s == [] then 0
    else if s[0] == '}' && depth == 1 then 1
    else 1 + BlockEnd(s[1..], Brace(depth, s[0]))
  }

  /** extract_block: from an opening brace to its partner, or to the end if there is none. */
  function Block(s: string): (b: string)
    requires s != [] && s[0] == '{'
    ensures 1 <= |b| <= |s| && b == s[..|b|]
  {
    s[..BlockEnd(s, 0)]
  }

  /** Braces that close what they open, starting inside `depth` of them. */
  predicate Balanced(s: string, depth: nat)
    decreases |s|
  {
    if s == [] then depth == 0 else Brace(depth, s[0]) >= 0 && Balanced(s[1..], Brace(depth, s[0]))
  }

  lemma {:induction false} BalancedAppend(a: string, b: string, depth: nat)
    requires Balanced(a, depth) && Balanced(b, 0)
    ensures Balanced(a + b, depth)
    decreases |a|
  {
    if a == [] {
      assert a + b == b;
    } else {
      assert (a + b)[1..] == a[1..] + b;
      BalancedAppend(a[1..], b, Brace(depth, a[0]));
    }
  }

  lemma {:induction false} BalancedPlain(s: string)
    requires '{' !in s && '}' !in s
    ensures Balanced(s, 0)
    decreases |s|
  {
    if s != [] {
      assert s[0] in s && forall c <- s[1..] :: c in s;
      BalancedPlain(s[1..]);
    }
  }

  lemma {:induction false} BalancedClose(s: string, depth: nat)
    requires Balanced(s, depth)
    ensures Balanced(s + "}", depth + 1)
    decreases |s|
  {
    if s == [] {
      assert s + "}" == "}" && "}"[1..] == "";
    } else {
      assert (s + "}")[1..] == s[1..] + "}";
      BalancedClose(s[1..], Brace(depth, s[0]));
    }
  }

  function Braced(s: string): string { "{" + s + "}" }

  lemma BalancedBraced(s: string)
    requires Balanced(s, 0)
    ensures Balanced(Braced(s), 0)
  {
    assert Braced(s)[1..] == s + "}";
    BalancedClose(s, 0);
  }

  lemma {:induction false} BlockEndOver(s: string, rest: string, depth: nat)
    requires Balanced(s, depth)
    ensures BlockEnd(s + "}" + rest, depth + 1) == |s| + 1
    decreases |s|
  {
    var t := s + "}" + rest;
    if s == [] {
      assert t[0] == '}';
    } else {
      assert t[1..] == s[1..] + "}" + rest;
      BlockEndOver(s[1..], rest, Brace(depth, s[0]));
    }
  }

  /** A block with balanced contents is found whole, whatever follows it. */
  lemma BlockOfBraced(s: string, rest: string)
    requires Balanced(s, 0)
    ensures Block(Braced(s) + rest) == Braced(s) && (Braced(s) + rest)[|Braced(s)|..] == rest
  {
    var t := Braced(s) + rest;
    assert t[1..] == s + "}" + rest;
    BlockEndOver(s, rest, 0);
    assert t[..|s| + 2] == Braced(s);
  }

  // ---- keys and fields ----

  datatype Key = Key(name: string, length: nat)

  /** `(PREFIX\w+)\s*:` at the start of the text. */
  function MatchKey(s: string, prefix: string): (k: Option<Key>)
    ensures k.Some? ==> 0 < k.value.length <= |s|
  {
    var w := LeadingWord(s);
    if !StartsWith(w, prefix) || |w| == |prefix| then None
    else
      var r := LStrip(s[|w|..]);
      if r == [] || r[0] != ':' then None else Some(Key(w, |s| - |r| + 1))
  }

  const COMMON := "common."

  /** `(?:common\.)?(Event_\w+)\s*:` */
  function MatchEventKey(s: string): (k: Option<Key>)
    ensures k.Some? ==> 0 < k.value.length <= |s|
  {
    if StartsWith(s, COMMON) then
      match MatchKey(s[|COMMON|..], "Event_")
      case None => None
      case Some(k) => Some(Key(k.name, k.length + |COMMON|))
    else MatchKey(s, "Event_")
  }

  predicate FieldAt(s: string, i: nat, field: string)
    requires i <= |s|
  {
    StartsWith(s[i..], field + ":") && (i == 0 || !IsWord(s[i - 1]))
  }

  /** The first position, from `i` on, of `\bFIELD:`. */
  function FindField(s: string, field: string, i: nat): (p: Option<nat>)
    requires i <= |s|
    ensures p.Some? ==> i <= p.value && p.value + |field| + 1 <= |s|
    decreases |s| - i
  {
    if FieldAt(s, i, field) then Some(i) else if i == |s| then None else FindField(s, field, i + 1)
  }

  /** The opening (`[]Transition{` and the like) the text starts with. */
  function Opening1(s: string, openers: seq<string>): (o: Option<string>)
    ensures o.Some? ==> o.value in openers && StartsWith(s, o.value)
  {
    if openers == [] then None
    else if StartsWith(s, openers[0]) then Some(openers[0])
    else Opening1(s, openers[1..])
  }

  /** The position of the brace of the first `\bFIELD:\s*OPENER`, from `i` on. */
  function FindOpener(s: string, field: string, openers: seq<string>, i: nat): (p: Option<nat>)
    requires i <= |s| && forall o <- openers :: o != [] && o[|o| - 1] == '{'
    ensures p.Some? ==> p.value < |s| && s[p.value] == '{'
    decreases |s| - i
  {
    var at := FieldAt(s, i, field);
    var t := if at then LStrip(s[i + |field| + 1..]) else [];
    var o := if at then Opening1(t, openers) else None;
    if at && o.Some? then
      LStripSuffix(s[i + |field| + 1..]);
      assert t[..|o.value|] == o.value && s[|s| - |t|..] == t;
      assert s[|s| - |t| + |o.value| - 1] == t[|o.value| - 1] == o.value[|o.value| - 1];
      Some(|s| - |t| + |o.value| - 1)
    else if i == |s| then None
    else FindOpener(s, field, openers, i + 1)
  }

  lemma {:induction false} LStripSuffix(s: string)
    ensures LStrip(s) == s[|s| - |LStrip(s)|..]
    decreases |s|
  {
    if s != [] && IsSpace(s[0]) { LStripSuffix(s[1..]); }
  }

  /** How far a field value reaches: to a comma, line break or brace outside parentheses. */
  function ValueEnd(s: string, depth: int): (n: nat)
    ensures n <= |s|
    decreases |s|
  {
    if s == [] then 0
    else if s[0] != '(' && s[0] != ')' && depth == 0 && (s[0] == ',' || s[0] == '\n' || s[0] == '}') then 0
    else 1 + ValueEnd(s[1..], Deeper(depth, s[0]))
  }

  /** extract_field_value */
  function FieldValue(block: string, field: string): (v: Option<string>) {
    match FindField(block, field, 0)
    case None => None
    case Some(i) =>
      var rest := LStrip(block[i + |field| + 1..]);
      Some(Strip(rest[..ValueEnd(rest, 0)]))
  }

  // ---- the parsers ----

  datatype Transition = Transition(from: string, event: string, to: string, guard: Option<string>)

  /** `State_\w+` at the start. */
  predicate IsStateName(s: string) { StartsWith(s, "State_") && |s| > 6 && IsWord(s[6]) }

  function TransitionOf(block: string, from: string, event: string): (t: seq<Transition>) {
    var to := FieldValue(block, "To");
    var cond := FieldValue(block, "If");
    if to.Some? && IsStateName(to.value) then
      [Transition(from, event, Strip(to.value),
                  if cond.Some? && cond.value != "" then Some(Simplify(cond.value)) else None)]
    else []
  }

  /** parse_transition_structs, on what follows the opening brace. */
  function ParseStructs(s: string, from: string, event: string): (ts: seq<Transition>)
    decreases |s|
  {
    var r := LStrip(s);
    if r == [] || r[0] == '}' then []
    else if r[0] == '{' then TransitionOf(Block(r), from, event) + ParseStructs(r[|Block(r)|..], from, event)
    else ParseStructs(r[1..], from, event)
  }

  const TRANSITION_OPENERS := ["[]Transition{"]
  const EVENT_OPENERS := ["map[EventType]EventHandlers{", "map[EventType]EventHandler{"]

  /** The transitions of one event: those of the first Transitions list in its block. */
  function EventTransitions(block: string, from: string, event: string): (ts: seq<Transition>) {
    match FindOpener(block, "Transitions", TRANSITION_OPENERS, 0)
    case None => []
    case Some(p) => ParseStructs(Block(block[p..])[1..], from, event)
  }

  /** parse_event_handlers, on what follows the opening brace. */
  function ParseEvents(s: string, from: string): (ts: seq<Transition>)
    decreases |s|
  {
    var r := LStrip(s);
    if r == [] || r[0] == '}' then []
    else
      match MatchEventKey(r)
      case None => ParseEvents(r[1..], from)
      case Some(k) =>
        var t := LStrip(r[k.length..]);
        if t != [] && t[0] == '{' then
          EventTransitions(Block(t), from, k.name) + ParseEvents(t[|Block(t)|..], from)
        else ParseEvents(t, from)
  }

  function StateTransitions(block: string, state: string): (ts: seq<Transition>) {
    match FindOpener(block, "Events", EVENT_OPENERS, 0)
    case None => []
    case Some(p) => ParseEvents(Block(block[p..])[1..], state)
  }

  /** The loop of parse_state_machine, on what follows the opening brace. */
  function ParseStates(s: string): (ts: seq<Transition>)
    decreases |s|
  {
    var r := LStrip(s);
    if r == [] || r[0] == '}' then []
    else
      match MatchKey(r, "State_")
      case None => ParseStates(r[1..])
      case Some(k) =>
        var t := LStrip(r[k.length..]);
        if t != [] && t[0] == '{' then StateTransitions(Block(t), k.name) + ParseStates(t[|Block(t)|..])
        else ParseStates(t)
  }

  const MARKER := "var stateDefinitionsMap = StateDefinitions{"

  /** str.find */
  function Find(s: string, p: string, i: nat): (r: Option<nat>)
    requires i <= |s|
    ensures r.Some? ==> i <= r.value && r.value + |p| <= |s| && StartsWith(s[r.value..], p)
    ensures r.Some? ==> forall j :: i <= j < r.value ==> !StartsWith(s[j..], p)
    ensures r.None? ==> forall j :: i <= j <= |s| ==> !StartsWith(s[j..], p)
    decreases |s| - i
  {
    if StartsWith(s[i..], p) then Some(i) else if i == |s| then None else Find(s, p, i + 1)
  }

  function ParseMachine(content: string): (ts: seq<Transition>) {
    match Find(content, MARKER, 0)
    case None => []
    case Some(p) =>
      assert content[p..][..|MARKER|] == MARKER;
      assert content[p + |MARKER| - 1] == content[p..][|MARKER| - 1] == '{';
      ParseStates(Block(content[p + |MARKER| - 1..])[1..])
  }
}
