/**
 The two Mermaid diagrams drawn from one list of transitions
 (scripts/generate_state_machine_docs.py): the detailed one, with an arrow per transition labelled
 by event and guard, and the simple one, with one arrow per pair of states. Both start with the same
 header, state labels and initial arrow, and end with the same arrows of terminal states.
 */
module Diagrams {
  import opened Collections
  import opened Text
  import opened Tables

  // ---- the lines ----

  /** str.removeprefix */
  function Without(s: string, prefix: string): (r: string) {
    if StartsWith(s, prefix) then s[|prefix|..] else s
  }

  function Arrow(t: Transition): (line: string) {
    "    " + (Without(t.from, "State_") + (" --> " + Without(t.to, "State_")))
  }

  function LabelOf(t: Transition): (l: string) {
    var event := Without(t.event, "Event_");
    if t.guard.Some? && t.guard.value != "" then event + " [" + t.guard.value + "]" else event
  }

  function LabelledArrow(t: Transition): (line: string) { Arrow(t) + (" : " + LabelOf(t)) }

  function Arrows(ts: seq<Transition>): (lines: seq<string>)
    ensures |lines| == |ts| && forall i :: 0 <= i < |ts| ==> lines[i] == Arrow(ts[i])
  {
    if ts == [] then [] else [Arrow(ts[0])] + Arrows(ts[1..])
  }

  function LabelledArrows(ts: seq<Transition>): (lines: seq<string>)
    ensures |lines| == |ts| && forall i :: 0 <= i < |ts| ==> lines[i] == LabelledArrow(ts[i])
  {
    if ts == [] then [] else [LabelledArrow(ts[0])] + LabelledArrows(ts[1..])
  }

  /** The transitions whose states are written as the parsers require them. */
  predicate Named(t: Transition) {
    && StartsWith(t.from, "State_") && AllWord(t.from)
    && StartsWith(t.to, "State_") && AllWord(t.to)
  }

  /** A line up to its label. */
  function Unlabelled(line: string): (r: string) {
    var p := Find(line, " : ", 0);
    if p.Some? then line[..p.value] else line
  }

  function UnlabelledAll(lines: seq<string>): (r: seq<string>)
    ensures |r| == |lines| && forall i :: 0 <= i < |r| ==> r[i] == Unlabelled(lines[i])
  {
    if lines == [] then [] else [Unlabelled(lines[0])] + UnlabelledAll(lines[1..])
  }

  /** The list with every repetition left out. */
  function WithoutRepeats(s: seq<string>): (r: seq<string>) {
    if s == [] then []
    else
      var r := WithoutRepeats(s[..|s| - 1]);
      var x := s[|s| - 1];
      if x in s[..|s| - 1] then r else r + [x]
  }

  /** It keeps the elements, each once, in the order of their first occurrence. */
  lemma {:induction false} WithoutRepeatsFacts(s: seq<string>)
    ensures forall x :: x in WithoutRepeats(s) <==> x in s
    ensures forall i, j :: 0 <= i < j < |WithoutRepeats(s)| ==> WithoutRepeats(s)[i] != WithoutRepeats(s)[j]
    ensures forall i, j, b :: 0 <= i < j < |WithoutRepeats(s)| && 0 <= b < |s| && s[b] == WithoutRepeats(s)[j] ==>
      WithoutRepeats(s)[i] in s[..b]
  {
    if s != [] {
      var n := |s| - 1;
      var t := s[..n];
      WithoutRepeatsFacts(t);
      assert s == t + [s[n]];
      forall i, j, b | 0 <= i < j < |WithoutRepeats(s)| && 0 <= b < |s| && s[b] == WithoutRepeats(s)[j]
        ensures WithoutRepeats(s)[i] in s[..b]
      {
        if b < n {
          assert t[b] == s[b] && t[..b] == s[..b];
          assert s[b] in t;
          assert j < |WithoutRepeats(t)| && WithoutRepeats(s)[j] == WithoutRepeats(t)[j] &&
              WithoutRepeats(s)[i] == WithoutRepeats(t)[i];
          assert WithoutRepeats(t)[i] in t[..b];
          assert WithoutRepeats(s)[i] in s[..b];
        } else {
          assert WithoutRepeats(s)[i] == WithoutRepeats(t)[i] && WithoutRepeats(t)[i] in WithoutRepeats(t);
          assert WithoutRepeats(t)[i] in t;
          assert b == n && s[..b] == t;
          assert WithoutRepeats(s)[i] in s[..b];
        }
      }
    }
  }

  ghost predicate Drawn(ts: seq<Transition>, from: string, to: string) {
    exists t <- ts :: t.from == from && t.to == to
  }

  /** The transitions whose pair of states did not occur before. */
  ghost function Firsts(ts: seq<Transition>): (r: seq<Transition>) {
    if ts == [] then []
    else
      var n := |ts| - 1;
      Firsts(ts[..n]) + if Drawn(ts[..n], ts[n].from, ts[n].to) then [] else [ts[n]]
  }

  /** The loop of generate_mermaid_simple over the transitions, with its set of seen pairs. */
  method SimpleArrows(ts: seq<Transition>) returns (lines: seq<string>)
    ensures lines == Arrows(Firsts(ts))
  {
    hide Arrow, Arrows, Drawn;
    lines := [];
    var seen: set<(string, string)> := {};
    NothingDrawn();
    assert ts[..0] == [];
    for i := 0 to |ts|
      invariant lines == Arrows(Firsts(ts[..i]))
      invariant forall from, to :: (from, to) in seen <==> Drawn(ts[..i], from, to)
    {
      var pair := (ts[i].from, ts[i].to);
      DrawnGrows(ts, i);
      if pair !in seen {
        seen := seen + {pair};
        lines := lines + [Arrow(ts[i])];
      }
    }
    assert ts[..|ts|] == ts;
  }

  lemma NothingDrawn()
    ensures Arrows([]) == [] && forall from, to :: !Drawn([], from, to)
  {
  }

  lemma DrawnGrows(ts: seq<Transition>, i: nat)
    requires i < |ts|
    ensures forall from, to :: Drawn(ts[..i + 1], from, to) <==>
      Drawn(ts[..i], from, to) || (from, to) == (ts[i].from, ts[i].to)
    ensures Arrows(Firsts(ts[..i + 1])) ==
        (if Drawn(ts[..i], ts[i].from, ts[i].to) then Arrows(Firsts(ts[..i]))
         else Arrows(Firsts(ts[..i])) + [Arrow(ts[i])])
  {
    hide Arrow;
    assert ts[..i + 1] == ts[..i] + [ts[i]];
    assert ts[..i + 1][..i] == ts[..i];
    ArrowsAppend(Firsts(ts[..i]), ts[i]);
  }

  lemma ArrowsAppend(ts: seq<Transition>, t: Transition)
    ensures Arrows(ts + [t]) == Arrows(ts) + [Arrow(t)]
  {
  }

  /** Leaving out repeated pairs leaves out exactly the repeated lines. */
  lemma {:induction false} RepeatedLines(ts: seq<Transition>)
    requires forall t <- ts :: Named(t)
    ensures Arrows(Firsts(ts)) == WithoutRepeats(Arrows(ts))
  {
    hide Named, Arrow, Drawn, Arrows;
    if ts == [] {
      NothingDrawn();
    } else {
      var n := |ts| - 1;
      RepeatedLines(ts[..n]);
      assert ts == ts[..n] + [ts[n]];
      ArrowsAppend(ts[..n], ts[n]);
      ArrowsAppend(Firsts(ts[..n]), ts[n]);
      assert Arrows(ts)[..n] == Arrows(ts[..n]);
      DrawnIsLine(ts[..n], ts[n]);
      assert Firsts(ts[..n]) + [] == Firsts(ts[..n]);
    }
  }

  lemma DrawnIsLine(ts: seq<Transition>, u: Transition)
    requires Named(u) && forall t <- ts :: Named(t)
    ensures Drawn(ts, u.from, u.to) <==> Arrow(u) in Arrows(ts)
  {
    hide Named, Arrow;
    forall k | 0 <= k < |ts| ensures Arrow(ts[k]) == Arrow(u) <==> ts[k].from == u.from && ts[k].to == u.to {
      ArrowIdentifies(ts[k], u);
    }
  }

  lemma Prefixed(s: string)
    requires StartsWith(s, "State_") && AllWord(s)
    ensures s == "State_" + Without(s, "State_") && AllWord(Without(s, "State_"))
  {
  }

  /** An arrow's text tells its two states. */
  lemma ArrowIdentifies(t: Transition, u: Transition)
    requires Named(t) && Named(u)
    ensures Arrow(t) == Arrow(u) <==> (t.from, t.to) == (u.from, u.to)
  {
    hide Without, AllWord, StartsWith;
    Prefixed(t.from);
    Prefixed(t.to);
    Prefixed(u.from);
    Prefixed(u.to);
    ArrowReads(Without(t.from, "State_"), Without(t.to, "State_"));
    ArrowReads(Without(u.from, "State_"), Without(u.to, "State_"));
  }

  lemma ArrowReads(a: string, b: string)
    requires AllWord(a) && AllWord(b)
    ensures var s := "    " + (a + (" --> " + b)); LeadingWord(s[4..]) == a && s[4 + |a| + 5..] == b
  {
    var s := "    " + (a + (" --> " + b));
    assert s[4..] == a + (" --> " + b);
    LeadingWordOf(a, " --> " + b);
  }

  /** Cutting the label off a detailed line gives the simple line of the transition. */
  lemma LabelCutsOff(t: Transition)
    requires Named(t)
    ensures Unlabelled(LabelledArrow(t)) == Arrow(t)
  {
    hide Without, Find, Named;
    NoColon(t);
    FirstLabel(Arrow(t), LabelOf(t));
    assert LabelledArrow(t)[..|Arrow(t)|] == Arrow(t);
  }

  lemma NoColon(t: Transition)
    requires Named(t)
    ensures ':' !in Arrow(t)
  {
    hide Without;
    Prefixed(t.from);
    Prefixed(t.to);
  }

  lemma FirstLabel(p: string, l: string)
    requires ':' !in p
    ensures Find(p + (" : " + l), " : ", 0) == Some(|p|)
  {
    var s := p + (" : " + l);
    assert s[|p|..] == " : " + l;
    StartsWithSelf(" : ", l);
    forall j | 0 <= j < |p| ensures !StartsWith(s[j..], " : ") {
      assert s[j..][..3][1] == s[j + 1];
      assert j + 1 < |p| ==> s[j + 1] in p;
    }
  }

  // ---- the whole diagrams ----

  /** What the generator knows of a machine: its states in order, of which the first is initial, and its transitions. */
  datatype Machine = Machine(states: seq<string>, transitions: seq<Transition>)

  const THEME := ["%%{init: {'themeVariables': ", "{'background': ", "'transparent'}}}%%"]

  const HEADER := [THEME[0] + THEME[1] + THEME[2], "stateDiagram-v2", "    direction LR"]

  /** str.replace("_", " ") */
  function Spaced(s: string): (r: string)
    ensures |r| == |s| && forall i :: 0 <= i < |s| ==> r[i] == if s[i] == '_' then ' ' else s[i]
  {
    seq(|s|, i requires 0 <= i < |s| => if s[i] == '_' then ' ' else s[i])
  }

  function LabelLine(state: string): (lines: seq<string>) {
    var id := Without(state, "State_");
    if Spaced(id) == id then [] else ["    state \"" + Spaced(id) + "\" as " + id]
  }

  function LabelLines(states: seq<string>): (lines: seq<string>) {
    if states == [] then [] else LabelLines(states[..|states| - 1]) + LabelLine(states[|states| - 1])
  }

  function Top(m: Machine): (lines: seq<string>) {
    HEADER + LabelLines(m.states) + if m.states == [] then [] else ["    [*] --> " + Without(m.states[0], "State_")]
  }

  predicate Terminal(ts: seq<Transition>, state: string) { forall t <- ts :: t.from != state }

  function TerminalLine(s: string): (line: string) { "    " + Without(s, "State_") + " --> [*]" }

  function TerminalLines(states: seq<string>, ts: seq<Transition>): (lines: seq<string>) {
    if states == [] then []
    else
      var s := states[|states| - 1];
      TerminalLines(states[..|states| - 1], ts) + if Terminal(ts, s) then [TerminalLine(s)] else []
  }

  /** The lines both generators start with. */
  method StartLines(m: Machine) returns (lines: seq<string>)
    ensures lines == Top(m)
  {
    hide LabelLine, HEADER;
    lines := HEADER;
    for i := 0 to |m.states|
      invariant lines == HEADER + LabelLines(m.states[..i])
    {
      assert m.states[..i + 1][..i] == m.states[..i];
      lines := lines + LabelLine(m.states[i]);
    }
    assert m.states[..|m.states|] == m.states;
    if m.states != [] {
      lines := lines + ["    [*] --> " + Without(m.states[0], "State_")];
    }
  }

  /** _mermaid_terminal_states and the loop over them. */
  method EndLines(m: Machine) returns (lines: seq<string>)
    ensures lines == TerminalLines(m.states, m.transitions)
  {
    var sources := set t <- m.transitions :: t.from;
    lines := [];
    for i := 0 to |m.states|
      invariant lines == TerminalLines(m.states[..i], m.transitions)
    {
      assert m.states[..i + 1][..i] == m.states[..i];
      if m.states[i] !in sources {
        lines := lines + [TerminalLine(m.states[i])];
      }
    }
    assert m.states[..|m.states|] == m.states;
  }

  ghost function SimpleDiagram(m: Machine): (lines: seq<string>) {
    Top(m) + Arrows(Firsts(m.transitions)) + TerminalLines(m.states, m.transitions)
  }

  function DetailedDiagram(m: Machine): (lines: seq<string>) {
    Top(m) + LabelledArrows(m.transitions) + TerminalLines(m.states, m.transitions)
  }

  /** generate_mermaid_simple */
  method GenerateSimple(m: Machine) returns (lines: seq<string>)
    ensures lines == SimpleDiagram(m)
  {
    var top := StartLines(m);
    var arrows := SimpleArrows(m.transitions);
    var end := EndLines(m);
    lines := top + arrows + end;
  }

  /** generate_mermaid */
  method GenerateDetailed(m: Machine) returns (lines: seq<string>)
    ensures lines == DetailedDiagram(m)
  {
    hide Top, TerminalLines, LabelledArrow;
    lines := StartLines(m);
    for i := 0 to |m.transitions|
      invariant lines == Top(m) + LabelledArrows(m.transitions)[..i]
    {
      lines := lines + [LabelledArrow(m.transitions[i])];
    }
    var end := EndLines(m);
    lines := lines + end;
  }

  /**
   The simple diagram is the detailed one with, between the common first and last lines, the labels
   cut off and repeated lines left out: no arrow is lost, none is added, and they come in the order
   of first occurrence.
   */
  lemma OneRelationTwoDiagrams(m: Machine)
    requires forall t <- m.transitions :: Named(t)
    ensures var top, end, detailed := |Top(m)|, |TerminalLines(m.states, m.transitions)|, DetailedDiagram(m);
      top + end <= |detailed| &&
      var middle := detailed[top..|detailed| - end];
      SimpleDiagram(m) == detailed[..top] + WithoutRepeats(UnlabelledAll(middle)) + detailed[|detailed| - end..]
  {
    hide Named, Unlabelled, Arrow, LabelledArrow, Firsts, WithoutRepeats, Top, TerminalLines;
    var ts := m.transitions;
    RepeatedLines(ts);
    forall i | 0 <= i < |ts| ensures UnlabelledAll(LabelledArrows(ts))[i] == Arrow(ts[i]) {
      LabelCutsOff(ts[i]);
    }
    assert UnlabelledAll(LabelledArrows(ts)) == Arrows(ts);
    var top, end, d := Top(m), TerminalLines(m.states, ts), DetailedDiagram(m);
    assert d[..|top|] == top && d[|d| - |end|..] == end && d[|top|..|d| - |end|] == LabelledArrows(ts);
  }

  /** A state has exactly one arrow to the end if no transition leaves it, and otherwise none. */
  lemma {:induction false} TerminalExactly(states: seq<string>, ts: seq<Transition>, s: string)
    requires Distinct(states) && s in states && forall x <- states :: StartsWith(x, "State_")
    ensures multiset(TerminalLines(states, ts))[TerminalLine(s)] == if Terminal(ts, s) then 1 else 0
    decreases |states|
  {
    hide StartsWith, Without;
    var n := |states| - 1;
    assert states == states[..n] + [states[n]];
    if s == states[n] {
      assert s !in states[..n];
      NoTerminalLine(states[..n], ts, s);
    } else {
      assert s in states[..n];
      TerminalExactly(states[..n], ts, s);
      TerminalText(s, states[n]);
    }
  }

  lemma TerminalText(a: string, b: string)
    requires StartsWith(a, "State_") && StartsWith(b, "State_") && a != b
    ensures TerminalLine(a) != TerminalLine(b)
  {
    var x, y := Without(a, "State_"), Without(b, "State_");
    assert a == "State_" + x && b == "State_" + y;
    var s, t := "    " + x + " --> [*]", "    " + y + " --> [*]";
    assert |s| == |x| + 12 && |t| == |y| + 12;
    assert s[4..4 + |x|] == x && t[4..4 + |y|] == y;
  }

  lemma {:induction false} NoTerminalLine(states: seq<string>, ts: seq<Transition>, s: string)
    requires s !in states && StartsWith(s, "State_") && forall x <- states :: StartsWith(x, "State_")
    ensures TerminalLine(s) !in TerminalLines(states, ts)
    decreases |states|
  {
    if states != [] {
      var n := |states| - 1;
      assert forall x <- states[..n] :: x in states;
      assert states[n] in states;
      NoTerminalLine(states[..n], ts, s);
      TerminalText(s, states[n]);
    }
  }

  // ---- the text of a diagram ----

  /** The lines of a text. */
  function Lines(s: string): (lines: seq<string>)
    ensures lines != [] && forall l <- lines :: '\n' !in l
  {
    if s == "" then [""]
    else
      var rest := Lines(s[1..]);
      if s[0] == '\n' then [""] + rest else [[s[0]] + rest[0]] + rest[1..]
  }

  lemma {:induction false} LinesOfOne(l: string, rest: string)
    requires '\n' !in l
    ensures Lines(l) == [l] && Lines(l + "\n" + rest) == [l] + Lines(rest)
    decreases |l|
  {
    var t := l + "\n" + rest;
    if l == "" {
      assert t[0] == '\n' && t[1..] == rest;
    } else {
      assert l[0] in l && forall c <- l[1..] :: c in l;
      assert t[1..] == l[1..] + "\n" + rest;
      LinesOfOne(l[1..], rest);
      assert [l[0]] + l[1..] == l;
    }
  }

  /** Splitting undoes joining exactly when no line contains a line break. */
  lemma LinesOf(lines: seq<string>)
    requires lines != []
    ensures Lines(Join(lines, "\n")) == lines <==> forall l <- lines :: '\n' !in l
  {
    if forall l <- lines :: '\n' !in l { LinesJoined(lines); }
  }

  lemma {:induction false} LinesJoined(lines: seq<string>)
    requires lines != [] && forall l <- lines :: '\n' !in l
    ensures Lines(Join(lines, "\n")) == lines
    decreases |lines|
  {
    assert lines[0] in lines && forall l <- lines[1..] :: l in lines;
    if |lines| == 1 {
      LinesOfOne(lines[0], "");
    } else {
      LinesJoined(lines[1..]);
      LinesOfOne(lines[0], Join(lines[1..], "\n"));
      assert [lines[0]] + lines[1..] == lines;
    }
  }

  /** States and events are words, as the parsers and Go require. */
  predicate Worded(m: Machine) {
    (forall s <- m.states :: AllWord(s)) && forall t <- m.transitions :: Named(t) && AllWord(t.event)
  }

  lemma WordsUnbroken(s: string, prefix: string)
    requires AllWord(s)
    ensures '\n' !in Without(s, prefix) && '\n' !in Spaced(Without(s, prefix))
  {
    var w := Without(s, prefix);
    assert forall c <- w :: c in s && IsWord(c);
    assert forall i :: 0 <= i < |w| ==> w[i] in w;
  }

  lemma {:induction false} LabelsUnbroken(states: seq<string>)
    requires forall s <- states :: AllWord(s)
    ensures forall l <- LabelLines(states) :: '\n' !in l
  {
    if states != [] {
      var n := |states| - 1;
      assert states[n] in states && forall s <- states[..n] :: s in states;
      LabelsUnbroken(states[..n]);
      WordsUnbroken(states[n], "State_");
    }
  }

  lemma {:induction false} EndsUnbroken(states: seq<string>, ts: seq<Transition>)
    requires forall s <- states :: AllWord(s)
    ensures forall l <- TerminalLines(states, ts) :: '\n' !in l
  {
    if states != [] {
      var n := |states| - 1;
      assert states[n] in states && forall s <- states[..n] :: s in states;
      EndsUnbroken(states[..n], ts);
      WordsUnbroken(states[n], "State_");
    }
  }

  lemma TopUnbroken(m: Machine)
    requires Worded(m)
    ensures forall l <- Top(m) :: '\n' !in l
  {
    hide AllWord, Named;
    LabelsUnbroken(m.states);
    HeaderUnbroken();
    if m.states != [] {
      assert m.states[0] in m.states;
      WordsUnbroken(m.states[0], "State_");
    }
  }

  lemma ThemeUnbroken()
    ensures '\n' !in HEADER[0]
  {
    assert '\n' !in THEME[0];
    assert '\n' !in THEME[1];
    assert '\n' !in THEME[2];
  }

  lemma HeaderUnbroken()
    ensures forall l <- HEADER :: '\n' !in l
  {
    ThemeUnbroken();
    assert '\n' !in HEADER[1];
    assert '\n' !in HEADER[2];
    forall l | l in HEADER ensures '\n' !in l {
      var i :| 0 <= i < 3 && HEADER[i] == l;
    }
  }

  /** A labelled arrow is one line exactly when its guard is. */
  lemma ArrowUnbroken(t: Transition)
    requires Named(t) && AllWord(t.event)
    ensures '\n' !in LabelledArrow(t) <==> t.guard.Some? ==> '\n' !in t.guard.value
  {
    hide AllWord;
    WordsUnbroken(t.from, "State_");
    WordsUnbroken(t.to, "State_");
    WordsUnbroken(t.event, "Event_");
    assert '\n' !in Arrow(t);
    var g := if t.guard.Some? then t.guard.value else "";
    assert '\n' in LabelOf(t) <==> '\n' in g;
    assert '\n' !in " : " && LabelledArrow(t) == Arrow(t) + " : " + LabelOf(t);
  }

  /**
   The text of the detailed diagram has one line per transition, and the other lines it was made of,
   exactly when no guard contains a line break.
   */
  lemma LinesExactly(m: Machine)
    requires Worded(m)
    ensures Lines(Join(DetailedDiagram(m), "\n")) == DetailedDiagram(m)
       <==> forall t <- m.transitions :: t.guard.Some? ==> '\n' !in t.guard.value
  {
    hide Lines, Top, TerminalLines, LabelledArrow, Named, AllWord;
    var ts, arrows := m.transitions, LabelledArrows(m.transitions);
    TopUnbroken(m);
    TopNotEmpty(m);
    EndsUnbroken(m.states, ts);
    forall i | 0 <= i < |ts|
      ensures '\n' !in arrows[i] <==> ts[i].guard.Some? ==> '\n' !in ts[i].guard.value
    {
      assert ts[i] in ts;
      ArrowUnbroken(ts[i]);
    }
    LinesOf(DetailedDiagram(m));
    assert forall l <- DetailedDiagram(m) :: l in Top(m) || l in arrows || l in TerminalLines(m.states, ts);
    assert forall l <- arrows :: l in DetailedDiagram(m);
    assert forall i :: 0 <= i < |ts| ==> arrows[i] in arrows && ts[i] in ts;
  }

  lemma TopNotEmpty(m: Machine)
    ensures Top(m) != []
  {
  }
}
