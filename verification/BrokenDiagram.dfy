/**
 A guard that is written over several lines breaks the detailed diagram: from the Go source, through
 the parsers and the guard rewriting, to a diagram text that is not made of the diagram's lines. The
 coordinator's table has such guards (core/go/internal/sequencer/coordinator/state_machine.go).
 */
module BrokenDiagram {
  import opened Collections
  import opened Text
  import opened Guards
  import opened Tables
  import opened TableText
  import opened TableRoundTrip
  import opened TableLoss
  import Diagrams

  /** A guard call over several lines, without braces. */
  predicate MultiLine(text: string, open: string, inner: string) {
    && open in {HELPER_NOT, NOT, PACKAGE + NOT, AND, PACKAGE + AND, OR, PACKAGE + OR}
    && '\n' in inner && text == open + inner + ")" && Value(text) && NoBrace(text)
  }

  function Guarded(to: string, text: string): Target {
    Target("", "", " ", to, Some(Cond(" ", text)), false, Some(text), false, ", ", "")
  }

  function GuardedEvent(event: string, to: string, text: string): EventEntry {
    Inline("", true, event, " ", "", [Handler("", "", Some(Listing(" ", [Guarded(to, text)], "", "")))], "")
  }

  lemma GuardedOk(to: string, text: string)
    requires Word(to) && Value(text) && NoBrace(text)
    ensures TargetOk(Guarded(to, text))
  {
    hide Word, Silent, AllSpace, Searchable, Value, Balanced;
    FieldNames();
    Empties("To");
    Empties("If");
    SilentWithout(", ", "If");
    GuardedPlain(to, text);
    PlainBalanced(TargetBody(Guarded(to, text)));
  }

  lemma GuardedPlain(to: string, text: string)
    requires Word(to) && NoBrace(text)
    ensures NoBrace(TargetBody(Guarded(to, text)))
  {
    hide NoBrace, Word;
    var t := Guarded(to, text);
    Bits();
    WordPlain(to);
    NoBraceJoin("State_", to);
    NoBraceJoin(" ", "State_" + to);
    NoBraceJoin("To:", " " + ("State_" + to));
    NoBraceJoin(" ", text);
    NoBraceJoin("If:", " " + text);
    CommaPlain();
    NoBraceJoin(IfField(t.cond.value), "");
    NoBraceJoin(", ", IfField(t.cond.value) + "");
    NoBraceJoin(ToField(t), ", " + (IfField(t.cond.value) + ""));
    NoBraceJoin("", ToField(t) + (", " + (IfField(t.cond.value) + "")));
  }

  lemma CommaPlain()
    ensures NoBrace(", ") && NoBrace("")
  {
  }

  lemma GuardedTableOk(state: string, event: string, to: string, text: string)
    requires Word(state) && Word(event) && Word(to) && Value(text) && NoBrace(text)
    ensures TableOk(OneEventTable(state, GuardedEvent(event, to, text)))
  {
    hide Word, Noise, Balanced, EventSeparator, StateSeparator, AllSpace, TargetOk, TableOk, Value;
    Empties("Transitions");
    GuardedOk(to, text);
    OneEventOk(state, GuardedEvent(event, to, text));
  }

  lemma GuardedMeans(state: string, event: string, to: string, text: string)
    ensures StatesMean(OneEventTable(state, GuardedEvent(event, to, text)).states, false)
         == [Transition("State_" + state, "Event_" + event, "State_" + to, Some(Simplify(text)))]
  {
    hide Simplify;
    var e := GuardedEvent(event, to, text);
    OneEventMeans(state, e, false);
    var ts := e.handlers[0].listing.value.targets;
    assert TargetsSeen(ts[1..], "State_" + state, "Event_" + event) == [];
  }

  lemma Words(prefix: string, name: string)
    requires AllWord(prefix) && Word(name)
    ensures AllWord(prefix + name) && StartsWith(prefix + name, prefix)
  {
    StartsWithSelf(prefix, name);
  }

  /**
   In any file, a table with a guard over several lines gives a detailed diagram whose text does not
   have the lines of the diagram, whatever states are drawn beside it.
   */
  lemma MultiLineGuardBreaksDiagram(pre: string, post: string, state: string, event: string, to: string,
                                    text: string, open: string, inner: string, states: seq<string>)
    requires Unmarked(pre) && Word(state) && Word(event) && Word(to) && MultiLine(text, open, inner)
    requires forall s <- states :: AllWord(s)
    ensures var t := OneEventTable(state, GuardedEvent(event, to, text));
      var read := ParseMachine(pre + (DECLARATION + (Braced(TableBody(t)) + post)));
      var lines := Diagrams.DetailedDiagram(Diagrams.Machine(states, read));
      Diagrams.Lines(Join(lines, "\n")) != lines
  {
    hide ParseMachine, TableBody, TableOk, Unmarked, Word, Simplify, Diagrams.DetailedDiagram, Diagrams.Lines, Value;
    var t := OneEventTable(state, GuardedEvent(event, to, text));
    var read := ParseMachine(pre + (DECLARATION + (Braced(TableBody(t)) + post)));
    GuardedTableOk(state, event, to, text);
    TableReadsBack(pre, t, post);
    GuardedMeans(state, event, to, text);
    MultiLineIsLeftAlone(open, inner);
    EventPrefix();
    Words("State_", state);
    Words("State_", to);
    Words("Event_", event);
    var m := Diagrams.Machine(states, read);
    Diagrams.LinesExactly(m);
    Broken(open, inner);
    assert read[0] in m.transitions && read[0].guard == Some(text);
  }

  lemma Broken(open: string, inner: string)
    requires '\n' in inner
    ensures '\n' in open + inner + ")"
  {
  }

  lemma {:induction false} ScannedInside(inner: string)
    requires '(' !in inner && ')' !in inner
    ensures Scanned(inner + ")", 1)
    decreases |inner|
  {
    if inner == "" {
      assert inner + ")" == ")" && ")"[1..] == "";
    } else {
      assert inner[0] in inner && forall c <- inner[1..] :: c in inner;
      assert (inner + ")")[1..] == inner[1..] + ")";
      ScannedInside(inner[1..]);
    }
  }

  lemma {:induction false} ScannedCall(w: string, rest: string)
    requires AllWord(w) && Scanned(rest, 1)
    ensures Scanned(w + "(" + rest, 0)
    decreases |w|
  {
    var s := w + "(" + rest;
    if w == "" {
      assert s[1..] == rest;
    } else {
      assert w[0] in w && forall c <- w[1..] :: c in w;
      assert s[1..] == w[1..] + "(" + rest;
      ScannedCall(w[1..], rest);
    }
  }

  /** Such guards exist: two conditions on lines of their own. */
  lemma MultiLineExists(a: string, b: string)
    requires Word(a) && Word(b)
    ensures var inner := "\n" + a + ",\n" + b + ",\n"; MultiLine(AND + inner + ")", AND, inner)
  {
    hide Scanned;
    var inner := "\n" + a + ",\n" + b + ",\n";
    var text := AND + inner + ")";
    assert inner[0] == '\n' && inner[0] in inner;
    ScannedInside(inner);
    assert AllWord("GuardAnd");
    ScannedCall("GuardAnd", inner + ")");
    assert AND == "GuardAnd" + "(";
    assert text == "GuardAnd" + "(" + (inner + ")");
    assert text[0] == 'G' && text[|text| - 1] == ')';
  }
}
