/**
 How the parsers' searches behave on text that is known piece by piece: text without the field
 searched for, fields and openings at a known place, keys, and separators that are skipped.
 */
module TableText {
  import opened Collections
  import opened Text
  import opened Guards
  import opened Tables

  predicate Word(s: string) { s != "" && AllWord(s) }

  predicate AllSpace(s: string) { forall c <- s :: IsSpace(c) }

  predicate NoBrace(s: string) { '{' !in s && '}' !in s }

  lemma {:induction false} LStripSpaces(gap: string, v: string)
    requires AllSpace(gap) && v != [] && !IsSpace(v[0])
    ensures LStrip(gap + v) == v
    decreases |gap|
  {
    if gap == [] {
      assert gap + v == v;
    } else {
      assert gap[0] in gap && (gap + v)[1..] == gap[1..] + v;
      LStripSpaces(gap[1..], v);
    }
  }

  // ---- text without the field that is searched for ----

  /** No character of FIELD: or of a key, so no match can run over it. */
  predicate Breaks(c: char) { IsSpace(c) || c == '{' || c == '}' || c == ',' }

  /** Text without a match of `\bFIELD:`. */
  predicate Silent(s: string, field: string) {
    && (s != "" ==> Breaks(s[|s| - 1]))
    && forall i :: 0 <= i < |s| ==> !FieldAt(s, i, field)
  }

  predicate Searchable(field: string) { field != "" && AllWord(field) }

  lemma StartsAt(t: string, p: string, k: nat)
    requires k < |p|
    ensures StartsWith(t, p) ==> k < |t| && t[k] == p[k]
  {
    assert StartsWith(t, p) ==> t[..|p|][k] == p[k];
  }

  /** An occurrence of FIELD: does not cross a breaking character. */
  lemma NoCrossing(t: string, field: string, k: nat)
    requires Searchable(field) && k < |t| && k <= |field| && Breaks(t[k])
    ensures !StartsWith(t, field + ":")
  {
    var f := field + ":";
    StartsAt(t, f, k);
    assert k < |field| ==> f[k] == field[k] && field[k] in field;
    assert f[|field|] == ':';
  }

  lemma SilentBefore(s: string, tail: string, field: string, i: nat)
    requires Silent(s, field) && Searchable(field) && i < |s|
    ensures !FieldAt(s + tail, i, field)
  {
    var f := field + ":";
    var t := (s + tail)[i..];
    if i + |f| <= |s| {
      assert t[..|f|] == s[i..][..|f|];
      assert !FieldAt(s, i, field);
    } else {
      assert t[|s| - 1 - i] == s[|s| - 1];
      NoCrossing(t, field, |s| - 1 - i);
    }
  }

  lemma SilentAppend(a: string, b: string, field: string)
    requires Silent(a, field) && Silent(b, field) && Searchable(field)
    ensures Silent(a + b, field)
  {
    forall i | 0 <= i < |a + b| ensures !FieldAt(a + b, i, field) {
      if i < |a| {
        SilentBefore(a, b, field, i);
      } else {
        assert (a + b)[i..] == b[i - |a|..];
        assert !FieldAt(b, i - |a|, field);
        assert i > |a| ==> (a + b)[i - 1] == b[i - |a| - 1];
      }
    }
    assert b == "" ==> a + b == a;
  }

  lemma SilentTail(s: string, field: string)
    requires Silent(s, field) && s != "" && Breaks(s[0])
    ensures Silent(s[1..], field)
  {
    forall i | 0 <= i < |s[1..]| ensures !FieldAt(s[1..], i, field) {
      assert s[1..][i..] == s[i + 1..];
      assert !FieldAt(s, i + 1, field);
    }
  }

  /** Text without the field's first letter, or without a colon, is silent. */
  lemma SilentWithout(s: string, field: string)
    requires Searchable(field) && (s != "" ==> Breaks(s[|s| - 1])) && (field[0] !in s || ':' !in s)
    ensures Silent(s, field)
  {
    var f := field + ":";
    forall i | 0 <= i < |s| ensures !FieldAt(s, i, field) {
      StartsAt(s[i..], f, 0);
      StartsAt(s[i..], f, |field|);
      assert i + |field| < |s| ==> s[i..][|field|] in s;
      assert f[0] == field[0] && f[|field|] == ':' && s[i..][0] in s;
    }
  }

  // ---- a field at a known place ----

  lemma AtBoundary(pre: string, rest: string, field: string)
    requires Silent(pre, field) && StartsWith(rest, field + ":")
    ensures FieldAt(pre + rest, |pre|, field)
  {
    var s := pre + rest;
    assert s[|pre|..] == rest;
    assert |pre| > 0 ==> s[|pre| - 1] == pre[|pre| - 1];
  }

  lemma {:induction false} FieldFound(pre: string, rest: string, field: string, i: nat)
    requires Silent(pre, field) && Searchable(field) && i <= |pre| && StartsWith(rest, field + ":")
    ensures FindField(pre + rest, field, i) == Some(|pre|)
    decreases |pre| - i
  {
    hide Silent;
    if i == |pre| {
      AtBoundary(pre, rest, field);
    } else {
      SilentBefore(pre, rest, field, i);
      FieldFound(pre, rest, field, i + 1);
    }
  }

  lemma {:induction false} FieldMissing(s: string, field: string, i: nat)
    requires Silent(s, field) && Searchable(field) && i <= |s|
    ensures FindField(s, field, i) == None
    decreases |s| - i
  {
    if i < |s| { FieldMissing(s, field, i + 1); }
  }

  /** Text a value scan passes over: commas, line breaks and closing braces only inside parentheses. */
  predicate Scanned(s: string, depth: nat)
    decreases |s|
  {
    if s == [] then depth == 0
    else
      && Deeper(depth, s[0]) >= 0
      && (depth == 0 ==> s[0] != ',' && s[0] != '\n' && s[0] != '}')
      && Scanned(s[1..], Deeper(depth, s[0]))
  }

  lemma {:induction false} ValueOver(w: string, rest: string, depth: nat)
    requires Scanned(w, depth)
    ensures ValueEnd(w + rest, depth) == |w| + ValueEnd(rest, 0)
    decreases |w|
  {
    if w == [] {
      assert w + rest == rest;
    } else {
      assert (w + rest)[1..] == w[1..] + rest;
      ValueOver(w[1..], rest, Deeper(depth, w[0]));
    }
  }

  lemma {:induction false} ArgumentScanned(w: string, depth: nat)
    requires Argument(w, depth) && '\n' !in w && '}' !in w
    ensures Scanned(w, depth)
    decreases |w|
  {
    if w != [] {
      assert w[0] in w && forall c <- w[1..] :: c in w;
      ArgumentScanned(w[1..], Deeper(depth, w[0]));
    }
  }

  /** What a field may hold: over several lines as long as the line breaks are inside parentheses. */
  predicate Value(v: string) { Trimmed(v) && Scanned(v, 0) }

  /** A field at a known place, whose value is one argument followed by a comma or brace. */
  lemma ValueFound(pre: string, field: string, gap: string, value: string, rest: string)
    requires Silent(pre, field) && Searchable(field) && AllSpace(gap) && Value(value)
    requires rest != [] && (rest[0] == ',' || rest[0] == '}')
    ensures FieldValue(pre + (field + ":" + (gap + (value + rest))), field) == Some(value)
  {
    hide Silent, Scanned, Searchable, AllSpace, LStrip, ValueEnd, FindField, Strip;
    var v := value + rest;
    var u := field + ":" + (gap + v);
    StartsWithSelf(field + ":", gap + v);
    FieldFound(pre, u, field, 0);
    assert (pre + u)[|pre| + |field| + 1..] == gap + v;
    LStripSpaces(gap, v);
    ValueOver(value, rest, 0);
    StopsHere(rest);
    assert v[..|value|] == value;
    StripTrimmed(value);
  }

  lemma StopsHere(rest: string)
    requires rest != [] && (rest[0] == ',' || rest[0] == '}')
    ensures ValueEnd(rest, 0) == 0
  {
  }

  // ---- an opening at a known place ----

  ghost predicate Openers(openers: seq<string>) { forall o <- openers :: o != [] && o[|o| - 1] == '{' }

  /** Text starting with `o` is recognised as that opening. */
  ghost predicate OpensWith(openers: seq<string>, o: string) {
    o in openers && o != [] && !IsSpace(o[0]) && forall tail: string :: Opening1(o + tail, openers) == Some(o)
  }

  function Opened(field: string, gap: string, opener: string, tail: string): (s: string) {
    field + ":" + (gap + (opener + tail))
  }

  lemma OpenerHere(pre: string, field: string, gap: string, openers: seq<string>, o: string, tail: string)
    requires Silent(pre, field) && AllSpace(gap) && Openers(openers) && OpensWith(openers, o)
    ensures var s := pre + Opened(field, gap, o, tail);
      FindOpener(s, field, openers, |pre|) == Some(|s| - |tail| - 1)
  {
    hide Silent, Searchable, AllSpace, LStrip, FieldAt, Opening1;
    var u := o + tail;
    var rest := Opened(field, gap, o, tail);
    StartsWithSelf(field + ":", gap + u);
    AtBoundary(pre, rest, field);
    assert (pre + rest)[|pre| + |field| + 1..] == gap + u;
    LStripSpaces(gap, u);
    assert Opening1(u, openers) == Some(o);
  }

  lemma {:induction false} OpenerFound(pre: string, field: string, gap: string, openers: seq<string>, o: string,
      tail: string, i: nat)
    requires Silent(pre, field) && Searchable(field) && i <= |pre| && AllSpace(gap) && Openers(openers) &&
      OpensWith(openers, o)
    ensures var s := pre + Opened(field, gap, o, tail);
      FindOpener(s, field, openers, i) == Some(|s| - |tail| - 1)
    decreases |pre| - i
  {
    hide Silent, AllSpace, Opened, Searchable, LStrip, Opening1, FieldAt, OpensWith;
    if i == |pre| {
      OpenerHere(pre, field, gap, openers, o, tail);
    } else {
      SilentBefore(pre, Opened(field, gap, o, tail), field, i);
      OpenerFound(pre, field, gap, openers, o, tail, i + 1);
    }
  }

  /** From the brace found on, there is a block with the known contents. */
  lemma OpenerBlock(pre: string, field: string, gap: string, openers: seq<string>, o: string, body: string,
      rest: string)
    requires Silent(pre, field) && Searchable(field) && AllSpace(gap) && Openers(openers) && OpensWith(openers, o) &&
      Balanced(body, 0)
    ensures var s := pre + Opened(field, gap, o, body + "}" + rest);
      var p := FindOpener(s, field, openers, 0);
      p.Some? && Block(s[p.value..])[1..] == body + "}"
  {
    hide Silent, AllSpace, Searchable, FindOpener, Block, Balanced, Opened, Braced, Opening1;
    var tail := body + "}" + rest;
    OpenerFound(pre, field, gap, openers, o, tail, 0);
    OpenerTail(pre, field, gap, o, tail);
    BracedEnds(body, rest);
    BlockOfBraced(body, rest);
  }

  lemma OpenerTail(pre: string, field: string, gap: string, opener: string, tail: string)
    requires opener != [] && opener[|opener| - 1] == '{'
    ensures var s := pre + Opened(field, gap, opener, tail);
      |s| > |tail| && s[|s| - |tail| - 1..] == ['{'] + tail
  {
    var o := opener[..|opener| - 1];
    assert opener == o + ['{'];
    assert pre + Opened(field, gap, opener, tail) == pre + (field + ":" + (gap + o)) + (['{'] + tail);
  }

  lemma BracedEnds(body: string, rest: string)
    ensures Braced(body) + rest == ['{'] + (body + "}" + rest) && Braced(body)[1..] == body + "}"
  {
  }

  lemma {:induction false} OpenerMissing(s: string, field: string, openers: seq<string>, i: nat)
    requires Silent(s, field) && Searchable(field) && i <= |s| && Openers(openers)
    ensures FindOpener(s, field, openers, i) == None
    decreases |s| - i
  {
    if i < |s| { OpenerMissing(s, field, openers, i + 1); }
  }

  // ---- separators and keys ----

  /** Text between two keys: no braces, and nowhere a match of a key. */
  predicate Unbraced(s: string) { NoBrace(s) && (s != "" ==> Breaks(s[|s| - 1])) }

  predicate EventSeparator(s: string) { Unbraced(s) && forall i :: 0 <= i < |s| ==> MatchEventKey(s[i..]) == None }

  predicate StateSeparator(s: string) { Unbraced(s) && forall i :: 0 <= i < |s| ==> MatchKey(s[i..], "State_") == None }

  /** What follows a separator cannot turn its end into a key. */
  predicate Ends(x: string, rest: string) {
    x == "" || x[|x| - 1] == ',' || (rest != [] && !IsSpace(rest[0]) && rest[0] != ':')
  }

  lemma {:induction false} LStripAppend(x: string, rest: string)
    ensures LStrip(x + rest) == (if LStrip(x) == [] then LStrip(rest) else LStrip(x) + rest)
    ensures LStrip(x) == [] && x != [] ==> IsSpace(x[|x| - 1])
    decreases |x|
  {
    if x == [] {
      assert x + rest == rest;
    } else {
      assert (x + rest)[1..] == x[1..] + rest;
      LStripAppend(x[1..], rest);
      assert |x| == 1 ==> x[1..] == [];
    }
  }

  lemma WordInside(x: string, rest: string)
    requires x != [] && Breaks(x[|x| - 1])
    ensures |LeadingWord(x)| < |x| && LeadingWord(x + rest) == LeadingWord(x)
  {
    var w := LeadingWord(x);
    assert forall k :: 0 <= k < |w| ==> w[k] in w && x[k] == w[k];
    assert x + rest == w + (x[|w|..] + rest);
    LeadingWordOf(w, x[|w|..] + rest);
  }

  /** No key starts inside a separator, whatever follows it. */
  lemma NoKey(x: string, rest: string, prefix: string)
    requires x != [] && Breaks(x[|x| - 1]) && Ends(x, rest) && MatchKey(x, prefix) == None
    ensures MatchKey(x + rest, prefix) == None
  {
    hide LeadingWord, LStrip;
    WordInside(x, rest);
    var w := LeadingWord(x);
    assert (x + rest)[|w|..] == x[|w|..] + rest;
    LStripAppend(x[|w|..], rest);
    NoStrip(rest);
  }

  lemma NoStrip(t: string)
    ensures t != [] && !IsSpace(t[0]) ==> LStrip(t) == t
  {
  }

  lemma NoEventKey(x: string, rest: string)
    requires x != [] && Breaks(x[|x| - 1]) && Ends(x, rest) && MatchEventKey(x) == None
    ensures MatchEventKey(x + rest) == None
  {
    hide MatchKey, LeadingWord;
    var s := x + rest;
    assert |COMMON| <= |x| ==> s[..|COMMON|] == x[..|COMMON|];
    if StartsWith(s, COMMON) {
      assert forall k :: 0 <= k < |COMMON| ==> s[..|COMMON|][k] == COMMON[k] && s[k] == COMMON[k];
      assert s[|x| - 1] == x[|x| - 1];
      assert x[..|COMMON|] == s[..|COMMON|];
      assert s[|COMMON|..] == x[|COMMON|..] + rest;
      NoKey(x[|COMMON|..], rest, "Event_");
    } else {
      NoKey(x, rest, "Event_");
    }
  }

  lemma UnbracedTail(x: string)
    requires Unbraced(x) && x != []
    ensures Unbraced(x[1..]) && x[0] != '{' && x[0] != '}'
  {
    assert x[0] in x && forall c <- x[1..] :: c in x;
  }

  lemma {:induction false} EventsSkip(x: string, rest: string, from: string)
    requires EventSeparator(x) && Ends(x, rest)
    ensures ParseEvents(x + rest, from) == ParseEvents(rest, from)
    decreases |x|
  {
    hide Unbraced, MatchEventKey, EventTransitions;
    if x == [] {
      assert x + rest == rest;
    } else {
      UnbracedTail(x);
      assert (x + rest)[1..] == x[1..] + rest;
      assert x[0..] == x && forall i :: 0 <= i < |x[1..]| ==> x[1..][i..] == x[i + 1..];
      EventsSkip(x[1..], rest, from);
      SeparatorEnd(x);
      if !IsSpace(x[0]) { NoEventKey(x, rest); }
    }
  }

  lemma SeparatorEnd(x: string)
    requires Unbraced(x) && x != []
    ensures Breaks(x[|x| - 1])
  {
  }

  lemma {:induction false} StatesSkip(x: string, rest: string)
    requires StateSeparator(x) && Ends(x, rest)
    ensures ParseStates(x + rest) == ParseStates(rest)
    decreases |x|
  {
    hide Unbraced, MatchKey, StateTransitions;
    if x == [] {
      assert x + rest == rest;
    } else {
      UnbracedTail(x);
      assert (x + rest)[1..] == x[1..] + rest;
      assert x[0..] == x && forall i :: 0 <= i < |x[1..]| ==> x[1..][i..] == x[i + 1..];
      StatesSkip(x[1..], rest);
      SeparatorEnd(x);
      if !IsSpace(x[0]) { NoKey(x, rest, "State_"); }
    }
  }

  lemma {:induction false} StructsSkip(x: string, rest: string, from: string, event: string)
    requires NoBrace(x)
    ensures ParseStructs(x + rest, from, event) == ParseStructs(rest, from, event)
    decreases |x|
  {
    hide TransitionOf;
    if x == [] {
      assert x + rest == rest;
    } else {
      assert (x + rest)[1..] == x[1..] + rest;
      assert x[0] in x && forall c <- x[1..] :: c in x;
      StructsSkip(x[1..], rest, from, event);
    }
  }

  /** A key with its colon is recognised, and the text after the gap is found. */
  lemma KeyFound(prefix: string, name: string, gap: string, value: string)
    requires AllWord(prefix) && Word(name) && AllSpace(gap) && value != [] && !IsSpace(value[0])
    ensures var s := prefix + name + ":" + (gap + value);
      MatchKey(s, prefix) == Some(Key(prefix + name, |prefix + name| + 1)) &&
      LStrip(s[|prefix + name| + 1..]) == value
  {
    hide AllSpace, LeadingWord;
    var t := gap + value;
    var s := prefix + name + ":" + t;
    assert s == prefix + name + (":" + t);
    LeadingWordOf(prefix + name, ":" + t);
    assert s[|prefix + name|..] == ":" + t;
    StartsWithSelf(prefix, name);
    LStripSpaces(gap, value);
    assert s[|prefix + name| + 1..] == t;
  }
}
