/**
 Guard expressions: splitting arguments, rewriting Go guard calls into infix text
 (scripts/generate_state_machine_docs.py, `split_args` and `simplify_guard`), and when that text
 still means what the guard means.
 */
module Guards {
  import opened Text

  // ---- split_args ----

  function Deeper(depth: int, c: char): int {
    if c == '(' then depth + 1 else if c == ')' then depth - 1 else depth
  }

  /** Split the rest of the text, with the current piece and parenthesis depth. */
  function SplitFrom(s: string, depth: int, cur: string): (parts: seq<string>)
    ensures forall p <- parts :: |p| <= |cur| + |s|
    decreases |s|
  {
    if s == [] then if cur == [] then [] else [Strip(cur)]
    else
      var d := Deeper(depth, s[0]);
      if s[0] == ',' && d == 0 then [Strip(cur)] + SplitFrom(s[1..], d, [])
      else SplitFrom(s[1..], d, cur + [s[0]])
  }

  function NonEmpty(parts: seq<string>): (r: seq<string>)
    ensures forall p <- r :: p in parts && p != ""
  {
    if parts == [] then [] else (if parts[0] == "" then [] else [parts[0]]) + NonEmpty(parts[1..])
  }

  function SplitArgs(s: string): (parts: seq<string>)
    ensures forall p <- parts :: |p| <= |s|
  {
    NonEmpty(SplitFrom(s, 0, []))
  }

  method SplitArguments(s: string) returns (r: seq<string>)
    ensures r == SplitArgs(s)
  {
    var parts := SplitPieces(s);
    r := DropEmpty(parts);
  }

  method DropEmpty(parts: seq<string>) returns (r: seq<string>)
    ensures r == NonEmpty(parts)
  {
    r := [];
    assert parts[0..] == parts;
    for i := 0 to |parts|
      invariant r + NonEmpty(parts[i..]) == NonEmpty(parts)
    {
      assert parts[i..][1..] == parts[i + 1..];
      if parts[i] != "" {
        r := r + [parts[i]];
      }
    }
  }

  method SplitPieces(s: string) returns (parts: seq<string>)
    ensures parts == SplitFrom(s, 0, [])
  {
    hide Strip, SplitFrom;
    parts := [];
    var depth := 0;
    var cur := "";
    assert s[0..] == s;
    for i := 0 to |s|
      invariant parts + SplitFrom(s[i..], depth, cur) == SplitFrom(s, 0, [])
    {
      SplitOne(s, i, depth, cur);
      if s[i] == '(' {
        depth := depth + 1;
      } else if s[i] == ')' {
        depth := depth - 1;
      }
      if s[i] == ',' && depth == 0 {
        parts := parts + [Strip(cur)];
        cur := [];
      } else {
        cur := cur + [s[i]];
      }
    }
    SplitEnd(depth, cur);
    if cur != [] {
      parts := parts + [Strip(cur)];
    }
  }

  lemma SplitEnd(depth: int, cur: string)
    ensures SplitFrom([], depth, cur) == if cur == [] then [] else [Strip(cur)]
  {
  }

  lemma SplitOne(s: string, i: nat, depth: int, cur: string)
    requires i < |s|
    ensures var d := Deeper(depth, s[i]);
            SplitFrom(s[i..], depth, cur) ==
            if s[i] == ',' && d == 0 then [Strip(cur)] + SplitFrom(s[i + 1..], d, [])
                else SplitFrom(s[i + 1..], d, cur + [s[i]])
  {
    hide Strip;
    assert s[i..][1..] == s[i + 1..];
  }

  /** Text whose parentheses are balanced and whose commas all sit inside parentheses. */
  predicate Argument(s: string, depth: nat)
    decreases |s|
  {
    if s == [] then depth == 0
    else
      var d := Deeper(depth, s[0]);
      d >= 0 && !(s[0] == ',' && d == 0) && Argument(s[1..], d)
  }

  lemma {:induction false} SplitPassesOver(w: string, rest: string, depth: nat, cur: string)
    requires Argument(w, depth)
    ensures SplitFrom(w + rest, depth, cur) == SplitFrom(rest, 0, cur + w)
    decreases |w|
  {
    if w == [] {
      assert w + rest == rest && cur + w == cur;
    } else {
      assert (w + rest)[1..] == w[1..] + rest;
      SplitPassesOver(w[1..], rest, Deeper(depth, w[0]), cur + [w[0]]);
      assert cur + [w[0]] + w[1..] == cur + w;
    }
  }

  predicate Arguments(parts: seq<string>) { forall p <- parts :: Trimmed(p) && Argument(p, 0) }

  /** One argument, after an optional space and before a comma or the end. */
  lemma SplitHead(p: string, rest: string, lead: string)
    requires Trimmed(p) && Argument(p, 0) && (lead == "" || lead == " ") && (rest == [] || rest[0] == ',')
    ensures SplitFrom(lead + (p + rest), 0, []) == [p] + if rest == [] then [] else SplitFrom(rest[1..], 0, [])
  {
    hide Strip, Trimmed;
    StripTrimmed(p);
    SplitPassesOver(p, rest, 0, lead);
    if lead == "" {
      assert lead + (p + rest) == p + rest && lead + p == p;
    } else {
      assert (lead + (p + rest))[1..] == p + rest && [] + [' '] == lead;
    }
    TrimmedNonEmpty(p, lead);
  }

  lemma TrimmedNonEmpty(p: string, lead: string)
    requires Trimmed(p)
    ensures p != "" && lead + p != []
  {
  }

  lemma JoinOne(parts: seq<string>)
    requires |parts| >= 1
    ensures |parts| == 1 ==> Join(parts, ", ") == parts[0]
  {
  }

  lemma JoinTail(parts: seq<string>)
    requires |parts| > 1
    ensures Join(parts, ", ") == parts[0] + (", " + Join(parts[1..], ", "))
    ensures (", " + Join(parts[1..], ", "))[1..] == " " + Join(parts[1..], ", ")
  {
    CommaFirst(parts[0], Join(parts[1..], ", "));
  }

  lemma CommaFirst(p: string, j: string)
    ensures p + ", " + j == p + (", " + j) && (", " + j)[1..] == " " + j
  {
  }

  lemma {:induction false} SplitJoined(parts: seq<string>, lead: string)
    requires parts != [] && Arguments(parts) && (lead == "" || lead == " ")
    ensures SplitFrom(lead + Join(parts, ", "), 0, []) == parts
    decreases |parts|
  {
    hide SplitFrom, Trimmed, Argument, Join;
    JoinOne(parts);
    var p := parts[0];
    assert p in parts;
    if |parts| == 1 {
      SplitHead(p, [], lead);
      assert p + [] == p && parts == [p];
    } else {
      var rest := ", " + Join(parts[1..], ", ");
      SplitHead(p, rest, lead);
      JoinTail(parts);
      assert forall q <- parts[1..] :: q in parts;
      SplitJoined(parts[1..], " ");
      assert [p] + parts[1..] == parts;
    }
  }

  lemma {:induction false} NonEmptyKeeps(parts: seq<string>)
    requires forall p <- parts :: p != ""
    ensures NonEmpty(parts) == parts
  {
    if parts != [] {
      assert parts[0] in parts && forall p <- parts[1..] :: p in parts;
      NonEmptyKeeps(parts[1..]);
      assert [parts[0]] + parts[1..] == parts;
    }
  }

  /** split_args undoes joining arguments with ", ". */
  lemma SplitInvertsJoin(parts: seq<string>)
    requires parts != [] && Arguments(parts)
    ensures SplitArgs(Join(parts, ", ")) == parts
  {
    SplitJoined(parts, "");
    assert "" + Join(parts, ", ") == Join(parts, ", ");
    forall p | p in parts ensures p != "" { TrimmedNonEmpty(p, ""); }
    NonEmptyKeeps(parts);
  }

  // ---- simplify_guard ----

  const HELPER_NOT := "guard_Not("
  const PACKAGE := "statemachine."
  const NOT := "GuardNot("
  const AND := "GuardAnd("
  const OR := "GuardOr("
  const ATOM := "guard_"

  /** re.fullmatch of the call opened by `open`, with `.+` inside: one line, not empty. */
  predicate IsCall(e: string, open: string) {
    && |e| >= |open| + 2 && StartsWith(e, open) && e[|e| - 1] == ')'
    && '\n' !in e[|open|..|e| - 1]
  }

  function Inside(e: string, open: string): (s: string)
    requires IsCall(e, open)
    ensures |s| < |e|
  {
    e[|open|..|e| - 1]
  }

  /** Which of a call's spellings, plain or package-qualified, the text is. */
  function Opening(e: string, name: string): (open: string)
    ensures open == name || open == PACKAGE + name
  {
    if IsCall(e, PACKAGE + name) then PACKAGE + name else name
  }

  function Trim(expr: string): (e: string)
    ensures |e| <= |expr|
  {
    Strip(RStripCommas(Strip(expr)))
  }

  function Simplify(expr: string): (r: string)
    decreases |expr|, 1, 0
  {
    var e := Trim(expr);
    if IsCall(e, HELPER_NOT) then "!" + Simplify(Inside(e, HELPER_NOT))
    else if IsCall(e, Opening(e, NOT)) then "!" + Simplify(Inside(e, Opening(e, NOT)))
    else if IsCall(e, Opening(e, AND)) then
      Join(SimplifyAll(SplitArgs(Inside(e, Opening(e, AND))), |expr|), " && ")
    else if IsCall(e, Opening(e, OR)) then
      Join(SimplifyAll(SplitArgs(Inside(e, Opening(e, OR))), |expr|), " || ")
    else if StartsWith(e, ATOM) && |e| > |ATOM| && AllWord(e[|ATOM|..]) then e[|ATOM|..]
    else e
  }

  function SimplifyAll(parts: seq<string>, bound: nat): (r: seq<string>)
    requires forall p <- parts :: |p| < bound
    ensures |r| == |parts|
    decreases bound, 0, |parts|
  {
    if parts == [] then [] else [Simplify(parts[0])] + SimplifyAll(parts[1..], bound)
  }

  // ---- guard trees and their Go text ----

  /** How a guard combinator is spelled: the local guard_Not helper, or GuardXxx with or without its package. */
  datatype Spelling = Helper | Plain | Qualified

  datatype Guard =
    | Atom(name: string)
    | Not(spelling: Spelling, arg: Guard)
    | And(qualified: bool, args: seq<Guard>)
    | Or(qualified: bool, args: seq<Guard>)

  /** Names are words, and And and Or have arguments. */
  predicate WellFormed(g: Guard) {
    match g
    case Atom(name) => name != "" && AllWord(name)
    case Not(_, arg) => WellFormed(arg)
    case And(_, args) => args != [] && forall a <- args :: WellFormed(a)
    case Or(_, args) => args != [] && forall a <- args :: WellFormed(a)
  }

  function NotOpening(sp: Spelling): string {
    match sp case Helper => HELPER_NOT case Plain => NOT case Qualified => PACKAGE + NOT
  }

  function Spelled(qualified: bool, name: string): string { if qualified then PACKAGE + name else name }

  /** The single-line Go source of a guard. */
  function GoText(g: Guard): (s: string) {
    match g
    case Atom(name) => ATOM + name
    case Not(sp, arg) => NotOpening(sp) + GoText(arg) + ")"
    case And(q, args) => Spelled(q, AND) + Join(GoTexts(args), ", ") + ")"
    case Or(q, args) => Spelled(q, OR) + Join(GoTexts(args), ", ") + ")"
  }

  function GoTexts(gs: seq<Guard>): (s: seq<string>)
    ensures |s| == |gs|
  {
    if gs == [] then [] else [GoText(gs[0])] + GoTexts(gs[1..])
  }

  /** The infix rendering. */
  function Infix(g: Guard): (s: string) {
    match g
    case Atom(name) => name
    case Not(_, arg) => "!" + Infix(arg)
    case And(_, args) => Join(Infixes(args), " && ")
    case Or(_, args) => Join(Infixes(args), " || ")
  }

  function Infixes(gs: seq<Guard>): (s: seq<string>)
    ensures |s| == |gs|
  {
    if gs == [] then [] else [Infix(gs[0])] + Infixes(gs[1..])
  }

  /** What the text of a guard looks like from outside. */
  predicate Printable(s: string) {
    Trimmed(s) && Argument(s, 0) && '\n' !in s && s[|s| - 1] != ',' && s[0] != '(' && '{' !in s && '}' !in s
  }

  // ---- the text of a guard is one argument ----

  /** Commas are allowed one level down. */
  predicate Nested(s: string, depth: nat)
    decreases |s|
  {
    if s == [] then depth == 1 else Deeper(depth, s[0]) >= 1 && Nested(s[1..], Deeper(depth, s[0]))
  }

  lemma {:induction false} ArgumentNests(s: string, depth: nat)
    requires Argument(s, depth)
    ensures Nested(s, depth + 1)
    decreases |s|
  {
    if s != [] { ArgumentNests(s[1..], Deeper(depth, s[0])); }
  }

  lemma {:induction false} NestedAppend(a: string, b: string, depth: nat)
    requires Nested(a, depth) && Nested(b, 1)
    ensures Nested(a + b, depth)
    decreases |a|
  {
    if a == [] {
      assert a + b == b;
    } else {
      assert (a + b)[1..] == a[1..] + b;
      NestedAppend(a[1..], b, Deeper(depth, a[0]));
    }
  }

  lemma {:induction false} JoinNests(parts: seq<string>)
    requires forall p <- parts :: Argument(p, 0)
    ensures Nested(Join(parts, ", "), 1)
    decreases |parts|
  {
    if parts == [] {
    } else {
      assert parts[0] in parts && forall p <- parts[1..] :: p in parts;
      ArgumentNests(parts[0], 0);
      if |parts| > 1 {
        JoinNests(parts[1..]);
        assert Nested(", ", 1) by { assert ", "[1..] == " " && " "[1..] == ""; }
        NestedAppend(", ", Join(parts[1..], ", "), 1);
        NestedAppend(parts[0], ", " + Join(parts[1..], ", "), 1);
        assert parts[0] + ", " + Join(parts[1..], ", ") == parts[0] + (", " + Join(parts[1..], ", "));
      }
    }
  }

  lemma {:induction false} NestedCloses(s: string, depth: nat)
    requires Nested(s, depth)
    ensures Argument(s + ")", depth)
    decreases |s|
  {
    if s == [] {
      assert s + ")" == ")" && ")"[1..] == "";
    } else {
      assert (s + ")")[1..] == s[1..] + ")";
      NestedCloses(s[1..], Deeper(depth, s[0]));
    }
  }

  /** A word or dotted word in front of "(" does not change the nesting. */
  lemma {:induction false} CallIsArgument(open: string, inner: string)
    requires open != [] && (forall i :: 0 <= i < |open| - 1 ==> IsWord(open[i]) || open[i] == '.') &&
      open[|open| - 1] == '('
    requires Nested(inner, 1)
    ensures Argument(open + inner + ")", 0)
    decreases |open|
  {
    var s := open + inner + ")";
    assert s[1..] == open[1..] + inner + ")";
    if |open| == 1 {
      assert s[1..] == inner + ")";
      NestedCloses(inner, 1);
    } else {
      CallIsArgument(open[1..], inner);
    }
  }

  lemma {:induction false} WordIsArgument(w: string)
    requires AllWord(w)
    ensures Argument(w, 0)
    decreases |w|
  {
    if w != [] {
      assert w[0] in w && forall c <- w[1..] :: c in w;
      WordIsArgument(w[1..]);
    }
  }

  /** The opening of a call: a dotted name and its parenthesis. */
  predicate IsOpening(open: string) {
    && |open| >= 2 && IsWord(open[0]) && open[|open| - 1] == '('
    && (forall i :: 0 <= i < |open| - 1 ==> IsWord(open[i]) || open[i] == '.')
  }

  lemma CallPrintable(open: string, inner: string)
    requires IsOpening(open) && Nested(inner, 1) && '\n' !in inner && '{' !in inner && '}' !in inner
    ensures Printable(open + inner + ")")
  {
    CallIsArgument(open, inner);
    var s := open + inner + ")";
    assert s[0] == open[0] && s[|s| - 1] == ')';
    forall c | c in s ensures c != '\n' && c != '{' && c != '}' {
      if c in open {
        var i :| 0 <= i < |open| && open[i] == c;
      }
    }
  }

  lemma OpeningsOk(sp: Spelling, q: bool)
    ensures IsOpening(NotOpening(sp)) && IsOpening(Spelled(q, AND)) && IsOpening(Spelled(q, OR))
  {
  }

  lemma {:induction false} NotInJoin(parts: seq<string>, c: char)
    requires c != ',' && c != ' ' && forall p <- parts :: c !in p
    ensures c !in Join(parts, ", ")
    decreases |parts|
  {
    if parts != [] {
      assert parts[0] in parts && forall p <- parts[1..] :: p in parts;
      NotInJoin(parts[1..], c);
    }
  }

  lemma {:induction false} GoTextPrintable(g: Guard)
    requires WellFormed(g)
    ensures Printable(GoText(g))
  {
    hide IsOpening, NotOpening, Spelled, Nested, Argument;
    match g {
      case Atom(name) =>
        AtomPrintable(name);
      case Not(sp, arg) =>
        GoTextPrintable(arg);
        OpeningsOk(sp, true);
        ArgumentNests(GoText(arg), 0);
        CallPrintable(NotOpening(sp), GoText(arg));
      case And(q, args) =>
        GoTextsPrintable(args);
        OpeningsOk(Plain, q);
        JoinPrintable(GoTexts(args));
        CallPrintable(Spelled(q, AND), Join(GoTexts(args), ", "));
      case Or(q, args) =>
        GoTextsPrintable(args);
        OpeningsOk(Plain, q);
        JoinPrintable(GoTexts(args));
        CallPrintable(Spelled(q, OR), Join(GoTexts(args), ", "));
    }
  }

  lemma {:induction false} GoTextsPrintable(gs: seq<Guard>)
    requires forall g <- gs :: WellFormed(g)
    ensures forall s <- GoTexts(gs) :: Printable(s)
  {
    hide Printable, WellFormed;
    if gs != [] {
      assert gs[0] in gs && forall g <- gs[1..] :: g in gs;
      GoTextPrintable(gs[0]);
      GoTextsPrintable(gs[1..]);
    }
  }

  lemma JoinPrintable(parts: seq<string>)
    requires forall p <- parts :: Printable(p)
    ensures var s := Join(parts, ", "); Nested(s, 1) && '\n' !in s && '{' !in s && '}' !in s
  {
    hide Nested, Argument, Join, Trimmed;
    JoinNests(parts);
    NotInJoin(parts, '\n');
    NotInJoin(parts, '{');
    NotInJoin(parts, '}');
  }

  lemma AtomPrintable(name: string)
    requires name != "" && AllWord(name)
    ensures Printable(ATOM + name) && IsWord((ATOM + name)[|ATOM + name| - 1])
  {
    var s := ATOM + name;
    assert AllWord(ATOM);
    assert AllWord(s);
    WordIsArgument(s);
    assert s[|s| - 1] == name[|name| - 1];
    assert s[|s| - 1] in s && s[0] in s;
    assert forall c <- s :: IsWord(c);
  }

  lemma TrimPrintable(s: string)
    requires Printable(s)
    ensures Trim(s) == s
  {
    hide Argument;
    StripTrimmed(s);
  }

  // ---- simplify_guard yields the infix rendering ----

  lemma Conflict(e: string, p: string, q: string, i: nat)
    requires StartsWith(e, p) && i < |p| && i < |q| && p[i] != q[i]
    ensures !StartsWith(e, q)
  {
    assert e[..|p|][i] == e[i];
    assert |q| <= |e| ==> e[..|q|][i] == e[i];
  }

  /** The text `open + inner + ")"` is recognised as that call. */
  lemma CallRecognised(open: string, inner: string)
    requires inner != [] && '\n' !in inner
    ensures var e := open + inner + ")"; IsCall(e, open) && Inside(e, open) == inner
  {
    var e := open + inner + ")";
    assert e[..|open|] == open && e[|open|..|e| - 1] == inner;
  }

  /** A call of one combinator is not taken for a call of another. */
  lemma OnlyThatCall(e: string, name: string, q: bool)
    requires StartsWith(e, Spelled(q, name)) && (name == NOT || name == AND || name == OR)
    ensures !StartsWith(e, HELPER_NOT)
    ensures forall n | n in {NOT, AND, OR} && n != name :: !StartsWith(e, n) && !StartsWith(e, PACKAGE + n)
    ensures !StartsWith(e, Spelled(!q, name))
  {
    var p := Spelled(q, name);
    Conflict(e, p, HELPER_NOT, 0);
    forall n | n in {NOT, AND, OR} && n != name ensures !StartsWith(e, n) && !StartsWith(e, PACKAGE + n) {
      if q {
        Conflict(e, p, n, 0);
        assert (PACKAGE + n)[|PACKAGE| + 5] == n[5] && p[|PACKAGE| + 5] == name[5];
        Conflict(e, p, PACKAGE + n, |PACKAGE| + 5);
      } else {
        Conflict(e, p, n, 5);
        Conflict(e, p, PACKAGE + n, 0);
      }
    }
    Conflict(e, p, Spelled(!q, name), 0);
  }

  lemma SimplifyNot(sp: Spelling, inner: string)
    requires Printable(NotOpening(sp) + inner + ")") && inner != [] && '\n' !in inner
    ensures Simplify(NotOpening(sp) + inner + ")") == "!" + Simplify(inner)
  {
    hide Printable, Trim;
    var e := NotOpening(sp) + inner + ")";
    TrimPrintable(e);
    CallRecognised(NotOpening(sp), inner);
    if !sp.Helper? { OnlyThatCall(e, NOT, sp.Qualified?); }
  }

  lemma SimplifyJunction(q: bool, name: string, inner: string)
    requires name == AND || name == OR
    requires Printable(Spelled(q, name) + inner + ")") && inner != [] && '\n' !in inner
    ensures var e := Spelled(q, name) + inner + ")";
            && (forall p <- SplitArgs(inner) :: |p| < |e|)
            && Simplify(e) == Join(SimplifyAll(SplitArgs(inner), |e|), if name == AND then " && " else " || ")
  {
    hide Printable, Trim, SplitArgs, Join, SimplifyAll, AllWord;
    var e := Spelled(q, name) + inner + ")";
    TrimPrintable(e);
    CallRecognised(Spelled(q, name), inner);
    OnlyThatCall(e, name, q);
  }

  lemma SimplifyAtom(name: string)
    requires name != "" && AllWord(name)
    ensures Simplify(ATOM + name) == name
  {
    hide Printable, Trim;
    AtomPrintable(name);
    TrimPrintable(ATOM + name);
    assert (ATOM + name)[|ATOM|..] == name && (ATOM + name)[..|ATOM|] == ATOM;
  }

  /** For every guard tree, simplify_guard turns its Go text into its infix rendering. */
  lemma {:induction false} SimplifyRendersInfix(g: Guard)
    requires WellFormed(g)
    ensures Simplify(GoText(g)) == Infix(g)
    decreases g, 0
  {
    hide Simplify, SplitArgs, Printable, NotOpening, Spelled, Trimmed, Argument;
    GoTextPrintable(g);
    match g {
      case Atom(name) => SimplifyAtom(name);
      case Not(sp, arg) =>
        SimplifyRendersInfix(arg);
        GoTextPrintable(arg);
        PrintableFacts(GoText(arg));
        SimplifyNot(sp, GoText(arg));
      case And(q, args) => SimplifyArgs(q, AND, args);
      case Or(q, args) => SimplifyArgs(q, OR, args);
    }
  }

  lemma PrintableFacts(s: string)
    requires Printable(s)
    ensures s != [] && '\n' !in s && Trimmed(s) && Argument(s, 0)
  {
  }

  lemma {:induction false} SimplifyArgs(q: bool, name: string, args: seq<Guard>)
    requires (name == AND || name == OR) && args != [] && forall a <- args :: WellFormed(a)
    requires Printable(Spelled(q, name) + Join(GoTexts(args), ", ") + ")")
    ensures Simplify(Spelled(q, name) + Join(GoTexts(args), ", ") + ")")
         == Join(Infixes(args), if name == AND then " && " else " || ")
    decreases args, 1
  {
    hide Simplify, SplitArgs, Printable, Spelled, Trimmed, Argument, WellFormed, Join;
    var texts := GoTexts(args);
    GoTextsPrintable(args);
    forall p | p in texts ensures Trimmed(p) && Argument(p, 0) { PrintableFacts(p); }
    JoinPrintable(texts);
    SplitInvertsJoin(texts);
    JoinNonEmpty(texts);
    SimplifyJunction(q, name, Join(texts, ", "));
    SimplifyEach(args, |Spelled(q, name) + Join(texts, ", ") + ")"|);
  }

  lemma JoinNonEmpty(parts: seq<string>)
    requires parts != [] && forall p <- parts :: Trimmed(p)
    ensures Join(parts, ", ") != []
  {
    assert parts[0] in parts;
  }

  lemma {:induction false} SimplifyEach(args: seq<Guard>, bound: nat)
    requires (forall a <- args :: WellFormed(a)) && forall p <- GoTexts(args) :: |p| < bound
    ensures SimplifyAll(GoTexts(args), bound) == Infixes(args)
    decreases args, 0
  {
    hide Simplify, WellFormed;
    if args != [] {
      assert args[0] in args && forall a <- args[1..] :: a in args;
      assert forall p <- GoTexts(args[1..]) :: p in GoTexts(args);
      SimplifyRendersInfix(args[0]);
      SimplifyEach(args[1..], bound);
      assert GoTexts(args)[1..] == GoTexts(args[1..]);
    }
  }

  /** A guard written over several lines is left as it is: `.` does not match a line break. */
  lemma MultiLineIsLeftAlone(open: string, inner: string)
    requires open in {HELPER_NOT, NOT, PACKAGE + NOT, AND, PACKAGE + AND, OR, PACKAGE + OR} && '\n' in inner
    ensures Simplify(open + inner + ")") == open + inner + ")"
  {
    hide IsCall, Trim, Strip, RStripCommas;
    var e := open + inner + ")";
    TrimCall(open, inner);
    CallIsNoAtom(e);
    NotACall(e, open, inner, HELPER_NOT);
    NotACall(e, open, inner, NOT);
    NotACall(e, open, inner, AND);
    NotACall(e, open, inner, OR);
    NotACall(e, open, inner, PACKAGE + NOT);
    NotACall(e, open, inner, PACKAGE + AND);
    NotACall(e, open, inner, PACKAGE + OR);
  }

  lemma TrimCall(open: string, inner: string)
    requires open in {HELPER_NOT, NOT, PACKAGE + NOT, AND, PACKAGE + AND, OR, PACKAGE + OR}
    ensures Trim(open + inner + ")") == open + inner + ")"
  {
    var e := open + inner + ")";
    assert e[0] == open[0] && e[|e| - 1] == ')';
    StripTrimmed(e);
  }

  lemma CallIsNoAtom(e: string)
    requires e != [] && e[|e| - 1] == ')'
    ensures |e| > |ATOM| ==> !AllWord(e[|ATOM|..])
  {
    if |e| > |ATOM| {
      var w := e[|ATOM|..];
      assert w[|w| - 1] == ')' && w[|w| - 1] in w;
    }
  }

  lemma NotACall(e: string, open: string, inner: string, o: string)
    requires e == open + inner + ")" && '\n' in inner && '\n' !in o
    ensures !IsCall(e, o)
  {
    var i :| 0 <= i < |inner| && inner[i] == '\n';
    var k := |open| + i;
    assert e[k] == '\n' && k < |e| - 1;
    assert StartsWith(e, o) ==> forall j :: 0 <= j < |o| ==> o[j] == e[j] && o[j] in o;
    assert StartsWith(e, o) ==> |o| <= k;
    assert |o| <= k ==> e[|o|..|e| - 1][k - |o|] == '\n';
  }
}
