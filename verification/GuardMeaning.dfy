/**
 What the infix text of a guard says under the usual precedence ("!" before "&&" before "||"), and
 when that is what the guard itself says. The text has no parentheses, so it always reads as a
 disjunction of conjunctions of literals.
 */
module GuardMeaning {
  import opened Collections
  import opened Text
  import opened Guards

  datatype Lit = Lit(bangs: nat, name: string)

  type Conj = seq<Lit>
  type Reading = seq<Conj>

  predicate Proper(r: Reading) { r != [] && forall i :: 0 <= i < |r| ==> r[i] != [] }

  // ---- reading text ----

  function Bangs(s: string): (k: nat)
    ensures k <= |s| && (k < |s| ==> s[k] != '!')
  {
    if s != [] && s[0] == '!' then 1 + Bangs(s[1..]) else 0
  }

  function AndR(a: Reading, b: Reading): (r: Reading)
    requires Proper(a) && Proper(b)
    ensures Proper(r) && |r| == |a| + |b| - 1
  {
    a[..|a| - 1] + [a[|a| - 1] + b[0]] + b[1..]
  }

  function BangR(a: Reading): (r: Reading)
    requires Proper(a)
    ensures Proper(r) && |r| == |a|
  {
    [[a[0][0].(bangs := a[0][0].bangs + 1)] + a[0][1..]] + a[1..]
  }

  function FirstWord(s: string): (w: string)
    ensures Bangs(s) + |w| <= |s|
  {
    LeadingWord(s[Bangs(s)..])
  }

  /** The text after the first literal. */
  function AfterLit(s: string): (r: string)
    ensures FirstWord(s) != "" ==> |r| < |s|
  {
    s[Bangs(s) + |FirstWord(s)|..]
  }

  /** The reading of an infix text: literals joined by " && " and " || ". */
  function ReadText(s: string): (r: Option<Reading>)
    ensures r.Some? ==> Proper(r.value)
    decreases |s|
  {
    if FirstWord(s) == "" then None
    else
      var lit := [[Lit(Bangs(s), FirstWord(s))]];
      var rest := AfterLit(s);
      if rest == "" then Some(lit)
      else if StartsWith(rest, " && ") then
        var r := ReadText(rest[4..]);
        if r.None? then None else Some(AndR(lit, r.value))
      else if StartsWith(rest, " || ") then
        var r := ReadText(rest[4..]);
        if r.None? then None else Some(lit + r.value)
      else None
  }

  lemma {:induction false} BangsStay(s: string, u: string)
    requires Bangs(s) < |s|
    ensures Bangs(s + u) == Bangs(s)
    decreases |s|
  {
    if s[0] == '!' {
      assert (s + u)[1..] == s[1..] + u;
      BangsStay(s[1..], u);
    }
  }

  /** Appending a connective leaves the first literal as it is. */
  lemma FirstLitStays(s: string, u: string)
    requires FirstWord(s) != "" && u != [] && !IsWord(u[0])
    ensures Bangs(s + u) == Bangs(s) && FirstWord(s + u) == FirstWord(s) && AfterLit(s + u) == AfterLit(s) + u
  {
    hide LeadingWord;
    var k, w := Bangs(s), FirstWord(s);
    var t := s[k..];
    BangsStay(s, u);
    assert (s + u)[k..] == t + u;
    WordStays(t, u);
  }

  lemma Prefixes(t: string, u: string, k: nat)
    requires k <= |t|
    ensures t + u == t[..k] + (t[k..] + u)
  {
  }

  lemma WordStays(t: string, u: string)
    requires u != [] && !IsWord(u[0])
    ensures LeadingWord(t + u) == LeadingWord(t)
  {
    hide LeadingWord, IsWord, AllWord;
    var w := LeadingWord(t);
    var rest := t[|w|..] + u;
    assert rest[0] == if |w| < |t| then t[|w|] else u[0];
    Prefixes(t, u, |w|);
    LeadingWordOf(w, rest);
  }

  function Connective(conj: bool): string { if conj then " && " else " || " }

  lemma ConnectiveStarts(conj: bool, u: string)
    ensures var t := Connective(conj) + u;
            t != [] && t[0] == ' ' && StartsWith(t, Connective(conj)) && t[4..] == u &&
                !StartsWith(t, Connective(!conj))
  {
    var t := Connective(conj) + u;
    assert t[..4] == Connective(conj);
    Conflict(t, Connective(conj), Connective(!conj), 1);
  }

  /** What follows the first literal of `s` decides how the longer text goes on. */
  lemma ConnectiveStays(rest: string, tail: string, conj: bool)
    requires |rest| >= 4
    ensures StartsWith(rest + tail, Connective(conj)) <==> StartsWith(rest, Connective(conj))
    ensures (rest + tail)[4..] == rest[4..] + tail
  {
    assert (rest + tail)[..4] == rest[..4];
  }

  function Combine(conj: bool, a: Reading, b: Reading): (r: Reading)
    requires Proper(a) && Proper(b)
    ensures Proper(r)
  {
    if conj then AndR(a, b) else a + b
  }

  lemma {:induction false} ReadJoined(s: string, u: string, conj: bool)
    requires ReadText(s).Some? && ReadText(u).Some?
    ensures ReadText(s + Connective(conj) + u) == Some(Combine(conj, ReadText(s).value, ReadText(u).value))
    decreases |s|
  {
    hide FirstWord, AfterLit, Bangs, Proper, StartsWith, AndR;
    var tail := Connective(conj) + u;
    assert s + Connective(conj) + u == s + tail;
    ConnectiveStarts(conj, u);
    FirstLitStays(s, tail);
    var rest := AfterLit(s);
    if rest == "" {
      assert AfterLit(s + tail) == tail;
    } else {
      LongEnough(rest);
      ConnectiveStays(rest, tail, true);
      ConnectiveStays(rest, tail, false);
      var next := rest[4..];
      ReadJoined(next, u, conj);
      assert next + Connective(conj) + u == next + tail;
      Regroup([[Lit(Bangs(s), FirstWord(s))]], ReadText(next).value, ReadText(u).value);
    }
  }

  lemma LongEnough(rest: string)
    requires StartsWith(rest, " && ") || StartsWith(rest, " || ")
    ensures |rest| >= 4
  {
  }

  lemma Regroup(lit: Reading, a: Reading, b: Reading)
    requires Proper(lit) && |lit| == 1 && Proper(a) && Proper(b)
    ensures AndR(lit, AndR(a, b)) == AndR(AndR(lit, a), b)
    ensures Proper(a + b) && Proper(lit + a) && Proper(AndR(lit, a)) && Proper(AndR(a, b))
    ensures AndR(lit, a + b) == AndR(lit, a) + b
    ensures lit + AndR(a, b) == AndR(lit + a, b)
    ensures lit + (a + b) == (lit + a) + b
  {
    if |a| == 1 {
      assert AndR(a, b) == [a[0] + b[0]] + b[1..];
      assert AndR(lit, AndR(a, b)) == [lit[0] + (a[0] + b[0])] + b[1..];
      assert AndR(lit, a) == [lit[0] + a[0]];
      assert lit[0] + (a[0] + b[0]) == (lit[0] + a[0]) + b[0];
      assert AndR(AndR(lit, a), b) == [(lit[0] + a[0]) + b[0]] + b[1..];
    } else {
      var n := |a| - 1;
      assert AndR(lit, a) == [lit[0] + a[0]] + a[1..];
      assert AndR(a, b) == [a[0]] + (a[1..n] + [a[n] + b[0]] + b[1..]);
      assert AndR(lit, AndR(a, b)) == [lit[0] + a[0]] + (a[1..n] + [a[n] + b[0]] + b[1..]);
      assert AndR(lit, a)[..n] == [lit[0] + a[0]] + a[1..n];
      assert AndR(AndR(lit, a), b) == [lit[0] + a[0]] + a[1..n] + [a[n] + b[0]] + b[1..];
    }
    assert (lit + a)[..|lit + a| - 1] == lit + a[..|a| - 1];
  }

  lemma ReadBang(s: string)
    requires ReadText(s).Some?
    ensures ReadText("!" + s) == Some(BangR(ReadText(s).value))
  {
    hide FirstWord, AfterLit, StartsWith, AndR, BangR, Proper, Bangs;
    BangFirst(s);
    var rest := AfterLit(s);
    if rest == "" {
      BangCombine(Bangs(s), FirstWord(s), [[Lit(0, "x")]]);
    } else {
      LongEnough(rest);
      BangCombine(Bangs(s), FirstWord(s), ReadText(rest[4..]).value);
    }
  }

  lemma BangFirst(s: string)
    ensures Bangs("!" + s) == Bangs(s) + 1 && FirstWord("!" + s) == FirstWord(s) && AfterLit("!" + s) == AfterLit(s)
  {
    hide LeadingWord;
    var t := "!" + s;
    assert t[1..] == s;
    var k := Bangs(s);
    assert t[k + 1..] == s[k..];
    assert t[k + 1 + |FirstWord(s)|..] == s[k + |FirstWord(s)|..];
  }

  lemma BangCombine(k: nat, w: string, r: Reading)
    requires Proper(r)
    ensures var lit, banged := [[Lit(k, w)]], [[Lit(k + 1, w)]];
            && Proper(lit) && Proper(banged) && Proper(lit + r) && banged == BangR(lit)
            && AndR(banged, r) == BangR(AndR(lit, r)) && banged + r == BangR(lit + r)
  {
    var lit, banged := [[Lit(k, w)]], [[Lit(k + 1, w)]];
    assert AndR(lit, r) == [[Lit(k, w)] + r[0]] + r[1..];
    assert AndR(banged, r) == [[Lit(k + 1, w)] + r[0]] + r[1..];
    assert ([Lit(k, w)] + r[0])[1..] == r[0];
    assert (lit + r)[1..] == r && (lit + r)[0] == [Lit(k, w)] && [Lit(k, w)][1..] == [];
    assert [Lit(k + 1, w)] + [] == [Lit(k + 1, w)] && lit[1..] == [];
    assert BangR(lit + r) == [[Lit(k + 1, w)]] + r;
  }

  // ---- the reading of a guard's own text ----

  function Read(g: Guard): (r: Reading)
    requires WellFormed(g)
    ensures Proper(r)
    decreases g, 0
  {
    match g
    case Atom(name) => [[Lit(0, name)]]
    case Not(_, arg) => BangR(Read(arg))
    case And(_, args) => ReadJunction(true, args)
    case Or(_, args) => ReadJunction(false, args)
  }

  function ReadJunction(conj: bool, args: seq<Guard>): (r: Reading)
    requires args != [] && forall a <- args :: WellFormed(a)
    ensures Proper(r)
    decreases args, 1
  {
    assert args[0] in args && forall a <- args[1..] :: a in args;
    if |args| == 1 then Read(args[0]) else Combine(conj, Read(args[0]), ReadJunction(conj, args[1..]))
  }

  lemma ReadWord(w: string)
    requires w != "" && AllWord(w)
    ensures ReadText(w) == Some([[Lit(0, w)]])
  {
    assert w[0] in w;
    assert w + "" == w;
    LeadingWordOf(w, "");
    assert Bangs(w) == 0 && w[0..] == w;
  }

  /** The infix text of a guard reads as `Read` says. */
  lemma {:induction false} TextReads(g: Guard)
    requires WellFormed(g)
    ensures ReadText(Infix(g)) == Some(Read(g))
    decreases g, 0
  {
    hide ReadText, BangR, Combine;
    match g {
      case Atom(name) => ReadWord(name);
      case Not(_, arg) =>
        TextReads(arg);
        ReadBang(Infix(arg));
      case And(_, args) => JunctionReads(true, args);
      case Or(_, args) => JunctionReads(false, args);
    }
  }

  lemma {:induction false} JunctionReads(conj: bool, args: seq<Guard>)
    requires args != [] && forall a <- args :: WellFormed(a)
    ensures ReadText(Join(Infixes(args), Connective(conj))) == Some(ReadJunction(conj, args))
    decreases args, 1
  {
    hide ReadText, Combine, WellFormed, Connective;
    assert args[0] in args && forall a <- args[1..] :: a in args;
    TextReads(args[0]);
    assert Infixes(args)[0] == Infix(args[0]) && Infixes(args)[1..] == Infixes(args[1..]);
    if |args| > 1 {
      JunctionReads(conj, args[1..]);
      ReadJoined(Infix(args[0]), Join(Infixes(args[1..]), Connective(conj)), conj);
    }
  }

  // ---- meanings ----

  type Valuation = string -> bool

  predicate LitHolds(l: Lit, val: Valuation) { if l.bangs % 2 == 0 then val(l.name) else !val(l.name) }

  predicate ConjHolds(c: Conj, val: Valuation) { forall i :: 0 <= i < |c| ==> LitHolds(c[i], val) }

  predicate Meaning(r: Reading, val: Valuation) { exists i :: 0 <= i < |r| && ConjHolds(r[i], val) }

  predicate Eval(g: Guard, val: Valuation) {
    match g
    case Atom(name) => val(name)
    case Not(_, arg) => !Eval(arg, val)
    case And(_, args) => forall a <- args :: Eval(a, val)
    case Or(_, args) => exists a <- args :: Eval(a, val)
  }

  lemma OrMeaning(a: Reading, b: Reading, val: Valuation)
    ensures Meaning(a + b, val) <==> Meaning(a, val) || Meaning(b, val)
  {
    if i :| 0 <= i < |a| && ConjHolds(a[i], val) { assert (a + b)[i] == a[i]; }
    if i :| 0 <= i < |b| && ConjHolds(b[i], val) { assert (a + b)[|a| + i] == b[i]; }
    if i :| 0 <= i < |a + b| && ConjHolds((a + b)[i], val) {
      assert (a + b)[i] == if i < |a| then a[i] else b[i - |a|];
    }
  }

  lemma AndMeaning(a: Reading, b: Reading, val: Valuation)
    requires |a| == |b| == 1 && Proper(a) && Proper(b)
    ensures Meaning(AndR(a, b), val) <==> Meaning(a, val) && Meaning(b, val)
  {
    hide ConjHolds;
    assert AndR(a, b) == [a[0] + b[0]] && a == [a[0]] && b == [b[0]];
    ConjMeaning(a[0], b[0], val);
    Single(a[0], val);
    Single(b[0], val);
    Single(a[0] + b[0], val);
  }

  lemma Single(c: Conj, val: Valuation)
    ensures Meaning([c], val) <==> ConjHolds(c, val)
  {
    assert [c][0] == c;
  }

  lemma ConjMeaning(a: Conj, b: Conj, val: Valuation)
    ensures ConjHolds(a + b, val) <==> ConjHolds(a, val) && ConjHolds(b, val)
  {
    if ConjHolds(a + b, val) {
      forall i | 0 <= i < |a| ensures LitHolds(a[i], val) { assert (a + b)[i] == a[i]; }
      forall i | 0 <= i < |b| ensures LitHolds(b[i], val) { assert (a + b)[|a| + i] == b[i]; }
    }
  }

  lemma BangMeaning(a: Reading, val: Valuation)
    requires |a| == 1 && |a[0]| == 1
    ensures Meaning(BangR(a), val) <==> !Meaning(a, val)
  {
    var l := a[0][0];
    assert a[0] == [l] && a == [a[0]] && a[0][1..] == [] && a[1..] == [];
    assert BangR(a)[0] == [l.(bangs := l.bangs + 1)];
    assert BangR(a) == [[l.(bangs := l.bangs + 1)]];
    Single([l], val);
    Single([l.(bangs := l.bangs + 1)], val);
    assert ConjHolds([l], val) <==> LitHolds([l][0], val);
    assert ConjHolds([l.(bangs := l.bangs + 1)], val) <==> LitHolds([l.(bangs := l.bangs + 1)][0], val);
  }

  // ---- guards whose text keeps their meaning ----

  /** An atom under any number of negations. */
  predicate IsLiteral(g: Guard) {
    match g
    case Atom(_) => true
    case Not(_, arg) => IsLiteral(arg)
    case And(_, args) => |args| == 1 && IsLiteral(args[0])
    case Or(_, args) => |args| == 1 && IsLiteral(args[0])
  }

  /** No Or with several arguments outside negations. */
  predicate IsConjunction(g: Guard) {
    match g
    case Atom(_) => true
    case Not(_, arg) => IsConjunction(arg)
    case And(_, args) => forall a <- args :: IsConjunction(a)
    case Or(_, args) => |args| == 1 && IsConjunction(args[0])
  }

  /** Not applies only to literals, and Or never sits under And. */
  predicate Safe(g: Guard) {
    match g
    case Atom(_) => true
    case Not(_, arg) => Safe(arg) && IsLiteral(arg)
    case And(_, args) => (forall a <- args :: Safe(a)) && (|args| == 1 || forall a <- args :: IsConjunction(a))
    case Or(_, args) => forall a <- args :: Safe(a)
  }

  lemma {:induction false} ReadSizes(g: Guard)
    requires WellFormed(g)
    ensures IsConjunction(g) <==> |Read(g)| == 1
    ensures IsLiteral(g) <==> |Read(g)| == 1 && |Read(g)[0]| == 1
    decreases g, 0
  {
    match g {
      case Atom(_) =>
      case Not(_, arg) => ReadSizes(arg);
      case And(_, args) => JunctionSizes(true, args);
      case Or(_, args) => JunctionSizes(false, args);
    }
  }

  lemma {:induction false} JunctionSizes(conj: bool, args: seq<Guard>)
    requires args != [] && forall a <- args :: WellFormed(a)
    ensures var r := ReadJunction(conj, args);
            && (conj ==> (|r| == 1 <==> forall a <- args :: IsConjunction(a)))
            && (!conj ==> (|r| == 1 <==> |args| == 1 && IsConjunction(args[0])))
            && (|r| == 1 && |r[0]| == 1 <==> |args| == 1 && IsLiteral(args[0]))
    decreases args, 1
  {
    hide IsConjunction, IsLiteral, WellFormed, Read;
    assert args[0] in args && forall a <- args[1..] :: a in args;
    ReadSizes(args[0]);
    if |args| > 1 {
      JunctionSizes(conj, args[1..]);
      assert forall a <- args :: a == args[0] || a in args[1..];
    }
  }

  /** The text of a safe guard means what the guard means. */
  lemma {:induction false} SafeKeepsMeaning(g: Guard, val: Valuation)
    requires WellFormed(g) && Safe(g)
    ensures Meaning(Read(g), val) <==> Eval(g, val)
    decreases g, 0
  {
    hide IsLiteral, IsConjunction;
    match g {
      case Atom(name) =>
        Single([Lit(0, name)], val);
        assert ConjHolds([Lit(0, name)], val) <==> LitHolds([Lit(0, name)][0], val);
      case Not(_, arg) =>
        ReadSizes(arg);
        SafeKeepsMeaning(arg, val);
        BangMeaning(Read(arg), val);
      case And(_, args) => SafeAnd(args, val);
      case Or(_, args) => SafeOr(args, val);
    }
  }

  lemma {:induction false} SafeAnd(args: seq<Guard>, val: Valuation)
    requires args != [] && (forall a <- args :: WellFormed(a) && Safe(a)) &&
      (|args| == 1 || forall a <- args :: IsConjunction(a))
    ensures Meaning(ReadJunction(true, args), val) <==> forall a <- args :: Eval(a, val)
    decreases args, 1
  {
    hide IsConjunction, WellFormed, Safe, Meaning, AndR, Read, Eval;
    assert args[0] in args && forall a <- args[1..] :: a in args;
    SafeKeepsMeaning(args[0], val);
    assert forall a <- args :: a == args[0] || a in args[1..];
    if |args| > 1 {
      SafeAnd(args[1..], val);
      ReadSizes(args[0]);
      JunctionSizes(true, args[1..]);
      AndMeaning(Read(args[0]), ReadJunction(true, args[1..]), val);
    }
  }

  lemma {:induction false} SafeOr(args: seq<Guard>, val: Valuation)
    requires args != [] && forall a <- args :: WellFormed(a) && Safe(a)
    ensures Meaning(ReadJunction(false, args), val) <==> exists a <- args :: Eval(a, val)
    decreases args, 1
  {
    hide WellFormed, Safe, Meaning, Read, Eval;
    assert args[0] in args && forall a <- args[1..] :: a in args;
    SafeKeepsMeaning(args[0], val);
    assert forall a <- args :: a == args[0] || a in args[1..];
    if |args| > 1 {
      SafeOr(args[1..], val);
      OrMeaning(Read(args[0]), ReadJunction(false, args[1..]), val);
    }
  }

  /** The text says what the guard says, under every valuation. */
  ghost predicate KeepsMeaning(g: Guard)
    requires WellFormed(g)
  {
    forall val: Valuation :: Meaning(Read(g), val) <==> Eval(g, val)
  }
}
