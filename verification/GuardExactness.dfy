/**
 Exactly which guards over different atoms keep their meaning in the infix text: those in which,
 once double negations cancel, Not applies only to atoms and Or never sits under And. Any other
 guard has an atom that the text negates wrongly, or two atoms that the guard requires together and
 the text does not.
 */
module GuardExactness {
  import opened Guards
  import opened GuardMeaning

  // ---- the atoms of a guard ----

  function Atoms(g: Guard): (s: set<string>) {
    match g
    case Atom(name) => {name}
    case Not(_, arg) => Atoms(arg)
    case And(_, args) => set a <- args, n <- Atoms(a) :: n
    case Or(_, args) => set a <- args, n <- Atoms(a) :: n
  }

  predicate Apart(args: seq<Guard>) {
    forall i, j :: 0 <= i < j < |args| ==> Atoms(args[i]) !! Atoms(args[j])
  }

  /** No atom occurs twice. */
  predicate Once(g: Guard) {
    match g
    case Atom(_) => true
    case Not(_, arg) => Once(arg)
    case And(_, args) => Apart(args) && forall a <- args :: Once(a)
    case Or(_, args) => Apart(args) && forall a <- args :: Once(a)
  }

  lemma {:induction false} EvalLocal(g: Guard, v: Valuation, w: Valuation)
    requires forall n <- Atoms(g) :: v(n) == w(n)
    ensures Eval(g, v) == Eval(g, w)
  {
    match g {
      case Atom(_) =>
      case Not(_, arg) => EvalLocal(arg, v, w);
      case And(_, args) => forall a | a in args ensures Eval(a, v) == Eval(a, w) { EvalLocal(a, v, w); }
      case Or(_, args) => forall a | a in args ensures Eval(a, v) == Eval(a, w) { EvalLocal(a, v, w); }
    }
  }

  // ---- valuations ----

  function Flip(val: Valuation, n: string): (w: Valuation) { m => if m == n then !val(m) else val(m) }

  /** `v` on the atoms in `s`, `w` elsewhere. */
  function Both(s: set<string>, v: Valuation, w: Valuation): (val: Valuation) { n => if n in s then v(n) else w(n) }

  predicate EvalAll(conj: bool, args: seq<Guard>, val: Valuation) {
    if conj then forall a <- args :: Eval(a, val) else exists a <- args :: Eval(a, val)
  }

  /** If all arguments but one are neutral, the junction is that one. */
  lemma OneDecides(conj: bool, args: seq<Guard>, val: Valuation, k: nat)
    requires k < |args| && forall i :: 0 <= i < |args| && i != k ==> Eval(args[i], val) == conj
    ensures EvalAll(conj, args, val) == Eval(args[k], val)
  {
    assert args[k] in args;
    forall a | a in args ensures a == args[k] || Eval(a, val) == conj {
      var i :| 0 <= i < |args| && args[i] == a;
    }
  }

  lemma {:induction false} Makeable(g: Guard, value: bool) returns (val: Valuation)
    requires WellFormed(g) && Once(g)
    ensures Eval(g, val) == value
    decreases g, 0
  {
    match g {
      case Atom(_) => val := n => value;
      case Not(_, arg) => val := Makeable(arg, !value);
      case And(_, args) =>
        val := AllMakeable(args, value);
        assert args[0] in args;
      case Or(_, args) =>
        val := AllMakeable(args, value);
        assert args[0] in args;
    }
  }

  lemma {:induction false} AllMakeable(args: seq<Guard>, value: bool) returns (val: Valuation)
    requires Apart(args) && forall a <- args :: WellFormed(a) && Once(a)
    ensures forall a <- args :: Eval(a, val) == value
    decreases args, 1
  {
    if args == [] {
      val := n => value;
    } else {
      var k := |args| - 1;
      assert args[k] in args && forall a <- args[..k] :: a in args;
      var v := Makeable(args[k], value);
      var w := AllMakeable(args[..k], value);
      val := Both(Atoms(args[k]), v, w);
      EvalLocal(args[k], val, v);
      forall a | a in args ensures Eval(a, val) == value {
        var i :| 0 <= i < |args| && args[i] == a;
        if i < k {
          assert args[..k][i] == a;
          EvalLocal(a, val, w);
        }
      }
    }
  }

  /** A valuation of one argument extends to one under which all others are neutral. */
  lemma Focus(conj: bool, args: seq<Guard>, k: nat, v: Valuation) returns (val: Valuation)
    requires k < |args| && Apart(args) && forall a <- args :: WellFormed(a) && Once(a)
    ensures forall n <- Atoms(args[k]) :: val(n) == v(n)
    ensures forall i :: 0 <= i < |args| && i != k ==> Eval(args[i], val) == conj
  {
    hide Eval, Atoms;
    var w := AllMakeable(args, conj);
    val := Both(Atoms(args[k]), v, w);
    forall i | 0 <= i < |args| && i != k ensures Eval(args[i], val) == conj {
      assert args[i] in args;
      assert Atoms(args[i]) !! Atoms(args[k]);
      EvalLocal(args[i], val, w);
    }
  }

  /** Under such a valuation, and with an atom of that argument flipped, the junction is the argument. */
  lemma Focused(conj: bool, args: seq<Guard>, k: nat, v: Valuation, val: Valuation, n: string)
    requires k < |args| && Apart(args) && n in Atoms(args[k])
    requires forall m <- Atoms(args[k]) :: val(m) == v(m)
    requires forall i :: 0 <= i < |args| && i != k ==> Eval(args[i], val) == conj
    ensures EvalAll(conj, args, val) == Eval(args[k], v)
    ensures EvalAll(conj, args, Flip(val, n)) == Eval(args[k], Flip(v, n))
  {
    hide Eval, Atoms;
    EvalLocal(args[k], val, v);
    OneDecides(conj, args, val, k);
    EvalLocal(args[k], Flip(val, n), Flip(v, n));
    forall i | 0 <= i < |args| && i != k ensures Eval(args[i], Flip(val, n)) == conj {
      assert Atoms(args[i]) !! Atoms(args[k]);
      EvalLocal(args[i], Flip(val, n), val);
    }
    OneDecides(conj, args, Flip(val, n), k);
  }

  // ---- the literals of a reading ----

  function Flat(r: Reading): (c: Conj) { if r == [] then [] else r[0] + Flat(r[1..]) }

  predicate ReadOnce(c: Conj) { forall i, j :: 0 <= i < j < |c| ==> c[i].name != c[j].name }

  function NamesIn(c: Conj): (s: set<string>) { set l <- c :: l.name }

  /** The reading's atoms are those in `s`, each occurring once. */
  ghost predicate Over(r: Reading, s: set<string>) { Proper(r) && ReadOnce(Flat(r)) && NamesIn(Flat(r)) == s }

  ghost predicate Has(r: Reading, l: Lit) { exists i :: 0 <= i < |r| && l in r[i] }

  lemma {:induction false} FlatHas(r: Reading, l: Lit)
    ensures l in Flat(r) <==> Has(r, l)
  {
    if r != [] {
      FlatHas(r[1..], l);
      if i :| 0 <= i < |r| && l in r[i] { assert i > 0 ==> l in r[1..][i - 1]; }
      if i :| 0 <= i < |r[1..]| && l in r[1..][i] { assert l in r[i + 1]; }
      assert l in r[0] ==> Has(r, l);
    }
  }

  lemma {:induction false} FlatAppend(a: Reading, b: Reading)
    ensures Flat(a + b) == Flat(a) + Flat(b)
  {
    if a == [] {
      assert a + b == b;
    } else {
      FlatAppend(a[1..], b);
      assert (a + b)[1..] == a[1..] + b;
    }
  }

  lemma FlatAnd(a: Reading, b: Reading)
    requires Proper(a) && Proper(b)
    ensures Flat(AndR(a, b)) == Flat(a) + Flat(b)
  {
    hide Flat;
    var n := |a| - 1;
    var front, back := a[..n], b[1..];
    assert a == front + [a[n]] && b == [b[0]] + back;
    FlatLast(front, a[n]);
    FlatFirst(b[0], back);
    FlatLast(front, a[n] + b[0]);
    FlatAppend(front + [a[n] + b[0]], back);
    Regrouped(Flat(front), a[n], b[0], Flat(back));
  }

  lemma FlatLast(front: Reading, c: Conj)
    ensures Flat(front + [c]) == Flat(front) + c
  {
    FlatAppend(front, [c]);
    FlatOne(c);
  }

  lemma FlatFirst(c: Conj, back: Reading)
    ensures Flat([c] + back) == c + Flat(back)
  {
    FlatAppend([c], back);
    FlatOne(c);
  }

  lemma Regrouped(x: Conj, y: Conj, z: Conj, w: Conj)
    ensures x + (y + z) + w == x + y + (z + w)
  {
  }

  lemma FlatOne(c: Conj)
    ensures Flat([c]) == c
  {
    assert [c][1..] == [];
  }

  lemma OverCombined(conj: bool, a: Reading, b: Reading, s: set<string>, t: set<string>)
    requires Over(a, s) && Over(b, t) && s !! t
    ensures Over(Combine(conj, a, b), s + t)
  {
    FlatAnd(a, b);
    FlatAppend(a, b);
    JoinedOnce(Flat(a), Flat(b));
  }

  lemma JoinedOnce(a: Conj, b: Conj)
    requires ReadOnce(a) && ReadOnce(b) && NamesIn(a) !! NamesIn(b)
    ensures ReadOnce(a + b) && NamesIn(a + b) == NamesIn(a) + NamesIn(b)
  {
    forall i, j | 0 <= i < j < |a + b| ensures (a + b)[i].name != (a + b)[j].name {
      if i < |a| <= j { assert a[i].name in NamesIn(a) && b[j - |a|].name in NamesIn(b); }
    }
  }

  lemma OverBang(r: Reading, s: set<string>)
    requires Over(r, s)
    ensures Over(BangR(r), s)
  {
    hide ReadOnce, NamesIn, BangR;
    FlatBang(r);
    SameNames(Flat(r), Flat(BangR(r)));
  }

  lemma FlatBang(r: Reading)
    requires Proper(r)
    ensures |Flat(BangR(r))| == |Flat(r)| && forall i :: 0 <= i < |Flat(r)| ==>
      Flat(BangR(r))[i].name == Flat(r)[i].name
  {
    var l := r[0][0];
    var b := [l.(bangs := l.bangs + 1)] + r[0][1..];
    assert BangR(r) == [b] + r[1..] && BangR(r)[1..] == r[1..];
    assert Flat(BangR(r)) == b + Flat(r[1..]);
  }

  lemma SameNames(c: Conj, d: Conj)
    requires |c| == |d| && forall i :: 0 <= i < |c| ==> c[i].name == d[i].name
    ensures NamesIn(c) == NamesIn(d) && (ReadOnce(c) ==> ReadOnce(d))
  {
    forall n | n in NamesIn(c) ensures n in NamesIn(d) {
      var i :| 0 <= i < |c| && c[i].name == n;
      assert d[i] in d;
    }
    forall n | n in NamesIn(d) ensures n in NamesIn(c) {
      var i :| 0 <= i < |d| && d[i].name == n;
      assert c[i] in c;
    }
  }

  function AtomsOf(args: seq<Guard>): (s: set<string>) { set a <- args, n <- Atoms(a) :: n }

  lemma {:induction false} ReadOver(g: Guard)
    requires WellFormed(g) && Once(g)
    ensures Over(Read(g), Atoms(g))
    decreases g, 0
  {
    hide Over, BangR;
    match g {
      case Atom(name) => AtomOver(name);
      case Not(_, arg) =>
        ReadOver(arg);
        OverBang(Read(arg), Atoms(arg));
      case And(_, args) => JunctionOver(true, args);
      case Or(_, args) => JunctionOver(false, args);
    }
  }

  lemma AtomOver(name: string)
    ensures Over([[Lit(0, name)]], {name})
  {
    assert [[Lit(0, name)]][1..] == [] && Flat([[Lit(0, name)]]) == [Lit(0, name)];
  }

  lemma {:induction false} JunctionOver(conj: bool, args: seq<Guard>)
    requires args != [] && Apart(args) && forall a <- args :: WellFormed(a) && Once(a)
    ensures Over(ReadJunction(conj, args), AtomsOf(args))
    decreases args, 1
  {
    hide Over, Combine, WellFormed, Once;
    assert args[0] in args && forall a <- args[1..] :: a in args;
    ReadOver(args[0]);
    SplitAtoms(args);
    if |args| == 1 {
      assert args[1..] == [] && AtomsOf(args[1..]) == {} && AtomsOf(args) == Atoms(args[0]);
    } else {
      JunctionOver(conj, args[1..]);
      OverCombined(conj, Read(args[0]), ReadJunction(conj, args[1..]), Atoms(args[0]), AtomsOf(args[1..]));
    }
  }

  lemma SplitAtoms(args: seq<Guard>)
    requires args != [] && Apart(args)
    ensures AtomsOf(args) == Atoms(args[0]) + AtomsOf(args[1..]) && Atoms(args[0]) !! AtomsOf(args[1..]) &&
      Apart(args[1..])
  {
    assert args == [args[0]] + args[1..];
    forall n | n in AtomsOf(args[1..]) ensures n !in Atoms(args[0]) {
      var a :| a in args[1..] && n in Atoms(a);
      var i :| 0 <= i < |args[1..]| && args[1..][i] == a;
      assert args[i + 1] == a;
    }
  }

  /** Literals with the same atom are the same literal, in the same conjunct. */
  lemma Unique(r: Reading, s: set<string>, i: nat, j: nat, l: Lit, m: Lit)
    requires Over(r, s) && i < |r| && j < |r| && l in r[i] && m in r[j] && l.name == m.name
    ensures l == m && i == j
  {
    if i < j {
      TwicePlaced(r, i, j, l, m);
    } else if j < i {
      TwicePlaced(r, j, i, m, l);
    } else {
      FlatHas(r, l);
      FlatHas(r, m);
      var x :| 0 <= x < |Flat(r)| && Flat(r)[x] == l;
      var y :| 0 <= y < |Flat(r)| && Flat(r)[y] == m;
      assert x == y;
    }
  }

  lemma {:induction false} TwicePlaced(r: Reading, i: nat, j: nat, l: Lit, m: Lit)
    requires ReadOnce(Flat(r)) && i < j < |r| && l in r[i] && m in r[j]
    ensures l.name != m.name
    decreases |r|
  {
    var c := Flat(r);
    if i == 0 {
      assert r[1..][j - 1] == r[j];
      FlatHas(r[1..], m);
      var x :| 0 <= x < |r[0]| && r[0][x] == l;
      var y :| 0 <= y < |Flat(r[1..])| && Flat(r[1..])[y] == m;
      assert c[x] == l && c[|r[0]| + y] == m;
    } else {
      OnceTail(r[0], Flat(r[1..]));
      TwicePlaced(r[1..], i - 1, j - 1, l, m);
    }
  }

  lemma OnceTail(a: Conj, b: Conj)
    requires ReadOnce(a + b)
    ensures ReadOnce(b)
  {
    assert forall i :: 0 <= i < |b| ==> (a + b)[|a| + i] == b[i];
  }

  // ---- what shows that a reading is not the guard ----

  /** No conjunct holds both literals. */
  ghost predicate Parted(r: Reading, l: Lit, m: Lit) { forall i :: 0 <= i < |r| ==> !(l in r[i] && m in r[i]) }

  /** The guard becomes true as a literal of the text becomes false. */
  ghost predicate Inverted(g: Guard, l: Lit, val: Valuation)
    requires WellFormed(g)
  {
    Has(Read(g), l) && LitHolds(l, val) && !Eval(g, val) && Eval(g, Flip(val, l.name))
  }

  /** The guard needs two literals that the text does not join. */
  ghost predicate Severed(g: Guard, l: Lit, m: Lit, val: Valuation)
    requires WellFormed(g)
  {
    && Has(Read(g), l) && Has(Read(g), m) && Parted(Read(g), l, m)
    && LitHolds(l, val) && LitHolds(m, val)
    && Eval(g, val) && !Eval(g, Flip(val, l.name)) && !Eval(g, Flip(val, m.name))
  }

  ghost predicate Broken(g: Guard)
    requires WellFormed(g)
  {
    || (exists l, val: Valuation :: Inverted(g, l, val))
    || (exists l, m, val: Valuation :: Severed(g, l, m, val))
  }

  /** Flipping an atom does not touch a conjunct without its literal. */
  lemma ConjUntouched(r: Reading, s: set<string>, i: nat, l: Lit, v: Valuation, w: Valuation)
    requires Over(r, s) && Has(r, l) && i < |r| && l !in r[i] && ConjHolds(r[i], v)
    requires forall n :: n != l.name ==> v(n) == w(n)
    ensures Meaning(r, w)
  {
    var j :| 0 <= j < |r| && l in r[j];
    forall k | 0 <= k < |r[i]| ensures LitHolds(r[i][k], w) {
      assert r[i][k] in r[i];
      if r[i][k].name == l.name { Unique(r, s, j, i, l, r[i][k]); }
    }
    assert ConjHolds(r[i], w);
  }

  lemma BrokenLosesMeaning(g: Guard)
    requires WellFormed(g) && Once(g) && Broken(g)
    ensures !KeepsMeaning(g)
  {
    hide Over, Has, Eval, Once, WellFormed, Meaning, Read;
    var r := Read(g);
    ReadOver(g);
    if l, val: Valuation :| Inverted(g, l, val) {
      InvertedDiffers(g, l, val);
    } else {
      var l, m, val: Valuation :| Severed(g, l, m, val);
      SeveredDiffers(g, l, m, val);
    }
  }

  lemma InvertedDiffers(g: Guard, l: Lit, val: Valuation)
    requires WellFormed(g) && Over(Read(g), Atoms(g)) && Inverted(g, l, val)
    ensures !KeepsMeaning(g)
  {
    hide Over, Has, Eval, WellFormed, Read;
    var r := Read(g);
    var w := Flip(val, l.name);
    if Meaning(r, w) {
      var i :| 0 <= i < |r| && ConjHolds(r[i], w);
      assert !LitHolds(l, w);
      assert forall k :: 0 <= k < |r[i]| ==> LitHolds(r[i][k], w);
      ConjUntouched(r, Atoms(g), i, l, w, val);
    }
  }

  lemma SeveredDiffers(g: Guard, l: Lit, m: Lit, val: Valuation)
    requires WellFormed(g) && Over(Read(g), Atoms(g)) && Severed(g, l, m, val)
    ensures !KeepsMeaning(g)
  {
    hide Over, Has, Eval, WellFormed, Read;
    var r := Read(g);
    if Meaning(r, val) {
      var i :| 0 <= i < |r| && ConjHolds(r[i], val);
      if l !in r[i] {
        ConjUntouched(r, Atoms(g), i, l, val, Flip(val, l.name));
      } else {
        ConjUntouched(r, Atoms(g), i, m, val, Flip(val, m.name));
      }
    }
  }

  // ---- junctions ----

  function Junction(conj: bool, args: seq<Guard>): (g: Guard) { if conj then And(true, args) else Or(true, args) }

  lemma CombineHas(conj: bool, a: Reading, b: Reading, l: Lit)
    requires Proper(a) && Proper(b)
    ensures Has(Combine(conj, a, b), l) <==> Has(a, l) || Has(b, l)
  {
    FlatAnd(a, b);
    FlatAppend(a, b);
    FlatHas(a, l);
    FlatHas(b, l);
    FlatHas(Combine(conj, a, b), l);
  }

  lemma CombineParted(conj: bool, a: Reading, b: Reading, l: Lit, m: Lit)
    requires Proper(a) && Proper(b)
    requires (Parted(a, l, m) && !Has(b, l) && !Has(b, m)) || (Parted(b, l, m) && !Has(a, l) && !Has(a, m))
    ensures Parted(Combine(conj, a, b), l, m)
  {
    var r := Combine(conj, a, b);
    var n := |a| - 1;
    assert conj ==> r[n] == a[n] + b[0];
    assert conj ==> forall i :: 0 <= i < n ==> r[i] == a[i];
    assert conj ==> forall i :: n < i < |r| ==> r[i] == b[i - n];
  }

  lemma {:induction false} JunctionHas(conj: bool, args: seq<Guard>, k: nat, l: Lit)
    requires k < |args| && (forall a <- args :: WellFormed(a)) && Has(Read(args[k]), l)
    ensures Has(ReadJunction(conj, args), l)
    decreases |args|
  {
    hide Has, Combine, WellFormed;
    assert args[0] in args && args[k] in args && forall a <- args[1..] :: a in args;
    if |args| > 1 {
      CombineHas(conj, Read(args[0]), ReadJunction(conj, args[1..]), l);
      if k > 0 { JunctionHas(conj, args[1..], k - 1, l); }
    }
  }

  lemma OverHas(r: Reading, s: set<string>, l: Lit)
    requires Over(r, s) && Has(r, l)
    ensures l.name in s
  {
    FlatHas(r, l);
  }

  lemma {:induction false} JunctionParted(conj: bool, args: seq<Guard>, k: nat, l: Lit, m: Lit)
    requires k < |args| && Apart(args) && forall a <- args :: WellFormed(a) && Once(a)
    requires Parted(Read(args[k]), l, m) && Has(Read(args[k]), l) && Has(Read(args[k]), m)
    ensures Parted(ReadJunction(conj, args), l, m)
    decreases |args|
  {
    hide Has, Combine, WellFormed, Parted, Over, Once, Apart;
    assert args[0] in args && args[k] in args && forall a <- args[1..] :: a in args;
    if |args| > 1 {
      SplitAtoms(args);
      var a, b := Read(args[0]), ReadJunction(conj, args[1..]);
      ReadOver(args[0]);
      JunctionOver(conj, args[1..]);
      if k == 0 {
        NotBoth(a, b, Atoms(args[0]), AtomsOf(args[1..]), l);
        NotBoth(a, b, Atoms(args[0]), AtomsOf(args[1..]), m);
      } else {
        JunctionParted(conj, args[1..], k - 1, l, m);
        JunctionHas(conj, args[1..], k - 1, l);
        JunctionHas(conj, args[1..], k - 1, m);
        NotBoth(b, a, AtomsOf(args[1..]), Atoms(args[0]), l);
        NotBoth(b, a, AtomsOf(args[1..]), Atoms(args[0]), m);
      }
      CombineParted(conj, a, b, l, m);
    }
  }

  lemma NotBoth(a: Reading, b: Reading, s: set<string>, t: set<string>, l: Lit)
    requires Over(a, s) && Over(b, t) && s !! t && Has(a, l)
    ensures !Has(b, l)
  {
    OverHas(a, s, l);
    if Has(b, l) { OverHas(b, t, l); }
  }

  lemma SameLit(l: Lit, v: Valuation, w: Valuation)
    requires v(l.name) == w(l.name)
    ensures LitHolds(l, v) == LitHolds(l, w)
  {
  }

  /** What breaks an argument breaks the junction. */
  lemma BrokenArgument(conj: bool, args: seq<Guard>, k: nat)
    requires k < |args| && Apart(args) && (forall a <- args :: WellFormed(a) && Once(a))
    requires args[k] in args && Broken(args[k])
    ensures Broken(Junction(conj, args))
  {
    hide Has, Parted, Over, Apart, Eval, Once, ReadJunction, Atoms;
    var a := args[k];
    ReadOver(a);
    if l, v: Valuation :| Inverted(a, l, v) {
      OverHas(Read(a), Atoms(a), l);
      var val := Focus(conj, args, k, v);
      Focused(conj, args, k, v, val, l.name);
      SameLit(l, v, val);
      JunctionHas(conj, args, k, l);
      JunctionEval(conj, args, val);
      JunctionEval(conj, args, Flip(val, l.name));
      assert Inverted(Junction(conj, args), l, val);
    } else {
      var l, m, v: Valuation :| Severed(a, l, m, v);
      SeveredArgument(conj, args, k, l, m, v);
    }
  }

  lemma JunctionEval(conj: bool, args: seq<Guard>, val: Valuation)
    ensures Eval(Junction(conj, args), val) == EvalAll(conj, args, val)
  {
  }

  lemma SeveredArgument(conj: bool, args: seq<Guard>, k: nat, l: Lit, m: Lit, v: Valuation)
    requires k < |args| && Apart(args) && (forall a <- args :: WellFormed(a) && Once(a))
    requires args[k] in args && Severed(args[k], l, m, v)
    ensures Broken(Junction(conj, args))
  {
    hide Has, Parted, Over, Apart, Eval, Once, ReadJunction, Atoms;
    var a := args[k];
    ReadOver(a);
    OverHas(Read(a), Atoms(a), l);
    OverHas(Read(a), Atoms(a), m);
    var val := Focus(conj, args, k, v);
    Focused(conj, args, k, v, val, l.name);
    Focused(conj, args, k, v, val, m.name);
    SameLit(l, v, val);
    SameLit(m, v, val);
    JunctionHas(conj, args, k, l);
    JunctionHas(conj, args, k, m);
    JunctionParted(conj, args, k, l, m);
    JunctionEval(conj, args, val);
    JunctionEval(conj, args, Flip(val, l.name));
    JunctionEval(conj, args, Flip(val, m.name));
    assert Severed(Junction(conj, args), l, m, val);
  }

  // ---- the first literal of a text ----

  function FirstLit(r: Reading): (l: Lit)
    requires Proper(r)
  {
    r[0][0]
  }

  /** A guard can always be made to depend on the first literal of its text, and in its direction. */
  ghost predicate Follows(g: Guard, l: Lit, val: Valuation) {
    LitHolds(l, val) && Eval(g, val) && !Eval(g, Flip(val, l.name))
  }

  lemma FirstOfJunction(conj: bool, args: seq<Guard>)
    requires args != [] && forall a <- args :: WellFormed(a)
    ensures args[0] in args && FirstLit(ReadJunction(conj, args)) == FirstLit(Read(args[0]))
  {
    assert args[0] in args && forall a <- args[1..] :: a in args;
  }

  lemma FirstIn(g: Guard)
    requires WellFormed(g) && Once(g)
    ensures Has(Read(g), FirstLit(Read(g))) && FirstLit(Read(g)).name in Atoms(g)
  {
    hide Over, Once, WellFormed;
    ReadOver(g);
    assert Read(g)[0][0] in Read(g)[0];
    OverHas(Read(g), Atoms(g), FirstLit(Read(g)));
  }

  lemma {:induction false} FirstFollows(g: Guard) returns (val: Valuation)
    requires WellFormed(g) && Once(g)
    ensures Follows(g, FirstLit(Read(g)), val)
    decreases g, 0
  {
    match g {
      case Atom(_) => val := n => true;
      case Not(_, arg) =>
        var v := FirstFollows(arg);
        var n := FirstLit(Read(arg)).name;
        val := Flip(v, n);
        EvalLocal(arg, Flip(val, n), v);
      case And(_, args) =>
        val := FirstOfArgs(true, args);
      case Or(_, args) =>
        val := FirstOfArgs(false, args);
    }
  }

  lemma {:induction false} FirstOfArgs(conj: bool, args: seq<Guard>) returns (val: Valuation)
    requires args != [] && Apart(args) && forall a <- args :: WellFormed(a) && Once(a)
    ensures Follows(Junction(conj, args), FirstLit(ReadJunction(conj, args)), val)
    decreases args, 1
  {
    hide Eval, Once, WellFormed, Apart, Atoms, Read, ReadJunction, FirstLit, Has;
    FirstOfJunction(conj, args);
    var v := FirstFollows(args[0]);
    val := ArgumentFollows(conj, args, 0, FirstLit(Read(args[0])), v);
  }

  /** If an argument follows a literal, so does the junction. */
  lemma ArgumentFollows(conj: bool, args: seq<Guard>, k: nat, l: Lit, v: Valuation) returns (val: Valuation)
    requires k < |args| && Apart(args) && (forall a <- args :: WellFormed(a) && Once(a))
    requires args[k] in args && Follows(args[k], l, v)
    ensures Follows(Junction(conj, args), l, val)
  {
    hide Eval, Once, WellFormed, Apart, Atoms;
    if l.name in Atoms(args[k]) {
      val := Focus(conj, args, k, v);
      Focused(conj, args, k, v, val, l.name);
      SameLit(l, v, val);
      JunctionEval(conj, args, val);
      JunctionEval(conj, args, Flip(val, l.name));
    } else {
      EvalLocal(args[k], v, Flip(v, l.name));
      val := v;
    }
  }

  // ---- Not over several literals ----

  /** Negating a junction negates only its first literal; the first of the second argument is inverted. */
  lemma NotOverJunction(sp: Spelling, x: Guard, conj: bool, args: seq<Guard>)
    requires |args| >= 2 && Apart(args) && (forall a <- args :: WellFormed(a) && Once(a))
    requires (conj ==> x.And? && x.args == args) && (!conj ==> x.Or? && x.args == args)
    ensures Broken(Not(sp, x))
  {
    hide Once, Apart, Atoms, Has, Over, Follows, Eval;
    assert args[0] in args && args[1] in args;
    var l := FirstLit(Read(args[1]));
    FirstIn(args[1]);
    var v := FirstFollows(args[1]);
    var val := ArgumentFollows(conj, args, 1, l, v);
    JunctionHas(conj, args, 1, l);
    SecondIsNotFirst(conj, args);
    BangHas(ReadJunction(conj, args), l);
    NegatedFollows(sp, x, conj, args, l, val);
    assert WellFormed(x) && Read(x) == ReadJunction(conj, args);
    assert Inverted(Not(sp, x), l, val);
  }

  lemma NegatedFollows(sp: Spelling, x: Guard, conj: bool, args: seq<Guard>, l: Lit, val: Valuation)
    requires (conj ==> x.And? && x.args == args) && (!conj ==> x.Or? && x.args == args)
    requires Follows(Junction(conj, args), l, val)
    ensures LitHolds(l, val) && !Eval(Not(sp, x), val) && Eval(Not(sp, x), Flip(val, l.name))
  {
  }

  lemma SecondIsNotFirst(conj: bool, args: seq<Guard>)
    requires |args| >= 2 && Apart(args) && (forall a <- args :: WellFormed(a) && Once(a))
    ensures args[0] in args && args[1] in args
    ensures FirstLit(Read(args[1])).name != FirstLit(ReadJunction(conj, args)).name
  {
    hide Once, WellFormed, Atoms, Has, Read, ReadJunction, FirstLit;
    assert args[0] in args && args[1] in args;
    FirstOfJunction(conj, args);
    FirstIn(args[0]);
    FirstIn(args[1]);
    assert Atoms(args[0]) !! Atoms(args[1]);
  }

  lemma BangHas(r: Reading, l: Lit)
    requires Proper(r) && Has(r, l) && l.name != FirstLit(r).name
    ensures Has(BangR(r), l)
  {
    var i :| 0 <= i < |r| && l in r[i];
    var k :| 0 <= k < |r[i]| && r[i][k] == l;
    assert BangR(r)[i][k] == l;
  }

  // ---- And over a disjunction ----

  /** Exactly the literals of conjunct `c` hold. */
  ghost function Only(r: Reading, c: nat): (val: Valuation)
    requires c < |r|
  {
    n => exists l <- Flat(r) :: l.name == n && ((l in r[c]) == (l.bangs % 2 == 0))
  }

  lemma OnlyHolds(r: Reading, s: set<string>, c: nat, i: nat, l: Lit)
    requires Over(r, s) && c < |r| && i < |r| && l in r[i]
    ensures LitHolds(l, Only(r, c)) <==> i == c
  {
    hide Over;
    FlatHas(r, l);
    assert l in r[c] <==> i == c by {
      if l in r[c] { Unique(r, s, i, c, l, l); }
    }
    forall m | m in Flat(r) && m.name == l.name ensures m == l {
      FlatHas(r, m);
      var j :| 0 <= j < |r| && m in r[j];
      Unique(r, s, i, j, l, m);
    }
  }

  /** A safe guard can be made to depend on any literal of its text. */
  lemma SafeFollows(g: Guard, c: nat, l: Lit) returns (val: Valuation)
    requires WellFormed(g) && Once(g) && Safe(g) && c < |Read(g)| && l in Read(g)[c]
    ensures Follows(g, l, val)
  {
    hide Over, Once, Safe, WellFormed, Eval, Read, Meaning;
    var r := Read(g);
    ReadOver(g);
    val := Only(r, c);
    OnlyReads(r, Atoms(g), c, l);
    SafeKeepsMeaning(g, val);
    SafeKeepsMeaning(g, Flip(val, l.name));
  }

  lemma OnlyReads(r: Reading, s: set<string>, c: nat, l: Lit)
    requires Over(r, s) && c < |r| && l in r[c]
    ensures var val := Only(r, c);
      LitHolds(l, val) && Meaning(r, val) && !Meaning(r, Flip(val, l.name))
  {
    hide Over, Only;
    var val := Only(r, c);
    forall i, k | 0 <= i < |r| && 0 <= k < |r[i]| ensures LitHolds(r[i][k], val) <==> i == c {
      assert r[i][k] in r[i];
      OnlyHolds(r, s, c, i, r[i][k]);
    }
    assert ConjHolds(r[c], val);
    var k :| 0 <= k < |r[c]| && r[c][k] == l;
    var w := Flip(val, l.name);
    forall i | 0 <= i < |r| ensures !ConjHolds(r[i], w) {
      if i == c {
        assert !LitHolds(r[c][k], w);
      } else {
        OverProper(r, s);
        assert r[i][0] in r[i];
        if r[i][0].name == l.name { Unique(r, s, i, c, r[i][0], l); }
        SameLit(r[i][0], val, w);
      }
    }
  }

  lemma OverProper(r: Reading, s: set<string>)
    requires Over(r, s)
    ensures Proper(r)
  {
  }

  /** Two arguments of a conjunction that follow literals the text parts. */
  lemma TwoFollow(args: seq<Guard>, j: nat, k: nat, l: Lit, m: Lit, v: Valuation, w: Valuation)
    requires j < |args| && k < |args| && j != k && Apart(args) && (forall a <- args :: WellFormed(a) && Once(a))
    requires args[j] in args && args[k] in args && Has(Read(args[j]), l) && Has(Read(args[k]), m)
    requires Follows(args[j], l, v) && Follows(args[k], m, w) && Parted(ReadJunction(true, args), l, m)
    ensures Broken(Junction(true, args))
  {
    hide Once, WellFormed, Atoms, Has, Over, Eval, Read, ReadJunction, Parted;
    ReadOver(args[j]);
    ReadOver(args[k]);
    OverHas(Read(args[j]), Atoms(args[j]), l);
    OverHas(Read(args[k]), Atoms(args[k]), m);
    assert Atoms(args[j]) !! Atoms(args[k]);
    var u := Focus(true, args, k, w);
    var val := Both(Atoms(args[j]), v, u);
    EvalLocal(args[j], val, v);
    EvalLocal(args[k], val, w);
    forall i | 0 <= i < |args| ensures Eval(args[i], val) {
      if i != j && i != k {
        assert Atoms(args[i]) !! Atoms(args[j]);
        EvalLocal(args[i], val, u);
      }
    }
    EvalLocal(args[j], Flip(val, l.name), Flip(v, l.name));
    EvalLocal(args[k], Flip(val, m.name), Flip(w, m.name));
    SameLit(l, v, val);
    SameLit(m, w, val);
    JunctionEval(true, args, val);
    JunctionEval(true, args, Flip(val, l.name));
    JunctionEval(true, args, Flip(val, m.name));
    JunctionHas(true, args, j, l);
    JunctionHas(true, args, k, m);
    ReadOfJunction(args);
    assert Severed(Junction(true, args), l, m, val);
  }

  lemma ReadOfJunction(args: seq<Guard>)
    requires args != [] && forall a <- args :: WellFormed(a)
    ensures WellFormed(Junction(true, args)) && Read(Junction(true, args)) == ReadJunction(true, args)
  {
  }

  /** A disjunct of `a` or of `b` that the joining conjunct of their conjunction does not reach. */
  lemma AndParts(a: Reading, b: Reading, s: set<string>, t: set<string>)
    requires Over(a, s) && Over(b, t) && s !! t
    ensures |a| >= 2 ==> Parted(AndR(a, b), FirstLit(a), FirstLit(b))
    ensures |b| >= 2 ==> Parted(AndR(a, b), FirstLit(a), b[|b| - 1][0])
  {
    var r := AndR(a, b);
    var n := |a| - 1;
    var l, m, z := FirstLit(a), FirstLit(b), b[|b| - 1][0];
    assert l in a[0] && m in b[0] && z in b[|b| - 1];
    assert r[n] == a[n] + b[0] && (forall i :: 0 <= i < n ==> r[i] == a[i]) && forall i :: n < i < |r| ==>
        r[i] == b[i - n];
    forall i | 0 <= i < |r|
      ensures |a| >= 2 ==> !(l in r[i] && m in r[i])
      ensures |b| >= 2 ==> !(l in r[i] && z in r[i])
    {
      PlacesOf(a, b, s, t, l, 0);
      PlacesOf(b, a, t, s, m, 0);
      PlacesOf(b, a, t, s, z, |b| - 1);
    }
  }

  /** A literal of conjunct `i` of `a` is in no other conjunct of `a` and in none of `b`. */
  lemma PlacesOf(a: Reading, b: Reading, s: set<string>, t: set<string>, l: Lit, i: nat)
    requires Over(a, s) && Over(b, t) && s !! t && i < |a| && l in a[i]
    ensures forall j :: 0 <= j < |a| && l in a[j] ==> j == i
    ensures forall j :: 0 <= j < |b| ==> l !in b[j]
  {
    hide Over;
    forall j | 0 <= j < |a| && l in a[j] ensures j == i { Unique(a, s, i, j, l, l); }
    NotBoth(a, b, s, t, l);
  }

  /** An argument with several disjuncts and its neighbour are parted in a conjunction of safe arguments. */
  lemma AndOverDisjunction(args: seq<Guard>, i: nat, right: bool)
    requires i + 1 < |args| && Apart(args) && (forall a <- args :: WellFormed(a) && Once(a) && Safe(a))
    requires args[i] in args && args[i + 1] in args
    requires if right then |args| == i + 2 && |Read(args[i + 1])| >= 2 else |Read(args[i])| >= 2
    ensures Broken(Junction(true, args))
  {
    hide Once, WellFormed, Atoms, Has, Over, Safe, Read, ReadJunction, Apart, Parted, Follows, AndR;
    var a, b := Read(args[i]), Read(args[i + 1]);
    var last := if right then |b| - 1 else 0;
    var l, m := FirstLit(a), b[last][0];
    assert l in a[0] && m in b[last];
    var v := SafeFollows(args[i], 0, l);
    var w := SafeFollows(args[i + 1], last, m);
    NeighboursParted(args, i, right);
    HasAt(a, 0, l);
    HasAt(b, last, m);
    TwoFollow(args, i, i + 1, l, m, v, w);
  }

  lemma HasAt(r: Reading, i: nat, l: Lit)
    requires i < |r| && l in r[i]
    ensures Has(r, l)
  {
  }

  lemma {:induction false} NeighboursParted(args: seq<Guard>, i: nat, right: bool)
    requires i + 1 < |args| && Apart(args) && (forall a <- args :: WellFormed(a) && Once(a))
    requires args[i] in args && args[i + 1] in args
    requires if right then |args| == i + 2 && |Read(args[i + 1])| >= 2 else |Read(args[i])| >= 2
    ensures var b := Read(args[i + 1]);
      Parted(ReadJunction(true, args), FirstLit(Read(args[i])), b[if right then |b| - 1 else 0][0])
    decreases |args|
  {
    hide Once, WellFormed, Atoms, Has, Over, Read, Apart, Parted;
    assert args[0] in args && args[1] in args && forall a <- args[1..] :: a in args;
    SplitAtoms(args);
    ReadOver(args[0]);
    JunctionOver(true, args[1..]);
    var a, b := Read(args[0]), ReadJunction(true, args[1..]);
    if i == 0 {
      AndParts(a, b, Atoms(args[0]), AtomsOf(args[1..]));
      FirstOfJunction(true, args[1..]);
    } else {
      NeighboursParted(args[1..], i - 1, right);
      assert args[1..][i - 1] == args[i] && args[1..][i] == args[i + 1];
      var l, c := FirstLit(Read(args[i])), Read(args[i + 1]);
      var last := if right then |c| - 1 else 0;
      HasAt(Read(args[i]), 0, l);
      HasAt(c, last, c[last][0]);
      JunctionHas(true, args[1..], i - 1, l);
      JunctionHas(true, args[1..], i, c[last][0]);
      NotBoth(b, a, AtomsOf(args[1..]), Atoms(args[0]), l);
      NotBoth(b, a, AtomsOf(args[1..]), Atoms(args[0]), c[last][0]);
      CombineParted(true, a, b, l, c[last][0]);
    }
  }

  // ---- guards without double negations ----

  /** Not applies to no Not, and And and Or have several arguments. */
  predicate Normal(g: Guard) {
    match g
    case Atom(_) => true
    case Not(_, arg) => !arg.Not? && Normal(arg)
    case And(_, args) => |args| >= 2 && forall a <- args :: Normal(a)
    case Or(_, args) => |args| >= 2 && forall a <- args :: Normal(a)
  }

  lemma {:induction false} UnsafeIsBroken(g: Guard)
    requires WellFormed(g) && Once(g) && Normal(g) && !Safe(g)
    ensures Broken(g)
  {
    hide Apart, IsConjunction, IsLiteral, Broken;
    match g {
      case Not(sp, arg) =>
        NotUnsafe(sp, arg);
      case And(q, args) =>
        if k :| 0 <= k < |args| && !Safe(args[k]) {
          assert args[k] in args;
          UnsafeIsBroken(args[k]);
          BrokenArgument(true, args, k);
        } else {
          AllIndexed(args);
          AndUnsafe(args);
        }
        Respelled(q, true, args);
      case Or(q, args) =>
        AllIndexed(args);
        var k :| 0 <= k < |args| && !Safe(args[k]);
        assert args[k] in args;
        UnsafeIsBroken(args[k]);
        BrokenArgument(false, args, k);
        Respelled(q, false, args);
    }
  }

  lemma AllIndexed(args: seq<Guard>)
    ensures (forall k :: 0 <= k < |args| ==> Safe(args[k])) <==> forall a <- args :: Safe(a)
  {
  }

  lemma Respelled(q: bool, conj: bool, args: seq<Guard>)
    requires args != [] && (forall a <- args :: WellFormed(a)) && Broken(Junction(conj, args))
    ensures Broken(if conj then And(q, args) else Or(q, args))
  {
    hide Parted, Has, ReadJunction;
    var g, h := Junction(conj, args), if conj then And(q, args) else Or(q, args);
    if l, val: Valuation :| Inverted(g, l, val) {
      assert Inverted(h, l, val);
    } else {
      var l, m, val: Valuation :| Severed(g, l, m, val);
      assert Severed(h, l, m, val);
    }
  }

  lemma NotUnsafe(sp: Spelling, arg: Guard)
    requires WellFormed(arg) && Once(arg) && Normal(Not(sp, arg)) && !Safe(Not(sp, arg))
    ensures Broken(Not(sp, arg))
  {
    hide Broken;
    match arg {
      case Atom(_) =>
      case And(_, args) => NotOverJunction(sp, arg, true, args);
      case Or(_, args) => NotOverJunction(sp, arg, false, args);
    }
  }

  lemma AndUnsafe(args: seq<Guard>)
    requires |args| >= 2 && Apart(args) && (forall a <- args :: WellFormed(a) && Once(a) && Safe(a))
    requires !(forall a <- args :: IsConjunction(a))
    ensures Broken(Junction(true, args))
  {
    hide Apart, IsConjunction, Broken, WellFormed, Once, Safe;
    var a :| a in args && !IsConjunction(a);
    var i :| 0 <= i < |args| && args[i] == a;
    ReadSizes(a);
    if i + 1 < |args| {
      assert args[i + 1] in args;
      AndOverDisjunction(args, i, false);
    } else {
      assert args[i - 1] in args;
      AndOverDisjunction(args, i - 1, true);
    }
  }

  // ---- cancelling double negations ----

  /** The guard with double negations cancelled and single arguments unwrapped. */
  function Norm(g: Guard): (h: Guard) {
    match g
    case Atom(_) => g
    case Not(sp, arg) =>
      var n := Norm(arg);
      if n.Not? then n.arg else Not(sp, n)
    case And(q, args) => if |args| == 1 then Norm(args[0]) else And(q, NormAll(args))
    case Or(q, args) => if |args| == 1 then Norm(args[0]) else Or(q, NormAll(args))
  }

  function NormAll(args: seq<Guard>): (r: seq<Guard>)
    ensures |r| == |args|
  {
    if args == [] then [] else [Norm(args[0])] + NormAll(args[1..])
  }

  lemma {:induction false} NormAt(args: seq<Guard>, i: nat)
    requires i < |args|
    ensures NormAll(args)[i] == Norm(args[i])
  {
    if i > 0 { NormAt(args[1..], i - 1); }
  }

  lemma {:induction false} NormIsNormal(g: Guard)
    requires WellFormed(g)
    ensures WellFormed(Norm(g)) && Normal(Norm(g)) && Atoms(Norm(g)) == Atoms(g) && (Once(g) ==> Once(Norm(g)))
    decreases g, 0
  {
    match g {
      case Atom(_) =>
      case Not(_, arg) => NormIsNormal(arg);
      case And(q, args) =>
        NormsAreNormal(args);
        SingleArg(args);
      case Or(q, args) =>
        NormsAreNormal(args);
        SingleArg(args);
    }
  }

  lemma SingleArg(args: seq<Guard>)
    ensures |args| == 1 ==> args == [args[0]] && AtomsOf(args) == Atoms(args[0])
  {
    if |args| == 1 { assert args == [args[0]]; }
  }

  lemma {:induction false} NormsAreNormal(args: seq<Guard>)
    requires forall a <- args :: WellFormed(a)
    ensures forall i :: 0 <= i < |args| ==> NormAll(args)[i] == Norm(args[i])
    ensures forall a <- NormAll(args) :: WellFormed(a) && Normal(a)
    ensures AtomsOf(NormAll(args)) == AtomsOf(args)
    ensures Apart(args) && (forall a <- args :: Once(a)) ==>
      Apart(NormAll(args)) && forall a <- NormAll(args) :: Once(a)
    decreases args, 1
  {
    hide WellFormed, Normal, Once, Atoms;
    var r := NormAll(args);
    forall i | 0 <= i < |args|
      ensures r[i] == Norm(args[i]) && WellFormed(r[i]) && Normal(r[i]) && Atoms(r[i]) == Atoms(args[i])
      ensures Once(args[i]) ==> Once(r[i])
    {
      assert args[i] in args;
      NormAt(args, i);
      NormIsNormal(args[i]);
    }
    forall n ensures n in AtomsOf(r) <==> n in AtomsOf(args) {
      if a :| a in r && n in Atoms(a) {
        var i :| 0 <= i < |r| && r[i] == a;
        assert args[i] in args;
      }
      if a :| a in args && n in Atoms(a) {
        var i :| 0 <= i < |args| && args[i] == a;
        assert r[i] in r;
      }
    }
    assert forall i :: 0 <= i < |args| ==> args[i] in args;
  }

  lemma {:induction false} NormEval(g: Guard, val: Valuation)
    requires WellFormed(g)
    ensures Eval(Norm(g), val) == Eval(g, val)
    decreases g, 0
  {
    match g {
      case Atom(_) =>
      case Not(_, arg) => NormEval(arg, val);
      case And(q, args) => NormEvals(true, args, val);
      case Or(q, args) => NormEvals(false, args, val);
    }
  }

  lemma {:induction false} NormEvals(conj: bool, args: seq<Guard>, val: Valuation)
    requires args != [] && forall a <- args :: WellFormed(a)
    ensures EvalAll(conj, NormAll(args), val) == EvalAll(conj, args, val)
    ensures |args| == 1 ==> Eval(Norm(args[0]), val) == EvalAll(conj, args, val)
    decreases args, 1
  {
    hide WellFormed, Eval;
    var r := NormAll(args);
    forall i | 0 <= i < |args| ensures Eval(r[i], val) == Eval(args[i], val) {
      assert args[i] in args;
      NormAt(args, i);
      NormEval(args[i], val);
    }
    assert forall i :: 0 <= i < |args| ==> args[i] in args && r[i] in r;
    NormAt(args, 0);
    assert |args| == 1 ==> args == [args[0]];
  }

  // ---- readings that differ by pairs of bangs ----

  ghost predicate SameConj(c: Conj, d: Conj) {
    |c| == |d| && forall i :: 0 <= i < |c| ==> c[i].name == d[i].name && c[i].bangs % 2 == d[i].bangs % 2
  }

  ghost predicate SameReading(r: Reading, s: Reading) { |r| == |s| && forall i :: 0 <= i < |r| ==>
      SameConj(r[i], s[i]) }

  lemma SameMeaning(r: Reading, s: Reading, val: Valuation)
    requires SameReading(r, s)
    ensures Meaning(r, val) == Meaning(s, val)
  {
    forall i | 0 <= i < |r| ensures ConjHolds(r[i], val) == ConjHolds(s[i], val) {
      assert SameConj(r[i], s[i]);
    }
  }

  lemma SameBang(r: Reading, s: Reading)
    requires Proper(r) && Proper(s) && SameReading(r, s)
    ensures SameReading(BangR(r), BangR(s))
  {
    assert SameConj(r[0], s[0]);
    assert SameConj(BangR(r)[0], BangR(s)[0]);
    assert forall i :: 0 < i < |r| ==> BangR(r)[i] == r[i] && BangR(s)[i] == s[i];
  }

  lemma SameThrice(r: Reading, s: Reading, t: Reading)
    requires SameReading(r, s) && SameReading(s, t)
    ensures SameReading(r, t)
  {
    forall i | 0 <= i < |r| ensures SameConj(r[i], t[i]) {
      assert SameConj(r[i], s[i]) && SameConj(s[i], t[i]);
    }
  }

  /** Two bangs cancel. */
  lemma SameTwice(r: Reading)
    requires Proper(r)
    ensures SameReading(r, BangR(BangR(r)))
  {
    var s := BangR(BangR(r));
    assert SameConj(r[0], s[0]);
    assert forall i :: 0 < i < |r| ==> s[i] == r[i];
  }

  lemma SameCombined(conj: bool, a: Reading, b: Reading, c: Reading, d: Reading)
    requires Proper(a) && Proper(b) && Proper(c) && Proper(d) && SameReading(a, c) && SameReading(b, d)
    ensures SameReading(Combine(conj, a, b), Combine(conj, c, d))
  {
    var r, s := Combine(conj, a, b), Combine(conj, c, d);
    var n := |a| - 1;
    assert SameConj(a[n], c[n]) && SameConj(b[0], d[0]);
    assert conj ==> r[n] == a[n] + b[0] && s[n] == c[n] + d[0];
    assert conj ==> forall i :: 0 <= i < n ==> r[i] == a[i] && s[i] == c[i];
    assert conj ==> forall i :: n < i < |r| ==> r[i] == b[i - n] && s[i] == d[i - n];
  }

  lemma {:induction false} NormReads(g: Guard)
    requires WellFormed(g)
    ensures WellFormed(Norm(g)) && SameReading(Read(Norm(g)), Read(g))
    decreases g, 0
  {
    hide SameReading, BangR;
    NormIsNormal(g);
    match g {
      case Atom(name) => SameItself([[Lit(0, name)]]);
      case Not(_, arg) =>
        NormReads(arg);
        SameBang(Read(Norm(arg)), Read(arg));
        if Norm(arg).Not? {
          var n := Norm(arg).arg;
          SameTwice(Read(n));
          SameThrice(Read(n), BangR(BangR(Read(n))), Read(g));
        }
      case And(q, args) => NormJunction(true, args);
      case Or(q, args) => NormJunction(false, args);
    }
  }

  lemma SameItself(r: Reading)
    ensures SameReading(r, r)
  {
  }

  lemma {:induction false} NormJunction(conj: bool, args: seq<Guard>)
    requires args != [] && forall a <- args :: WellFormed(a)
    ensures forall a <- NormAll(args) :: WellFormed(a)
    ensures SameReading(ReadJunction(conj, NormAll(args)), ReadJunction(conj, args))
    decreases args, 1
  {
    hide SameReading, WellFormed, Combine, Normal, Atoms, Once, Apart;
    NormsAreNormal(args);
    assert args[0] in args && forall a <- args[1..] :: a in args;
    NormReads(args[0]);
    assert NormAll(args)[0] == Norm(args[0]) && NormAll(args)[1..] == NormAll(args[1..]);
    if |args| > 1 {
      NormJunction(conj, args[1..]);
      SameCombined(conj, Read(Norm(args[0])), ReadJunction(conj, NormAll(args[1..])), Read(args[0]),
          ReadJunction(conj, args[1..]));
    }
  }

  // ---- the exact condition ----

  lemma NormKeeps(g: Guard)
    requires WellFormed(g)
    ensures WellFormed(Norm(g)) && (KeepsMeaning(g) <==> KeepsMeaning(Norm(g)))
  {
    hide Meaning, Eval, WellFormed, Read, Norm;
    NormReads(g);
    forall val: Valuation
      ensures Meaning(Read(Norm(g)), val) == Meaning(Read(g), val) && Eval(Norm(g), val) == Eval(g, val)
    {
      SameMeaning(Read(Norm(g)), Read(g), val);
      NormEval(g, val);
    }
  }

  /** Whatever its atoms, a guard keeps its meaning if it is safe once double negations cancel. */
  lemma SafeSuffices(g: Guard)
    requires WellFormed(g) && Safe(Norm(g))
    ensures KeepsMeaning(g)
  {
    hide Meaning, Eval, WellFormed, Read, Norm, Safe;
    NormKeeps(g);
    forall val: Valuation ensures Meaning(Read(Norm(g)), val) <==>
        Eval(Norm(g), val) { SafeKeepsMeaning(Norm(g), val); }
  }

  /**
   For every guard in which no atom occurs twice: its text keeps its meaning exactly when, once
   double negations cancel, Not applies only to atoms and Or never sits under And.
   */
  lemma SafeExactly(g: Guard)
    requires WellFormed(g) && Once(g)
    ensures KeepsMeaning(g) <==> Safe(Norm(g))
  {
    hide Meaning, Eval, WellFormed, Read, Norm, Safe, KeepsMeaning, Broken, Once, Normal;
    NormKeeps(g);
    NormIsNormal(g);
    if Safe(Norm(g)) {
      SafeSuffices(g);
    } else {
      UnsafeIsBroken(Norm(g));
      BrokenLosesMeaning(Norm(g));
    }
  }
}
