/**
 Fair runs exist: from every state in which dependencies are acyclic and nodes succeed, every live
 deployment and invoke can be served, one after the other, any number of times.
 */
module Rounds {
  import opened Collections
  import opened Transactions
  import opened Reconcilers
  import opened Cluster
  import opened Safety
  import opened Preservation
  import opened Progress
  import opened Fairness

  lemma {:induction false} CalmJoin(c: Cluster, a: seq<Event>, b: seq<Event>)
    requires ValidFrom(c, a) && CalmFrom(c, a) && ValidFrom(After(c, a), b) && CalmFrom(After(c, a), b)
    ensures ValidFrom(c, a + b) && After(c, a + b) == After(After(c, a), b) && CalmFrom(c, a + b)
    decreases |a|
  {
    hide Enabled, Next, Calm;
    if a == [] {
      assert a + b == b;
    } else {
      CalmJoin(Next(c, a[0]), a[1..], b);
      assert (a + b)[1..] == a[1..] + b;
    }
  }

  lemma One(c: Cluster, e: Event)
    requires Enabled(c, e) && Calm(c, e)
    ensures ValidFrom(c, [e]) && After(c, [e]) == Next(c, e) && CalmFrom(c, [e])
  {
    hide Enabled, Next, Calm;
    assert [e][1..] == [];
  }

  /** Begin, run and, if wanted, update: a pass of its own over the current version of `u`. */
  lemma ServeNow(c: Cluster, level: Name -> nat, n: nat, u: Uid) returns (run: seq<Event>)
    requires Scene(c, level, n) && u in c.objects && Tracked(c.objects[u]) && c.objects[u].hist != []
    requires Last(c.objects[u]).tx.status.Pending? ==> Last(c.objects[u]).tx.txId in c.ledger.receipts
    ensures ValidFrom(c, run) && CalmFrom(c, run) && ServedDuring(c, u, run)
  {
    hide Inv, NodesSucceed, Bounded, ValidFrom, After, CalmFrom, ContractPass, Enabled, Next, EnvOk, ReadsOk, Clean,
         FaultFree, Last, Done;
    var looks := Picks(c, c.objects[u].spec.required);
    var env := GoodEnv(c, u);
    var p := AboveAll(c.passes.Keys);
    var b, e := Begin(p, u, |c.objects[u].hist| - 1), Event.Run(p, looks, env);
    PicksClean(c, level, u, e);
    FirstTwo(c, u, b, e);
    var d := Next(Next(c, b), e);
    One(c, b);
    One(Next(c, b), e);
    run := [b, e];
    CalmJoin(c, [b], [e]);
    assert [b] + [e] == run;
    if p in d.passes {
      WantsUpdate(c, b, e);
      One(d, Update(p));
      CalmJoin(c, run, [Update(p)]);
      run := [b, e, Update(p)];
      assert [b, e] + [Update(p)] == run;
    }
    Begins(c, run);
    assert run[..0] == [] && run[..1] == [b] && run[..2] == [b, e];
    assert ServedAt(c, u, run, 0, 1, 2);
  }

  lemma Begins(c: Cluster, run: seq<Event>)
    ensures ValidFrom(c, []) && After(c, []) == c
  {
  }

  lemma PicksClean(c: Cluster, level: Name -> nat, u: Uid, e: Event)
    requires Inv(c) && Acyclic(c, level) && u in c.objects && Tracked(c.objects[u]) && c.objects[u].hist != []
    requires Last(c.objects[u]).tx.status.Pending? ==> Last(c.objects[u]).tx.txId in c.ledger.receipts
    requires e.Run? && FaultFree(e.env) && e.looks == Picks(c, c.objects[u].spec.required)
    ensures ReadsOk(c, c.objects[u].spec, e.looks)
    ensures forall d: Cluster :: d.objects == c.objects && d.ledger == c.ledger ==> Clean(d, u, e)
  {
    hide Inv, FaultFree, Last;
    var required := c.objects[u].spec.required;
    PicksOk(c, c.objects[u].spec);
    forall i | 0 <= i < |e.looks| ensures UpToDate(c, required[i], e.looks[i]) {
      assert required[i] in required;
      PickUpToDate(c, required[i]);
    }
  }

  lemma PickUpToDate(c: Cluster, d: Name)
    requires Inv(c) && exists w :: LiveDeployment(c, w, d)
    ensures UpToDate(c, d, Pick(c, d))
  {
    hide Inv;
    var w :| LiveDeployment(c, w, d) &&
        Pick(c, d) == if c.objects[w].hist != [] then ReadVersion(w, |c.objects[w].hist| - 1) else ReadNothing;
    NonEmpty(c, w);
  }

  lemma FirstTwo(c: Cluster, u: Uid, b: Event, e: Event)
    requires u in c.objects && c.objects[u].hist != [] && e.Run? && e.pass !in c.passes &&
      b == Begin(e.pass, u, |c.objects[u].hist| - 1)
    requires ReadsOk(c, c.objects[u].spec, e.looks) && EnvOk(c, u, Main, e.env)
    ensures Enabled(c, b) && Calm(c, b) && Next(c, b).objects == c.objects && Next(c, b).ledger == c.ledger
    ensures Enabled(Next(c, b), e) && Calm(Next(c, b), e)
  {
    hide EnvOk;
    SameReads(c, Next(c, b), c.objects[u].spec, e.looks);
    SameEnv(c, Next(c, b), u, e.env);
  }

  lemma SameReads(c: Cluster, d: Cluster, spec: Spec, looks: seq<Read>)
    requires d.objects == c.objects && ReadsOk(c, spec, looks)
    ensures ReadsOk(d, spec, looks)
  {
    forall i | 0 <= i < |looks| ensures ReadOk(d, spec, ReadNames(spec)[i], looks[i]) {
      assert ReadOk(c, spec, ReadNames(spec)[i], looks[i]);
    }
  }

  lemma WantsUpdate(c: Cluster, b: Event, e: Event)
    requires b.Begin? && e.Run? && b.pass == e.pass && Enabled(c, b) && Enabled(Next(c, b), e) &&
      e.pass in Next(Next(c, b), e).passes
    requires b.uid in c.objects && c.objects[b.uid].spec.Contract()
    ensures var d := Next(Next(c, b), e); Enabled(d, Update(e.pass)) && Calm(d, Update(e.pass))
  {
    hide ContractPass, Answers, ReadsOk, EnvOk;
  }

  /** `u` can be served from any state, its transaction mined first if need be. */
  lemma Serve(c: Cluster, level: Name -> nat, n: nat, u: Uid) returns (run: seq<Event>)
    requires Scene(c, level, n) && u in c.objects && Tracked(c.objects[u])
    ensures ValidFrom(c, run) && CalmFrom(c, run) && ServedDuring(c, u, run)
  {
    hide Inv, Acyclic, NodesSucceed, Bounded, ValidFrom, After, CalmFrom, Enabled, Next, ServedDuring, Calm;
    NonEmpty(c, u);
    var tx := Last(c.objects[u]).tx;
    if tx.status.Pending? && tx.txId !in c.ledger.receipts {
      var e := Mine(tx.txId, Receipt(true, if c.objects[u].spec.Deployment? then Some("0x") else None, "", 0, ""));
      MineNow(c, u, e);
      One(c, e);
      RunCloser(c, level, n, [e]);
      var rest := ServeNow(Next(c, e), level, n, u);
      run := [e] + rest;
      CalmJoin(c, [e], rest);
      assert [e] + rest + [] == run;
      ServedLater(c, level, n, u, [e], rest, []);
    } else {
      run := ServeNow(c, level, n, u);
    }
  }

  lemma MineNow(c: Cluster, u: Uid, e: Event)
    requires Inv(c) && u in c.objects && c.objects[u].hist != [] && c.objects[u].spec.Contract()
    requires Last(c.objects[u]).tx.status.Pending? && Last(c.objects[u]).tx.txId !in c.ledger.receipts
    requires e == Mine(Last(c.objects[u]).tx.txId,
      Receipt(true, if c.objects[u].spec.Deployment? then Some("0x") else None, "", 0, ""))
    ensures Enabled(c, e) && Calm(c, e)
    ensures Next(c, e).objects == c.objects && Last(c.objects[u]).tx.txId in Next(c, e).ledger.receipts
  {
    hide Inv, Last;
    PendingTx(c, u);
  }

  /** What is served in a part of a run is served in the whole run. */
  lemma ServedLater(c: Cluster, level: Name -> nat, n: nat, u: Uid, before: seq<Event>, run: seq<Event>,
      after: seq<Event>)
    requires Scene(c, level, n) && u in c.objects && Tracked(c.objects[u])
    requires ValidFrom(c, before + run + after) && CalmFrom(c, before + run + after)
    requires ValidFrom(c, before) && ValidFrom(After(c, before), run) && ServedDuring(After(c, before), u, run)
    ensures ServedDuring(c, u, before + run + after)
  {
    hide Inv, Acyclic, NodesSucceed, Bounded, ValidFrom, After, CalmFrom, ServedAt, Done, Scene;
    var whole := before + run + after;
    var x, y := |before|, |before| + |run|;
    var d := After(c, before);
    assert whole[..x] == before && whole[x..y] == run;
    Stretch(c, whole, x, y);
    if i: nat, j: nat, k: nat :| i < j < k <= |run| && ServedAt(d, u, run, i, j, k) {
      ServedShift(c, u, before, run, after, i, j, k);
      assert ServedAt(c, u, whole, x + i, x + j, x + k);
    } else {
      SplitAt(c, whole, y);
      DoneToEnd(c, level, n, u, whole, y);
    }
  }

  lemma DoneToEnd(c: Cluster, level: Name -> nat, n: nat, u: Uid, run: seq<Event>, y: nat)
    requires Scene(c, level, n) && ValidFrom(c, run) && CalmFrom(c, run) && y <= |run| && ValidFrom(c, run[..y])
    requires u in c.objects && Tracked(c.objects[u])
    requires u in After(c, run[..y]).objects && Done(After(c, run[..y]).objects[u])
    ensures u in After(c, run).objects && Done(After(c, run).objects[u])
  {
    hide Inv, Acyclic, NodesSucceed, Bounded, ValidFrom, After, CalmFrom, Done, Weight;
    SplitAt(c, run, y);
    var d := After(c, run[..y]);
    RunCloser(c, level, n, run[..y]);
    RunCloser(d, level, n, run[y..]);
    assert CloserFor(c, d, u) && CloserFor(d, After(c, run), u);
  }

  lemma ServedShift(c: Cluster, u: Uid, before: seq<Event>, run: seq<Event>, after: seq<Event>, i: nat, j: nat, k: nat)
    requires ValidFrom(c, before + run + after) && ValidFrom(c, before) && ValidFrom(After(c, before), run)
    requires i < j < k <= |run| && ServedAt(After(c, before), u, run, i, j, k)
    ensures ServedAt(c, u, before + run + after, |before| + i, |before| + j, |before| + k)
  {
    hide ValidFrom, After, CalmFrom, Clean, PassOf;
    var whole := before + run + after;
    var x := |before|;
    Shift(c, before, run, after, i);
    Shift(c, before, run, after, j);
    Shift(c, before, run, after, j + 1);
    assert forall m :: 0 <= m < |run| ==> whole[x + m] == run[m];
    assert forall m :: x <= m < x + |run| ==> whole[m] == run[m - x];
  }

  lemma Shift(c: Cluster, before: seq<Event>, run: seq<Event>, after: seq<Event>, i: nat)
    requires ValidFrom(c, before + run + after) && ValidFrom(c, before) && ValidFrom(After(c, before), run) &&
      i <= |run|
    ensures var whole := before + run + after;
      && ValidFrom(c, whole[..|before| + i]) && ValidFrom(After(c, before), run[..i])
      && After(c, whole[..|before| + i]) == After(After(c, before), run[..i])
  {
    hide ValidFrom, After, CalmFrom;
    var whole := before + run + after;
    Stretch(c, whole, |before|, |before| + i);
    SplitAt(After(c, before), run, i);
    assert whole[..|before|] == before && whole[|before|..|before| + i] == run[..i];
  }

  /** A round that serves all CRs below `m`. */
  lemma {:induction false} RoundUpTo(c: Cluster, level: Name -> nat, n: nat, m: nat) returns (run: seq<Event>)
    requires Scene(c, level, n)
    ensures ValidFrom(c, run) && CalmFrom(c, run)
    ensures forall u <- c.objects :: u < m && Tracked(c.objects[u]) ==> ServedDuring(c, u, run)
    decreases m
  {
    hide Scene, ValidFrom, After, CalmFrom, ServedDuring, Closer, Extends;
    Begins(c, []);
    if m == 0 {
      run := [];
      CalmNothing(c);
    } else {
      var first := RoundUpTo(c, level, n, m - 1);
      RunCloser(c, level, n, first);
      var d := After(c, first);
      var rest: seq<Event> := [];
      CalmNothing(d);
      if m - 1 in c.objects && Tracked(c.objects[m - 1]) {
        StillTracked(c, d, m - 1);
        rest := Serve(d, level, n, m - 1);
      }
      run := first + rest;
      CalmJoin(c, first, rest);
      forall u | u in c.objects && u < m && Tracked(c.objects[u]) ensures ServedDuring(c, u, run) {
        if u < m - 1 {
          Begins(c, []);
          ServedEarlier(c, level, n, u, first, rest);
        } else {
          assert first + rest + [] == run;
          ServedLater(c, level, n, u, first, rest, []);
        }
      }
    }
  }

  lemma CalmNothing(c: Cluster)
    ensures ValidFrom(c, []) && CalmFrom(c, [])
  {
  }

  lemma StillTracked(c: Cluster, d: Cluster, u: Uid)
    requires Closer(c, d) && u in c.objects && Tracked(c.objects[u])
    ensures u in d.objects && Tracked(d.objects[u])
  {
    hide Weight;
    assert CloserFor(c, d, u);
  }

  lemma ServedEarlier(c: Cluster, level: Name -> nat, n: nat, u: Uid, first: seq<Event>, rest: seq<Event>)
    requires Scene(c, level, n) && u in c.objects && Tracked(c.objects[u])
    requires ValidFrom(c, first + rest) && CalmFrom(c, first + rest) && ValidFrom(c, first) && ServedDuring(c, u, first)
    ensures ServedDuring(c, u, first + rest)
  {
    hide Scene, ValidFrom, After, CalmFrom, ServedDuring;
    Begins(c, []);
    assert [] + first + rest == first + rest;
    ServedLater(c, level, n, u, [], first, rest);
  }

  /** From every such state there are fair runs of any number of rounds. */
  lemma {:induction false} RoundsExist(c: Cluster, level: Name -> nat, n: nat, m: nat) returns (rounds: seq<seq<Event>>)
    requires Scene(c, level, n)
    ensures FairRun(c, rounds) && |rounds| == m
    decreases m
  {
    hide Inv, Acyclic, NodesSucceed, ValidFrom, After, CalmFrom, ServedDuring, Closer, Extends;
    if m == 0 {
      rounds := [];
    } else {
      var run := RoundUpTo(c, level, n, n);
      assert Round(c, run);
      RunCloser(c, level, n, run);
      var rest := RoundsExist(After(c, run), level, n, m - 1);
      rounds := [run] + rest;
      assert rounds[1..] == rest;
    }
  }
}
