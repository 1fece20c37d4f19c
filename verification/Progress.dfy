/**
 Progress of the deployment engine: from every reachable state in which dependencies are acyclic
 and nodes accept and succeed every transaction, fault-free passes bring every deployment and
 invoke to Success, and each of them lowers a measure.
 */
module Progress {
  import opened Collections
  import opened Transactions
  import opened Dependencies
  import opened Reconcilers
  import opened Cluster
  import opened Safety
  import opened Preservation
  import opened Passes
  import opened Guarantees

  predicate Tracked(o: Object) { o.live && o.spec.Contract() }

  /** A live deployment named `d`. */
  predicate LiveDeployment(c: Cluster, w: Uid, d: Name) {
    w in c.objects && c.objects[w].live && c.objects[w].spec.Deployment? && c.objects[w].name == d
  }

  /** Required deployments exist, are listed once, and sit on lower levels than what requires them. */
  ghost predicate Acyclic(c: Cluster, level: Name -> nat) {
    forall u <- c.objects :: Tracked(c.objects[u]) ==>
      && Distinct(c.objects[u].spec.required)
      && forall d <- c.objects[u].spec.required ::
           && (exists w :: LiveDeployment(c, w, d))
           && (c.objects[u].spec.Deployment? ==> level(d) < level(c.objects[u].name))
  }

  /** A node's receipt for a deployment or invoke is a success, and for a deployment it names the contract. */
  predicate GoodReceipt(c: Cluster, tx: Tx, receipt: Receipt) {
    tx.content.uid in c.objects && c.objects[tx.content.uid].spec.Contract() ==>
      receipt.success && (c.objects[tx.content.uid].spec.Deployment? ==> receipt.contract.Some?)
  }

  /** The nodes have succeeded every deployment and invoke they finished. */
  ghost predicate NodesSucceed(c: Cluster) {
    forall r <- c.ledger.txs :: c.ledger.txs[r].id in c.ledger.receipts ==>
      GoodReceipt(c, c.ledger.txs[r], c.ledger.receipts[c.ledger.txs[r].id])
  }

  predicate Done(o: Object) { o.hist != [] && o.hist[|o.hist| - 1].tx.status.Success? }

  ghost predicate AllDone(c: Cluster) {
    forall u <- c.objects :: Tracked(c.objects[u]) ==> Done(c.objects[u])
  }

  // ---- the measure ----

  function Weight(c: Cluster, u: Uid): (n: int) {
    if u in c.objects && Tracked(c.objects[u]) && c.objects[u].hist != [] then
      var st := Last(c.objects[u]);
      Remaining(c.objects[u].spec.required, st) + (3 - Rank(st.tx.status))
        + (if st.tx.status.Pending? && st.tx.txId !in c.ledger.receipts then 1 else 0)
    else 0
  }

  function Total(c: Cluster, n: nat): (t: int) {
    if n == 0 then 0 else Total(c, n - 1) + Weight(c, n - 1)
  }

  lemma WeightNonNegative(c: Cluster, u: Uid)
    requires Inv(c)
    ensures Weight(c, u) >= 0
  {
    hide LedgerOk, PassOk, Remaining;
    if u in c.objects && Tracked(c.objects[u]) && c.objects[u].hist != [] {
      assert ObjectOk(c, u) && VersionOk(c, u, Last(c.objects[u]));
      RemainingNonNegative(c.objects[u].spec, Last(c.objects[u]));
      SubRank(Last(c.objects[u]).tx);
    }
  }

  lemma {:induction false} TotalNonNegative(c: Cluster, n: nat)
    requires Inv(c)
    ensures Total(c, n) >= 0
  {
    hide Inv, Weight;
    if n > 0 {
      TotalNonNegative(c, n - 1);
      WeightNonNegative(c, n - 1);
    }
  }

  lemma {:induction false} TotalDrops(c: Cluster, d: Cluster, n: nat, u: Uid)
    requires forall v: Uid :: Weight(d, v) <= Weight(c, v)
    requires Weight(d, u) < Weight(c, u)
    ensures Total(d, n) <= Total(c, n) && (u < n ==> Total(d, n) < Total(c, n))
  {
    hide Weight;
    if n > 0 { TotalDrops(c, d, n - 1, u); }
  }

  // ---- what to do next ----

  /** No transaction has failed where nodes succeed everything. */
  lemma NotFailed(c: Cluster, u: Uid)
    requires Inv(c) && NodesSucceed(c) && u in c.objects && Tracked(c.objects[u])
    ensures c.objects[u].hist != [] && !Last(c.objects[u]).tx.status.Failed?
  {
    hide PassOk, LedgerOk, DeployedAt, ContentOk, Shape, AddressOk;
    assert ObjectOk(c, u) && VersionOk(c, u, Last(c.objects[u]));
    var sub := SubAt(Last(c.objects[u]), Main);
    assert SubOk(c, u, Main, sub);
    if sub.status.Failed? {
      KeyOwner(c, u, Main, (NodeFor(c.objects[u].spec, Main), sub.key));
    }
  }

  /** An unfinished CR all of whose required deployments are finished. */
  ghost predicate Eligible(c: Cluster, u: Uid) {
    && u in c.objects && Tracked(c.objects[u]) && !Done(c.objects[u])
    && forall w, d :: d in c.objects[u].spec.required && LiveDeployment(c, w, d) ==> Done(c.objects[w])
  }

  lemma {:induction false} LowestUndone(c: Cluster, level: Name -> nat, u: Uid) returns (v: Uid)
    requires Acyclic(c, level) && u in c.objects && Tracked(c.objects[u]) && c.objects[u].spec.Deployment? &&
      !Done(c.objects[u])
    ensures Eligible(c, v)
    decreases level(c.objects[u].name)
  {
    if w, d :| d in c.objects[u].spec.required && LiveDeployment(c, w, d) && !Done(c.objects[w]) {
      v := LowestUndone(c, level, w);
    } else {
      v := u;
    }
  }

  lemma SomeNext(c: Cluster, level: Name -> nat) returns (v: Uid)
    requires Acyclic(c, level) && !AllDone(c)
    ensures Eligible(c, v)
  {
    var u :| u in c.objects && Tracked(c.objects[u]) && !Done(c.objects[u]);
    if w, d :| d in c.objects[u].spec.required && LiveDeployment(c, w, d) && !Done(c.objects[w]) {
      v := LowestUndone(c, level, w);
    } else {
      v := u;
    }
  }

  // ---- reading the required deployments ----

  ghost function Pick(c: Cluster, d: Name): (r: Read) {
    if exists w :: LiveDeployment(c, w, d) then
      var w :| LiveDeployment(c, w, d);
      if c.objects[w].hist != [] then ReadVersion(w, |c.objects[w].hist| - 1) else ReadNothing
    else ReadNothing
  }

  ghost function Picks(c: Cluster, names: seq<Name>): (r: seq<Read>)
    ensures |r| == |names| && forall i :: 0 <= i < |names| ==> r[i] == Pick(c, names[i])
  {
    seq(|names|, i requires 0 <= i < |names| => Pick(c, names[i]))
  }

  lemma PicksOk(c: Cluster, spec: Spec)
    requires spec.Contract()
    ensures ReadsOk(c, spec, Picks(c, spec.required))
  {
    forall i | 0 <= i < |spec.required| ensures ReadOk(c, spec, spec.required[i], Picks(c, spec.required)[i]) {}
  }

  /** Every required deployment is found with its address. */
  lemma PicksFind(c: Cluster, level: Name -> nat, u: Uid, i: nat)
    requires Inv(c) && Acyclic(c, level) && Eligible(c, u) && i < |c.objects[u].spec.required|
    ensures var r := Pick(c, c.objects[u].spec.required[i]);
            ReadOk(c, c.objects[u].spec, c.objects[u].spec.required[i], r) && Answer(c, r).Found? &&
                Answer(c, r).address != ""
  {
    hide PassOk, LedgerOk, SubOk, DeployedAt;
    var d := c.objects[u].spec.required[i];
    assert d in c.objects[u].spec.required;
    var w :| LiveDeployment(c, w, d) &&
        Pick(c, d) == if c.objects[w].hist != [] then ReadVersion(w, |c.objects[w].hist| - 1) else ReadNothing;
    assert Done(c.objects[w]);
    assert ObjectOk(c, w) && VersionOk(c, w, Last(c.objects[w]));
  }

  // ---- the fault-free pass makes an effective update ----

  /** No faults: everything ready, every request answered. */
  predicate FaultFree(env: Env) {
    env.rpc.Ready? && env.factory.Ready? && env.send.Delivered? && env.query.Delivered? && env.track.Delivered? &&
        env.receiptVisible
  }

  /** Only whole, fault-free passes and succeeding transactions; no CR is created or deleted. */
  predicate Undisturbed(run: seq<Event>) {
    forall e <- run ::
      match e
      case Begin(_, _, _) => true
      case Run(_, _, env) => FaultFree(env)
      case Update(_) => true
      case Mine(_, receipt) => receipt.success
      case _ => false
  }

  lemma DepsAdvance(spec: Spec, st: Status, answers: seq<Lookup>)
    requires spec.Contract() && Shape(spec, st) && Distinct(spec.required) && !DepsReady(spec.required, st.deps)
    requires |answers| == |spec.required| && forall a <- answers :: a.Found? && a.address != ""
    ensures var k := CheckDeps(spec.required, answers, st.deps); !k.err && k.changed && k.deps != st.deps
  {
    hide Resolve;
    ResolveCompletes(spec.required, answers, st.deps.resolved);
    ReadyExactly(spec.required, st.deps.resolved);
  }

  /** A complete CR's transaction moves on: key, submission, then the receipt once it is there. */
  lemma TxAdvance(sub: Submission, at: Name, content: Content, ledger: Ledger, env: Env)
    requires FaultFree(env) && env.freshKey != "" && Coherent(sub) && Rank(sub.status) < 3
    requires sub.status.Pending? ==> sub.txId in ledger.receipts
    ensures var o := ReconcileTx(sub, at, content, ledger, env); o.changed && o.sub.status != sub.status
  {
  }

  lemma Advance(c: Cluster, level: Name -> nat, u: Uid, answers: seq<Lookup>, env: Env)
    requires Inv(c) && Acyclic(c, level) && NodesSucceed(c) && Eligible(c, u) && FaultFree(env) && env.freshKey != ""
    requires |answers| == |c.objects[u].spec.required| && forall a <- answers :: a.Found? && a.address != ""
    requires var st := Last(c.objects[u]); st.tx.status.Pending? ==> st.tx.txId in c.ledger.receipts
    ensures var v := ContractPass(u, c.objects[u].spec, Last(c.objects[u]), answers, c.ledger, env).0;
            v.Write? && v.status != Last(c.objects[u])
  {
    hide Inv, Acyclic, CheckDeps, ReconcileTx, VersionOk, LedgerOk;
    NonEmpty(c, u);
    var spec, st := c.objects[u].spec, Last(c.objects[u]);
    NextFacts(c, level, u);
    if !DepsReady(spec.required, st.deps) {
      DepsAdvance(spec, st, answers);
    } else {
      DepsCases(spec.required, answers, st.deps);
      TxAdvance(st.tx, spec.node, Content(u, Main, st.deps.resolved), c.ledger, env);
    }
  }

  lemma DepsCases(required: seq<Name>, answers: seq<Lookup>, deps: Deps)
    requires |answers| == |required| && DepsReady(required, deps)
    ensures CheckDeps(required, answers, deps) == Check(deps, false, true, false)
  {
  }

  lemma NextFacts(c: Cluster, level: Name -> nat, u: Uid)
    requires Inv(c) && Acyclic(c, level) && NodesSucceed(c) && Eligible(c, u)
    ensures var st := Last(c.objects[u]);
            && Shape(c.objects[u].spec, st) && Coherent(st.tx) && Rank(st.tx.status) < 3 &&
                Distinct(c.objects[u].spec.required)
  {
    hide PassOk, LedgerOk, DeployedAt, SubOk;
    NotFailed(c, u);
    assert ObjectOk(c, u) && VersionOk(c, u, Last(c.objects[u]));
    CoherentMain(c, u);
  }

  lemma CoherentMain(c: Cluster, u: Uid)
    requires Inv(c) && u in c.objects && c.objects[u].hist != []
    ensures Coherent(Last(c.objects[u]).tx)
  {
    hide PassOk, LedgerOk, DeployedAt, Shape, AddressOk;
    assert ObjectOk(c, u) && VersionOk(c, u, Last(c.objects[u]));
    assert SubOk(c, u, Main, SubAt(Last(c.objects[u]), Main));
  }

  // ---- fresh names for the environment to use ----

  lemma {:induction false} LongerThanAll(s: set<string>) returns (n: nat)
    ensures forall x <- s :: |x| < n
    decreases |s|
  {
    if s == {} {
      n := 0;
    } else {
      var x :| x in s;
      var m := LongerThanAll(s - {x});
      n := if |x| < m then m else |x| + 1;
    }
  }

  lemma FreshString(s: set<string>) returns (k: string)
    ensures k !in s && k != ""
  {
    var n := LongerThanAll(s);
    k := seq(n + 1, i => 'k');
    assert |k| == n + 1;
  }

  lemma {:induction false} AboveAll(s: set<nat>) returns (n: nat)
    ensures forall x <- s :: x < n
    decreases |s|
  {
    if s == {} {
      n := 0;
    } else {
      var x :| x in s;
      var m := AboveAll(s - {x});
      n := if x < m then m else x + 1;
      forall y | y in s ensures y < n {
        if y != x { assert y in s - {x}; }
      }
    }
  }

  lemma GoodEnv(c: Cluster, u: Uid) returns (env: Env)
    ensures EnvOk(c, u, Main, env) && FaultFree(env)
  {
    var key := FreshString(c.keys.Keys);
    var ids := set r | r in c.ledger.txs :: c.ledger.txs[r].id;
    var id := FreshString(c.ledger.receipts.Keys + ids);
    assert forall r <- c.ledger.txs :: c.ledger.txs[r].id in ids;
    env := Env(key, id, Ready, Ready, Delivered, Delivered, Delivered, true);
  }

  // ---- one step down ----

  lemma Chain(c: Cluster, e: Event, rest: seq<Event>)
    requires Enabled(c, e) && ValidFrom(Next(c, e), rest)
    ensures ValidFrom(c, [e] + rest) && After(c, [e] + rest) == After(Next(c, e), rest)
  {
    hide Enabled, Next;
    assert ([e] + rest)[1..] == rest;
  }

  lemma {:induction false} Join(c: Cluster, a: seq<Event>, b: seq<Event>)
    requires ValidFrom(c, a) && ValidFrom(After(c, a), b)
    ensures ValidFrom(c, a + b) && After(c, a + b) == After(After(c, a), b)
    decreases |a|
  {
    hide Enabled, Next;
    if a == [] {
      assert a + b == b;
    } else {
      Join(Next(c, a[0]), a[1..], b);
      assert (a + b)[1..] == a[1..] + b;
    }
  }

  lemma Three(c: Cluster, e1: Event, e2: Event, e3: Event)
    requires Enabled(c, e1) && Enabled(Next(c, e1), e2) && Enabled(Next(Next(c, e1), e2), e3)
    ensures ValidFrom(c, [e1, e2, e3]) && After(c, [e1, e2, e3]) == Next(Next(Next(c, e1), e2), e3)
  {
    hide Enabled, Next;
    var d := Next(Next(c, e1), e2);
    Chain(d, e3, []);
    Chain(Next(c, e1), e2, [e3]);
    Chain(c, e1, [e2, e3]);
    assert [e3] + [] == [e3] && [e2] + [e3] == [e2, e3] && [e1] + [e2, e3] == [e1, e2, e3];
  }

  /** The cluster after an undisturbed pass on the current version of `u`. */
  ghost function Passed(c: Cluster, u: Uid, looks: seq<Read>, env: Env): (d: Cluster)
    requires u in c.objects && c.objects[u].spec.Contract() && ReadsOk(c, c.objects[u].spec, looks) &&
      c.objects[u].hist != []
    requires ContractPass(u, c.objects[u].spec, Last(c.objects[u]), Answers(c, c.objects[u].spec, looks), c.ledger,
      env).0.Write?
  {
    var (v, l) := ContractPass(u, c.objects[u].spec, Last(c.objects[u]), Answers(c, c.objects[u].spec, looks),
        c.ledger, env);
    Appended(c, u, v.status).(ledger := l, keys := NoteKey(c.keys, u, Main, Last(c.objects[u]), v.status))
  }

  lemma SameAnswers(c: Cluster, d: Cluster, spec: Spec, looks: seq<Read>)
    requires d.objects == c.objects && ReadsOk(c, spec, looks)
    ensures ReadsOk(d, spec, looks) && Answers(d, spec, looks) == Answers(c, spec, looks)
  {
    assert forall i :: 0 <= i < |looks| ==> ReadOk(c, spec, ReadNames(spec)[i], looks[i]);
    assert ReadsOk(d, spec, looks);
    assert forall i :: 0 <= i < |looks| ==> Answers(d, spec, looks)[i] == Answers(c, spec, looks)[i];
  }

  lemma SameEnv(c: Cluster, d: Cluster, u: Uid, env: Env)
    requires d.keys == c.keys && d.ledger == c.ledger && EnvOk(c, u, Main, env)
    ensures EnvOk(d, u, Main, env)
  {
  }

  lemma PassEvents(c: Cluster, p: nat, u: Uid, looks: seq<Read>, env: Env)
    requires p !in c.passes && u in c.objects && c.objects[u].live && c.objects[u].spec.Contract() &&
      c.objects[u].hist != []
    requires ReadsOk(c, c.objects[u].spec, looks) && EnvOk(c, u, Main, env)
    requires var v := ContractPass(u, c.objects[u].spec, Last(c.objects[u]), Answers(c, c.objects[u].spec, looks),
      c.ledger, env).0;
             v.Write? && v.status != Last(c.objects[u])
    ensures var run := [Begin(p, u, |c.objects[u].hist| - 1), Event.Run(p, looks, env), Update(p)];
            ValidFrom(c, run) && After(c, run) == Passed(c, u, looks, env)
  {
    hide ContractPass, ValidFrom, After, Answers, EnvOk;
    var spec := c.objects[u].spec;
    var e1, e2, e3 := Begin(p, u, |c.objects[u].hist| - 1), Event.Run(p, looks, env), Update(p);
    var c1 := Next(c, e1);
    SameAnswers(c, c1, spec, looks);
    SameEnv(c, c1, u, env);
    assert Enabled(c, e1) && Enabled(c1, e2);
    var c2 := Next(c1, e2);
    var (v, l) := ContractPass(u, spec, Last(c.objects[u]), Answers(c, spec, looks), c.ledger, env);
    assert c2 == Settle(c1, p, v, l);
    assert Enabled(c2, e3);
    assert Next(c2, e3) == UpdateStatus(c2, p);
    assert c2.passes - {p} == c.passes;
    Three(c, e1, e2, e3);
  }

  /** Nothing an undisturbed pass does makes another CR's work longer. */
  lemma PassLowers(c: Cluster, u: Uid, looks: seq<Read>, env: Env)
    requires Inv(c) && u in c.objects && Tracked(c.objects[u]) && c.objects[u].hist != [] &&
      ReadsOk(c, c.objects[u].spec, looks)
    requires ContractPass(u, c.objects[u].spec, Last(c.objects[u]), Answers(c, c.objects[u].spec, looks), c.ledger,
      env).0.Write?
    requires Inv(Passed(c, u, looks, env))
    ensures Weight(Passed(c, u, looks, env), u) < Weight(c, u)
    ensures forall v: Uid :: Weight(Passed(c, u, looks, env), v) <= Weight(c, v)
  {
    hide Inv, Answers, Remaining, ContractPass;
    var d := Passed(c, u, looks, env);
    PassReceipts(u, c.objects[u].spec, Last(c.objects[u]), Answers(c, c.objects[u].spec, looks), c.ledger, env);
    LastTwo(d, u);
    var h := d.objects[u].hist;
    assert h[|h| - 2] == Last(c.objects[u]);
    OneStepDrops(c.objects[u].spec, Last(c.objects[u]), Last(d.objects[u]));
    assert Evolves(SubAt(Last(c.objects[u]), Main), SubAt(Last(d.objects[u]), Main));
  }

  lemma PassReceipts(u: Uid, spec: Spec, st: Status, answers: seq<Lookup>, ledger: Ledger, env: Env)
    requires spec.Contract() && |answers| == |spec.required|
    ensures ContractPass(u, spec, st, answers, ledger, env).1.receipts == ledger.receipts
  {
    hide CheckDeps, GrabAddress;
  }

  lemma LastTwo(c: Cluster, u: Uid)
    requires Inv(c) && u in c.objects && c.objects[u].spec.Contract() && |c.objects[u].hist| >= 2
    ensures var h := c.objects[u].hist;
            && Progresses(c.objects[u].spec, h[|h| - 2], h[|h| - 1])
            && Shape(c.objects[u].spec, h[|h| - 2]) && Shape(c.objects[u].spec, h[|h| - 1])
  {
    hide Inv, Progresses, VersionOk, Shape;
    ObjectOf(c, u);
    ShapeOf(c, u);
    assert Progresses(c.objects[u].spec, c.objects[u].hist[|c.objects[u].hist| - 1 - 1],
        c.objects[u].hist[|c.objects[u].hist| - 1]);
  }

  /** The hypotheses on dependencies and nodes survive as long as CRs and receipts are as before. */
  lemma ScenarioStays(c: Cluster, d: Cluster, level: Name -> nat)
    requires Acyclic(c, level) && Extends(c, d)
    requires forall u <- d.objects :: u in c.objects && d.objects[u].live == c.objects[u].live
    ensures Acyclic(d, level)
  {
    forall u, n | u in d.objects && Tracked(d.objects[u]) && n in d.objects[u].spec.required
      ensures (exists w :: LiveDeployment(d, w, n))
    {
      assert Tracked(c.objects[u]) && n in c.objects[u].spec.required;
      var w :| LiveDeployment(c, w, n);
      assert LiveDeployment(d, w, n);
    }
  }

  ghost predicate Bounded(c: Cluster, n: nat) { forall u <- c.objects :: u < n }

  lemma StepByPass(c: Cluster, level: Name -> nat, u: Uid, n: nat) returns (run: seq<Event>)
    requires Inv(c) && Acyclic(c, level) && NodesSucceed(c) && Eligible(c, u) && Bounded(c, n)
    requires c.objects[u].hist != [] &&
      (var st := Last(c.objects[u]); st.tx.status.Pending? ==> st.tx.txId in c.ledger.receipts)
    ensures AdmissibleRun(run) && Undisturbed(run) && ValidFrom(c, run) && |run| == 3
    ensures var d := After(c, run);
            Inv(d) && Acyclic(d, level) && NodesSucceed(d) && Bounded(d, n) && Total(d, n) < Total(c, n)
  {
    hide Inv, Acyclic, ContractPass, Extends, Weight, ValidFrom, After, EnvOk;
    var spec := c.objects[u].spec;
    var looks := Picks(c, spec.required);
    PicksOk(c, spec);
    var env := GoodEnv(c, u);
    var p := AboveAll(c.passes.Keys);
    var answers := Answers(c, spec, looks);
    forall i | 0 <= i < |answers| ensures answers[i].Found? && answers[i].address != "" {
      PicksFind(c, level, u, i);
    }
    assert forall a <- answers :: a.Found? && a.address != "";
    EnvKey(c, u, env);
    Advance(c, level, u, answers, env);
    run := [Begin(p, u, |c.objects[u].hist| - 1), Event.Run(p, looks, env), Update(p)];
    PassEvents(c, p, u, looks, env);
    RunFromKeeps(c, run);
    var d := Passed(c, u, looks, env);
    assert d.objects.Keys == c.objects.Keys;
    ScenarioStays(c, d, level);
    PassLowers(c, u, looks, env);
    TotalDrops(c, d, n, u);
    PassNodes(c, u, spec, Last(c.objects[u]), answers, env);
  }

  lemma EnvKey(c: Cluster, u: Uid, env: Env)
    requires EnvOk(c, u, Main, env)
    ensures env.freshKey != "" && env.freshId !in c.ledger.receipts
  {
  }

  lemma PassNodes(c: Cluster, u: Uid, spec: Spec, st: Status, answers: seq<Lookup>, env: Env)
    requires NodesSucceed(c) && spec.Contract() && |answers| == |spec.required| && env.freshId !in c.ledger.receipts
    ensures NodesSucceed(c.(ledger := ContractPass(u, spec, st, answers, c.ledger, env).1))
  {
    hide CheckDeps, GrabAddress;
  }

  lemma StepByMining(c: Cluster, level: Name -> nat, u: Uid, n: nat) returns (run: seq<Event>)
    requires Inv(c) && Acyclic(c, level) && NodesSucceed(c) && Eligible(c, u) && Bounded(c, n) &&
      c.objects[u].hist != []
    requires Last(c.objects[u]).tx.status.Pending? && Last(c.objects[u]).tx.txId !in c.ledger.receipts
    ensures AdmissibleRun(run) && Undisturbed(run) && ValidFrom(c, run) && |run| == 1
    ensures var d := After(c, run);
            Inv(d) && Acyclic(d, level) && NodesSucceed(d) && Bounded(d, n) && Total(d, n) < Total(c, n)
  {
    hide Inv, Acyclic, Extends, Remaining;
    var id := Last(c.objects[u]).tx.txId;
    var e := Mine(id, Receipt(true, if c.objects[u].spec.Deployment? then Some("0x") else None, "", 0, ""));
    PendingTx(c, u);
    run := [e];
    assert Enabled(c, e);
    Chain(c, e, []);
    assert [e] + [] == [e];
    var d := Next(c, e);
    NextKeeps(c, e);
    ScenarioStays(c, d, level);
    assert forall v: Uid :: Weight(d, v) <= Weight(c, v);
    TotalDrops(c, d, n, u);
  }

  lemma PendingTx(c: Cluster, u: Uid)
    requires Inv(c) && u in c.objects && c.objects[u].hist != [] && Last(c.objects[u]).tx.status.Pending?
    ensures exists r <- c.ledger.txs :: c.ledger.txs[r].id == Last(c.objects[u]).tx.txId
    ensures forall r <- c.ledger.txs :: c.ledger.txs[r].id == Last(c.objects[u]).tx.txId ==>
      c.ledger.txs[r].content.uid == u
  {
    hide PassOk, TxOk, DeployedAt, Shape, AddressOk;
    assert ObjectOk(c, u) && VersionOk(c, u, Last(c.objects[u]));
    assert SubOk(c, u, Main, SubAt(Last(c.objects[u]), Main));
    var ref := (NodeFor(c.objects[u].spec, Main), Last(c.objects[u]).tx.key);
    KeyOwner(c, u, Main, ref);
    assert forall r <- c.ledger.txs :: c.ledger.txs[r].id == c.ledger.txs[ref].id ==> r == ref;
  }

  /** As long as some CR is unfinished, at most three undisturbed events lower the measure. */
  lemma StepDown(c: Cluster, level: Name -> nat, n: nat) returns (run: seq<Event>)
    requires Inv(c) && Acyclic(c, level) && NodesSucceed(c) && Bounded(c, n) && !AllDone(c)
    ensures AdmissibleRun(run) && Undisturbed(run) && ValidFrom(c, run) && |run| <= 3
    ensures var d := After(c, run);
            Inv(d) && Acyclic(d, level) && NodesSucceed(d) && Bounded(d, n) && Total(d, n) < Total(c, n)
  {
    hide Inv, Acyclic, NodesSucceed, Bounded, AllDone, ValidFrom, After, Total;
    var u := SomeNext(c, level);
    NonEmpty(c, u);
    var st := Last(c.objects[u]);
    if st.tx.status.Pending? && st.tx.txId !in c.ledger.receipts {
      run := StepByMining(c, level, u, n);
    } else {
      run := StepByPass(c, level, u, n);
    }
  }

  lemma {:induction false} Descend(c: Cluster, level: Name -> nat, n: nat) returns (run: seq<Event>)
    requires Inv(c) && Acyclic(c, level) && NodesSucceed(c) && Bounded(c, n)
    ensures Undisturbed(run) && ValidFrom(c, run) && AllDone(After(c, run)) && |run| <= 3 * Total(c, n)
    decreases Total(c, n)
  {
    hide Inv, Acyclic, NodesSucceed, Bounded, AllDone, Total, Enabled, Next;
    TotalNonNegative(c, n);
    if AllDone(c) {
      run := [];
    } else {
      var first := StepDown(c, level, n);
      TotalNonNegative(After(c, first), n);
      var rest := Descend(After(c, first), level, n);
      run := first + rest;
      Join(c, first, rest);
    }
  }

  /**
   From every reachable state with acyclic dependencies whose nodes have failed nothing, undisturbed
   passes bring every live deployment and invoke to Success, whatever faults came before.
   */
  lemma EverythingDeploys(run: seq<Event>, level: Name -> nat) returns (more: seq<Event>)
    requires Guarantees.Run(run) && Acyclic(State(run), level) && NodesSucceed(State(run))
    ensures Undisturbed(more) && ValidFrom(State(run), more) && AllDone(After(State(run), more))
  {
    hide Inv, Acyclic, NodesSucceed, AllDone, ValidFrom, After;
    Reached(run);
    var n := AboveAll(State(run).objects.Keys);
    more := Descend(State(run), level, n);
  }
}
