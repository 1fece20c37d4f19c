/**
 The events of a pass at work (`Run`, `Publish`) keep the invariant; with `Preservation` this gives
 the invariant after every run.
 */
module Passes {
  import opened Collections
  import opened Transactions
  import opened Dependencies
  import opened Reconcilers
  import opened Cluster
  import opened Safety
  import opened Preservation

  // ---- what a version that was read says about the current one ----

  lemma KeyStays(c: Cluster, u: Uid, i: nat, slot: Slot)
    requires u in c.objects && ObjectOk(c, u) && i < |c.objects[u].hist|
    ensures var st := c.objects[u].hist[i];
            SubAt(st, slot).key != "" ==> SubAt(Last(c.objects[u]), slot).key == SubAt(st, slot).key
  {
    hide VersionOk, Progresses;
    HistorySettles(c.objects[u].spec, c.objects[u].hist, i, |c.objects[u].hist| - 1);
  }

  lemma SuccessStays(c: Cluster, u: Uid, i: nat)
    requires u in c.objects && ObjectOk(c, u) && i < |c.objects[u].hist| && c.objects[u].hist[i].tx.status.Success?
    ensures Last(c.objects[u]).tx.status.Success?
  {
    hide VersionOk, Progresses;
    HistorySettles(c.objects[u].spec, c.objects[u].hist, i, |c.objects[u].hist| - 1);
    assert Rank(SubAt(c.objects[u].hist[i], Main).status) == 3;
  }

  lemma {:induction false} DepsStay(spec: Spec, hist: seq<Status>, i: nat, j: nat)
    requires spec.Contract() && i <= j < |hist| && DepsReady(spec.required, hist[i].deps)
    requires forall k :: 0 <= k < |hist| ==> Shape(spec, hist[k])
    requires forall k :: 0 < k < |hist| ==> Progresses(spec, hist[k - 1], hist[k])
    ensures hist[j].deps == hist[i].deps
    decreases j - i
  {
    hide Shape, Progresses;
    if i < j {
      DepsStay(spec, hist, i, j - 1);
      ReadyIsFinal(spec, hist[j - 1], hist[j]);
    }
  }

  lemma ShapeOf(c: Cluster, u: Uid)
    requires u in c.objects && ObjectOk(c, u)
    ensures forall k :: 0 <= k < |c.objects[u].hist| ==> Shape(c.objects[u].spec, c.objects[u].hist[k])
  {
    forall k | 0 <= k < |c.objects[u].hist| ensures Shape(c.objects[u].spec, c.objects[u].hist[k]) {
      assert VersionOk(c, u, c.objects[u].hist[k]);
    }
  }

  /** A complete set of addresses read from any version is the current one, and genuine. */
  lemma ContractContent(c: Cluster, u: Uid, i: nat)
    requires u in c.objects && ObjectOk(c, u) && c.objects[u].spec.Contract() && i < |c.objects[u].hist|
    requires DepsReady(c.objects[u].spec.required, c.objects[u].hist[i].deps)
    ensures ContentOk(c, u, Content(u, Main, c.objects[u].hist[i].deps.resolved))
  {
    hide Shape, Progresses, SubOk, DeployedAt, AddressOk;
    ShapeOf(c, u);
    DepsStay(c.objects[u].spec, c.objects[u].hist, i, |c.objects[u].hist| - 1);
    assert VersionOk(c, u, c.objects[u].hist[i]);
  }

  lemma IdsNonEmpty(c: Cluster)
    requires Inv(c)
    ensures forall r <- c.ledger.txs :: c.ledger.txs[r].id != ""
  {
    hide ObjectOk, PassOk, ContentOk;
    assert forall r <- c.ledger.txs :: TxOk(c, r);
  }

  // ---- answers are genuine ----

  lemma AnswerDeployed(c: Cluster, spec: Spec, n: Name, r: Read, a: Address)
    requires ReadOk(c, spec, n, r) && !spec.Registration? && Answer(c, r) == Found(a) && a != ""
    ensures DeployedAt(c, n, a)
  {
    assert DeployVersion(c, r.uid, r.version, n, a);
  }

  lemma AnswerRegistry(c: Cluster, spec: Spec, n: Name, r: Read, a: Address)
    requires Inv(c) && ReadOk(c, spec, n, r) && spec.Registration? && Answer(c, r) == Found(a) && a != ""
    ensures RegistryAt(c, n, a)
  {
    assert ObjectOk(c, r.uid) && VersionOk(c, r.uid, c.objects[r.uid].hist[r.version]);
    assert RegistryVersion(c, r.uid, r.version, n, a);
  }

  // ---- resolving dependencies ----

  lemma SubmapSize(a: map<Name, Address>, b: map<Name, Address>)
    requires forall d <- a :: d in b && b[d] == a[d]
    ensures |a| <= |b| && (a != b ==> |a| < |b|)
  {
    assert b.Keys == a.Keys + (b.Keys - a.Keys);
    if b.Keys - a.Keys == {} {
      assert a.Keys == b.Keys;
    }
  }

  /** A pass that resolved something wants to write a version that only adds answers. */
  lemma DepsChange(spec: Spec, st: Status, answers: seq<Lookup>)
    requires spec.Contract() && |answers| == |spec.required| && Shape(spec, st) && Coherent(st.tx)
    requires CheckDeps(spec.required, answers, st.deps).changed
    ensures var st' := st.(deps := CheckDeps(spec.required, answers, st.deps).deps);
            Shape(spec, st') && (st' == st || Progresses(spec, st, st'))
    ensures forall d <- st.deps.resolved :: st.deps.resolved[d] != ""
  {
    hide Answered, SubAt, Coherent, Resolve;
    var deps := CheckDeps(spec.required, answers, st.deps).deps;
    ResolveAdds(spec.required, answers, st.deps.resolved);
    SubmapSize(st.deps.resolved, deps.resolved);
    assert DepsShape(spec.required, deps);
    SameSubs(st, deps);
  }

  lemma SameSubs(st: Status, deps: Deps)
    ensures forall slot :: SubAt(st.(deps := deps), slot) == SubAt(st, slot)
  {
  }

  /** Every answer that is an address is the address of the deployment it was asked of. */
  ghost predicate Genuine(c: Cluster, required: seq<Name>, answers: seq<Lookup>) {
    && |answers| == |required|
    && forall i :: 0 <= i < |answers| ==>
         answers[i].Found? && answers[i].address != "" ==> DeployedAt(c, required[i], answers[i].address)
  }

  lemma AnswersGenuine(c: Cluster, spec: Spec, looks: seq<Read>)
    requires ReadsOk(c, spec, looks) && !spec.Registration?
    ensures Genuine(c, ReadNames(spec), Answers(c, spec, looks))
  {
    var answers := Answers(c, spec, looks);
    forall i | 0 <= i < |answers| && answers[i].Found? && answers[i].address != ""
      ensures DeployedAt(c, ReadNames(spec)[i], answers[i].address)
    {
      AnswerDeployed(c, spec, ReadNames(spec)[i], looks[i], answers[i].address);
    }
  }

  lemma DepsVersion(c: Cluster, u: Uid, st: Status, answers: seq<Lookup>)
    requires u in c.objects && c.objects[u].spec.Contract() && VersionOk(c, u, st)
    requires Genuine(c, c.objects[u].spec.required, answers)
    requires CheckDeps(c.objects[u].spec.required, answers, st.deps).changed
    ensures var st' := st.(deps := CheckDeps(c.objects[u].spec.required, answers, st.deps).deps);
            VersionOk(c, u, st') && (st' == st || Progresses(c.objects[u].spec, st, st'))
  {
    hide Shape, Progresses, CheckDeps, DeployedAt;
    var required := c.objects[u].spec.required;
    var st' := st.(deps := CheckDeps(required, answers, st.deps).deps);
    assert SubOk(c, u, Main, SubAt(st, Main));
    DepsChange(c.objects[u].spec, st, answers);
    forall slot ensures SubOk(c, u, slot, SubAt(st', slot)) { assert SubOk(c, u, slot, SubAt(st, slot)); }
    forall d | d in st'.deps.resolved ensures DeployedAt(c, d, st'.deps.resolved[d]) {
      if d !in st.deps.resolved || st'.deps.resolved[d] != st.deps.resolved[d] {
        DepsNew(c, required, answers, st.deps, d);
      }
    }
  }

  lemma DepsNew(c: Cluster, required: seq<Name>, answers: seq<Lookup>, deps: Deps, d: Name)
    requires Genuine(c, required, answers) && CheckDeps(required, answers, deps).changed
    requires forall n <- deps.resolved :: deps.resolved[n] != ""
    requires d in CheckDeps(required, answers, deps).deps.resolved
    requires d !in deps.resolved || deps.resolved[d] != CheckDeps(required, answers, deps).deps.resolved[d]
    ensures DeployedAt(c, d, CheckDeps(required, answers, deps).deps.resolved[d])
  {
    hide DeployedAt;
    ResolveAdds(required, answers, deps.resolved);
    var m := CheckDeps(required, answers, deps).deps.resolved;
    var i :| 0 <= i < |required| && required[i] == d && answers[i] == Found(m[d]);
  }

  // ---- ending the working part of a pass ----

  /** The cluster with a pass's effect on the nodes and the generated keys, its passes unchanged. */
  function Worked(c: Cluster, ledger: Ledger, keys: map<Key, (Uid, Slot)>): (d: Cluster) {
    c.(ledger := ledger, keys := keys)
  }

  ghost predicate Acceptable(c: Cluster, pass: Pass, st: Status) {
    && pass.uid in c.objects && pass.base < |c.objects[pass.uid].hist|
    && VersionOk(c, pass.uid, st)
    && var from := c.objects[pass.uid].hist[pass.base];
       st == from || Progresses(c.objects[pass.uid].spec, from, st)
  }

  lemma WorkedKeeps(c: Cluster, ledger: Ledger, keys: map<Key, (Uid, Slot)>)
    requires Inv(c) && Extends(c, Worked(c, ledger, keys)) && LedgerOk(Worked(c, ledger, keys))
    ensures Inv(Worked(c, ledger, keys))
  {
    hide ObjectOk, PassOk, LedgerOk, TxOk, Extends;
    FrameStore(c, Worked(c, ledger, keys));
  }

  lemma ReplacePass(c: Cluster, p: nat, pass: Pass)
    requires Inv(c) && p in c.passes && PassOk(c, pass)
    ensures var d := c.(passes := c.passes[p := pass]); Inv(d) && Extends(c, d)
  {
    hide ObjectOk, PassOk, LedgerOk, Extends;
    PassesOnly(c, c.(passes := c.passes[p := pass]));
  }

  lemma SettleKeeps(c: Cluster, p: nat, verdict: Verdict, ledger: Ledger)
    requires Inv(c) && p in c.passes
    requires var d := Worked(c, ledger, Settle(c, p, verdict, ledger).keys);
             && Extends(c, d) && LedgerOk(d)
             && (verdict.Write? ==> Acceptable(d, c.passes[p], verdict.status))
    ensures Inv(Settle(c, p, verdict, ledger)) && Extends(c, Settle(c, p, verdict, ledger))
  {
    hide Inv, PassOk, LedgerOk, Extends, VersionOk, Progresses;
    var d := Worked(c, ledger, Settle(c, p, verdict, ledger).keys);
    WorkedKeeps(c, ledger, d.keys);
    match verdict {
      case Rest =>
        DropPass(d, p);
        ExtendsThrough(c, d, Settle(c, p, verdict, ledger));
      case Write(st) =>
        var pass := c.passes[p].(mem := st, stage := Updating);
        AcceptablePass(d, c.passes[p], st);
        ReplacePass(d, p, pass);
        ExtendsThrough(c, d, Settle(c, p, verdict, ledger));
    }
  }

  lemma AcceptablePass(c: Cluster, pass: Pass, st: Status)
    requires Acceptable(c, pass, st)
    ensures PassOk(c, pass.(mem := st, stage := Updating))
  {
    hide VersionOk, Progresses;
  }

  // ---- the transaction of a deployment or invoke ----

  /** The version a pass writes after its main transaction moved on. */
  lemma MovedVersion(c: Cluster, d: Cluster, u: Uid, st: Status, st': Status)
    requires u in c.objects && VersionOk(c, u, st) && Extends(c, d)
    requires forall slot: Slot :: slot.Transport? ==> SubAt(st', slot) == SubAt(st, slot)
    requires SubOk(d, u, Main, st'.tx) && Shape(c.objects[u].spec, st') && AddressOk(d, c.objects[u].spec, st')
    requires st'.deps == st.deps
    ensures VersionOk(d, u, st')
  {
    hide Shape, AddressOk, SubOk, DeployedAt;
    VersionStays(c, d, u, st);
    forall slot ensures SubOk(d, u, slot, SubAt(st', slot)) {
      if slot.Transport? { assert SubOk(d, u, slot, SubAt(st, slot)); }
    }
  }

  lemma MovedProgress(spec: Spec, st: Status, st': Status)
    requires StepsUp(st.tx, st'.tx) && st'.deps == st.deps && st'.phase == st.phase
    requires st.address != "" ==> st'.address == st.address
    requires forall slot: Slot :: slot.Transport? ==> SubAt(st', slot) == SubAt(st, slot)
    ensures Progresses(spec, st, st')
  {
    forall slot ensures Evolves(SubAt(st, slot), SubAt(st', slot)) {
      if slot.Main? { assert SubAt(st, slot) == st.tx && SubAt(st', slot) == st'.tx; }
    }
  }

  /** What GrabAddress makes of a moved transaction. */
  lemma Grabbed(c: Cluster, u: Uid, st: Status, o: Outcome)
    requires u in c.objects && c.objects[u].spec.Contract() && Shape(c.objects[u].spec, st) && Rank(st.tx.status) < 3
    requires SubOk(c, u, Main, o.sub) && StepsUp(st.tx, o.sub) && DepsReady(c.objects[u].spec.required, st.deps)
    requires Rank(o.sub.status) == 3 ==>
      o.sub.txId in c.ledger.receipts && o.receipt == Some(c.ledger.receipts[o.sub.txId])
    requires forall id <- c.ledger.receipts :: c.ledger.receipts[id].contract != Some("")
    ensures var st' := GrabAddress(c.objects[u].spec, st.(tx := o.sub), o.receipt);
            && SubOk(c, u, Main, st'.tx) && StepsUp(st.tx, st'.tx)
            && Shape(c.objects[u].spec, st') && AddressOk(c, c.objects[u].spec, st')
            && st'.deps == st.deps && st'.phase == st.phase && st'.publish == st.publish && st.address == ""
  {
  }

  lemma ReceiptsNonEmpty(c: Cluster)
    requires LedgerOk(c)
    ensures forall id <- c.ledger.receipts :: c.ledger.receipts[id].contract != Some("")
  {
  }

  /** The facts a pass starts from: the version it read, and the CR it belongs to. */
  ghost predicate Started(c: Cluster, pass: Pass) {
    && pass.uid in c.objects && ObjectOk(c, pass.uid) && pass.base < |c.objects[pass.uid].hist|
    && pass.mem == c.objects[pass.uid].hist[pass.base] && VersionOk(c, pass.uid, pass.mem)
  }

  lemma StartedPass(c: Cluster, p: nat)
    requires Inv(c) && p in c.passes && c.passes[p].stage.Begun?
    ensures Started(c, c.passes[p])
  {
    hide VersionOk, LedgerOk;
    assert PassOk(c, c.passes[p]);
    assert ObjectOk(c, c.passes[p].uid);
  }

  lemma MainSub(c: Cluster, u: Uid, st: Status, slot: Slot)
    requires u in c.objects && VersionOk(c, u, st)
    ensures SubOk(c, u, slot, SubAt(st, slot)) && Shape(c.objects[u].spec, st)
  {
  }

  lemma ContractTx(c: Cluster, pass: Pass, env: Env)
    requires Inv(c) && Started(c, pass) && c.objects[pass.uid].spec.Contract() && EnvOk(c, pass.uid, Main, env)
    requires DepsReady(c.objects[pass.uid].spec.required, pass.mem.deps)
    ensures var spec := c.objects[pass.uid].spec;
            var o := ReconcileTx(pass.mem.tx, spec.node, Content(pass.uid, Main, pass.mem.deps.resolved), c.ledger,
                env);
            var d := Called(c, pass.uid, Main, pass.mem.tx, o);
            && Extends(c, d) && LedgerOk(d)
            && (o.changed ==> Acceptable(d, pass, GrabAddress(spec, pass.mem.(tx := o.sub), o.receipt)))
  {
    hide Inv, ObjectOk, VersionOk, ContentOk, Extends, LedgerOk, SubOk, Shape, AddressOk, ReconcileTx, GrabAddress,
         Progresses;
    var u, st, spec := pass.uid, pass.mem, c.objects[pass.uid].spec;
    var content := Content(u, Main, st.deps.resolved);
    var o := ReconcileTx(st.tx, spec.node, content, c.ledger, env);
    var d := Called(c, u, Main, st.tx, o);
    NonEmpty(c, u);
    ContractContent(c, u, pass.base);
    KeyStays(c, u, pass.base, Main);
    MainSub(c, u, st, Main);
    TxStep(c, u, Main, st.tx, content, env);
    if o.changed {
      IdsNonEmpty(c);
      SubStep(c, u, Main, st.tx, content, env);
      SubRank(o.sub);
      SameReceipts(st.tx, spec.node, content, c.ledger, env);
      ReceiptsNonEmpty(d);
      Grabbed(d, u, st, o);
      var st' := GrabAddress(spec, st.(tx := o.sub), o.receipt);
      assert forall slot: Slot :: slot.Transport? ==> SubAt(st', slot) == SubAt(st, slot);
      MovedVersion(c, d, u, st, st');
      MovedProgress(spec, st, st');
    }
  }

  lemma SubRank(sub: Submission)
    ensures Rank(sub.status) <= 3
  {
  }

  lemma SameReceipts(sub: Submission, at: Name, content: Content, ledger: Ledger, env: Env)
    ensures ReconcileTx(sub, at, content, ledger, env).ledger.receipts == ledger.receipts
  {
  }

  lemma ContractRun(c: Cluster, p: nat, answers: seq<Lookup>, env: Env)
    requires Inv(c) && p in c.passes && Started(c, c.passes[p]) && c.objects[c.passes[p].uid].spec.Contract()
    requires EnvOk(c, c.passes[p].uid, Main, env) && Genuine(c, c.objects[c.passes[p].uid].spec.required, answers)
    ensures var pass := c.passes[p];
            var (v, l) := ContractPass(pass.uid, c.objects[pass.uid].spec, pass.mem, answers, c.ledger, env);
            Inv(Settle(c, p, v, l)) && Extends(c, Settle(c, p, v, l))
  {
    hide Inv, ObjectOk, VersionOk, Extends, LedgerOk, CheckDeps, ReconcileTx, GrabAddress, Progresses, EnvOk;
    var pass := c.passes[p];
    var spec := c.objects[pass.uid].spec;
    var (v, l) := ContractPass(pass.uid, spec, pass.mem, answers, c.ledger, env);
    Unchanged(c);
    DepsFlags(spec.required, answers, pass.mem.deps);
    var check := CheckDeps(spec.required, answers, pass.mem.deps);
    if check.changed {
      FromStart(c, pass);
      DepsVersion(c, pass.uid, pass.mem, answers);
      assert Worked(c, l, Settle(c, p, v, l).keys) == c;
    } else if check.ready && !check.err {
      ContractTx(c, pass, env);
      var o := ReconcileTx(pass.mem.tx, spec.node, Content(pass.uid, Main, pass.mem.deps.resolved), c.ledger, env);
      UnchangedKey(pass.mem.tx, spec.node, Content(pass.uid, Main, pass.mem.deps.resolved), c.ledger, env);
      GrabKeepsKey(spec, pass.mem.(tx := o.sub), o.receipt);
      assert Worked(c, l, Settle(c, p, v, l).keys) == Called(c, pass.uid, Main, pass.mem.tx, o);
    } else {
      assert Worked(c, l, Settle(c, p, v, l).keys) == c;
    }
    SettleKeeps(c, p, v, l);
  }

  lemma Unchanged(c: Cluster)
    requires Inv(c)
    ensures Extends(c, c) && LedgerOk(c)
  {
    hide ObjectOk, PassOk, LedgerOk;
  }

  lemma FromStart(c: Cluster, pass: Pass)
    requires Started(c, pass)
    ensures pass.uid in c.objects && pass.base < |c.objects[pass.uid].hist|
    ensures pass.mem == c.objects[pass.uid].hist[pass.base] && VersionOk(c, pass.uid, pass.mem)
  {
  }

  lemma DepsFlags(required: seq<Name>, answers: seq<Lookup>, deps: Deps)
    requires |answers| == |required|
    ensures var k := CheckDeps(required, answers, deps);
      (k.ready ==> DepsReady(required, deps)) && (k.changed ==> !k.err)
  {
  }

  lemma UnchangedKey(sub: Submission, at: Name, content: Content, ledger: Ledger, env: Env)
    ensures var o := ReconcileTx(sub, at, content, ledger, env); !o.changed ==> o.sub == sub
  {
  }

  lemma GrabKeepsKey(spec: Spec, st: Status, receipt: Option<Receipt>)
    ensures GrabAddress(spec, st, receipt).tx.key == st.tx.key
  {
  }

  // ---- registration ----

  lemma RegistrationMoved(c: Cluster, u: Uid, st: Status, o: Outcome)
    requires u in c.objects && c.objects[u].spec.Registration? && Shape(c.objects[u].spec, st)
    requires StepsUp(st.tx, o.sub)
    ensures var st' := st.(tx := o.sub, publish := if st.publish.None? then Some(map[]) else st.publish,
      publishCount := 0);
            && Shape(c.objects[u].spec, st')
            && (forall slot: Slot :: slot.Transport? ==> SubAt(st', slot) == SubAt(st, slot))
  {
    SubRank(o.sub);
    var st' := st.(tx := o.sub, publish := if st.publish.None? then Some(map[]) else st.publish, publishCount := 0);
    assert forall slot: Slot :: slot.Transport? ==> SubAt(st', slot) == SubAt(st, slot);
  }

  lemma RegistrationTx(c: Cluster, pass: Pass, a: Address, env: Env)
    requires Inv(c) && Started(c, pass) && c.objects[pass.uid].spec.Registration? && EnvOk(c, pass.uid, Main, env)
    requires RegistryAt(c, c.objects[pass.uid].spec.registry, a)
    ensures var spec := c.objects[pass.uid].spec;
            var o := ReconcileTx(pass.mem.tx, spec.adminNode, RegistrationContent(pass.uid, Main, spec, a), c.ledger,
                env);
            var d := Called(c, pass.uid, Main, pass.mem.tx, o);
            && Extends(c, d) && LedgerOk(d)
            && (o.changed ==> Acceptable(d, pass,
                  pass.mem.(tx := o.sub, publish := if pass.mem.publish.None? then Some(map[]) else pass.mem.publish,
                      publishCount := 0)))
            && (!o.changed && o.succeeded ==> pass.mem.tx.status.Success?)
  {
    hide Inv, ObjectOk, VersionOk, Extends, LedgerOk, SubOk, Shape, ReconcileTx, Progresses;
    var u, st, spec := pass.uid, pass.mem, c.objects[pass.uid].spec;
    var content := RegistrationContent(u, Main, spec, a);
    var o := ReconcileTx(st.tx, spec.adminNode, content, c.ledger, env);
    var d := Called(c, u, Main, st.tx, o);
    NonEmpty(c, u);
    KeyStays(c, u, pass.base, Main);
    MainSub(c, u, st, Main);
    TxStep(c, u, Main, st.tx, content, env);
    IdsNonEmpty(c);
    SubStep(c, u, Main, st.tx, content, env);
    if o.changed {
      RegistrationMoved(c, u, st, o);
      RegistrationAddress(c, d, u, st);
      var st' := st.(tx := o.sub, publish := if st.publish.None? then Some(map[]) else st.publish, publishCount := 0);
      MovedVersion(c, d, u, st, st');
      MovedProgress(spec, st, st');
    }
  }

  lemma RegistrationAddress(c: Cluster, d: Cluster, u: Uid, st: Status)
    requires u in c.objects && c.objects[u].spec.Registration? && Shape(c.objects[u].spec, st)
    ensures st.address == ""
  {
  }

  lemma LoopStart(c: Cluster, pass: Pass, a: Address)
    requires Started(c, pass) && c.objects[pass.uid].spec.Registration? &&
      RegistryAt(c, c.objects[pass.uid].spec.registry, a)
    requires pass.mem.tx.status.Success?
    ensures PassOk(c, pass.(stage := Publishing(0, a, 1, false)))
  {
    MainSub(c, pass.uid, pass.mem, Main);
    hide VersionOk, ObjectOk, RegistryAt;
    assert Progresses(c.objects[pass.uid].spec, pass.mem, pass.mem);
  }

  lemma StartedStays(c: Cluster, d: Cluster, pass: Pass)
    requires Started(c, pass) && Extends(c, d) && d.objects == c.objects
    ensures Started(d, pass)
  {
    hide VersionOk, ObjectOk;
    ObjectStays(c, d, pass.uid);
    VersionStays(c, d, pass.uid, pass.mem);
  }

  lemma RegistrationRun(c: Cluster, p: nat, answer: Lookup, env: Env)
    requires Inv(c) && p in c.passes && Started(c, c.passes[p]) && c.objects[c.passes[p].uid].spec.Registration?
    requires EnvOk(c, c.passes[p].uid, Main, env)
    requires answer.Found? && answer.address != "" ==>
      RegistryAt(c, c.objects[c.passes[p].uid].spec.registry, answer.address)
    ensures var pass := c.passes[p];
            var (o, l) := OpenRegistration(pass.uid, c.objects[pass.uid].spec, pass.mem, answer, c.ledger, env);
            var d := if o.Stop? then Settle(c, p, o.verdict, l)
                     else c.(passes := c.passes[p := pass.(stage := Publishing(0, answer.address, 1, false))],
                         ledger := l);
            Inv(d) && Extends(c, d)
  {
    hide Inv, ObjectOk, VersionOk, Extends, LedgerOk, ReconcileTx, Progresses, EnvOk, RegistryAt;
    var pass := c.passes[p];
    var spec := c.objects[pass.uid].spec;
    var (opening, l) := OpenRegistration(pass.uid, spec, pass.mem, answer, c.ledger, env);
    Unchanged(c);
    if !answer.Found? || answer.address == "" {
      assert Worked(c, l, Settle(c, p, Rest, l).keys) == c;
      SettleKeeps(c, p, Rest, l);
    } else {
      var content := RegistrationContent(pass.uid, Main, spec, answer.address);
      var o := ReconcileTx(pass.mem.tx, spec.adminNode, content, c.ledger, env);
      RegistrationTx(c, pass, answer.address, env);
      UnchangedKey(pass.mem.tx, spec.adminNode, content, c.ledger, env);
      var d := Called(c, pass.uid, Main, pass.mem.tx, o);
      if opening.Stop? {
        assert Worked(c, l, Settle(c, p, opening.verdict, l).keys) == d;
        SettleKeeps(c, p, opening.verdict, l);
      } else {
        assert d == Worked(c, l, c.keys);
        WorkedKeeps(c, l, c.keys);
        RegistryStays(c, d, spec.registry, answer.address);
        StartedStays(c, d, pass);
        LoopStart(d, pass, answer.address);
        ReplacePass(d, p, pass.(stage := Publishing(0, answer.address, 1, false)));
        ExtendsThrough(c, d, d.(passes := c.passes[p := pass.(stage := Publishing(0, answer.address, 1, false))]));
      }
    }
  }

  // ---- publishing one transport ----

  lemma PublishedSlots(st: Status, t: Name, sub: Submission)
    requires st.publish.Some?
    ensures var st' := st.(publish := Some(st.publish.value[t := sub]));
            && SubAt(st', Transport(t)) == sub
            && forall slot: Slot :: slot != Transport(t) ==> SubAt(st', slot) == SubAt(st, slot)
  {
  }

  /** A loop iteration changes the record of its own transport and no other. */
  lemma PublishedVersion(c: Cluster, d: Cluster, u: Uid, st: Status, t: Name, sub: Submission)
    requires u in c.objects && c.objects[u].spec.Registration? && t in c.objects[u].spec.transports
    requires VersionOk(c, u, st) && Extends(c, d) && st.publish.Some? && st.tx.status.Success?
    requires SubOk(d, u, Transport(t), sub) && Evolves(SubAt(st, Transport(t)), sub)
    ensures VersionOk(d, u, st.(publish := Some(st.publish.value[t := sub])))
  {
    hide SubOk, DeployedAt, Extends;
    SameSpec(c, d, u);
    var st' := st.(publish := Some(st.publish.value[t := sub]));
    PublishedSlots(st, t, sub);
    VersionStays(c, d, u, st);
    forall slot ensures SubOk(d, u, slot, SubAt(st', slot)) {
      if slot != Transport(t) { assert SubOk(d, u, slot, SubAt(st, slot)); }
    }
    PublishedShape(c.objects[u].spec, st, t, sub);
  }

  lemma SameSpec(c: Cluster, d: Cluster, u: Uid)
    requires Extends(c, d) && u in c.objects
    ensures u in d.objects && d.objects[u].spec == c.objects[u].spec
  {
  }

  lemma PublishedShape(spec: Spec, st: Status, t: Name, sub: Submission)
    requires spec.Registration? && t in spec.transports && Shape(spec, st)
    requires st.publish.Some? && st.tx.status.Success? && Evolves(SubAt(st, Transport(t)), sub)
    ensures Shape(spec, st.(publish := Some(st.publish.value[t := sub])))
  {
    var st' := st.(publish := Some(st.publish.value[t := sub]));
    PublishedSlots(st, t, sub);
    SubRank(sub);
    CountGrows(st, st', spec.transports);
  }

  /** The loop counter stays below the successes among the transports already visited. */
  lemma PublishedCount(st: Status, transports: seq<Name>, next: nat, sub: Submission)
    requires next < |transports| && Distinct(transports) && st.publish.Some?
    ensures var st' := st.(publish := Some(st.publish.value[transports[next] := sub]));
            CountSuccess(st', transports[..next + 1]) ==
              CountSuccess(st, transports[..next]) + (if sub.status.Success? then 1 else 0)
  {
    var st' := st.(publish := Some(st.publish.value[transports[next] := sub]));
    PublishedSlots(st, transports[next], sub);
    assert transports[..next + 1][..next] == transports[..next];
    forall t | t in transports[..next] ensures SubAt(st, Transport(t)) == SubAt(st', Transport(t)) {
      var i :| 0 <= i < next && transports[i] == t;
    }
    CountSame(st, st', transports[..next]);
  }

  lemma {:induction false} CountOneMore(st: Status, transports: seq<Name>, next: nat)
    requires next < |transports|
    ensures CountSuccess(st, transports[..next]) <= CountSuccess(st, transports[..next + 1])
  {
    assert transports[..next + 1][..next] == transports[..next];
  }

  lemma PublishTx(c: Cluster, pass: Pass, env: Env)
    requires Inv(c) && PassOk(c, pass) && pass.stage.Publishing?
    requires c.objects[pass.uid].spec.Registration? && pass.stage.next < |c.objects[pass.uid].spec.transports|
    requires EnvOk(c, pass.uid, Transport(c.objects[pass.uid].spec.transports[pass.stage.next]), env)
    ensures var spec := c.objects[pass.uid].spec;
            var t := spec.transports[pass.stage.next];
            var sub := SubAt(pass.mem, Transport(t));
            var o := ReconcileTx(sub, spec.node,
                RegistrationContent(pass.uid, Transport(t), spec, pass.stage.registry), c.ledger, env);
            var d := Called(c, pass.uid, Transport(t), sub, o);
            && Extends(c, d) && LedgerOk(d) && SubOk(d, pass.uid, Transport(t), o.sub)
            && (if o.changed then StepsUp(sub, o.sub) && !o.err else o.sub == sub)
  {
    hide Inv, ObjectOk, VersionOk, Extends, LedgerOk, SubOk, ReconcileTx, Progresses;
    var u, spec := pass.uid, c.objects[pass.uid].spec;
    var slot := Transport(spec.transports[pass.stage.next]);
    var content := RegistrationContent(u, slot, spec, pass.stage.registry);
    NonEmpty(c, u);
    ObjectOf(c, u);
    KeyStays(c, u, pass.base, slot);
    SuccessStays(c, u, pass.base);
    MainSub(c, u, pass.mem, slot);
    TxStep(c, u, slot, SubAt(pass.mem, slot), content, env);
    IdsNonEmpty(c);
    SubStep(c, u, slot, SubAt(pass.mem, slot), content, env);
  }

  lemma PublishedProgress(spec: Spec, from: Status, st: Status, t: Name, sub: Submission)
    requires spec.Registration? && Progresses(spec, from, st) && st.publish.Some?
    requires SubAt(st, Transport(t)) == SubAt(from, Transport(t)) && Evolves(SubAt(st, Transport(t)), sub)
    ensures Progresses(spec, from, st.(publish := Some(st.publish.value[t := sub])))
  {
    PublishedSlots(st, t, sub);
  }

  /** The pass after one iteration, whether or not its transport moved on. */
  lemma PublishedPass(c: Cluster, d: Cluster, pass: Pass, sub: Submission, moved: bool)
    requires PassOk(c, pass) && ObjectOk(c, pass.uid) && pass.stage.Publishing? && Extends(c, d) &&
      d.objects == c.objects
    requires pass.stage.next < |c.objects[pass.uid].spec.transports|
    requires moved ==>
      var slot := Transport(c.objects[pass.uid].spec.transports[pass.stage.next]);
      SubOk(d, pass.uid, slot, sub) && StepsUp(SubAt(pass.mem, slot), sub)
    ensures pass.mem.publish.Some?
    ensures var t := c.objects[pass.uid].spec.transports[pass.stage.next];
            var mem := if moved then pass.mem.(publish := Some(pass.mem.publish.value[t := sub])) else pass.mem;
            var count := if moved && sub.status.Success? then pass.stage.count + 1 else pass.stage.count;
            PassOk(d, pass.(mem := mem, stage := Publishing(pass.stage.next + 1, pass.stage.registry, count, moved ||
                pass.stage.changed)))
  {
    hide VersionOk, Extends, SubOk, Progresses, RegistryAt, Shape;
    var spec := c.objects[pass.uid].spec;
    var next := pass.stage.next;
    var t := spec.transports[next];
    RegistryStays(c, d, spec.registry, pass.stage.registry);
    CountOneMore(pass.mem, spec.transports, next);
    if moved {
      PublishedVersion(c, d, pass.uid, pass.mem, t, sub);
      PublishedProgress(spec, c.objects[pass.uid].hist[pass.base], pass.mem, t, sub);
      PublishedCount(pass.mem, spec.transports, next, sub);
      PublishedSlots(pass.mem, t, sub);
    } else {
      VersionStays(c, d, pass.uid, pass.mem);
    }
  }

  lemma PublishKeeps(c: Cluster, p: nat, env: Env)
    requires Inv(c) && p in c.passes && c.passes[p].uid in c.objects && c.passes[p].stage.Publishing?
    requires c.objects[c.passes[p].uid].spec.Registration?
    requires c.passes[p].stage.next < |c.objects[c.passes[p].uid].spec.transports|
    requires EnvOk(c, c.passes[p].uid, Transport(c.objects[c.passes[p].uid].spec.transports[c.passes[p].stage.next]),
      env)
    ensures Inv(PublishNext(c, p, env)) && Extends(c, PublishNext(c, p, env))
    ensures p in PublishNext(c, p, env).passes
  {
    hide Inv, ObjectOk, Extends, LedgerOk, SubOk, ReconcileTx, EnvOk, PassOk;
    var pass := c.passes[p];
    var spec := c.objects[pass.uid].spec;
    var t := spec.transports[pass.stage.next];
    var sub := SubAt(pass.mem, Transport(t));
    var o := ReconcileTx(sub, spec.node, RegistrationContent(pass.uid, Transport(t), spec, pass.stage.registry),
        c.ledger, env);
    var d := Called(c, pass.uid, Transport(t), sub, o);
    DropPass(c, p);
    ObjectOf(c, pass.uid);
    PublishTx(c, pass, env);
    PublishedPass(c, d, pass, o.sub, o.changed);
    if o.changed { PublishedSlots(pass.mem, t, o.sub); }
    WorkedKeeps(c, d.ledger, d.keys);
    assert d == Worked(c, d.ledger, d.keys);
    var e := PublishNext(c, p, env);
    assert e == d.(passes := d.passes[p := e.passes[p]]);
    ReplacePass(d, p, e.passes[p]);
    ExtendsThrough(c, d, e);
  }

  // ---- registries and domains ----

  lemma AdoptedVersion(c: Cluster, u: Uid, st: Status, st': Status)
    requires u in c.objects && (c.objects[u].spec.Registry? || c.objects[u].spec.Domain?) && VersionOk(c, u, st)
    requires st' == st.(address := st'.address, phase := st'.phase)
    requires (st'.address != "" <==> st'.phase.Available?) && AddressOk(c, c.objects[u].spec, st')
    requires st.address != "" ==> st'.address == st.address
    ensures VersionOk(c, u, st') && Progresses(c.objects[u].spec, st, st')
  {
    hide SubOk, AddressOk, DeployedAt;
    assert forall slot :: SubAt(st', slot) == SubAt(st, slot);
    forall slot ensures SubOk(c, u, slot, SubAt(st', slot)) { assert SubOk(c, u, slot, SubAt(st, slot)); }
  }

  lemma AddressRun(c: Cluster, p: nat, answer: Lookup)
    requires Inv(c) && p in c.passes && Started(c, c.passes[p])
    requires c.objects[c.passes[p].uid].spec.Registry? || c.objects[c.passes[p].uid].spec.Domain?
    requires answer.Found? && answer.address != "" ==>
      DeployedAt(c, c.objects[c.passes[p].uid].spec.deployment, answer.address)
    ensures var pass := c.passes[p];
            var spec := c.objects[pass.uid].spec;
            var v := if spec.Registry? then RegistryPass(spec, pass.mem, answer)
                else DomainPass(spec, pass.mem, answer);
            Inv(Settle(c, p, v, c.ledger)) && Extends(c, Settle(c, p, v, c.ledger))
  {
    hide Inv, ObjectOk, VersionOk, Extends, LedgerOk, Progresses, DeployedAt;
    var pass := c.passes[p];
    var spec := c.objects[pass.uid].spec;
    var v := if spec.Registry? then RegistryPass(spec, pass.mem, answer) else DomainPass(spec, pass.mem, answer);
    Unchanged(c);
    AddressFacts(c, pass.uid, pass.mem);
    if v.Write? { AdoptedVersion(c, pass.uid, pass.mem, v.status); }
    assert Worked(c, c.ledger, Settle(c, p, v, c.ledger).keys) == c;
    SettleKeeps(c, p, v, c.ledger);
  }

  lemma AddressFacts(c: Cluster, u: Uid, st: Status)
    requires u in c.objects && (c.objects[u].spec.Registry? || c.objects[u].spec.Domain?) && VersionOk(c, u, st)
    ensures (st.address != "" <==> st.phase.Available?) && AddressOk(c, c.objects[u].spec, st)
  {
  }

  // ---- every event, every run ----

  lemma RunKeeps(c: Cluster, p: nat, looks: seq<Read>, env: Env)
    requires Inv(c) && p in c.passes && c.passes[p].stage.Begun? && c.passes[p].uid in c.objects
    requires ReadsOk(c, c.objects[c.passes[p].uid].spec, looks) && EnvOk(c, c.passes[p].uid, Main, env)
    ensures Inv(RunPass(c, p, looks, env)) && Extends(c, RunPass(c, p, looks, env))
  {
    hide Inv, ContractPass, OpenRegistration, RegistryPass, DomainPass, Settle, Extends, EnvOk, ObjectOk, VersionOk,
         DeployedAt, RegistryAt;
    var pass := c.passes[p];
    var spec := c.objects[pass.uid].spec;
    var answers := Answers(c, spec, looks);
    StartedPass(c, p);
    if spec.Registration? {
      if answers[0].Found? && answers[0].address != "" {
        AnswerRegistry(c, spec, spec.registry, looks[0], answers[0].address);
      }
      RegistrationRun(c, p, answers[0], env);
    } else {
      AnswersGenuine(c, spec, looks);
      if spec.Contract() {
        ContractRun(c, p, answers, env);
      } else {
        AddressRun(c, p, answers[0]);
      }
    }
  }

  lemma NextKeeps(c: Cluster, e: Event)
    requires Inv(c) && Enabled(c, e) && (e.Create? ==> DistinctTransports(e.spec))
    ensures Inv(Next(c, e)) && Extends(c, Next(c, e))
  {
    hide Inv, Extends, RunPass, PublishNext, UpdateStatus, ReadsOk, EnvOk;
    match e {
      case Create(uid, name, spec) => CreateKeeps(c, uid, name, spec);
      case Delete(uid) => DeleteKeeps(c, uid);
      case Begin(p, uid, v) => BeginKeeps(c, p, uid, v);
      case Run(p, looks, env) => RunKeeps(c, p, looks, env);
      case Publish(p, env) => PublishKeeps(c, p, env);
      case EndLoop(p) => EndLoopKeeps(c, p);
      case Update(p) => UpdateKeeps(c, p);
      case Cut(p) => DropPass(c, p);
      case Mine(id, receipt) => MineKeeps(c, id, receipt);
    }
  }

  lemma BeginKeeps(c: Cluster, p: nat, uid: Uid, v: nat)
    requires Inv(c) && p !in c.passes && uid in c.objects && v < |c.objects[uid].hist|
    ensures var d := c.(passes := c.passes[p := Pass(uid, v, c.objects[uid].hist[v], Begun)]); Inv(d) && Extends(c, d)
  {
    hide ObjectOk, LedgerOk, LoopOk, VersionOk, Extends;
    PassesOnly(c, c.(passes := c.passes[p := Pass(uid, v, c.objects[uid].hist[v], Begun)]));
  }

  lemma EndLoopKeeps(c: Cluster, p: nat)
    requires Inv(c) && p in c.passes && c.passes[p].uid in c.objects && c.passes[p].stage.Publishing?
    requires c.objects[c.passes[p].uid].spec.Registration?
    requires c.passes[p].stage.next == |c.objects[c.passes[p].uid].spec.transports|
    ensures var pass := c.passes[p];
            var d := if pass.stage.changed
                     then c.(passes := c.passes[p := pass.(mem := pass.mem.(publishCount := pass.stage.count),
                         stage := Updating)])
                     else c.(passes := c.passes - {p});
            Inv(d) && Extends(c, d)
  {
    hide Inv, PassOk, Extends;
    var pass := c.passes[p];
    DropPass(c, p);
    EndLoopPass(c, pass);
    ReplacePass(c, p, pass.(mem := pass.mem.(publishCount := pass.stage.count), stage := Updating));
  }

  lemma {:induction false} RunFromKeeps(c: Cluster, run: seq<Event>)
    requires Inv(c) && ValidFrom(c, run) && AdmissibleRun(run)
    ensures Inv(After(c, run)) && Extends(c, After(c, run))
    decreases |run|
  {
    hide Inv, Extends, Enabled, Next;
    if run == [] {
      Unchanged(c);
    } else {
      NextKeeps(c, run[0]);
      RunFromKeeps(Next(c, run[0]), run[1..]);
      ExtendsThrough(c, Next(c, run[0]), After(c, run));
    }
  }
}
