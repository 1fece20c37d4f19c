/**
 The inductive invariant of the deployment engine, and its preservation by every event.
 */
module Safety {
  import opened Collections
  import opened Transactions
  import opened Dependencies
  import opened Reconcilers
  import opened Cluster

  // ---- the invariant ----

  function Last(o: Object): (st: Status)
    requires o.hist != []
  {
    o.hist[|o.hist| - 1]
  }

  ghost predicate DeployVersion(c: Cluster, u: Uid, i: nat, d: Name, a: Address) {
    && u in c.objects && c.objects[u].spec.Deployment? && c.objects[u].name == d
    && i < |c.objects[u].hist| && c.objects[u].hist[i].address == a
  }

  /** Some deployment named `d` has recorded the contract address `a`. */
  ghost predicate DeployedAt(c: Cluster, d: Name, a: Address) {
    a != "" && exists u, i :: DeployVersion(c, u, i, d, a)
  }

  ghost predicate RegistryVersion(c: Cluster, u: Uid, i: nat, n: Name, a: Address) {
    && u in c.objects && c.objects[u].spec.Registry? && c.objects[u].name == n
    && i < |c.objects[u].hist| && c.objects[u].hist[i].address == a && c.objects[u].hist[i].phase.Available?
  }

  /** Some registry named `n` has been Available at address `a`. */
  ghost predicate RegistryAt(c: Cluster, n: Name, a: Address) {
    a != "" && exists u, i :: RegistryVersion(c, u, i, n, a)
  }

  /** A submission record agrees with the generated keys, the transactions and the receipts. */
  predicate SubOk(c: Cluster, u: Uid, slot: Slot, sub: Submission)
    requires u in c.objects
  {
    && Coherent(sub)
    && (sub.key != "" ==> sub.key in c.keys && c.keys[sub.key] == (u, slot))
    && (sub.txId != "" ==>
          var ref := (NodeFor(c.objects[u].spec, slot), sub.key);
          ref in c.ledger.txs && c.ledger.txs[ref].id == sub.txId)
    && (Rank(sub.status) == 3 ==>
          sub.txId in c.ledger.receipts && Reports(c.objects[u].spec, sub, c.ledger.receipts[sub.txId]))
  }

  /** A final status says what the receipt says, but for deployments that created no contract. */
  predicate Reports(spec: Spec, sub: Submission, r: Receipt) {
    && (r.hash != "" ==> sub.hash == r.hash)
    && (sub.status.Success? ==> r.success && sub.block == r.block)
    && (sub.status.Failed? ==> if r.success then spec.Deployment? && r.contract.None? else sub.failure == r.failure)
  }

  function CountSuccess(st: Status, transports: seq<Name>): (n: nat) {
    if transports == [] then 0
    else
      var k := |transports| - 1;
      CountSuccess(st, transports[..k]) + if SubAt(st, Transport(transports[k])).status.Success? then 1 else 0
  }

  /** The published transactions that have in fact succeeded. */
  function Successes(st: Status, transports: seq<Name>): (n: nat) {
    CountSuccess(st, transports) + if st.tx.status.Success? then 1 else 0
  }

  ghost predicate RegistrationShape(transports: seq<Name>, st: Status) {
    && (st.tx.key != "" ==> st.publish.Some?)
    && (forall slot: Slot :: slot.Transport? && SubAt(st, slot).key != "" ==>
        st.tx.status.Success? && slot.name in transports)
    && st.publishCount <= Successes(st, transports)
  }

  /** The summary counts the resolved addresses, once there is one. */
  predicate DepsShape(required: seq<Name>, deps: Deps) {
    && ProperlyResolved(required, deps.resolved)
    && deps.summary == (if deps.summary == Unwritten then Unwritten else Counted(|deps.resolved|, |required|))
    && (deps.summary == Unwritten ==> deps.resolved == map[])
  }

  /** What every version of a CR satisfies on its own. */
  ghost predicate Shape(spec: Spec, st: Status) {
    match spec
    case Deployment(required, _) =>
      && st.publish.None? && DepsShape(required, st.deps)
      && (st.tx.key != "" ==> DepsReady(required, st.deps))
      && (st.address != "" <==> st.tx.status.Success?)
    case Invoke(required, _) =>
      && st.publish.None? && DepsShape(required, st.deps)
      && (st.tx.key != "" ==> DepsReady(required, st.deps))
      && st.address == ""
    case Registration(_, _, _, transports) =>
      st.deps == INITIAL.deps && st.address == "" && RegistrationShape(transports, st)
    case _ =>
      && st.deps == INITIAL.deps && st.tx == EMPTY && st.publish.None?
      && (st.address != "" <==> st.phase.Available?)
  }

  ghost predicate VersionOk(c: Cluster, u: Uid, st: Status)
    requires u in c.objects
  {
    && Shape(c.objects[u].spec, st)
    && (forall slot :: SubOk(c, u, slot, SubAt(st, slot)))
    && (forall d <- st.deps.resolved :: DeployedAt(c, d, st.deps.resolved[d]))
    && AddressOk(c, c.objects[u].spec, st)
  }

  /** A recorded contract address comes from the receipt, the spec, or the named deployment. */
  ghost predicate AddressOk(c: Cluster, spec: Spec, st: Status) {
    st.address != "" ==>
      match spec
      case Deployment(_, _) =>
        st.tx.txId in c.ledger.receipts && c.ledger.receipts[st.tx.txId].contract == Some(st.address)
      case Registry(_, fixedAddress, deployment) =>
        if fixedAddress != "" then st.address == fixedAddress else DeployedAt(c, deployment, st.address)
      case Domain(fixedAddress, deployment) =>
        if fixedAddress != "" then st.address == fixedAddress else DeployedAt(c, deployment, st.address)
      case _ => true
  }

  /** For deployments and invokes a version either resolves more or moves the transaction on. */
  predicate ContractStep(a: Status, b: Status) {
    || (b.tx == a.tx && b.address == a.address && b.deps.summary != Unwritten &&
        (a.deps.summary == Unwritten || |a.deps.resolved| < |b.deps.resolved|))
    || (b.deps == a.deps && StepsUp(a.tx, b.tx))
  }

  /** What one status update may do to the version before it. */
  ghost predicate Progresses(spec: Spec, a: Status, b: Status) {
    && (forall slot :: Evolves(SubAt(a, slot), SubAt(b, slot)))
    && (a.address != "" ==> b.address == a.address)
    && (forall d <- a.deps.resolved :: d in b.deps.resolved && b.deps.resolved[d] == a.deps.resolved[d])
    && (a.phase.Available? ==> b.phase.Available?)
    && (spec.Contract() ==> ContractStep(a, b))
  }

  ghost predicate ObjectOk(c: Cluster, u: Uid)
    requires u in c.objects
  {
    var o := c.objects[u];
    && o.hist != [] && o.hist[0] == INITIAL && DistinctTransports(o.spec)
    && (forall i :: 0 <= i < |o.hist| ==> VersionOk(c, u, o.hist[i]))
    && (forall i :: 0 < i < |o.hist| ==> Progresses(o.spec, o.hist[i - 1], o.hist[i]))
  }

  /** A transaction is built from addresses the cluster has really recorded. */
  ghost predicate ContentOk(c: Cluster, u: Uid, content: Content)
    requires u in c.objects && c.objects[u].hist != []
  {
    var o := c.objects[u];
    match o.spec
    case Deployment(required, _) => ContractContentOk(c, required, Last(o), content)
    case Invoke(required, _) => ContractContentOk(c, required, Last(o), content)
    case Registration(registry, _, _, _) =>
      && registry in content.inputs && RegistryAt(c, registry, content.inputs[registry])
      && (content.slot.Transport? ==> Last(o).tx.status.Success?)
    case _ => false
  }

  ghost predicate ContractContentOk(c: Cluster, required: seq<Name>, last: Status, content: Content) {
    && content.slot.Main? && DepsReady(required, last.deps) && content.inputs == last.deps.resolved
    && forall d <- content.inputs :: DeployedAt(c, d, content.inputs[d])
  }

  /** A transaction on a node was sent under the key its CR slot has persisted. */
  ghost predicate TxOk(c: Cluster, ref: (Name, Key))
    requires ref in c.ledger.txs
  {
    var tx := c.ledger.txs[ref];
    var u := tx.content.uid;
    && tx.id != "" && ref.1 != "" && u in c.objects && c.objects[u].hist != []
    && ref.0 == NodeFor(c.objects[u].spec, tx.content.slot)
    && SubAt(Last(c.objects[u]), tx.content.slot).key == ref.1
    && ContentOk(c, u, tx.content)
  }

  ghost predicate LoopOk(c: Cluster, pass: Pass)
    requires pass.uid in c.objects && pass.base < |c.objects[pass.uid].hist| && pass.stage.Publishing?
  {
    var o := c.objects[pass.uid];
    var from := o.hist[pass.base];
    && o.spec.Registration? && pass.stage.next <= |o.spec.transports|
    && RegistryAt(c, o.spec.registry, pass.stage.registry)
    && from.tx.status.Success? && pass.mem.tx == from.tx && pass.mem.publish.Some?
    && VersionOk(c, pass.uid, pass.mem)
    && Progresses(o.spec, from, pass.mem)
    && (forall j :: pass.stage.next <= j < |o.spec.transports| ==>
          SubAt(pass.mem, Transport(o.spec.transports[j])) == SubAt(from, Transport(o.spec.transports[j])))
    && pass.stage.count <= 1 + CountSuccess(pass.mem, o.spec.transports[..pass.stage.next])
  }

  ghost predicate PassOk(c: Cluster, pass: Pass) {
    && pass.uid in c.objects && pass.base < |c.objects[pass.uid].hist|
    && var from := c.objects[pass.uid].hist[pass.base];
       match pass.stage
       case Begun => pass.mem == from
       case Publishing(_, _, _, _) => LoopOk(c, pass)
       case Updating =>
         VersionOk(c, pass.uid, pass.mem) && (pass.mem == from || Progresses(c.objects[pass.uid].spec, from, pass.mem))
  }

  ghost predicate LedgerOk(c: Cluster) {
    && (forall r <- c.ledger.txs :: TxOk(c, r))
    && (forall r, s | r in c.ledger.txs && s in c.ledger.txs && c.ledger.txs[r].id == c.ledger.txs[s].id :: r == s)
    && (forall id <- c.ledger.receipts :: c.ledger.receipts[id].contract != Some(""))
  }

  ghost predicate Inv(c: Cluster) {
    && (forall u <- c.objects :: ObjectOk(c, u))
    && LedgerOk(c)
    && (forall p <- c.passes :: PassOk(c, c.passes[p]))
  }

  // ---- nothing recorded is ever taken back ----

  ghost predicate Extends(c: Cluster, d: Cluster) {
    && (forall u <- c.objects ::
          && u in d.objects && d.objects[u].name == c.objects[u].name && d.objects[u].spec == c.objects[u].spec
          && |c.objects[u].hist| <= |d.objects[u].hist|
          && forall i :: 0 <= i < |c.objects[u].hist| ==> d.objects[u].hist[i] == c.objects[u].hist[i])
    && (forall r <- c.ledger.txs :: r in d.ledger.txs && d.ledger.txs[r] == c.ledger.txs[r])
    && (forall r <- c.ledger.receipts :: r in d.ledger.receipts && d.ledger.receipts[r] == c.ledger.receipts[r])
    && (forall k <- c.keys :: k in d.keys && d.keys[k] == c.keys[k])
  }

  lemma DeployedStays(c: Cluster, d: Cluster, n: Name, a: Address)
    requires Extends(c, d) && DeployedAt(c, n, a)
    ensures DeployedAt(d, n, a)
  {
    var u, i :| DeployVersion(c, u, i, n, a);
    assert DeployVersion(d, u, i, n, a);
  }

  lemma RegistryStays(c: Cluster, d: Cluster, n: Name, a: Address)
    requires Extends(c, d) && RegistryAt(c, n, a)
    ensures RegistryAt(d, n, a)
  {
    var u, i :| RegistryVersion(c, u, i, n, a);
    assert RegistryVersion(d, u, i, n, a);
  }

  lemma VersionStays(c: Cluster, d: Cluster, u: Uid, st: Status)
    requires Extends(c, d) && u in c.objects && VersionOk(c, u, st)
    ensures VersionOk(d, u, st)
  {
    forall slot ensures SubOk(d, u, slot, SubAt(st, slot)) {
      assert SubOk(c, u, slot, SubAt(st, slot));
    }
    forall n | n in st.deps.resolved ensures DeployedAt(d, n, st.deps.resolved[n]) {
      DeployedStays(c, d, n, st.deps.resolved[n]);
    }
    var spec := c.objects[u].spec;
    if st.address != "" && (spec.Registry? || spec.Domain?) && spec.fixedAddress == "" {
      DeployedStays(c, d, spec.deployment, st.address);
    }
  }

  lemma PassStays(c: Cluster, d: Cluster, pass: Pass)
    requires Extends(c, d) && PassOk(c, pass)
    ensures PassOk(d, pass)
  {
    if !pass.stage.Begun? {
      VersionStays(c, d, pass.uid, pass.mem);
    }
    if pass.stage.Publishing? {
      RegistryStays(c, d, c.objects[pass.uid].spec.registry, pass.stage.registry);
    }
  }

  lemma ObjectStays(c: Cluster, d: Cluster, u: Uid)
    requires Extends(c, d) && u in c.objects && ObjectOk(c, u) && d.objects[u].hist == c.objects[u].hist
    ensures ObjectOk(d, u)
  {
    forall i | 0 <= i < |d.objects[u].hist| ensures VersionOk(d, u, d.objects[u].hist[i]) {
      VersionStays(c, d, u, c.objects[u].hist[i]);
    }
  }

  lemma ContentStays(c: Cluster, d: Cluster, u: Uid, content: Content)
    requires Extends(c, d) && u in c.objects && c.objects[u].hist != [] && ContentOk(c, u, content)
    requires Last(d.objects[u]).deps == Last(c.objects[u]).deps
    requires Last(c.objects[u]).tx.status.Success? ==> Last(d.objects[u]).tx.status.Success?
    ensures ContentOk(d, u, content)
  {
    var spec := c.objects[u].spec;
    if spec.Contract() {
      forall n | n in content.inputs ensures DeployedAt(d, n, content.inputs[n]) {
        DeployedStays(c, d, n, content.inputs[n]);
      }
    } else if spec.Registration? {
      RegistryStays(c, d, spec.registry, content.inputs[spec.registry]);
    }
  }

  /** Everything about `d` follows from `c` when the store is untouched but for the passes. */
  lemma FrameStore(c: Cluster, d: Cluster)
    requires Inv(c) && Extends(c, d)
    requires forall u <- d.objects :: u in c.objects && d.objects[u].hist == c.objects[u].hist
    ensures forall u <- d.objects :: ObjectOk(d, u)
    ensures forall r <- c.ledger.txs :: TxOk(d, r)
    ensures forall p <- c.passes :: PassOk(d, c.passes[p])
  {
    hide ObjectOk, PassOk, TxOk;
    forall u | u in d.objects ensures ObjectOk(d, u) { ObjectStays(c, d, u); }
    forall p | p in c.passes ensures PassOk(d, c.passes[p]) { PassStays(c, d, c.passes[p]); }
    forall r | r in c.ledger.txs ensures TxOk(d, r) { TxStays(c, d, r); }
  }

  lemma TxStays(c: Cluster, d: Cluster, r: (Name, Key))
    requires Extends(c, d) && r in c.ledger.txs && TxOk(c, r)
    requires forall u <- c.objects :: u in d.objects && d.objects[u].hist == c.objects[u].hist
    ensures TxOk(d, r)
  {
    hide ContentOk;
    ContentStays(c, d, c.ledger.txs[r].content.uid, c.ledger.txs[r].content);
  }

  // ---- versions of one CR ----

  /** What an earlier version has settled, every later version still says. */
  ghost predicate Settled(a: Status, b: Status) {
    && (forall slot ::
          && Rank(SubAt(a, slot).status) <= Rank(SubAt(b, slot).status)
          && (Rank(SubAt(a, slot).status) == 3 ==> SubAt(b, slot) == SubAt(a, slot))
          && (SubAt(a, slot).key != "" ==> SubAt(b, slot).key == SubAt(a, slot).key)
          && (SubAt(a, slot).txId != "" ==> SubAt(b, slot).txId == SubAt(a, slot).txId))
    && (a.address != "" ==> b.address == a.address)
    && (forall d <- a.deps.resolved :: d in b.deps.resolved && b.deps.resolved[d] == a.deps.resolved[d])
    && (a.phase.Available? ==> b.phase.Available?)
  }

  lemma RankBound(s: TxStatus)
    ensures Rank(s) <= 3
  {
  }

  lemma ProgressSettles(spec: Spec, a: Status, b: Status)
    requires Progresses(spec, a, b)
    ensures Settled(a, b)
  {
    forall slot
      ensures Rank(SubAt(a, slot).status) <= Rank(SubAt(b, slot).status)
      ensures Rank(SubAt(a, slot).status) == 3 ==> SubAt(b, slot) == SubAt(a, slot)
      ensures SubAt(a, slot).key != "" ==> SubAt(b, slot).key == SubAt(a, slot).key
      ensures SubAt(a, slot).txId != "" ==> SubAt(b, slot).txId == SubAt(a, slot).txId
    {
      assert Evolves(SubAt(a, slot), SubAt(b, slot));
      RankBound(SubAt(b, slot).status);
    }
  }

  lemma {:induction false} HistorySettles(spec: Spec, hist: seq<Status>, i: nat, j: nat)
    requires i <= j < |hist|
    requires forall k :: 0 < k < |hist| ==> Progresses(spec, hist[k - 1], hist[k])
    ensures Settled(hist[i], hist[j])
    decreases j - i
  {
    if i < j {
      HistorySettles(spec, hist, i, j - 1);
      ProgressSettles(spec, hist[j - 1], hist[j]);
      SettledTransitive(hist[i], hist[j - 1], hist[j]);
    }
  }

  lemma SettledTransitive(a: Status, b: Status, d: Status)
    requires Settled(a, b) && Settled(b, d)
    ensures Settled(a, d)
  {
    forall slot
      ensures Rank(SubAt(a, slot).status) <= Rank(SubAt(d, slot).status)
      ensures Rank(SubAt(a, slot).status) == 3 ==> SubAt(d, slot) == SubAt(a, slot)
      ensures SubAt(a, slot).key != "" ==> SubAt(d, slot).key == SubAt(a, slot).key
      ensures SubAt(a, slot).txId != "" ==> SubAt(d, slot).txId == SubAt(a, slot).txId
    {
      assert Rank(SubAt(a, slot).status) <= Rank(SubAt(b, slot).status);
      assert Rank(SubAt(b, slot).status) <= Rank(SubAt(d, slot).status);
    }
  }
}
