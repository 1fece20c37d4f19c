/**
 Every event of the cluster keeps the invariant, so it holds after every run.
 */
module Preservation {
  import opened Collections
  import opened Transactions
  import opened Dependencies
  import opened Reconcilers
  import opened Cluster
  import opened Safety

  // ---- one call of the transaction sub-protocol ----

  /** The cluster after a slot's reconcile call: new ledger, and the key it generated if any. */
  function Called(c: Cluster, u: Uid, slot: Slot, before: Submission, o: Outcome): (d: Cluster) {
    c.(ledger := o.ledger, keys := if o.sub.key == before.key then c.keys else c.keys[o.sub.key := (u, slot)])
  }

  lemma Grows(c: Cluster, d: Cluster)
    requires d.objects == c.objects
    requires forall r <- c.ledger.txs :: r in d.ledger.txs && d.ledger.txs[r] == c.ledger.txs[r]
    requires forall r <- c.ledger.receipts :: r in d.ledger.receipts && d.ledger.receipts[r] == c.ledger.receipts[r]
    requires forall k <- c.keys :: k in d.keys && d.keys[k] == c.keys[k]
    ensures Extends(c, d)
  {
  }

  lemma NonEmpty(c: Cluster, u: Uid)
    requires Inv(c) && u in c.objects
    ensures c.objects[u].hist != []
  {
    assert ObjectOk(c, u);
  }

  /** Sending under a persisted key adds at most the one transaction that belongs to that key. */
  lemma SendKeeps(c: Cluster, u: Uid, slot: Slot, key: Key, content: Content, env: Env)
    requires Inv(c) && u in c.objects && c.objects[u].hist != [] && EnvOk(c, u, slot, env)
    requires content.uid == u && content.slot == slot && ContentOk(c, u, content)
    requires key != "" && SubAt(Last(c.objects[u]), slot).key == key
    ensures var d := c.(ledger := Send(c.ledger, NodeFor(c.objects[u].spec, slot), key, content, env).0);
            Extends(c, d) && LedgerOk(d)
  {
    hide ObjectOk, PassOk, ContentOk, Extends, TxOk;
    var ref := (NodeFor(c.objects[u].spec, slot), key);
    var l := Send(c.ledger, ref.0, key, content, env).0;
    if l != c.ledger {
      WithTxOk(c, ref, Tx(env.freshId, content));
      AddTx(c, ref, Tx(env.freshId, content));
    } else {
      assert c.(ledger := l) == c;
      Grows(c, c);
    }
  }

  function WithTx(c: Cluster, ref: (Name, Key), tx: Tx): (d: Cluster) {
    c.(ledger := c.ledger.(txs := c.ledger.txs[ref := tx]))
  }

  lemma WithTxExtends(c: Cluster, ref: (Name, Key), tx: Tx)
    requires ref !in c.ledger.txs
    ensures Extends(c, WithTx(c, ref, tx))
  {
    Grows(c, WithTx(c, ref, tx));
  }

  lemma WithTxOk(c: Cluster, ref: (Name, Key), tx: Tx)
    requires ref !in c.ledger.txs && tx.content.uid in c.objects && c.objects[tx.content.uid].hist != []
    requires tx.id != "" && ref.1 != "" && ref.0 == NodeFor(c.objects[tx.content.uid].spec, tx.content.slot)
    requires SubAt(Last(c.objects[tx.content.uid]), tx.content.slot).key == ref.1 &&
      ContentOk(c, tx.content.uid, tx.content)
    ensures TxOk(WithTx(c, ref, tx), ref)
  {
    WithTxExtends(c, ref, tx);
    ContentStays(c, WithTx(c, ref, tx), tx.content.uid, tx.content);
  }

  lemma AddTx(c: Cluster, ref: (Name, Key), tx: Tx)
    requires Inv(c) && ref !in c.ledger.txs && TxOk(WithTx(c, ref, tx), ref)
    requires forall r <- c.ledger.txs :: c.ledger.txs[r].id != tx.id
    ensures Extends(c, WithTx(c, ref, tx)) && LedgerOk(WithTx(c, ref, tx))
  {
    hide ObjectOk, PassOk, TxOk, Extends;
    WithTxExtends(c, ref, tx);
    FrameStore(c, WithTx(c, ref, tx));
  }

  /** The transaction found under a slot's key was sent for that very slot. */
  lemma KeyOwner(c: Cluster, u: Uid, slot: Slot, ref: (Name, Key))
    requires Inv(c) && u in c.objects && ref in c.ledger.txs
    requires ref.1 in c.keys && c.keys[ref.1] == (u, slot)
    ensures c.ledger.txs[ref].content.uid == u && c.ledger.txs[ref].content.slot == slot
  {
    var content := c.ledger.txs[ref].content;
    assert TxOk(c, ref);
    var o := c.objects[content.uid];
    assert ObjectOk(c, content.uid) && VersionOk(c, content.uid, o.hist[|o.hist| - 1]);
    assert SubOk(c, content.uid, content.slot, SubAt(Last(o), content.slot));
  }

  lemma TxStep(c: Cluster, u: Uid, slot: Slot, sub: Submission, content: Content, env: Env)
    requires Inv(c) && u in c.objects && c.objects[u].hist != [] && SubOk(c, u, slot, sub) && EnvOk(c, u, slot, env)
    requires content.uid == u && content.slot == slot
    requires sub.key != "" ==> SubAt(Last(c.objects[u]), slot).key == sub.key && ContentOk(c, u, content)
    ensures var o := ReconcileTx(sub, NodeFor(c.objects[u].spec, slot), content, c.ledger, env);
            var d := Called(c, u, slot, sub, o);
            Extends(c, d) && LedgerOk(d)
  {
    hide ObjectOk, PassOk, ContentOk, TxOk, Extends;
    var at := NodeFor(c.objects[u].spec, slot);
    var o := ReconcileTx(sub, at, content, c.ledger, env);
    var d := Called(c, u, slot, sub, o);
    if o.ledger != c.ledger {
      SendKeeps(c, u, slot, sub.key, content, env);
      assert d == c.(ledger := Send(c.ledger, at, sub.key, content, env).0);
    } else {
      Grows(c, d);
      FrameStore(c, d);
    }
  }

  /** The record a call leaves behind is one status up when changed, and still agrees with the nodes. */
  lemma SubStep(c: Cluster, u: Uid, slot: Slot, sub: Submission, content: Content, env: Env)
    requires u in c.objects && SubOk(c, u, slot, sub) && EnvOk(c, u, slot, env)
    requires forall r <- c.ledger.txs :: c.ledger.txs[r].id != ""
    ensures var o := ReconcileTx(sub, NodeFor(c.objects[u].spec, slot), content, c.ledger, env);
            && SubOk(Called(c, u, slot, sub, o), u, slot, o.sub)
            && (if o.changed then StepsUp(sub, o.sub) && !o.err else o.sub == sub)
            && (o.succeeded <==> o.sub.status.Success?)
            && (o.changed && Rank(o.sub.status) == 3 ==>
                o.sub.txId in c.ledger.receipts && o.receipt == Some(c.ledger.receipts[o.sub.txId]))
  {
    ReconcileStepsUp(sub, NodeFor(c.objects[u].spec, slot), content, c.ledger, env);
  }

  // ---- events that touch neither the nodes nor the store ----

  lemma InitOk()
    ensures Inv(EMPTY_CLUSTER)
  {
  }

  lemma PassesOnly(c: Cluster, d: Cluster)
    requires Inv(c) && d == c.(passes := d.passes)
    requires forall p <- d.passes :: PassOk(c, d.passes[p])
    ensures Inv(d) && Extends(c, d)
  {
    hide ObjectOk, PassOk, TxOk, Extends;
    Grows(c, d);
    FrameStore(c, d);
    forall p | p in d.passes ensures PassOk(d, d.passes[p]) { PassStays(c, d, d.passes[p]); }
  }

  lemma InitialVersionOk(c: Cluster, u: Uid)
    requires u in c.objects
    ensures VersionOk(c, u, INITIAL)
  {
    forall slot ensures SubOk(c, u, slot, SubAt(INITIAL, slot)) {
      assert SubAt(INITIAL, slot) == EMPTY;
    }
  }

  function WithObject(c: Cluster, u: Uid, o: Object): (d: Cluster) { c.(objects := c.objects[u := o]) }

  lemma WithObjectExtends(c: Cluster, u: Uid, o: Object)
    requires u in c.objects ==> o == c.objects[u].(live := o.live)
    ensures Extends(c, WithObject(c, u, o))
  {
  }

  lemma CreatedOk(c: Cluster, u: Uid, name: Name, spec: Spec)
    requires DistinctTransports(spec)
    ensures ObjectOk(WithObject(c, u, Object(name, spec, true, [INITIAL])), u)
  {
    InitialVersionOk(WithObject(c, u, Object(name, spec, true, [INITIAL])), u);
  }

  lemma CreateKeeps(c: Cluster, uid: Uid, name: Name, spec: Spec)
    requires Inv(c) && uid !in c.objects && DistinctTransports(spec)
    ensures var d := WithObject(c, uid, Object(name, spec, true, [INITIAL])); Inv(d) && Extends(c, d)
  {
    hide Extends, ObjectOk, PassOk, TxOk;
    var d := WithObject(c, uid, Object(name, spec, true, [INITIAL]));
    WithObjectExtends(c, uid, Object(name, spec, true, [INITIAL]));
    CreatedOk(c, uid, name, spec);
    forall r | r in c.ledger.txs ensures TxOk(d, r) { TxStays(c, d, r); }
    forall u | u in d.objects ensures ObjectOk(d, u) {
      if u != uid { ObjectStays(c, d, u); }
    }
    forall p | p in c.passes ensures PassOk(d, c.passes[p]) { PassStays(c, d, c.passes[p]); }
  }

  lemma DeleteKeeps(c: Cluster, uid: Uid)
    requires Inv(c) && uid in c.objects
    ensures var d := WithObject(c, uid, c.objects[uid].(live := false)); Inv(d) && Extends(c, d)
  {
    hide ObjectOk, PassOk, TxOk, Extends;
    WithObjectExtends(c, uid, c.objects[uid].(live := false));
    FrameStore(c, WithObject(c, uid, c.objects[uid].(live := false)));
  }

  lemma MineKeeps(c: Cluster, id: TxId, receipt: Receipt)
    requires Inv(c) && id !in c.ledger.receipts && receipt.contract != Some("")
    ensures var d := c.(ledger := c.ledger.(receipts := c.ledger.receipts[id := receipt])); Inv(d) && Extends(c, d)
  {
    hide ObjectOk, PassOk, TxOk, Extends;
    var d := c.(ledger := c.ledger.(receipts := c.ledger.receipts[id := receipt]));
    Grows(c, d);
    FrameStore(c, d);
  }

  /** A pass that ran over all transports knows at most the successes there really are. */
  lemma EndLoopPass(c: Cluster, pass: Pass)
    requires PassOk(c, pass) && pass.stage.Publishing? && pass.stage.next == |c.objects[pass.uid].spec.transports|
    ensures PassOk(c, pass.(mem := pass.mem.(publishCount := pass.stage.count), stage := Updating))
  {
    var transports := c.objects[pass.uid].spec.transports;
    var st := pass.mem.(publishCount := pass.stage.count);
    assert transports[..|transports|] == transports;
    CountSame(pass.mem, st, transports);
    SameSlots(c, pass.uid, pass.mem, st);
    hide VersionOk;
    assert forall slot :: SubAt(st, slot) == SubAt(pass.mem, slot);
  }

  lemma SameSlots(c: Cluster, u: Uid, st: Status, st': Status)
    requires u in c.objects && c.objects[u].spec.Registration? && VersionOk(c, u, st)
    requires st' == st.(publishCount := st'.publishCount) &&
      st'.publishCount <= Successes(st', c.objects[u].spec.transports)
    ensures VersionOk(c, u, st')
  {
    assert forall slot :: SubAt(st', slot) == SubAt(st, slot);
    forall slot ensures SubOk(c, u, slot, SubAt(st', slot)) { assert SubOk(c, u, slot, SubAt(st, slot)); }
  }

  lemma {:induction false} CountSame(st: Status, st': Status, transports: seq<Name>)
    requires forall t <- transports :: SubAt(st, Transport(t)) == SubAt(st', Transport(t))
    ensures CountSuccess(st, transports) == CountSuccess(st', transports)
  {
    if transports != [] {
      CountSame(st, st', transports[..|transports| - 1]);
    }
  }

  lemma {:induction false} CountGrows(st: Status, st': Status, transports: seq<Name>)
    requires forall t <- transports :: SubAt(st, Transport(t)).status.Success? ==>
      SubAt(st', Transport(t)).status.Success?
    ensures CountSuccess(st, transports) <= CountSuccess(st', transports)
  {
    if transports != [] {
      CountGrows(st, st', transports[..|transports| - 1]);
    }
  }

  // ---- the status update ----

  /** With its dependencies complete a CR resolves nothing further. */
  lemma ReadyIsFinal(spec: Spec, a: Status, b: Status)
    requires spec.Contract() && Shape(spec, b) && Progresses(spec, a, b) && DepsReady(spec.required, a.deps)
    ensures b.deps == a.deps
  {
    NamesCount(spec.required);
    assert |b.deps.resolved| == |b.deps.resolved.Keys|;
    SubsetSize(b.deps.resolved.Keys, Names(spec.required));
  }

  lemma SubsetSize<T>(a: set<T>, b: set<T>)
    requires a <= b
    ensures |a| <= |b|
  {
    assert b == a + (b - a);
  }

  /** The cluster after pass `pass` has replaced the version it read. */
  function Appended(c: Cluster, u: Uid, st: Status): (d: Cluster)
    requires u in c.objects
  {
    c.(objects := c.objects[u := c.objects[u].(hist := c.objects[u].hist + [st])])
  }

  lemma AppendedTx(c: Cluster, u: Uid, st: Status, r: (Name, Key))
    requires u in c.objects && ObjectOk(c, u) && VersionOk(c, u, st) &&
      Progresses(c.objects[u].spec, Last(c.objects[u]), st)
    requires r in c.ledger.txs && TxOk(c, r) && Extends(c, Appended(c, u, st))
    ensures TxOk(Appended(c, u, st), r)
  {
    var o := c.objects[u];
    var d := Appended(c, u, st);
    var content := c.ledger.txs[r].content;
    if content.uid == u {
      ProgressSettles(o.spec, Last(o), st);
      assert SubAt(Last(o), content.slot).key != "" ==> SubAt(st, content.slot).key == SubAt(Last(o), content.slot).key;
      assert SubAt(Last(o), Main).status.Success? ==> SubAt(st, Main) == SubAt(Last(o), Main);
      if o.spec.Contract() {
        ReadyIsFinal(o.spec, Last(o), st);
        assert Last(d.objects[u]).deps == Last(o).deps;
      }
      hide ObjectOk, VersionOk, Extends;
      AppendedContent(c, d, u, content);
    } else {
      ContentStays(c, d, content.uid, content);
    }
  }

  lemma AppendedContent(c: Cluster, d: Cluster, u: Uid, content: Content)
    requires Extends(c, d) && u in c.objects && c.objects[u].hist != [] && ContentOk(c, u, content)
    requires c.objects[u].spec.Contract() ==> Last(d.objects[u]).deps == Last(c.objects[u]).deps
    requires Last(c.objects[u]).tx.status.Success? ==> Last(d.objects[u]).tx.status.Success?
    ensures ContentOk(d, u, content)
  {
    var spec := c.objects[u].spec;
    if spec.Contract() {
      ContentStays(c, d, u, content);
    } else if spec.Registration? {
      RegistryStays(c, d, spec.registry, content.inputs[spec.registry]);
    }
  }

  lemma AppendedObject(c: Cluster, u: Uid, st: Status)
    requires u in c.objects && ObjectOk(c, u) && VersionOk(c, u, st) &&
      Progresses(c.objects[u].spec, Last(c.objects[u]), st)
    requires Extends(c, Appended(c, u, st))
    ensures ObjectOk(Appended(c, u, st), u)
  {
    var o := c.objects[u];
    var d := Appended(c, u, st);
    var h := d.objects[u].hist;
    forall i | 0 <= i < |h| ensures VersionOk(d, u, h[i]) {
      VersionStays(c, d, u, if i < |o.hist| then o.hist[i] else st);
    }
    hide VersionOk, Extends, Progresses;
    forall i | 0 < i < |h| ensures Progresses(o.spec, h[i - 1], h[i]) {
      if i == |o.hist| { assert h[i - 1] == Last(o); }
    }
  }

  lemma AppendKeeps(c: Cluster, u: Uid, st: Status)
    requires Inv(c) && u in c.objects && ObjectOk(c, u) && VersionOk(c, u, st) &&
      Progresses(c.objects[u].spec, Last(c.objects[u]), st)
    ensures Inv(Appended(c, u, st)) && Extends(c, Appended(c, u, st))
  {
    hide Extends, VersionOk, Progresses, PassOk, TxOk, ObjectOk;
    var d := Appended(c, u, st);
    AppendExtends(c, u, st);
    AppendedObject(c, u, st);
    forall r | r in c.ledger.txs ensures TxOk(d, r) { AppendedTx(c, u, st, r); }
    forall w | w in d.objects ensures ObjectOk(d, w) {
      if w != u { ObjectStays(c, d, w); }
    }
    forall p | p in c.passes ensures PassOk(d, c.passes[p]) { PassStays(c, d, c.passes[p]); }
  }

  lemma AppendExtends(c: Cluster, u: Uid, st: Status)
    requires u in c.objects
    ensures Extends(c, Appended(c, u, st))
  {
  }

  lemma WantsUpdate(c: Cluster, pass: Pass)
    requires PassOk(c, pass) && pass.stage.Updating?
    ensures pass.uid in c.objects && pass.base < |c.objects[pass.uid].hist| && VersionOk(c, pass.uid, pass.mem)
    ensures pass.mem == c.objects[pass.uid].hist[pass.base] ||
      Progresses(c.objects[pass.uid].spec, c.objects[pass.uid].hist[pass.base], pass.mem)
  {
  }

  lemma DropPass(c: Cluster, p: nat)
    requires Inv(c) && p in c.passes
    ensures var d := c.(passes := c.passes - {p}); Inv(d) && Extends(c, d)
    ensures PassOk(c, c.passes[p])
  {
    hide LedgerOk, ObjectOk, Extends, PassOk;
    PassesOnly(c, c.(passes := c.passes - {p}));
  }

  lemma ObjectOf(c: Cluster, u: Uid)
    requires Inv(c) && u in c.objects
    ensures ObjectOk(c, u)
  {
  }

  lemma UpdateKeeps(c: Cluster, p: nat)
    requires Inv(c) && p in c.passes && c.passes[p].stage.Updating? && c.passes[p].uid in c.objects
    requires c.passes[p].base < |c.objects[c.passes[p].uid].hist|
    ensures var d := UpdateStatus(c, p); Inv(d) && Extends(c, d)
  {
    hide Inv, VersionOk, Progresses, ObjectOk, Extends, PassOk;
    var pass := c.passes[p];
    var o := c.objects[pass.uid];
    var rest := c.(passes := c.passes - {p});
    DropPass(c, p);
    if o.live && pass.base == |o.hist| - 1 && pass.mem != o.hist[pass.base] {
      WantsUpdate(c, pass);
      VersionStays(c, rest, pass.uid, pass.mem);
      ObjectOf(rest, pass.uid);
      AppendKeeps(rest, pass.uid, pass.mem);
      ExtendsThrough(c, rest, Appended(rest, pass.uid, pass.mem));
    }
  }

  lemma ExtendsThrough(c: Cluster, d: Cluster, e: Cluster)
    requires Extends(c, d) && Extends(d, e)
    ensures Extends(c, e)
  {
  }
}
