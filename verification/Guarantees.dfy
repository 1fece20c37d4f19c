/**
 What the deployment engine guarantees in every run, whatever crashes, stale reads, swallowed
 conflicts and lost answers it contains. Runs start from the empty cluster; the only hypothesis is
 that no registration lists a transport twice (see `PublicationRuns.DuplicateTransports` for why).
 */
module Guarantees {
  import opened Collections
  import opened Transactions
  import opened Dependencies
  import opened Reconcilers
  import opened Cluster
  import opened Safety
  import opened Preservation
  import opened Passes

  ghost predicate Run(run: seq<Event>) { ValidFrom(EMPTY_CLUSTER, run) && AdmissibleRun(run) }

  ghost function State(run: seq<Event>): (c: Cluster)
    requires Run(run)
  {
    After(EMPTY_CLUSTER, run)
  }

  lemma Reached(run: seq<Event>)
    requires Run(run)
    ensures Inv(State(run))
  {
    hide Inv, Enabled, Next;
    InitOk();
    RunFromKeeps(EMPTY_CLUSTER, run);
  }

  // ---- exactly-once submission ----

  /** At most one transaction ever exists for a submission slot, over all nodes and all keys. */
  ghost predicate AtMostOncePerSlot(l: Ledger) {
    forall r, s | r in l.txs && s in l.txs
                  && l.txs[r].content.uid == l.txs[s].content.uid &&
                      l.txs[r].content.slot == l.txs[s].content.slot :: r == s
  }

  lemma ExactlyOnce(run: seq<Event>)
    requires Run(run)
    ensures AtMostOncePerSlot(State(run).ledger)
  {
    hide ObjectOk, PassOk, ContentOk, Run, After;
    Reached(run);
    var c := State(run);
    forall r, s | r in c.ledger.txs && s in c.ledger.txs
                  && c.ledger.txs[r].content.uid == c.ledger.txs[s].content.uid
                  && c.ledger.txs[r].content.slot == c.ledger.txs[s].content.slot
      ensures r == s
    {
      assert TxOk(c, r) && TxOk(c, s);
    }
  }

  /** A recorded transaction id is that of the slot's own transaction, sent under its persisted key. */
  lemma RecordedId(run: seq<Event>, u: Uid, i: nat, slot: Slot)
    requires Run(run) && u in State(run).objects && i < |State(run).objects[u].hist|
    ensures var c := State(run);
            var sub := SubAt(c.objects[u].hist[i], slot);
            sub.txId != "" ==>
              var ref := (NodeFor(c.objects[u].spec, slot), sub.key);
              && ref in c.ledger.txs && c.ledger.txs[ref].id == sub.txId
              && c.ledger.txs[ref].content.uid == u && c.ledger.txs[ref].content.slot == slot
  {
    hide Inv, PassOk, ContentOk, Run, After;
    Reached(run);
    var c := State(run);
    ObjectOf(c, u);
    var sub := SubAt(c.objects[u].hist[i], slot);
    MainSub(c, u, c.objects[u].hist[i], slot);
    if sub.txId != "" {
      KeyOwner(c, u, slot, (NodeFor(c.objects[u].spec, slot), sub.key));
    }
  }

  // ---- status history ----

  /**
   Statuses only move up, final ones stay, and keys, ids, resolved and contract addresses are
   written once: whatever version i says, every later version j still says.
   */
  lemma History(run: seq<Event>, u: Uid, i: nat, j: nat)
    requires Run(run) && u in State(run).objects && i <= j < |State(run).objects[u].hist|
    ensures Settled(State(run).objects[u].hist[i], State(run).objects[u].hist[j])
  {
    hide Inv, VersionOk, Run, After, Settled, Progresses;
    Reached(run);
    ObjectOf(State(run), u);
    HistorySettles(State(run).objects[u].spec, State(run).objects[u].hist, i, j);
  }

  /** Adjacent versions move one record at most one status up: empty, Submitting, Pending, final. */
  lemma OneStatusAtATime(run: seq<Event>, u: Uid, i: nat, slot: Slot)
    requires Run(run) && u in State(run).objects && 0 < i < |State(run).objects[u].hist|
    ensures Evolves(SubAt(State(run).objects[u].hist[i - 1], slot), SubAt(State(run).objects[u].hist[i], slot))
  {
    hide Inv, VersionOk, Run, After, Evolves;
    Reached(run);
    ObjectOf(State(run), u);
    assert Progresses(State(run).objects[u].spec, State(run).objects[u].hist[i - 1], State(run).objects[u].hist[i]);
  }

  /** A final status reports the node's receipt; a deployment has an address exactly on Success. */
  lemma ReceiptAgreement(run: seq<Event>, u: Uid, i: nat, slot: Slot)
    requires Run(run) && u in State(run).objects && i < |State(run).objects[u].hist|
    ensures var c := State(run);
            var st := c.objects[u].hist[i];
            var sub := SubAt(st, slot);
            && (Rank(sub.status) == 3 ==>
                  sub.txId in c.ledger.receipts && Reports(c.objects[u].spec, sub, c.ledger.receipts[sub.txId]))
            && (c.objects[u].spec.Deployment? ==>
                  && (st.address != "" <==> st.tx.status.Success?)
                  && (st.address != "" ==>
                        st.tx.txId in c.ledger.receipts && c.ledger.receipts[st.tx.txId].contract == Some(st.address)))
  {
    hide Inv, Run, After, Reports, DeployedAt;
    Reached(run);
    ObjectOf(State(run), u);
    MainSub(State(run), u, State(run).objects[u].hist[i], slot);
    assert VersionOk(State(run), u, State(run).objects[u].hist[i]);
  }

  /** An Available domain or registry keeps one non-empty address for ever. */
  lemma AvailableForEver(run: seq<Event>, u: Uid, i: nat, j: nat)
    requires Run(run) && u in State(run).objects && i <= j < |State(run).objects[u].hist|
    requires State(run).objects[u].spec.Domain? || State(run).objects[u].spec.Registry?
    requires State(run).objects[u].hist[i].phase.Available?
    ensures State(run).objects[u].hist[j].phase.Available?
    ensures State(run).objects[u].hist[j].address == State(run).objects[u].hist[i].address != ""
  {
    hide Inv, Run, After, VersionOk;
    Reached(run);
    ObjectOf(State(run), u);
    History(run, u, i, j);
    AddressFacts(State(run), u, State(run).objects[u].hist[i]);
  }

  // ---- dependency order ----

  /** A deployment named `d` reached Success with contract `a`, and the node's receipt says so. */
  ghost predicate SucceededAt(c: Cluster, d: Name, a: Address) {
    exists u: Uid, i: nat :: && DeployVersion(c, u, i, d, a) && c.objects[u].hist[i].tx.status.Success?
                   && (NodeFor(c.objects[u].spec, Main), c.objects[u].hist[i].tx.key) in c.ledger.txs
                   && c.ledger.txs[(NodeFor(c.objects[u].spec, Main), c.objects[u].hist[i].tx.key)].content.uid == u
  }

  lemma DeployedSucceeded(c: Cluster, d: Name, a: Address)
    requires Inv(c) && DeployedAt(c, d, a)
    ensures SucceededAt(c, d, a)
  {
    hide Inv, PassOk, ContentOk;
    var u: Uid, i: nat :| DeployVersion(c, u, i, d, a);
    ObjectOf(c, u);
    assert VersionOk(c, u, c.objects[u].hist[i]);
    MainSub(c, u, c.objects[u].hist[i], Main);
    KeyOwner(c, u, Main, (NodeFor(c.objects[u].spec, Main), c.objects[u].hist[i].tx.key));
  }

  /**
   A deployment or invoke transaction appears on a node only when every required deployment has
   already succeeded: in the very state it is sent from, each one has a Success version, and the
   transaction is built from exactly those addresses.
   */
  lemma DependencyOrder(run: seq<Event>, e: Event, ref: (Name, Key))
    requires Run(run) && Enabled(State(run), e) && (e.Create? ==> DistinctTransports(e.spec))
    requires ref !in State(run).ledger.txs && ref in Next(State(run), e).ledger.txs
    requires Requires(State(run), Next(State(run), e).ledger.txs[ref]).Some?
    ensures var c := State(run);
            var tx := Next(c, e).ledger.txs[ref];
            var required := Requires(c, tx).value;
            && tx.content.inputs.Keys == Names(required)
            && forall d <- required :: SucceededAt(c, d, tx.content.inputs[d])
  {
    hide Run, After, Inv, Enabled, Next, SucceededAt, Requires;
    Reached(run);
    DependencyOrderAt(State(run), e, ref);
  }

  lemma DependencyOrderAt(c: Cluster, e: Event, ref: (Name, Key))
    requires Inv(c) && Enabled(c, e) && (e.Create? ==> DistinctTransports(e.spec))
    requires ref !in c.ledger.txs && ref in Next(c, e).ledger.txs && Requires(c, Next(c, e).ledger.txs[ref]).Some?
    ensures var tx := Next(c, e).ledger.txs[ref];
            var required := Requires(c, tx).value;
            && tx.content.inputs.Keys == Names(required)
            && forall d <- required :: SucceededAt(c, d, tx.content.inputs[d])
  {
    hide Inv, Enabled, Next, DeployedAt, SucceededAt, Extends;
    var d := Next(c, e);
    NextKeeps(c, e);
    SendLeavesStore(c, e, ref);
    SentContent(d, ref);
    var tx := d.ledger.txs[ref];
    forall n | n in Requires(c, tx).value ensures SucceededAt(c, n, tx.content.inputs[n]) {
      assert n in Names(Requires(c, tx).value);
      SameStoreDeployed(c, d, n, tx.content.inputs[n]);
      DeployedSucceeded(c, n, tx.content.inputs[n]);
    }
  }

  /** The deployments a transaction's CR requires, if it is a deployment or invoke. */
  function Requires(c: Cluster, tx: Tx): (r: Option<seq<Name>>) {
    if tx.content.uid in c.objects && c.objects[tx.content.uid].spec.Contract()
    then Some(c.objects[tx.content.uid].spec.required) else None
  }

  lemma SentContent(c: Cluster, ref: (Name, Key))
    requires Inv(c) && ref in c.ledger.txs && Requires(c, c.ledger.txs[ref]).Some?
    ensures var tx := c.ledger.txs[ref];
            && tx.content.inputs.Keys == Names(Requires(c, tx).value)
            && forall d <- tx.content.inputs :: DeployedAt(c, d, tx.content.inputs[d])
  {
    hide PassOk, DeployedAt;
    assert TxOk(c, ref);
    var u := c.ledger.txs[ref].content.uid;
    assert ObjectOk(c, u) && VersionOk(c, u, Last(c.objects[u]));
    ReadyExactly(c.objects[u].spec.required, Last(c.objects[u]).deps.resolved);
  }

  lemma SendLeavesStore(c: Cluster, e: Event, ref: (Name, Key))
    requires Enabled(c, e) && ref !in c.ledger.txs && ref in Next(c, e).ledger.txs
    ensures Next(c, e).objects == c.objects
  {
  }

  lemma SameStoreDeployed(c: Cluster, d: Cluster, n: Name, a: Address)
    requires d.objects == c.objects && DeployedAt(d, n, a)
    ensures DeployedAt(c, n, a)
  {
    var u: Uid, i: nat :| DeployVersion(d, u, i, n, a);
    assert DeployVersion(c, u, i, n, a);
  }

  // ---- dependency cycles ----

  /** Every deployment whose name is in `names` requires another deployment in `names`. */
  ghost predicate Blocked(c: Cluster, names: set<Name>) {
    forall u <- c.objects :: c.objects[u].spec.Deployment? && c.objects[u].name in names ==>
      exists d <- c.objects[u].spec.required :: d in names
  }

  /** A transaction of a deployment in `names`, or of any CR that requires one of them. */
  ghost predicate Behind(c: Cluster, names: set<Name>, tx: Tx) {
    && tx.content.uid in c.objects && c.objects[tx.content.uid].spec.Contract()
    && (|| (c.objects[tx.content.uid].spec.Deployment? && c.objects[tx.content.uid].name in names)
        || exists d <- c.objects[tx.content.uid].spec.required :: d in names)
  }

  /**
   Nothing on or behind a dependency cycle is ever submitted: if each deployment in a set of names
   requires a member of the set, then no transaction exists for any of them, nor for any deployment
   or invoke that requires one of them.
   */
  lemma {:induction false} CyclesNeverSubmit(run: seq<Event>, names: set<Name>)
    requires Run(run) && Blocked(State(run), names)
    ensures forall r <- State(run).ledger.txs :: !Behind(State(run), names, State(run).ledger.txs[r])
    decreases |run|
  {
    hide Enabled, Next, Inv, Behind, Blocked;
    if run != [] {
      var n := |run| - 1;
      var e := run[n];
      SplitRun(run);
      var c := State(run[..n]);
      Reached(run[..n]);
      NextKeeps(c, e);
      BlockedBefore(c, e, names);
      CyclesNeverSubmit(run[..n], names);
      NoNewBehind(c, e, names);
    }
  }

  lemma {:induction false} SplitFrom(c: Cluster, run: seq<Event>)
    requires run != [] && ValidFrom(c, run)
    ensures var n := |run| - 1;
            && ValidFrom(c, run[..n]) && Enabled(After(c, run[..n]), run[n])
            && After(c, run) == Next(After(c, run[..n]), run[n])
    decreases |run|
  {
    hide Enabled, Next;
    var n := |run| - 1;
    if n > 0 {
      SplitFrom(Next(c, run[0]), run[1..]);
      assert run[1..][..n - 1] == run[..n][1..] && run[1..][n - 1] == run[n];
    }
  }

  lemma SplitRun(run: seq<Event>)
    requires Run(run) && run != []
    ensures var n := |run| - 1;
            && Run(run[..n]) && Enabled(State(run[..n]), run[n]) && State(run) == Next(State(run[..n]), run[n])
            && (run[n].Create? ==> DistinctTransports(run[n].spec))
  {
    hide Enabled, Next;
    SplitFrom(EMPTY_CLUSTER, run);
    assert run[|run| - 1] in run;
  }

  lemma BlockedBefore(c: Cluster, e: Event, names: set<Name>)
    requires Enabled(c, e) && Extends(c, Next(c, e)) && Blocked(Next(c, e), names)
    ensures Blocked(c, names)
  {
    hide Enabled, Next;
    forall u | u in c.objects && c.objects[u].spec.Deployment? && c.objects[u].name in names
      ensures exists d <- c.objects[u].spec.required :: d in names
    {
      assert u in Next(c, e).objects;
    }
  }

  /** A new transaction behind the set would need an address, hence an older transaction, inside it. */
  lemma NoNewBehind(c: Cluster, e: Event, names: set<Name>)
    requires Inv(c) && Enabled(c, e) && (e.Create? ==> DistinctTransports(e.spec))
    requires Inv(Next(c, e)) && Extends(c, Next(c, e)) && Blocked(c, names)
    requires forall r <- c.ledger.txs :: !Behind(c, names, c.ledger.txs[r])
    ensures forall r <- Next(c, e).ledger.txs :: !Behind(Next(c, e), names, Next(c, e).ledger.txs[r])
  {
    hide Inv, Enabled, Next, SucceededAt;
    var d := Next(c, e);
    forall r | r in d.ledger.txs ensures !Behind(d, names, d.ledger.txs[r]) {
      var tx := d.ledger.txs[r];
      if r in c.ledger.txs {
        TxCR(c, r);
        assert Behind(d, names, tx) ==> Behind(c, names, tx);
      } else if Behind(d, names, tx) {
        SendLeavesStore(c, e, r);
        DependencyOrderAt(c, e, r);
        var n :| n in Requires(c, tx).value && n in names;
        AddressNeedsTx(c, n, tx.content.inputs[n], names);
      }
    }
  }

  lemma TxCR(c: Cluster, r: (Name, Key))
    requires Inv(c) && r in c.ledger.txs
    ensures c.ledger.txs[r].content.uid in c.objects
  {
    hide ObjectOk, PassOk, ContentOk;
    assert TxOk(c, r);
  }

  lemma AddressNeedsTx(c: Cluster, n: Name, a: Address, names: set<Name>)
    requires SucceededAt(c, n, a) && n in names
    ensures exists r <- c.ledger.txs :: Behind(c, names, c.ledger.txs[r])
  {
    var u: Uid, i: nat :| && DeployVersion(c, u, i, n, a) && c.objects[u].hist[i].tx.status.Success?
                          && (NodeFor(c.objects[u].spec, Main), c.objects[u].hist[i].tx.key) in c.ledger.txs
                          && c.ledger.txs[(NodeFor(c.objects[u].spec, Main),
                              c.objects[u].hist[i].tx.key)].content.uid == u;
    assert Behind(c, names, c.ledger.txs[(NodeFor(c.objects[u].spec, Main), c.objects[u].hist[i].tx.key)]);
  }

  // ---- registrations ----

  /**
   A registration transaction targets an address its registry has been Available at, and a transport
   property is only ever sent after registerIdentity has succeeded on the node.
   */
  lemma RegistrationOrder(run: seq<Event>, ref: (Name, Key))
    requires Run(run) && ref in State(run).ledger.txs
    ensures var c := State(run);
            var tx := c.ledger.txs[ref];
            && tx.content.uid in c.objects
            && (c.objects[tx.content.uid].spec.Registration? ==>
                  var o := c.objects[tx.content.uid];
                  && o.spec.registry in tx.content.inputs &&
                      RegistryAt(c, o.spec.registry, tx.content.inputs[o.spec.registry])
                  && (tx.content.slot.Transport? ==> IdentityRegistered(c, tx.content.uid)))
  {
    hide PassOk, Run, After, RegistryAt;
    Reached(run);
    var c := State(run);
    assert TxOk(c, ref);
    var tx := c.ledger.txs[ref];
    var o := c.objects[tx.content.uid];
    if o.spec.Registration? && tx.content.slot.Transport? {
      assert ObjectOk(c, tx.content.uid) && VersionOk(c, tx.content.uid, Last(o));
      MainSub(c, tx.content.uid, Last(o), Main);
    }
  }

  ghost predicate IdentityRegistered(c: Cluster, u: Uid) {
    && u in c.objects && c.objects[u].hist != []
    && var sub := Last(c.objects[u]).tx;
       && sub.status.Success? && (NodeFor(c.objects[u].spec, Main), sub.key) in c.ledger.txs
       && c.ledger.txs[(NodeFor(c.objects[u].spec, Main), sub.key)].id == sub.txId
       && sub.txId in c.ledger.receipts && c.ledger.receipts[sub.txId].success
  }

  /** The persisted PublishCount never exceeds the publications that have succeeded. */
  lemma PublishCountBounded(run: seq<Event>, u: Uid, i: nat)
    requires Run(run) && u in State(run).objects && i < |State(run).objects[u].hist|
    requires State(run).objects[u].spec.Registration?
    ensures State(run).objects[u].hist[i].publishCount
         <= Successes(State(run).objects[u].hist[i], State(run).objects[u].spec.transports)
  {
    hide Inv, Run, After, SubOk, CountSuccess;
    Reached(run);
    ObjectOf(State(run), u);
    assert VersionOk(State(run), u, State(run).objects[u].hist[i]);
  }

  /** The publish loop never assigns into the nil map: its pass survives every iteration. */
  lemma NoNilMapWrite(run: seq<Event>, e: Event)
    requires Run(run) && e.Publish? && Enabled(State(run), e)
    ensures e.pass in Next(State(run), e).passes
  {
    hide Inv, Run, After, PublishNext, EnvOk;
    Reached(run);
    PublishKeeps(State(run), e.pass, e.env);
  }

  // ---- bounded work ----

  /** Status updates a deployment or invoke still has before it. */
  function Remaining(required: seq<Name>, st: Status): (n: int) {
    (if st.deps.summary == Unwritten then 1 else 0) + (|required| - |st.deps.resolved|) + (3 - Rank(st.tx.status))
  }

  lemma RemainingNonNegative(spec: Spec, st: Status)
    requires spec.Contract() && Shape(spec, st)
    ensures Remaining(spec.required, st) >= 0
  {
    NamesCount(spec.required);
    SubsetSize(st.deps.resolved.Keys, Names(spec.required));
    SubRank(st.tx);
    assert |st.deps.resolved| == |st.deps.resolved.Keys|;
  }

  /** Every effective update strictly lowers the measure. */
  lemma OneStepDrops(spec: Spec, a: Status, b: Status)
    requires spec.Contract() && Progresses(spec, a, b) && Shape(spec, a) && Shape(spec, b)
    ensures Remaining(spec.required, b) < Remaining(spec.required, a)
  {
    assert Evolves(SubAt(a, Main), SubAt(b, Main));
    SubmapSize(a.deps.resolved, b.deps.resolved);
  }
}
