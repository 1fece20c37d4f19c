/**
 Runs from the empty cluster in which the seams of the publish loop show: a registration that lists
 a transport twice ends up with two transactions for it, and one that lists two transports with a
 PublishCount below the number of its successes.
 */
module PublicationRuns {
  import opened Collections
  import opened Transactions
  import opened Dependencies
  import opened Reconcilers
  import opened Cluster
  import opened Safety
  import opened Guarantees
  import opened Progress
  import opened Publication

  // ---- a registration beside an available registry ----

  /** Every transaction was sent under a key that was noted when it was generated. */
  ghost predicate KeysNoted(c: Cluster) { forall r <- c.ledger.txs :: r.1 in c.keys }

  /** Version `v` of a registry of that name is at an address. */
  predicate Offers(c: Cluster, name: Name, w: Uid, v: nat) {
    && w in c.objects && c.objects[w].name == name && c.objects[w].spec.Registry?
    && v < |c.objects[w].hist| && c.objects[w].hist[v].address != ""
  }

  /** A live registration with that status, an available registry, and nothing going on. */
  ghost predicate Idle(c: Cluster, u: Uid, spec: Spec, st: Status, w: Uid, v: nat) {
    && u in c.objects && c.objects[u].live && c.objects[u].spec == spec && spec.Registration?
    && c.objects[u].hist != [] && Last(c.objects[u]) == st
    && Offers(c, spec.registry, w, v) && u != w && c.passes == map[] && KeysNoted(c)
  }

  function Registered(c: Cluster, w: Uid, v: nat): (a: Address)
    requires w in c.objects && v < |c.objects[w].hist|
  {
    c.objects[w].hist[v].address
  }

  /** A fault-free environment with a new key and id, whatever slot it is for. */
  lemma NewEnv(c: Cluster) returns (env: Env)
    ensures FaultFree(env) && env.freshKey !in c.keys && forall u: Uid, slot: Slot :: EnvOk(c, u, slot, env)
  {
    var key := FreshString(c.keys.Keys);
    var ids := set r | r in c.ledger.txs :: c.ledger.txs[r].id;
    var id := FreshString(c.ledger.receipts.Keys + ids);
    assert forall r <- c.ledger.txs :: c.ledger.txs[r].id in ids;
    env := Env(key, id, Ready, Ready, Delivered, Delivered, Delivered, true);
  }

  /** The cluster once a pass over the current version of `u` has written `st`. */
  function Written(c: Cluster, u: Uid, st: Status, ledger: Ledger, keys: map<Key, (Uid, Slot)>): (d: Cluster)
    requires u in c.objects
  {
    c.(objects := c.objects[u := c.objects[u].(hist := c.objects[u].hist + [st])], ledger := ledger, keys := keys)
  }

  lemma ReadsRegistry(c: Cluster, d: Cluster, spec: Spec, w: Uid, v: nat)
    requires spec.Registration? && Offers(c, spec.registry, w, v) && d.objects == c.objects
    ensures ReadsOk(d, spec, [ReadVersion(w, v)]) &&
      Answers(d, spec, [ReadVersion(w, v)]) == [Found(Registered(c, w, v))]
  {
    var looks := [ReadVersion(w, v)];
    assert ReadOk(d, spec, ReadNames(spec)[0], looks[0]);
    assert ReadsOk(d, spec, looks);
  }

  /** Begin and run: a pass that stops before the loop is ready to update the status. */
  lemma OpeningPass(c: Cluster, u: Uid, spec: Spec, st: Status, w: Uid, v: nat, env: Env, st': Status, l: Ledger)
    requires Idle(c, u, spec, st, w, v) && EnvOk(c, u, Main, env) && st' != st
    requires OpenRegistration(u, spec, st, Found(Registered(c, w, v)), c.ledger, env) == (Stop(Write(st')), l)
    ensures var run := [Begin(0, u, |c.objects[u].hist| - 1), Event.Run(0, [ReadVersion(w, v)], env), Update(0)];
      ValidFrom(c, run) && After(c, run) == Written(c, u, st', l, NoteKey(c.keys, u, Main, st, st'))
  {
    hide OpenRegistration, ValidFrom, After, EnvOk, Answers, ReadsOk;
    var e1, e2, e3 := Begin(0, u, |c.objects[u].hist| - 1), Event.Run(0, [ReadVersion(w, v)], env), Update(0);
    assert Enabled(c, e1);
    var c1 := Next(c, e1);
    ReadsRegistry(c, c1, spec, w, v);
    EnvStays(c, c1, u, Main, env);
    assert Enabled(c1, e2);
    var c2 := Next(c1, e2);
    assert c2 == Settle(c1, 0, Write(st'), l);
    assert Enabled(c2, e3);
    var c3 := Next(c2, e3);
    assert c3.passes == map[];
    assert c3 == Written(c, u, st', l, NoteKey(c.keys, u, Main, st, st'));
    Three(c, e1, e2, e3);
  }

  lemma EnvStays(c: Cluster, d: Cluster, u: Uid, slot: Slot, env: Env)
    requires EnvOk(c, u, slot, env) && d.keys == c.keys && d.ledger == c.ledger
    ensures EnvOk(d, u, slot, env)
  {
  }

  /** One fault-free pass moves the registration transaction up, as long as it is not finished. */
  lemma OpenStep(c: Cluster, u: Uid, spec: Spec, st: Status, w: Uid, v: nat) returns (run: seq<Event>, st': Status)
    requires Idle(c, u, spec, st, w, v) && Coherent(st.tx) && Rank(st.tx.status) < 3 &&
      (st.publish.None? || st.publish == Some(map[]))
    requires st.tx.key != "" ==> st.tx.key in c.keys
    requires st.tx.status.Submitting? ==> (spec.adminNode, st.tx.key) !in c.ledger.txs
    requires st.tx.status.Pending? ==> st.tx.txId in c.ledger.receipts && c.ledger.receipts[st.tx.txId].success
    requires forall r <- c.ledger.txs :: c.ledger.txs[r].id != ""
    ensures ValidFrom(c, run) && AdmissibleRun(run)
    ensures var d := After(c, run);
      && Idle(d, u, spec, st', w, v) && Coherent(st'.tx) && Rank(st'.tx.status) == Rank(st.tx.status) + 1 &&
          !st'.tx.status.Failed?
      && st'.publish == Some(map[]) && st'.publishCount == 0 && (st'.tx.key != "" ==> st'.tx.key in d.keys)
      && (st'.tx.status.Submitting? ==> (spec.adminNode, st'.tx.key) !in d.ledger.txs)
      && (st'.tx.status.Pending? ==>
          && (spec.adminNode, st'.tx.key) in d.ledger.txs
          && d.ledger.txs[(spec.adminNode, st'.tx.key)].id == st'.tx.txId)
      && d.ledger.receipts == c.ledger.receipts && (forall r <- d.ledger.txs :: d.ledger.txs[r].id != "")
      && (st'.tx.status.Pending? ==> st'.tx.txId !in d.ledger.receipts)
  {
    hide ValidFrom, After, Offers;
    var env := NewEnv(c);
    OfferedAddress(c, spec.registry, w, v);
    var a := Registered(c, w, v);
    var content := RegistrationContent(u, Main, spec, a);
    var o := ReconcileTx(st.tx, spec.adminNode, content, c.ledger, env);
    assert EnvOk(c, u, Main, env);
    ReconcileStepsUp(st.tx, spec.adminNode, content, c.ledger, env);
    assert o.changed;
    st' := st.(tx := o.sub, publish := Some(map[]), publishCount := 0);
    OpeningPass(c, u, spec, st, w, v, env, st', o.ledger);
    run := [Begin(0, u, |c.objects[u].hist| - 1), Event.Run(0, [ReadVersion(w, v)], env), Update(0)];
    OffersStay(c, After(c, run), spec.registry, w, v);
  }

  lemma OfferedAddress(c: Cluster, name: Name, w: Uid, v: nat)
    requires Offers(c, name, w, v)
    ensures w in c.objects && v < |c.objects[w].hist| && Registered(c, w, v) != ""
  {
  }

  lemma OffersStay(c: Cluster, d: Cluster, name: Name, w: Uid, v: nat)
    requires Offers(c, name, w, v) && w in d.objects && d.objects[w] == c.objects[w]
    ensures Offers(d, name, w, v)
  {
  }

  /** A registry with a fixed address, made available by one pass. */
  lemma RegistryRun(name: Name) returns (run: seq<Event>)
    ensures ValidFrom(EMPTY_CLUSTER, run) && AdmissibleRun(run)
    ensures var d := After(EMPTY_CLUSTER, run);
      d.objects.Keys == {0} && Offers(d, name, 0, 1) && d.passes == map[] && d.ledger == EMPTY_CLUSTER.ledger &&
          d.keys == map[]
  {
    hide EnvOk;
    var spec := Registry(true, "a", "");
    var e0, e1 := Create(0, name, spec), Begin(0, 0, 0);
    var c := Next(EMPTY_CLUSTER, e0);
    var env := NewEnv(c);
    var e2, e3 := Event.Run(0, [ReadNothing], env), Update(0);
    var c1 := Next(c, e1);
    EnvStays(c, c1, 0, Main, env);
    assert ReadsOk(c1, spec, [ReadNothing]);
    var c2 := Next(c1, e2);
    var st := INITIAL.(address := "a", phase := Available);
    assert c2.passes[0].mem == st && c2.passes[0].stage == Updating;
    var c3 := Next(c2, e3);
    assert c3.objects[0].hist == [INITIAL, st];
    FirstThree(EMPTY_CLUSTER, e0, e1, e2, e3);
    run := [e0] + [e1, e2, e3];
  }

  lemma FirstThree(c: Cluster, e0: Event, e1: Event, e2: Event, e3: Event)
    requires Enabled(c, e0) && Enabled(Next(c, e0), e1) && Enabled(Next(Next(c, e0), e1), e2)
    requires Enabled(Next(Next(Next(c, e0), e1), e2), e3)
    ensures var run := [e0] + [e1, e2, e3];
      ValidFrom(c, run) && After(c, run) == Next(Next(Next(Next(c, e0), e1), e2), e3)
  {
    hide Enabled, Next;
    Three(Next(c, e0), e1, e2, e3);
    Chain(c, e0, [e1, e2, e3]);
  }

  /** A run from the empty cluster to `c`. */
  ghost predicate Reaches(run: seq<Event>, c: Cluster) { ValidFrom(EMPTY_CLUSTER, run) &&
      After(EMPTY_CLUSTER, run) == c }

  lemma ReachesFurther(run: seq<Event>, c: Cluster, more: seq<Event>)
    requires Reaches(run, c) && ValidFrom(c, more)
    ensures Reaches(run + more, After(c, more))
    ensures AdmissibleRun(run) && AdmissibleRun(more) ==> AdmissibleRun(run + more)
  {
    hide ValidFrom, After;
    Join(EMPTY_CLUSTER, run, more);
  }

  lemma Single(c: Cluster, e: Event)
    requires Enabled(c, e)
    ensures ValidFrom(c, [e]) && After(c, [e]) == Next(c, e)
  {
    hide Enabled, Next;
    assert [e][1..] == [];
  }

  /** A new registration beside the available registry. */
  lemma CreateRegistration(c: Cluster, name: Name, spec: Spec)
    requires spec.Registration? && c.objects.Keys == {0} && Offers(c, spec.registry, 0, 1) && c.passes == map[]
    requires c.ledger == EMPTY_CLUSTER.ledger
    ensures Enabled(c, Create(1, name, spec)) && Idle(Next(c, Create(1, name, spec)), 1, spec, INITIAL, 0, 1)
    ensures Next(c, Create(1, name, spec)).ledger == c.ledger
  {
  }

  lemma MineRegistration(c: Cluster, u: Uid, spec: Spec, st: Status, w: Uid, v: nat)
    requires Idle(c, u, spec, st, w, v) && st.tx.txId !in c.ledger.receipts
    requires (spec.adminNode, st.tx.key) in c.ledger.txs && c.ledger.txs[(spec.adminNode, st.tx.key)].id == st.tx.txId
    ensures var e := Mine(st.tx.txId, Receipt(true, None, "", 0, ""));
      && Enabled(c, e) && Idle(Next(c, e), u, spec, st, w, v) && Next(c, e).keys == c.keys &&
          Next(c, e).ledger.txs == c.ledger.txs
      && st.tx.txId in Next(c, e).ledger.receipts && Next(c, e).ledger.receipts[st.tx.txId].success
  {
  }

  /** A run after which the registration has succeeded and no transport has been touched. */
  lemma RegisteredRun(name: Name, spec: Spec) returns (run: seq<Event>, c: Cluster, st: Status)
    requires spec.Registration?
    ensures Reaches(run, c) && (DistinctTransports(spec) ==> AdmissibleRun(run))
    ensures Idle(c, 1, spec, st, 0, 1) && st.tx.status.Success? && st.publish == Some(map[]) && st.publishCount == 0
  {
    hide ValidFrom, After, Idle, Offers, Enabled, Next;
    run := RegistryRun(spec.registry);
    c := After(EMPTY_CLUSTER, run);
    CreateRegistration(c, name, spec);
    var e := Create(1, name, spec);
    Single(c, e);
    ReachesFurther(run, c, [e]);
    run, c := run + [e], Next(c, e);
    var more;
    more, st := OpenStep(c, 1, spec, INITIAL, 0, 1);
    ReachesFurther(run, c, more);
    run, c := run + more, After(c, more);
    more, st := OpenStep(c, 1, spec, st, 0, 1);
    ReachesFurther(run, c, more);
    run, c := run + more, After(c, more);
    e := Mine(st.tx.txId, Receipt(true, None, "", 0, ""));
    MineRegistration(c, 1, spec, st, 0, 1);
    Single(c, e);
    ReachesFurther(run, c, [e]);
    run, c := run + [e], Next(c, e);
    more, st := OpenStep(c, 1, spec, st, 0, 1);
    ReachesFurther(run, c, more);
    run, c := run + more, After(c, more);
  }

  /**
   The registration's own success is not counted: for every registration there is a run from the
   empty cluster to a version in which it has succeeded and the count is 0.
   */
  lemma SuccessNotCounted(name: Name, spec: Spec) returns (run: seq<Event>)
    requires spec.Registration? && DistinctTransports(spec)
    ensures Guarantees.Run(run) && 1 in State(run).objects && State(run).objects[1].hist != []
    ensures State(run).objects[1].spec == spec
    ensures var st := Last(State(run).objects[1]); st.publishCount == 0 && Successes(st, spec.transports) == 1
  {
    hide ValidFrom, After;
    var c, st;
    run, c, st := RegisteredRun(name, spec);
    NonePublished(st, spec.transports);
  }

  lemma {:induction false} NonePublished(st: Status, ts: seq<Name>)
    requires st.publish == Some(map[])
    ensures CountSuccess(st, ts) == 0
  {
    if ts != [] { NonePublished(st, ts[..|ts| - 1]); }
  }

  // ---- a transport listed twice ----

  /** A record that has a key of its own and nothing else. */
  ghost predicate OnlyKeyed(sub: Submission, c: Cluster, d: Cluster) {
    sub.key != "" && sub == Keyed(sub.key) && sub.key in d.keys && sub.key !in c.keys
  }

  /** Iteration `m` of a pass started in `c`, which has so far only generated keys. */
  ghost predicate Keying(c: Cluster, d: Cluster, u: Uid, spec: Spec, st: Status, a: Address, m: nat) {
    && spec.Registration? && m <= |spec.transports|
    && d.objects == c.objects && d.ledger == c.ledger && (forall k <- c.keys :: k in d.keys)
    && u in c.objects && c.objects[u].spec == spec && c.passes == map[] && d.passes.Keys == {0}
    && d.passes[0].uid == u && d.passes[0].stage.Publishing? && d.passes[0].stage.next == m &&
        d.passes[0].stage.registry == a
    && d.passes[0].mem.publish.Some? && d.passes[0].mem.tx == st.tx
    && forall t :: if t in spec.transports[..m] then OnlyKeyed(SubAt(d.passes[0].mem, Transport(t)), c, d)
                   else SubAt(d.passes[0].mem, Transport(t)) == EMPTY
  }

  /** A pass over a successful registration enters the loop. */
  lemma EnterLoop(c: Cluster, u: Uid, spec: Spec, st: Status, w: Uid, v: nat) returns (run: seq<Event>, d: Cluster)
    requires Idle(c, u, spec, st, w, v) && st.tx.status.Success?
    ensures ValidFrom(c, run) && AdmissibleRun(run) && After(c, run) == d && d.objects == c.objects &&
      d.ledger == c.ledger && d.keys == c.keys
    ensures v < |c.objects[w].hist| &&
      d.passes == map[0 := Pass(u, |c.objects[u].hist| - 1, st, Publishing(0, Registered(c, w, v), 1, false))]
  {
    hide ValidFrom, After, EnvOk, Answers, ReadsOk;
    var env := NewEnv(c);
    var e1, e2 := Begin(0, u, |c.objects[u].hist| - 1), Event.Run(0, [ReadVersion(w, v)], env);
    assert Enabled(c, e1);
    var c1 := Next(c, e1);
    ReadsRegistry(c, c1, spec, w, v);
    assert EnvOk(c, u, Main, env);
    EnvStays(c, c1, u, Main, env);
    assert Enabled(c1, e2);
    d := Next(c1, e2);
    Single(c1, e2);
    Chain(c, e1, [e2]);
    run := [e1] + [e2];
  }

  /** One iteration with the node out of reach: a key for a new transport, nothing for one that has it. */
  lemma KeyNext(c: Cluster, d: Cluster, u: Uid, spec: Spec, st: Status, a: Address, m: nat) returns (e: Event)
    requires Keying(c, d, u, spec, st, a, m) && m < |spec.transports|
    ensures Enabled(d, e) && !e.Create? && Keying(c, Next(d, e), u, spec, st, a, m + 1)
  {
    hide EnvOk;
    var env := NewEnv(d);
    var t := spec.transports[m];
    e := Publish(0, env.(rpc := Broken));
    OtherRpc(d, u, Transport(t), env);
    assert Enabled(d, e);
    assert forall x :: x in spec.transports[..m + 1] <==> x in spec.transports[..m] || x == t;
    assert t in spec.transports[..m] ==> OnlyKeyed(SubAt(d.passes[0].mem, Transport(t)), c, d);
  }

  lemma OtherRpc(c: Cluster, u: Uid, slot: Slot, env: Env)
    requires EnvOk(c, u, slot, env)
    ensures EnvOk(c, u, slot, env.(rpc := Broken))
  {
  }

  lemma {:induction false} KeyUpTo(c: Cluster, d: Cluster, u: Uid, spec: Spec, st: Status, a: Address, m: nat,
      j: nat) returns (run: seq<Event>)
    requires Keying(c, d, u, spec, st, a, m) && m <= j <= |spec.transports|
    ensures ValidFrom(d, run) && Keying(c, After(d, run), u, spec, st, a, j)
    decreases j - m
  {
    hide Keying, Enabled, Next;
    if m == j {
      run := [];
    } else {
      KeyingRoom(c, d, u, spec, st, a, m);
      var e := KeyNext(c, d, u, spec, st, a, m);
      var rest := KeyUpTo(c, Next(d, e), u, spec, st, a, m + 1, j);
      Chain(d, e, rest);
      run := [e] + rest;
    }
  }

  lemma KeyingRoom(c: Cluster, d: Cluster, u: Uid, spec: Spec, st: Status, a: Address, m: nat)
    requires Keying(c, d, u, spec, st, a, m)
    ensures spec.Registration?
  {
  }

  /**
   Iteration `j` finds the key of an earlier one and submits under it, though nothing was persisted;
   then the pass is cut off.
   */
  lemma SendAndCut(c: Cluster, d: Cluster, u: Uid, spec: Spec, st: Status, a: Address, i: nat,
      j: nat) returns (run: seq<Event>, key: Key)
    requires KeysNoted(c) && Keying(c, d, u, spec, st, a, j) && i < j < |spec.transports| &&
      spec.transports[i] == spec.transports[j]
    ensures ValidFrom(d, run)
    ensures var f := After(d, run);
      && f.objects == c.objects && f.passes == map[] && f.ledger.receipts == c.ledger.receipts
      && key !in c.keys && (forall k <- c.keys :: k in f.keys) && key in f.keys && (spec.node, key) in f.ledger.txs
      && f.ledger.txs[(spec.node, key)].content == RegistrationContent(u, Transport(spec.transports[j]), spec, a)
      && f.ledger.txs == c.ledger.txs[(spec.node, key) := f.ledger.txs[(spec.node, key)]]
  {
    hide EnvOk;
    var t := spec.transports[j];
    assert t in spec.transports[..j] by { assert spec.transports[..j][i] == t; }
    var sub := SubAt(d.passes[0].mem, Transport(t));
    assert OnlyKeyed(sub, c, d);
    key := sub.key;
    assert (spec.node, key) !in c.ledger.txs;
    var env := NewEnv(d);
    var e := Publish(0, env);
    assert EnvOk(d, u, Transport(t), env);
    assert Enabled(d, e);
    var f := Next(d, e);
    assert 0 in f.passes && Enabled(f, Cut(0));
    Single(f, Cut(0));
    Chain(d, e, [Cut(0)]);
    run := [e] + [Cut(0)];
    assert Next(f, Cut(0)).passes == map[];
  }

  /** One such pass from beginning to end. */
  lemma DuplicatePass(c: Cluster, u: Uid, spec: Spec, st: Status, w: Uid, v: nat, i: nat,
      j: nat) returns (run: seq<Event>, key: Key)
    requires Idle(c, u, spec, st, w, v) && st.tx.status.Success? && st.publish == Some(map[])
    requires i < j < |spec.transports| && spec.transports[i] == spec.transports[j]
    ensures ValidFrom(c, run) && Idle(After(c, run), u, spec, st, w, v)
    ensures var f := After(c, run);
      && key !in c.keys && (forall k <- c.keys :: k in f.keys) && key in f.keys && (spec.node, key) in f.ledger.txs
      && (forall r <- c.ledger.txs :: r in f.ledger.txs && f.ledger.txs[r] == c.ledger.txs[r])
      && f.ledger.txs[(spec.node, key)].content.uid == u &&
          f.ledger.txs[(spec.node, key)].content.slot == Transport(spec.transports[j])
  {
    hide ValidFrom, After;
    var enter, d := EnterLoop(c, u, spec, st, w, v);
    var a := Registered(c, w, v);
    assert Keying(c, d, u, spec, st, a, 0);
    var keys := KeyUpTo(c, d, u, spec, st, a, 0, j);
    var send;
    send, key := SendAndCut(c, After(d, keys), u, spec, st, a, i, j);
    Join(d, keys, send);
    Join(c, enter, keys + send);
    run := enter + (keys + send);
  }

  /**
   Exactly-once needs distinct transports: for every registration that lists one twice there is a run
   from the empty cluster, with two passes cut off before their status update, that leaves two
   transactions for that transport.
   */
  lemma DuplicateTransports(name: Name, spec: Spec) returns (run: seq<Event>)
    requires spec.Registration? && !Distinct(spec.transports)
    ensures ValidFrom(EMPTY_CLUSTER, run) && !AtMostOncePerSlot(After(EMPTY_CLUSTER, run).ledger)
  {
    hide ValidFrom, After, Idle;
    var i, j :| 0 <= i < j < |spec.transports| && spec.transports[i] == spec.transports[j];
    var c, st;
    run, c, st := RegisteredRun(name, spec);
    var first, k1 := DuplicatePass(c, 1, spec, st, 0, 1, i, j);
    ReachesFurther(run, c, first);
    run, c := run + first, After(c, first);
    var second, k2 := DuplicatePass(c, 1, spec, st, 0, 1, i, j);
    ReachesFurther(run, c, second);
    run := run + second;
    var l := After(c, second).ledger;
    assert (spec.node, k1) in l.txs && (spec.node, k2) in l.txs && k1 != k2;
  }

  // ---- two transports that succeed in different passes ----

  /** What the nodes know of a transport's record. */
  ghost predicate StageOk(c: Cluster, node: Name, sub: Submission) {
    && Coherent(sub) && !sub.status.Failed?
    && (sub.key != "" ==> sub.key in c.keys)
    && (sub.status.Submitting? ==> (node, sub.key) !in c.ledger.txs)
    && (sub.status.Pending? ==>
          && (node, sub.key) in c.ledger.txs && c.ledger.txs[(node, sub.key)].id == sub.txId
          && (sub.txId in c.ledger.receipts ==> c.ledger.receipts[sub.txId].success))
  }

  /** A registered CR whose two transports are at the stages of their records. */
  ghost predicate TwoStages(c: Cluster, u: Uid, spec: Spec, st: Status, w: Uid, v: nat) {
    && Idle(c, u, spec, st, w, v) && st.tx.status.Success? && st.publish.Some?
    && |spec.transports| == 2 && spec.transports[0] != spec.transports[1]
    && (forall r <- c.ledger.txs :: c.ledger.txs[r].id != "")
    && (forall i :: 0 <= i < 2 ==> StageOk(c, spec.node, Record(spec, st, i)))
    && (Record(spec, st, 0).key == Record(spec, st, 1).key ==> Record(spec, st, 0).key == "")
  }

  function Record(spec: Spec, st: Status, i: nat): (sub: Submission)
    requires spec.Registration? && i < |spec.transports|
  {
    SubAt(st, Transport(spec.transports[i]))
  }

  predicate Mined(c: Cluster, sub: Submission) { sub.status.Pending? ==> sub.txId in c.ledger.receipts }

  /** A record after a pass that reached its node. */
  predicate Up(a: Submission, b: Submission) {
    if a.status.Success? then b == a else Rank(b.status) == Rank(a.status) + 1 && !b.status.Failed?
  }

  /** The pass in `c` is about to run iteration `i` of the loop. */
  ghost predicate AtIteration(c: Cluster, u: Uid, spec: Spec, i: nat) {
    && c.passes.Keys == {0} && c.passes[0].uid == u && u in c.objects && c.objects[u].spec == spec && spec.Registration?
    && c.passes[0].stage.Publishing? && c.passes[0].stage.next == i <= |spec.transports| &&
        c.passes[0].mem.publish.Some?
    && KeysNoted(c) && forall r <- c.ledger.txs :: c.ledger.txs[r].id != ""
  }

  /** What iteration `i` leaves: its own record moved or not, everything else as it was. */
  ghost predicate Iterated(c: Cluster, d: Cluster, u: Uid, spec: Spec, i: nat, delivered: bool)
    requires AtIteration(c, u, spec, i) && AtIteration(d, u, spec, i + 1)
  {
    var a, b := c.passes[0], d.passes[0];
    var was, sub := Record(spec, a.mem, i), Record(spec, b.mem, i);
    && d.objects == c.objects && b.base == a.base && b.mem.tx == a.mem.tx
    && (forall t :: t != spec.transports[i] ==> SubAt(b.mem, Transport(t)) == SubAt(a.mem, Transport(t)))
    && (if delivered then Up(was, sub) else sub == was) && StageOk(d, spec.node, sub)
    && b.stage.registry == a.stage.registry && (b.stage.changed <==> a.stage.changed || sub != was)
    && b.stage.count == a.stage.count + (if sub.status.Success? && !was.status.Success? then 1 else 0)
    && d.ledger.receipts == c.ledger.receipts && (forall k <- c.keys :: k in d.keys) &&
        (sub.key != was.key ==> sub.key !in c.keys)
    && (forall r <- c.ledger.txs :: r in d.ledger.txs && d.ledger.txs[r] == c.ledger.txs[r])
    && (forall r <- d.ledger.txs :: r in c.ledger.txs || r == (spec.node, sub.key))
  }

  /** What one call of the sub-protocol does for such a record. */
  ghost predicate Moved(c: Cluster, node: Name, sub: Submission, o: Outcome, key: Key, delivered: bool) {
    && (if delivered then Up(sub, o.sub) else o.sub == sub) && (o.changed && !o.err <==> o.sub != sub) &&
        Coherent(o.sub) && !o.sub.status.Failed?
    && (o.sub.key != sub.key ==> o.sub.key == key && o.sub.status.Submitting?)
    && (o.sub.status.Submitting? ==> o.ledger == c.ledger && (node, o.sub.key) !in c.ledger.txs && o.sub.key != "")
    && (o.sub.status.Pending? ==>
          && (node, o.sub.key) in o.ledger.txs && o.ledger.txs[(node, o.sub.key)].id == o.sub.txId
          && (o.sub.txId in c.ledger.receipts ==> c.ledger.receipts[o.sub.txId].success))
    && o.ledger.receipts == c.ledger.receipts
    && (forall r <- c.ledger.txs :: r in o.ledger.txs && o.ledger.txs[r] == c.ledger.txs[r])
    && (forall r <- o.ledger.txs ::
        r in c.ledger.txs ||
        (r == (node, sub.key) && r == (node, o.sub.key) && o.ledger.txs[r].id != "" && sub.key != ""))
  }

  lemma TxMoves(c: Cluster, node: Name, sub: Submission, content: Content, env: Env, delivered: bool)
    requires StageOk(c, node, sub) &&
      (if delivered then Mined(c, sub) && FaultFree(env) else sub.status.Pending? && env.track.RequestLost?)
    requires env.rpc.Ready? && env.freshId != "" && env.freshKey != "" && env.freshKey !in c.keys &&
      env.freshId !in c.ledger.receipts
    requires KeysNoted(c)
    ensures Moved(c, node, sub, ReconcileTx(sub, node, content, c.ledger, env), env.freshKey, delivered)
  {
  }

  /** One iteration of the loop: the record moves up if the receipt, if awaited, is there and is delivered. */
  lemma Iterate(c: Cluster, u: Uid, spec: Spec, i: nat, delivered: bool) returns (e: Event)
    requires AtIteration(c, u, spec, i) && i < |spec.transports|
    requires var sub := Record(spec, c.passes[0].mem, i);
      StageOk(c, spec.node, sub) && (if delivered then Mined(c, sub) else sub.status.Pending?)
    ensures Enabled(c, e) && !e.Create?
    ensures AtIteration(Next(c, e), u, spec, i + 1) && Iterated(c, Next(c, e), u, spec, i, delivered)
  {
    hide EnvOk, ReconcileTx, Iterated, Moved, StageOk, Mined;
    var env := NewEnv(c);
    var slot := Transport(spec.transports[i]);
    assert EnvOk(c, u, slot, env);
    EnvId(c, u, slot, env);
    if !delivered { env := env.(track := RequestLost); }
    e := Publish(0, env);
    assert Enabled(c, e);
    var sub, content := Record(spec, c.passes[0].mem, i),
        RegistrationContent(u, slot, spec, c.passes[0].stage.registry);
    TxMoves(c, spec.node, sub, content, env, delivered);
    var o := ReconcileTx(sub, spec.node, content, c.ledger, env);
    PublishMoves(c, u, spec, i, env, o, delivered);
  }

  lemma PublishMoves(c: Cluster, u: Uid, spec: Spec, i: nat, env: Env, o: Outcome, delivered: bool)
    requires AtIteration(c, u, spec, i) && i < |spec.transports| && Enabled(c, Publish(0, env))
    requires var slot, sub := Transport(spec.transports[i]), Record(spec, c.passes[0].mem, i);
      && o == ReconcileTx(sub, spec.node, RegistrationContent(u, slot, spec, c.passes[0].stage.registry), c.ledger, env)
      && StageOk(c, spec.node, sub) && Moved(c, spec.node, sub, o, env.freshKey, delivered)
    requires env.freshKey !in c.keys
    ensures var d := Next(c, Publish(0, env)); AtIteration(d, u, spec, i + 1) && Iterated(c, d, u, spec, i, delivered)
  {
    hide EnvOk, ReconcileTx, Coherent, Enabled;
    var pass := c.passes[0];
    var t := spec.transports[i];
    var d := PublishNext(c, 0, env);
    var sub := Record(spec, pass.mem, i);
    var mem := if o.sub != sub then pass.mem.(publish := Some(pass.mem.publish.value[t := o.sub])) else pass.mem;
    PublishedNext(c, u, spec, i, env, o, mem);
    assert SubAt(mem, Transport(t)) == o.sub;
    assert forall x :: x != t ==> SubAt(mem, Transport(x)) == SubAt(pass.mem, Transport(x));
    assert KeysNoted(d);
    assert StageOk(d, spec.node, o.sub);
  }

  /** The cluster after that iteration. */
  lemma PublishedNext(c: Cluster, u: Uid, spec: Spec, i: nat, env: Env, o: Outcome, mem: Status)
    requires AtIteration(c, u, spec, i) && i < |spec.transports| && Enabled(c, Publish(0, env))
    requires var pass, slot := c.passes[0], Transport(spec.transports[i]);
      var sub := SubAt(pass.mem, slot);
      && o == ReconcileTx(sub, spec.node, RegistrationContent(u, slot, spec, pass.stage.registry), c.ledger, env)
      && (o.changed && !o.err <==> o.sub != sub)
      && mem == if o.sub != sub then pass.mem.(publish := Some(pass.mem.publish.value[spec.transports[i] := o.sub]))
          else pass.mem
    ensures var pass, slot := c.passes[0], Transport(spec.transports[i]);
      var changed := o.sub != SubAt(pass.mem, slot);
      var count := if changed && o.sub.status.Success? then pass.stage.count + 1 else pass.stage.count;
      && Next(c, Publish(0, env)) == PublishNext(c, 0, env)
      && PublishNext(c, 0, env) == c.(
           passes := map[0 := pass.(mem := mem,
               stage := Publishing(i + 1, pass.stage.registry, count, pass.stage.changed || changed))],
           ledger := o.ledger, keys := NoteKey(c.keys, u, slot, pass.mem, mem))
  {
    hide EnvOk, ReconcileTx, KeysNoted;
    assert c.passes == map[0 := c.passes[0]];
  }

  lemma EnvId(c: Cluster, u: Uid, slot: Slot, env: Env)
    requires EnvOk(c, u, slot, env)
    ensures env.freshId != "" && env.freshKey != "" && env.freshId !in c.ledger.receipts
    ensures EnvOk(c, u, slot, env.(track := RequestLost))
  {
  }

  /** The loop is over: the pass writes what it changed. */
  lemma CloseLoopRun(c: Cluster, u: Uid, spec: Spec) returns (run: seq<Event>)
    requires spec.Registration? && AtIteration(c, u, spec, |spec.transports|) && c.passes[0].stage.changed &&
      c.objects[u].live
    requires c.objects[u].hist != [] && c.passes[0].base == |c.objects[u].hist| - 1
    requires c.passes[0].mem.(publishCount := c.passes[0].stage.count) != Last(c.objects[u])
    ensures ValidFrom(c, run) && AdmissibleRun(run)
    ensures After(c, run) == Written(c, u, c.passes[0].mem.(publishCount := c.passes[0].stage.count), c.ledger,
      c.keys).(passes := map[])
  {
    hide ValidFrom, After;
    var d := Next(c, EndLoop(0));
    Single(d, Update(0));
    Chain(c, EndLoop(0), [Update(0)]);
    run := [EndLoop(0)] + [Update(0)];
    assert Next(d, Update(0)).passes == map[];
  }

  /** A whole pass over both transports; the second one's receipt may be withheld. */
  lemma TwoPass(c: Cluster, u: Uid, spec: Spec, st: Status, w: Uid, v: nat, second: bool) returns (run: seq<Event>,
      st': Status)
    requires TwoStages(c, u, spec, st, w, v) && Mined(c, Record(spec, st, 0))
    requires if second then Mined(c, Record(spec, st, 1)) else Record(spec, st, 1).status.Pending?
    requires !Record(spec, st, 0).status.Success? || (second && !Record(spec, st, 1).status.Success?)
    ensures ValidFrom(c, run) && AdmissibleRun(run) && TwoStages(After(c, run), u, spec, st', w, v)
    ensures Up(Record(spec, st, 0), Record(spec, st', 0))
    ensures if second then Up(Record(spec, st, 1), Record(spec, st', 1))
      else Record(spec, st', 1) == Record(spec, st, 1)
    ensures After(c, run).ledger.receipts == c.ledger.receipts
    ensures st'.publishCount == 1 + Newly(spec, st, st', 0) + Newly(spec, st, st', 1)
  {
    hide ValidFrom, After, Idle, StageOk, Iterated, Up, Enabled, Next, KeysNoted;
    IdleFacts(c, u, spec, st, w, v);
    var enter, c0 := EnterLoop(c, u, spec, st, w, v);
    Entered(c, c0, u, spec, st, w, v);
    var e0 := Iterate(c0, u, spec, 0, true);
    var c1 := Next(c0, e0);
    OtherStays(c0, c1, u, spec, 0, 1, true);
    IterationKeeps(c0, c1, u, spec, 0, true);
    var e1 := Iterate(c1, u, spec, 1, second);
    var c2 := Next(c1, e1);
    st' := c2.passes[0].mem.(publishCount := c2.passes[0].stage.count);
    BothMoved(c, c0, c1, c2, u, spec, st, w, v, second);
    var close := CloseLoopRun(c2, u, spec);
    Single(c1, e1);
    Chain(c0, e0, [e1]);
    Join(c0, [e0] + [e1], close);
    Join(c, enter, [e0] + [e1] + close);
    run := enter + ([e0] + [e1] + close);
  }

  function Newly(spec: Spec, st: Status, st': Status, i: nat): (n: nat)
    requires spec.Registration? && i < |spec.transports|
  {
    if Record(spec, st', i).status.Success? && !Record(spec, st, i).status.Success? then 1 else 0
  }

  lemma Entered(c: Cluster, d: Cluster, u: Uid, spec: Spec, st: Status, w: Uid, v: nat)
    requires TwoStages(c, u, spec, st, w, v) && d.objects == c.objects && d.ledger == c.ledger && d.keys == c.keys
    requires d.passes == map[0 := Pass(u, |c.objects[u].hist| - 1, st, Publishing(0, Registered(c, w, v), 1, false))]
    ensures AtIteration(d, u, spec, 0) && StageOk(d, spec.node, Record(spec, st, 0)) &&
      StageOk(d, spec.node, Record(spec, st, 1))
  {
  }

  /** An iteration leaves the other record, and what the nodes know of it, alone. */
  lemma OtherStays(c: Cluster, d: Cluster, u: Uid, spec: Spec, i: nat, j: nat, delivered: bool)
    requires AtIteration(c, u, spec, i) && AtIteration(d, u, spec, i + 1) && Iterated(c, d, u, spec, i, delivered)
    requires j < |spec.transports| && spec.transports[i] != spec.transports[j]
    requires var a, b := Record(spec, c.passes[0].mem, i), Record(spec, c.passes[0].mem, j);
      StageOk(c, spec.node, b) && (a.key == b.key ==> b.key == "")
    ensures var b := Record(spec, c.passes[0].mem, j);
      && Record(spec, d.passes[0].mem, j) == b && StageOk(d, spec.node, b)
      && (Record(spec, d.passes[0].mem, i).key == b.key ==> b.key == "")
  {
  }

  lemma IterationKeeps(c: Cluster, d: Cluster, u: Uid, spec: Spec, i: nat, delivered: bool)
    requires AtIteration(c, u, spec, i) && AtIteration(d, u, spec, i + 1) && Iterated(c, d, u, spec, i, delivered)
    ensures d.ledger.receipts == c.ledger.receipts && d.objects == c.objects
    ensures StageOk(d, spec.node, Record(spec, d.passes[0].mem, i))
  {
  }

  lemma IdleFacts(c: Cluster, u: Uid, spec: Spec, st: Status, w: Uid, v: nat)
    requires Idle(c, u, spec, st, w, v)
    ensures u in c.objects && c.objects[u].live && c.objects[u].hist != [] && Last(c.objects[u]) == st &&
      spec.Registration?
  {
  }

  /** Both iterations together. */
  lemma BothMoved(c: Cluster, c0: Cluster, c1: Cluster, c2: Cluster, u: Uid, spec: Spec, st: Status, w: Uid, v: nat,
      second: bool)
    requires TwoStages(c, u, spec, st, w, v) && c0.objects == c.objects && c0.ledger == c.ledger && c0.keys == c.keys
    requires c0.passes == map[0 := Pass(u, |c.objects[u].hist| - 1, st, Publishing(0, Registered(c, w, v), 1, false))]
    requires AtIteration(c0, u, spec, 0) && AtIteration(c1, u, spec, 1) && Iterated(c0, c1, u, spec, 0, true)
    requires AtIteration(c2, u, spec, 2) && Iterated(c1, c2, u, spec, 1, second)
    requires Record(spec, c1.passes[0].mem, 1) == Record(spec, st, 1)
    requires Record(spec, c1.passes[0].mem, 0).key == Record(spec, st, 1).key ==> Record(spec, st, 1).key == ""
    requires StageOk(c1, spec.node, Record(spec, c1.passes[0].mem, 0))
    requires !Record(spec, st, 0).status.Success? || (second && !Record(spec, st, 1).status.Success?)
    ensures var p := c2.passes[0];
      var st' := p.mem.(publishCount := p.stage.count);
      && c2.objects == c.objects && p.stage.changed && p.base == |c.objects[u].hist| - 1 && st' != st
      && TwoStages(Written(c2, u, st', c2.ledger, c2.keys).(passes := map[]), u, spec, st', w, v)
      && Up(Record(spec, st, 0), Record(spec, st', 0)) && c2.ledger.receipts == c.ledger.receipts
      && (if second then Up(Record(spec, st, 1), Record(spec, st', 1)) else Record(spec, st', 1) == Record(spec, st, 1))
      && st'.publishCount == 1 + Newly(spec, st, st', 0) + Newly(spec, st, st', 1)
  {
    hide Coherent, Rank, KeysNoted, Offers;
    var p := c2.passes[0];
    var st' := p.mem.(publishCount := p.stage.count);
    var d := Written(c2, u, st', c2.ledger, c2.keys).(passes := map[]);
    OtherStays(c1, c2, u, spec, 1, 0, second);
    SameStage(c2, d, spec.node, Record(spec, st', 0));
    SameStage(c2, d, spec.node, Record(spec, st', 1));
    UpDiffers(Record(spec, st, 0), Record(spec, st', 0));
    UpDiffers(Record(spec, st, 1), Record(spec, st', 1));
    StillIdle(c, c2, d, u, spec, st', w, v);
  }

  lemma SameStage(c: Cluster, d: Cluster, node: Name, sub: Submission)
    requires StageOk(c, node, sub) && d.ledger == c.ledger && d.keys == c.keys
    ensures StageOk(d, node, sub)
  {
  }

  lemma UpDiffers(a: Submission, b: Submission)
    ensures Up(a, b) && !a.status.Success? ==> a != b
  {
  }

  lemma StillIdle(c: Cluster, c2: Cluster, d: Cluster, u: Uid, spec: Spec, st: Status, w: Uid, v: nat)
    requires Idle(c, u, spec, Last0(c, u), w, v) && c2.objects == c.objects && KeysNoted(c2)
    requires d == Written(c2, u, st, c2.ledger, c2.keys).(passes := map[])
    ensures Idle(d, u, spec, st, w, v)
  {
  }

  function Last0(c: Cluster, u: Uid): (st: Status) {
    if u in c.objects && c.objects[u].hist != [] then Last(c.objects[u]) else INITIAL
  }

  lemma MineTransport(c: Cluster, u: Uid, spec: Spec, st: Status, w: Uid, v: nat, i: nat)
    requires TwoStages(c, u, spec, st, w, v) && i < 2 && Record(spec, st, i).status.Pending? &&
      Record(spec, st, i).txId !in c.ledger.receipts
    ensures var e := Mine(Record(spec, st, i).txId, Receipt(true, None, "", 0, ""));
      Enabled(c, e) && TwoStages(Next(c, e), u, spec, st, w, v) && Mined(Next(c, e), Record(spec, st, i)) &&
      forall id <- c.ledger.receipts :: id in Next(c, e).ledger.receipts
  {
    hide Coherent, Rank;
    var e := Mine(Record(spec, st, i).txId, Receipt(true, None, "", 0, ""));
    assert (spec.node, Record(spec, st, i).key) in c.ledger.txs by { assert StageOk(c, spec.node,
        Record(spec, st, i)); }
    assert forall j :: 0 <= j < 2 ==> StageOk(c, spec.node, Record(spec, st, j));
    assert forall j :: 0 <= j < 2 ==> StageOk(Next(c, e), spec.node, Record(spec, st, j));
  }

  /** Mine a transport's transaction, unless it has a receipt. */
  lemma MineOne(c: Cluster, u: Uid, spec: Spec, st: Status, w: Uid, v: nat, i: nat) returns (run: seq<Event>)
    requires TwoStages(c, u, spec, st, w, v) && i < 2 && Record(spec, st, i).status.Pending?
    ensures ValidFrom(c, run) && AdmissibleRun(run) && TwoStages(After(c, run), u, spec, st, w, v) &&
      Mined(After(c, run), Record(spec, st, i))
    ensures forall id <- c.ledger.receipts :: id in After(c, run).ledger.receipts
  {
    hide TwoStages, Enabled, Next;
    StagesFacts(c, u, spec, st, w, v);
    if Record(spec, st, i).txId in c.ledger.receipts {
      run := [];
    } else {
      MineTransport(c, u, spec, st, w, v, i);
      run := [Mine(Record(spec, st, i).txId, Receipt(true, None, "", 0, ""))];
      Single(c, run[0]);
    }
  }

  lemma StagesFacts(c: Cluster, u: Uid, spec: Spec, st: Status, w: Uid, v: nat)
    requires TwoStages(c, u, spec, st, w, v)
    ensures spec.Registration? && |spec.transports| == 2 && st.tx.status.Success?
  {
  }

  lemma Untouched(c: Cluster, spec: Spec, st: Status)
    requires Idle(c, 1, spec, st, 0, 1) && st.tx.status.Success? && st.publish == Some(map[])
    requires |spec.transports| == 2 && Distinct(spec.transports) && forall r <- c.ledger.txs :: c.ledger.txs[r].id != ""
    ensures TwoStages(c, 1, spec, st, 0, 1) && Record(spec, st, 0) == Record(spec, st, 1) == EMPTY
  {
  }

  /** Both transports submitted and their transactions mined. */
  lemma BothMined(c: Cluster, spec: Spec, st: Status) returns (run: seq<Event>, st': Status)
    requires TwoStages(c, 1, spec, st, 0, 1) && Record(spec, st, 0) == Record(spec, st, 1) == EMPTY
    ensures ValidFrom(c, run) && AdmissibleRun(run) && TwoStages(After(c, run), 1, spec, st', 0, 1)
    ensures forall i :: 0 <= i < 2 ==>
      Record(spec, st', i).status.Pending? && Mined(After(c, run), Record(spec, st', i))
  {
    hide TwoStages, ValidFrom, After, Record;
    StagesFacts(c, 1, spec, st, 0, 1);
    var r1, s1 := TwoPass(c, 1, spec, st, 0, 1, true);
    var c1 := After(c, r1);
    var r2, s2 := TwoPass(c1, 1, spec, s1, 0, 1, true);
    var c2 := After(c1, r2);
    var r3 := MineOne(c2, 1, spec, s2, 0, 1, 0);
    var c3 := After(c2, r3);
    var r4 := MineOne(c3, 1, spec, s2, 0, 1, 1);
    Join(c2, r3, r4);
    Join(c1, r2, r3 + r4);
    Join(c, r1, r2 + (r3 + r4));
    run, st' := r1 + (r2 + (r3 + r4)), s2;
  }

  /**
   PublishCount falls behind: for every registration with two different transports there is a run
   from the empty cluster to a version in which all three of its transactions have succeeded and the
   count is two.
   */
  lemma CountFallsBehind(name: Name, spec: Spec) returns (run: seq<Event>)
    requires spec.Registration? && |spec.transports| == 2 && Distinct(spec.transports)
    ensures Guarantees.Run(run) && 1 in State(run).objects && State(run).objects[1].hist != []
    ensures var st := Last(State(run).objects[1]); st.publishCount == 2 && Successes(st, spec.transports) == 3
  {
    hide TwoStages, ValidFrom, After, Idle;
    var c, st;
    run, c, st := RegisteredRun(name, spec);
    ReachedIds(run, c);
    Untouched(c, spec, st);
    var more;
    more, st := BothMined(c, spec, st);
    ReachesFurther(run, c, more);
    run, c := run + more, After(c, more);
    more, st := TwoPass(c, 1, spec, st, 0, 1, false);
    SameReceiptsMined(c, After(c, more), st, spec);
    ReachesFurther(run, c, more);
    run, c := run + more, After(c, more);
    more, st := TwoPass(c, 1, spec, st, 0, 1, true);
    ReachesFurther(run, c, more);
    run, c := run + more, After(c, more);
    StagesEnd(c, spec, st);
  }

  lemma ReachedIds(run: seq<Event>, c: Cluster)
    requires Reaches(run, c) && AdmissibleRun(run)
    ensures forall r <- c.ledger.txs :: c.ledger.txs[r].id != ""
  {
    hide ValidFrom, After, ObjectOk, PassOk, ContentOk;
    Reached(run);
    assert forall r <- c.ledger.txs :: TxOk(c, r);
  }

  lemma SameReceiptsMined(c: Cluster, d: Cluster, st: Status, spec: Spec)
    requires spec.Registration? && |spec.transports| == 2 && d.ledger.receipts == c.ledger.receipts &&
      Mined(c, Record(spec, st, 1))
    ensures Mined(d, Record(spec, st, 1))
  {
  }

  lemma StagesEnd(c: Cluster, spec: Spec, st: Status)
    requires TwoStages(c, 1, spec, st, 0, 1) && forall i :: 0 <= i < 2 ==> Record(spec, st, i).status.Success?
    ensures 1 in c.objects && c.objects[1].hist != [] && Last(c.objects[1]) == st && Successes(st, spec.transports) == 3
  {
    var ts := spec.transports;
    assert ts[..1] == [ts[0]] && ts[..1][..0] == [] && ts[..2] == ts;
    assert CountSuccess(st, ts[..1][..0]) == 0;
    assert CountSuccess(st, ts[..1]) == 1;
    assert Record(spec, st, 0).status.Success? && Record(spec, st, 1).status.Success?;
  }
}
