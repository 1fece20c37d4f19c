/**
 The publish loop of a registration, where the obvious claims stop short: PublishCount counts only
 what succeeds in the pass that writes it, and a transport listed twice is submitted under a key
 that nobody has persisted (operator/internal/controller/paladinregistration_controller.go).
 */
module Publication {
  import opened Collections
  import opened Transactions
  import opened Reconcilers
  import opened Safety
  import opened Passes

  function LoopFrom(st: Status, ledger: Ledger): (l: Loop) { Loop(st, 1, false, false, ledger) }

  // ---- PublishCount ----

  /** With distinct transports the loop counts exactly the publications that succeed during it. */
  lemma {:induction false} CountsThisPass(uid: Uid, spec: Spec, registry: Address, ts: seq<Name>, st: Status,
      ledger: Ledger, envs: seq<Env>)
    requires spec.Registration? && |envs| == |ts| && Distinct(ts) && st.publish.Some?
    ensures var l := PublishAll(uid, spec, registry, ts, LoopFrom(st, ledger), envs);
            && !l.panicked && l.st.publish.Some? && l.st.tx == st.tx
            && l.count == 1 + CountSuccess(l.st, ts) - CountSuccess(st, ts)
            && forall slot: Slot :: slot.Transport? && slot.name !in ts ==> SubAt(l.st, slot) == SubAt(st, slot)
  {
    hide ReconcileTx;
    if ts != [] {
      var n := |ts| - 1;
      CountsThisPass(uid, spec, registry, ts[..n], st, ledger, envs[..n]);
      var before := PublishAll(uid, spec, registry, ts[..n], LoopFrom(st, ledger), envs[..n]);
      assert ts[n] !in ts[..n];
      assert SubAt(before.st, Transport(ts[n])) == SubAt(st, Transport(ts[n]));
      OneMore(uid, spec, registry, ts, before, envs[n]);
    }
  }

  lemma OneMore(uid: Uid, spec: Spec, registry: Address, ts: seq<Name>, loop: Loop, env: Env)
    requires spec.Registration? && ts != [] && Distinct(ts) && loop.st.publish.Some? && !loop.panicked
    ensures var n := |ts| - 1;
            var l := PublishOne(uid, spec, registry, ts[n], loop, env);
            && !l.panicked && l.st.publish.Some? && l.st.tx == loop.st.tx
            && l.count - CountSuccess(l.st, ts) ==
                 loop.count - CountSuccess(loop.st,
                     ts[..n]) - (if SubAt(loop.st, Transport(ts[n])).status.Success? then 1 else 0)
            && forall slot: Slot :: slot != Transport(ts[n]) ==> SubAt(l.st, slot) == SubAt(loop.st, slot)
  {
    hide ReconcileTx;
    var n := |ts| - 1;
    var sub := SubAt(loop.st, Transport(ts[n]));
    var o := ReconcileTx(sub, spec.node, RegistrationContent(uid, Transport(ts[n]), spec, registry), loop.ledger, env);
    DoneStays(sub, spec.node, RegistrationContent(uid, Transport(ts[n]), spec, registry), loop.ledger, env);
    if o.changed && !o.err {
      PublishedSlots(loop.st, ts[n], o.sub);
      assert ts[..n + 1] == ts;
      PublishedCount(loop.st, ts, n, o.sub);
    }
  }

  lemma DoneStays(sub: Submission, at: Name, content: Content, ledger: Ledger, env: Env)
    ensures sub.status.Success? ==> !ReconcileTx(sub, at, content, ledger, env).changed
  {
  }

  // ---- keys used before they are persisted ----

  /** Whatever the environment does, the loop sends only under keys the version it read contains. */
  ghost predicate OnlyPersistedKeys(spec: Spec)
    requires spec.Registration?
  {
    forall uid: Uid, registry: Address, st: Status, ledger: Ledger, envs: seq<Env> ::
      |envs| == |spec.transports| && st.publish.Some? ==>
        SentPersisted(st, ledger, PublishAll(uid, spec, registry, spec.transports, LoopFrom(st, ledger), envs).ledger)
  }

  ghost predicate SentPersisted(st: Status, before: Ledger, after: Ledger) {
    forall ref <- after.txs :: ref !in before.txs ==>
      ref.1 != "" && ref.1 == SubAt(st, after.txs[ref].content.slot).key
  }

  lemma {:induction false} DistinctSendsPersisted(uid: Uid, spec: Spec, registry: Address, ts: seq<Name>, st: Status,
      ledger: Ledger, envs: seq<Env>)
    requires spec.Registration? && |envs| == |ts| && Distinct(ts) && st.publish.Some?
    ensures SentPersisted(st, ledger, PublishAll(uid, spec, registry, ts, LoopFrom(st, ledger), envs).ledger)
  {
    if ts != [] {
      var n := |ts| - 1;
      DistinctSendsPersisted(uid, spec, registry, ts[..n], st, ledger, envs[..n]);
      CountsThisPass(uid, spec, registry, ts[..n], st, ledger, envs[..n]);
      var before := PublishAll(uid, spec, registry, ts[..n], LoopFrom(st, ledger), envs[..n]);
      assert ts[n] !in ts[..n];
      assert SubAt(before.st, Transport(ts[n])) == SubAt(st, Transport(ts[n]));
      SendsOwnKey(SubAt(before.st, Transport(ts[n])), spec.node,
          RegistrationContent(uid, Transport(ts[n]), spec, registry), before.ledger, envs[n]);
    }
  }

  lemma SendsOwnKey(sub: Submission, at: Name, content: Content, ledger: Ledger, env: Env)
    ensures var l := ReconcileTx(sub, at, content, ledger, env).ledger;
            forall ref <- l.txs :: ref !in ledger.txs || l.txs[ref] != ledger.txs[ref] ==>
              ref !in ledger.txs && ref == (at, sub.key) && sub.key != "" && l.txs[ref].content == content
  {
  }

  /** The record of a transport after a first iteration that could only generate a key. */
  function Keyed(key: Key): (s: Submission) { EMPTY.(status := Submitting, key := key) }

  /** The node answers only in iteration `j`. */
  function AnswerAt(n: nat, j: nat, key: Key, id: TxId): (envs: seq<Env>)
    ensures |envs| == n
  {
    seq(n, i => Env(key, id, if i == j then Ready else Broken, Ready, Delivered, Delivered, Delivered, true))
  }

  /** An iteration that does not reach the node hands out the key, or leaves the one handed out. */
  lemma KeyHandedOut(uid: Uid, spec: Spec, registry: Address, t: Name, loop: Loop, env: Env)
    requires spec.Registration? && loop.st.publish.Some? && env.rpc.Broken? && env.freshKey != ""
    requires SubAt(loop.st, Transport(t)) == EMPTY || SubAt(loop.st, Transport(t)) == Keyed(env.freshKey)
    ensures var l := PublishOne(uid, spec, registry, t, loop, env);
            && l.panicked == loop.panicked && l.ledger == loop.ledger && l.st.publish.Some?
            && forall x :: SubAt(l.st, Transport(x)) == if x == t then Keyed(env.freshKey)
                else SubAt(loop.st, Transport(x))
  {
    var o := ReconcileTx(SubAt(loop.st, Transport(t)), spec.node,
        RegistrationContent(uid, Transport(t), spec, registry), loop.ledger, env);
    assert o.sub == Keyed(env.freshKey) && o.ledger == loop.ledger;
    if o.changed { PublishedSlots(loop.st, t, o.sub); }
  }

  /** Before iteration `j` the loop only hands out the key, once per transport name. */
  lemma {:induction false} KeysOnly(uid: Uid, spec: Spec, registry: Address, m: nat, st: Status, ledger: Ledger,
      j: nat, key: Key, id: TxId)
    requires spec.Registration? && m <= j < |spec.transports| && key != ""
    requires st.publish == Some(map[])
    ensures var ts := spec.transports;
            var l := PublishAll(uid, spec, registry, ts[..m], LoopFrom(st, ledger), AnswerAt(|ts|, j, key, id)[..m]);
            && !l.panicked && l.ledger == ledger && l.st.publish.Some?
            && forall t :: SubAt(l.st, Transport(t)) == if t in ts[..m] then Keyed(key) else EMPTY
  {
    hide PublishOne, Keyed;
    var ts := spec.transports;
    var envs := AnswerAt(|ts|, j, key, id);
    if m > 0 {
      KeysOnly(uid, spec, registry, m - 1, st, ledger, j, key, id);
      assert ts[..m][..m - 1] == ts[..m - 1] && envs[..m][..m - 1] == envs[..m - 1];
      var before := PublishAll(uid, spec, registry, ts[..m - 1], LoopFrom(st, ledger), envs[..m - 1]);
      KeyHandedOut(uid, spec, registry, ts[m - 1], before, envs[m - 1]);
      assert forall t :: t in ts[..m] <==> t in ts[..m - 1] || t == ts[m - 1];
    }
  }

  /** After iteration `j` the nodes are not reached any more. */
  lemma {:induction false} SilentAfter(uid: Uid, spec: Spec, registry: Address, m: nat, st: Status, ledger: Ledger,
      j: nat, key: Key, id: TxId)
    requires spec.Registration? && j < m <= |spec.transports|
    ensures var ts := spec.transports;
            var envs := AnswerAt(|ts|, j, key, id);
            PublishAll(uid, spec, registry, ts[..m], LoopFrom(st, ledger), envs[..m]).ledger ==
            PublishAll(uid, spec, registry, ts[..j + 1], LoopFrom(st, ledger), envs[..j + 1]).ledger
  {
    var ts := spec.transports;
    var envs := AnswerAt(|ts|, j, key, id);
    if m > j + 1 {
      SilentAfter(uid, spec, registry, m - 1, st, ledger, j, key, id);
      assert ts[..m][..m - 1] == ts[..m - 1] && envs[..m][..m - 1] == envs[..m - 1];
      assert envs[m - 1].rpc.Broken?;
    }
  }

  /** A transport listed twice is sent in the pass that made up its key. */
  lemma RepeatSends(uid: Uid, spec: Spec, registry: Address, st: Status, ledger: Ledger, i: nat, j: nat, key: Key,
      id: TxId)
    requires spec.Registration? && i < j < |spec.transports| && spec.transports[i] == spec.transports[j]
    requires key != "" && st.publish == Some(map[]) && (spec.node, key) !in ledger.txs
    ensures PublishAll(uid, spec, registry, spec.transports, LoopFrom(st, ledger),
      AnswerAt(|spec.transports|, j, key, id)).ledger
         == ledger.(txs := ledger.txs[(spec.node, key) := Tx(id,
             RegistrationContent(uid, Transport(spec.transports[j]), spec, registry))])
  {
    var ts := spec.transports;
    var envs := AnswerAt(|ts|, j, key, id);
    KeysOnly(uid, spec, registry, j, st, ledger, j, key, id);
    assert ts[i] in ts[..j];
    assert ts[..j + 1][..j] == ts[..j] && envs[..j + 1][..j] == envs[..j];
    SilentAfter(uid, spec, registry, |ts|, st, ledger, j, key, id);
    assert ts[..|ts|] == ts && envs[..|ts|] == envs;
  }

  /** The loop sends only under persisted keys if and only if no transport is listed twice. */
  lemma PersistedKeysExactly(spec: Spec)
    requires spec.Registration?
    ensures OnlyPersistedKeys(spec) <==> Distinct(spec.transports)
  {
    hide PublishAll, SentPersisted;
    if Distinct(spec.transports) {
      forall uid: Uid, registry: Address, st: Status, ledger: Ledger, envs: seq<Env> | |envs| == |spec.transports| &&
          st.publish.Some?
        ensures SentPersisted(st, ledger,
          PublishAll(uid, spec, registry, spec.transports, LoopFrom(st, ledger), envs).ledger)
      {
        DistinctSendsPersisted(uid, spec, registry, spec.transports, st, ledger, envs);
      }
    } else {
      UnpersistedKeySent(spec);
    }
  }

  lemma UnpersistedKeySent(spec: Spec)
    requires spec.Registration? && !Distinct(spec.transports)
    ensures !OnlyPersistedKeys(spec)
  {
    hide PublishAll;
    var ts := spec.transports;
    var i, j :| 0 <= i < j < |ts| && ts[i] == ts[j];
    var st := INITIAL.(publish := Some(map[]));
    var none := Ledger(map[], map[]);
    RepeatSends(0, spec, "a", st, none, i, j, "k", "x");
    var l := PublishAll(0, spec, "a", ts, LoopFrom(st, none), AnswerAt(|ts|, j, "k", "x")).ledger;
    assert (spec.node, "k") in l.txs;
    assert !SentPersisted(st, none, l);
  }
}
