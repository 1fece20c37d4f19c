/**
 One pass of each of the five CR reconcilers, from the status it read to the status it wants to
 write (the `_controller.go` files of operator/internal/controller). A pass never writes the store itself: it
 yields `Write(status)` for the optimistic status update, or `Rest` when it returns without one
 (waiting, finished, or failed with an error).
 */
module Reconcilers {
  import opened Collections
  import opened Transactions
  import opened Dependencies

  datatype Phase = NoPhase | PhasePending | Available

  /** The status sub-resource; each kind uses the fields its type declares. */
  datatype Status = Status(
    deps: Deps,                                    // deployments and invokes
    tx: Submission,                                // inlined submission, or RegistrationTx
    publish: Option<map<Name, Submission>>,        // PublishTxs: nil until first written
    publishCount: int,
    address: Address,                              // ContractAddress, or a domain's RegistryAddress
    phase: Phase)                                  // registries and domains

  const INITIAL := Status(Deps(Unwritten, map[]), EMPTY, None, 0, "", NoPhase)

  datatype Spec =
    | Deployment(required: seq<Name>, node: Name)
    | Invoke(required: seq<Name>, node: Name)
    | Registration(registry: Name, adminNode: Name, node: Name, transports: seq<Name>)
    | Registry(evm: bool, fixedAddress: Address, deployment: Name)
    | Domain(fixedAddress: Address, deployment: Name)
  {
    predicate Contract() { Deployment? || Invoke? }
  }

  datatype Verdict = Rest | Write(status: Status)

  function SubAt(st: Status, slot: Slot): (s: Submission) {
    match slot
    case Main => st.tx
    case Transport(t) => if st.publish.Some? && t in st.publish.value then st.publish.value[t] else EMPTY
  }

  /** The node a slot's transaction is sent to. */
  function NodeFor(spec: Spec, slot: Slot): (n: Name) {
    match spec
    case Deployment(_, node) => node
    case Invoke(_, node) => node
    case Registration(_, adminNode, node, _) => if slot.Main? then adminNode else node
    case _ => ""
  }

  // ---- SmartContractDeployment and TransactionInvoke ----

  /** A deployment whose transaction succeeded without creating a contract is marked failed. */
  function GrabAddress(spec: Spec, st: Status, receipt: Option<Receipt>): (r: Status) {
    if spec.Deployment? && st.tx.status.Success? && st.address == "" then
      if receipt.None? || receipt.value.contract.None? then
        st.(tx := st.tx.(status := Failed, failure := "transaction did not result in contract deployment"))
      else st.(address := receipt.value.contract.value)
    else st
  }

  function ContractPass(uid: Uid, spec: Spec, st: Status, answers: seq<Lookup>, ledger: Ledger,
      env: Env): (r: (Verdict, Ledger))
    requires spec.Contract() && |answers| == |spec.required|
  {
    var c := CheckDeps(spec.required, answers, st.deps);
    if c.err then (Rest, ledger)
    else if c.changed then (Write(st.(deps := c.deps)), ledger)
    else if !c.ready then (Rest, ledger)
    else
      var o := ReconcileTx(st.tx, spec.node, Content(uid, Main, st.deps.resolved), ledger, env);
      (if o.changed then Write(GrabAddress(spec, st.(tx := o.sub), o.receipt)) else Rest, o.ledger)
  }

  // ---- PaladinRegistration ----

  /** Where a registration pass stands after the registerIdentity transaction. */
  datatype Opening = Stop(verdict: Verdict) | Proceed

  function RegistrationContent(uid: Uid, slot: Slot, spec: Spec, address: Address): (c: Content)
    requires spec.Registration?
  {
    Content(uid, slot, map[spec.registry := address])
  }

  function OpenRegistration(uid: Uid, spec: Spec, st: Status, answer: Lookup, ledger: Ledger,
      env: Env): (r: (Opening, Ledger))
    requires spec.Registration?
  {
    if !answer.Found? || answer.address == "" then (Stop(Rest), ledger)
    else
      var o := ReconcileTx(st.tx, spec.adminNode, RegistrationContent(uid, Main, spec, answer.address), ledger, env);
      if o.changed then
        var publish := if st.publish.None? then Some(map[]) else st.publish;
        (Stop(Write(st.(tx := o.sub, publish := publish, publishCount := 0))), o.ledger)
      else (if o.succeeded then Proceed else Stop(Rest), o.ledger)
  }

  /** The loop variables of a registration pass; `panicked` is an assignment into a nil map. */
  datatype Loop = Loop(st: Status, count: int, changed: bool, panicked: bool, ledger: Ledger)

  function PublishOne(uid: Uid, spec: Spec, registry: Address, t: Name, loop: Loop, env: Env): (r: Loop)
    requires spec.Registration?
  {
    var sub := SubAt(loop.st, Transport(t));
    var o := ReconcileTx(sub, spec.node, RegistrationContent(uid, Transport(t), spec, registry), loop.ledger, env);
    if o.err || !o.changed then loop.(ledger := o.ledger)
    else if loop.st.publish.None? then loop.(ledger := o.ledger, panicked := true)
    else
      loop.(st := loop.st.(publish := Some(loop.st.publish.value[t := o.sub])),
            count := if o.sub.status.Success? then loop.count + 1 else loop.count,
            changed := true,
            ledger := o.ledger)
  }

  function PublishAll(uid: Uid, spec: Spec, registry: Address, transports: seq<Name>, loop: Loop,
      envs: seq<Env>): (r: Loop)
    requires spec.Registration? && |envs| == |transports|
  {
    if transports == [] then loop
    else
      var n := |transports| - 1;
      var before := PublishAll(uid, spec, registry, transports[..n], loop, envs[..n]);
      if before.panicked then before else PublishOne(uid, spec, registry, transports[n], before, envs[n])
  }

  function CloseLoop(loop: Loop): (v: Verdict) {
    if loop.changed then Write(loop.st.(publishCount := loop.count)) else Rest
  }

  function RegistrationPass(uid: Uid, spec: Spec, st: Status, answer: Lookup, ledger: Ledger, env: Env,
      envs: seq<Env>): (r: (Verdict, Ledger, bool))
    requires spec.Registration? && |envs| == |spec.transports|
  {
    var (opening, ledger1) := OpenRegistration(uid, spec, st, answer, ledger, env);
    if opening.Stop? then (opening.verdict, ledger1, false)
    else
      var loop := PublishAll(uid, spec, answer.address, spec.transports, Loop(st, 1, false, false, ledger1), envs);
      (if loop.panicked then Rest else CloseLoop(loop), loop.ledger, loop.panicked)
  }

  // ---- PaladinRegistry and PaladinDomain ----

  function Adopt(st: Status, answer: Lookup): (v: Verdict) {
    if answer.Found? && answer.address != "" then Write(st.(address := answer.address, phase := Available))
    else Rest
  }

  function RegistryPass(spec: Spec, st: Status, answer: Lookup): (v: Verdict)
    requires spec.Registry?
  {
    if !spec.evm then Rest
    else if spec.fixedAddress != "" then
      if st.address != spec.fixedAddress then Write(st.(address := spec.fixedAddress, phase := Available)) else Rest
    else if spec.deployment != "" then
      if st.phase.NoPhase? then Write(st.(phase := PhasePending))
      else if !st.phase.Available? then Adopt(st, answer)
      else Rest
    else Rest
  }

  function DomainPass(spec: Spec, st: Status, answer: Lookup): (v: Verdict)
    requires spec.Domain?
  {
    if st.phase.NoPhase? then Write(st.(phase := PhasePending))
    else if st.phase.PhasePending? then
      if spec.fixedAddress != "" then Write(st.(address := spec.fixedAddress, phase := Available))
      else if spec.deployment != "" then Adopt(st, answer)
      else Rest
    else Rest
  }

  // ---- the passes as the source runs them, updating the CR it read in place ----

  /** A CR as fetched at the start of a pass; `status` is the copy the pass mutates. */
  class Resource {
    const uid: Uid
    const spec: Spec
    var status: Status

    constructor (uid: Uid, spec: Spec, status: Status)
      ensures this.uid == uid && this.spec == spec && this.status == status
    {
      this.uid, this.spec, this.status := uid, spec, status;
    }

    /** SmartContractDeploymentReconciler.Reconcile and TransactionInvokeReconciler.Reconcile. */
    method ReconcileContract(answers: seq<Lookup>, nodes: PaladinNodes, env: Env) returns (update: bool)
      requires spec.Contract() && |answers| == |spec.required|
      modifies this, nodes
      ensures var (v, l) := ContractPass(uid, spec, old(status), answers, old(nodes.ledger), env);
              nodes.ledger == l && (update <==> v.Write?) && (update ==> status == v.status)
    {
      var deps := new ContractDependencies(status.deps);
      var changed, ready, err := deps.CheckSmartContractDeps(spec.required, answers);
      if err {
        return false;
      }
      status := status.(deps := Deps(deps.summary, deps.resolved));
      if changed {
        return true;
      } else if !ready {
        return false;
      }
      var tx := new TransactionReconcile(status.tx);
      err := tx.Reconcile(nodes, spec.node, Content(uid, Main, status.deps.resolved), env);
      status := status.(tx := tx.pStatus);
      if err || !tx.statusChanged {
        return false;
      }
      if spec.Deployment? && status.tx.status.Success? && status.address == "" {
        if tx.receipt.None? || tx.receipt.value.contract.None? {
          status := status.(tx := status.tx.(status := Failed));
          status := status.(tx := status.tx.(failure := "transaction did not result in contract deployment"));
        } else {
          status := status.(address := tx.receipt.value.contract.value);
        }
      }
      return true;
    }

    /** PaladinRegistrationReconciler.Reconcile: the registration, then one transaction per transport. */
    method ReconcileRegistration(answer: Lookup, nodes: PaladinNodes, env: Env, envs: seq<Env>)
      returns (update: bool, panicked: bool)
      requires spec.Registration? && |envs| == |spec.transports|
      modifies this, nodes
      ensures var (v, l, p) := RegistrationPass(uid, spec, old(status), answer, old(nodes.ledger), env, envs);
              && nodes.ledger == l && panicked == p
              && (update <==> v.Write?) && (update ==> status == v.status)
    {
      if !answer.Found? || answer.address == "" {
        return false, false;
      }
      var publishCount := 0;
      var tx := new TransactionReconcile(status.tx);
      var err := tx.Reconcile(nodes, spec.adminNode, RegistrationContent(uid, Main, spec, answer.address), env);
      status := status.(tx := tx.pStatus);
      if err {
        return false, false;
      } else if tx.statusChanged {
        if status.publish.None? {
          status := status.(publish := Some(map[]));
        }
        status := status.(publishCount := publishCount);
        return true, false;
      } else if tx.failed || !tx.succeeded {
        return false, false;
      }
      var changed;
      publishCount, changed, panicked := PublishTransports(answer.address, nodes, envs);
      update := changed && !panicked;
      if update {
        status := status.(publishCount := publishCount);
      }
    }

    /** The loop over the transports, started with the registration counted. */
    method PublishTransports(registry: Address, nodes: PaladinNodes, envs: seq<Env>)
      returns (publishCount: int, changed: bool, panicked: bool)
      requires spec.Registration? && |envs| == |spec.transports|
      modifies this, nodes
      ensures Loop(status, publishCount, changed, panicked, nodes.ledger)
           == PublishAll(uid, spec, registry, spec.transports, Loop(old(status), 1, false, false, old(nodes.ledger)),
               envs)
    {
      publishCount, changed := 1, false;
      ghost var start := Loop(status, 1, false, false, nodes.ledger);
      for i := 0 to |spec.transports|
        invariant PublishAll(uid, spec, registry, spec.transports[..i], start, envs[..i])
               == Loop(status, publishCount, changed, false, nodes.ledger)
      {
        var t := spec.transports[i];
        assert spec.transports[..i + 1][..i] == spec.transports[..i] && envs[..i + 1][..i] == envs[..i];
        var tx := new TransactionReconcile(
          if status.publish.Some? && t in status.publish.value then status.publish.value[t] else EMPTY);
        var err := tx.Reconcile(nodes, spec.node, RegistrationContent(uid, Transport(t), spec, registry), envs[i]);
        if err {
          continue;
        } else if tx.statusChanged {
          if status.publish.None? {
            PanicStays(uid, spec, registry, spec.transports, start, envs, i + 1);
            return publishCount, changed, true;
          }
          status := status.(publish := Some(status.publish.value[t := tx.pStatus]));
          if tx.pStatus.status.Success? {
            publishCount := publishCount + 1;
          }
          changed := true;
        }
      }
      assert spec.transports[..|spec.transports|] == spec.transports && envs[..|envs|] == envs;
      return publishCount, changed, false;
    }

    /** PaladinRegistryReconciler.Reconcile. */
    method ReconcileRegistry(answer: Lookup) returns (update: bool)
      requires spec.Registry?
      modifies this
      ensures var v := RegistryPass(spec, old(status), answer);
              (update <==> v.Write?) && (update ==> status == v.status)
    {
      if !spec.evm {
        return false;
      }
      if spec.fixedAddress != "" {
        if status.address != spec.fixedAddress {
          status := status.(address := spec.fixedAddress);
          status := status.(phase := Available);
          return true;
        }
        return false;
      } else if spec.deployment != "" {
        if status.phase.NoPhase? {
          status := status.(phase := PhasePending);
          return true;
        }
        if !status.phase.Available? {
          update := TrackDeployment(answer);
          return;
        }
      }
      return false;
    }

    /** PaladinDomainReconciler.Reconcile. */
    method ReconcileDomain(answer: Lookup) returns (update: bool)
      requires spec.Domain?
      modifies this
      ensures var v := DomainPass(spec, old(status), answer);
              (update <==> v.Write?) && (update ==> status == v.status)
    {
      if status.phase.NoPhase? {
        status := status.(phase := PhasePending);
        return true;
      } else if status.phase.PhasePending? {
        if spec.fixedAddress != "" {
          status := status.(address := spec.fixedAddress);
          status := status.(phase := Available);
          return true;
        } else if spec.deployment != "" {
          update := TrackDeployment(answer);
          return;
        }
      }
      return false;
    }

    /** trackContractDeploymentAndRequeue: adopt the address of the deployment once it has one. */
    method TrackDeployment(answer: Lookup) returns (update: bool)
      modifies this
      ensures var v := Adopt(old(status), answer);
              (update <==> v.Write?) && status == if update then v.status else old(status)
    {
      if !answer.Found? || answer.address == "" {
        return false;
      }
      status := status.(address := answer.address);
      status := status.(phase := Available);
      return true;
    }
  }

  lemma {:induction false} PanicStays(uid: Uid, spec: Spec, registry: Address, transports: seq<Name>, loop: Loop,
      envs: seq<Env>, i: nat)
    requires spec.Registration? && |envs| == |transports| && i <= |transports|
    requires PublishAll(uid, spec, registry, transports[..i], loop, envs[..i]).panicked
    ensures PublishAll(uid, spec, registry, transports, loop, envs)
         == PublishAll(uid, spec, registry, transports[..i], loop, envs[..i])
  {
    if i == |transports| {
      assert transports[..i] == transports && envs[..i] == envs;
    } else {
      var n := |transports| - 1;
      assert transports[..n][..i] == transports[..i] && envs[..n][..i] == envs[..i];
      PanicStays(uid, spec, registry, transports[..n], loop, envs[..n], i);
    }
  }
}
