/**
 The deployment engine as a transition system: any number of reconcile passes step concurrently
 over a store of CRs and the Paladin nodes.

 A CR keeps every version it ever had: the last one is current, and its index is its
 resourceVersion. A pass may start from any version (a stale read), may be cut off after any step
 (a crash, a lost answer), and its status update takes effect only against the version it read;
 otherwise the conflict is swallowed. An update that changes nothing creates no version.
 */
module Cluster {
  import opened Collections
  import opened Transactions
  import opened Dependencies
  import opened Reconcilers

  datatype Object = Object(name: Name, spec: Spec, live: bool, hist: seq<Status>)

  datatype Stage =
    | Begun
    | Publishing(next: nat, registry: Address, count: int, changed: bool)
    | Updating

  /** A pass in progress: the version it read and the status copy it mutates. */
  datatype Pass = Pass(uid: Uid, base: nat, mem: Status, stage: Stage)

  datatype Cluster = Cluster(
    objects: map<Uid, Object>,
    passes: map<nat, Pass>,
    ledger: Ledger,
    keys: map<Key, (Uid, Slot)>)     // every idempotency key ever generated, and for which slot

  const EMPTY_CLUSTER := Cluster(map[], map[], Ledger(map[], map[]), map[])

  /** A read of another CR: it fails, finds nothing, or returns any version that ever existed. */
  datatype Read = ReadFailed | ReadNothing | ReadVersion(uid: Uid, version: nat)

  datatype Event =
    | Create(uid: Uid, name: Name, spec: Spec)
    | Delete(uid: Uid)
    | Begin(pass: nat, uid: Uid, version: nat)
    | Run(pass: nat, looks: seq<Read>, env: Env)
    | Publish(pass: nat, env: Env)
    | EndLoop(pass: nat)
    | Update(pass: nat)
    | Cut(pass: nat)
    | Mine(id: TxId, receipt: Receipt)

  predicate SameKind(a: Spec, b: Spec) {
    match a
    case Deployment(_, _) => b.Deployment?
    case Invoke(_, _) => b.Invoke?
    case Registration(_, _, _, _) => b.Registration?
    case Registry(_, _, _) => b.Registry?
    case Domain(_, _) => b.Domain?
  }

  /** The names a pass of this spec reads, in order. */
  function ReadNames(spec: Spec): (r: seq<Name>) {
    match spec
    case Deployment(required, _) => required
    case Invoke(required, _) => required
    case Registration(registry, _, _, _) => [registry]
    case Registry(_, _, deployment) => [deployment]
    case Domain(_, deployment) => [deployment]
  }

  /** A registration reads a registry; everything else reads deployments. */
  predicate ReadsKind(spec: Spec, target: Spec) {
    if spec.Registration? then target.Registry? else target.Deployment?
  }

  predicate ReadOk(c: Cluster, spec: Spec, name: Name, r: Read) {
    r.ReadVersion? ==>
      && r.uid in c.objects
      && c.objects[r.uid].name == name
      && ReadsKind(spec, c.objects[r.uid].spec)
      && r.version < |c.objects[r.uid].hist|
  }

  predicate ReadsOk(c: Cluster, spec: Spec, looks: seq<Read>) {
    && |looks| == |ReadNames(spec)|
    && forall i :: 0 <= i < |looks| ==> ReadOk(c, spec, ReadNames(spec)[i], looks[i])
  }

  function Answer(c: Cluster, r: Read): (l: Lookup)
    requires r.ReadVersion? ==> r.uid in c.objects && r.version < |c.objects[r.uid].hist|
  {
    match r
    case ReadFailed => LookupFailed
    case ReadNothing => NotFound
    case ReadVersion(u, v) => Found(c.objects[u].hist[v].address)
  }

  function Answers(c: Cluster, spec: Spec, looks: seq<Read>): (l: seq<Lookup>)
    requires ReadsOk(c, spec, looks)
    ensures |l| == |looks|
    ensures forall i :: 0 <= i < |looks| ==>
      ReadOk(c, spec, ReadNames(spec)[i], looks[i]) && l[i] == Answer(c, looks[i])
  {
    seq(|looks|, i requires 0 <= i < |looks| && ReadOk(c, spec, ReadNames(spec)[i], looks[i]) => Answer(c, looks[i]))
  }

  /** Generated keys never repeat one of another slot, and a node gives each transaction a new id. */
  ghost predicate EnvOk(c: Cluster, uid: Uid, slot: Slot, env: Env) {
    && env.freshKey != "" && (env.freshKey in c.keys ==> c.keys[env.freshKey] == (uid, slot))
    && env.freshId != "" && env.freshId !in c.ledger.receipts
    && forall r <- c.ledger.txs :: c.ledger.txs[r].id != env.freshId
  }

  ghost predicate Enabled(c: Cluster, e: Event) {
    match e
    case Create(uid, name, spec) =>
      && uid !in c.objects
      && forall u <- c.objects ::
           !(c.objects[u].live && c.objects[u].name == name && SameKind(c.objects[u].spec, spec))
    case Delete(uid) => uid in c.objects
    case Begin(p, uid, v) => p !in c.passes && uid in c.objects && v < |c.objects[uid].hist|
    case Run(p, looks, env) =>
      && p in c.passes && c.passes[p].stage.Begun? && c.passes[p].uid in c.objects
      && ReadsOk(c, c.objects[c.passes[p].uid].spec, looks)
      && EnvOk(c, c.passes[p].uid, Main, env)
    case Publish(p, env) =>
      && p in c.passes && c.passes[p].stage.Publishing? && c.passes[p].uid in c.objects
      && c.objects[c.passes[p].uid].spec.Registration?
      && c.passes[p].stage.next < |c.objects[c.passes[p].uid].spec.transports|
      && EnvOk(c, c.passes[p].uid, Transport(c.objects[c.passes[p].uid].spec.transports[c.passes[p].stage.next]), env)
    case EndLoop(p) =>
      && p in c.passes && c.passes[p].stage.Publishing? && c.passes[p].uid in c.objects
      && c.objects[c.passes[p].uid].spec.Registration?
      && c.passes[p].stage.next == |c.objects[c.passes[p].uid].spec.transports|
    case Update(p) =>
      && p in c.passes && c.passes[p].stage.Updating? && c.passes[p].uid in c.objects
      && c.passes[p].base < |c.objects[c.passes[p].uid].hist|
    case Cut(p) => p in c.passes
    case Mine(id, receipt) =>
      && id !in c.ledger.receipts && (exists r <- c.ledger.txs :: c.ledger.txs[r].id == id)
      && receipt.contract != Some("")
  }

  /** Note a key the pass has just put into a slot of its in-memory status. */
  function NoteKey(keys: map<Key, (Uid, Slot)>, uid: Uid, slot: Slot, before: Status, after: Status): (r: map<Key,
      (Uid, Slot)>) {
    var k := SubAt(after, slot).key;
    if k == SubAt(before, slot).key then keys else keys[k := (uid, slot)]
  }

  /** The pass goes on to update the status, or ends. */
  function Settle(c: Cluster, p: nat, verdict: Verdict, ledger: Ledger): (r: Cluster)
    requires p in c.passes
  {
    match verdict
    case Rest => c.(passes := c.passes - {p}, ledger := ledger)
    case Write(st) =>
      c.(passes := c.passes[p := c.passes[p].(mem := st, stage := Updating)],
         ledger := ledger,
         keys := NoteKey(c.keys, c.passes[p].uid, Main, c.passes[p].mem, st))
  }

  function RunPass(c: Cluster, p: nat, looks: seq<Read>, env: Env): (r: Cluster)
    requires p in c.passes && c.passes[p].uid in c.objects
    requires ReadsOk(c, c.objects[c.passes[p].uid].spec, looks)
  {
    var pass := c.passes[p];
    var spec := c.objects[pass.uid].spec;
    var answers := Answers(c, spec, looks);
    match spec
    case Deployment(_, _) =>
      var (v, l) := ContractPass(pass.uid, spec, pass.mem, answers, c.ledger, env);
      Settle(c, p, v, l)
    case Invoke(_, _) =>
      var (v, l) := ContractPass(pass.uid, spec, pass.mem, answers, c.ledger, env);
      Settle(c, p, v, l)
    case Registration(_, _, _, _) =>
      var (o, l) := OpenRegistration(pass.uid, spec, pass.mem, answers[0], c.ledger, env);
      if o.Stop? then Settle(c, p, o.verdict, l)
      else c.(passes := c.passes[p := pass.(stage := Publishing(0, answers[0].address, 1, false))], ledger := l)
    case Registry(_, _, _) => Settle(c, p, RegistryPass(spec, pass.mem, answers[0]), c.ledger)
    case Domain(_, _) => Settle(c, p, DomainPass(spec, pass.mem, answers[0]), c.ledger)
  }

  function PublishNext(c: Cluster, p: nat, env: Env): (r: Cluster)
    requires p in c.passes && c.passes[p].uid in c.objects && c.passes[p].stage.Publishing?
    requires c.objects[c.passes[p].uid].spec.Registration?
    requires c.passes[p].stage.next < |c.objects[c.passes[p].uid].spec.transports|
  {
    var pass := c.passes[p];
    var spec := c.objects[pass.uid].spec;
    var t := spec.transports[pass.stage.next];
    var l := PublishOne(pass.uid, spec, pass.stage.registry, t,
        Loop(pass.mem, pass.stage.count, pass.stage.changed, false, c.ledger), env);
    if l.panicked then c.(passes := c.passes - {p}, ledger := l.ledger)
    else
      c.(passes := c.passes[p := pass.(mem := l.st,
          stage := Publishing(pass.stage.next + 1, pass.stage.registry, l.count, l.changed))],
         ledger := l.ledger,
         keys := NoteKey(c.keys, pass.uid, Transport(t), pass.mem, l.st))
  }

  function UpdateStatus(c: Cluster, p: nat): (r: Cluster)
    requires p in c.passes && c.passes[p].uid in c.objects && c.passes[p].base < |c.objects[c.passes[p].uid].hist|
  {
    var pass := c.passes[p];
    var o := c.objects[pass.uid];
    var rest := c.(passes := c.passes - {p});
    if o.live && pass.base == |o.hist| - 1 && pass.mem != o.hist[pass.base] then
      rest.(objects := c.objects[pass.uid := o.(hist := o.hist + [pass.mem])])
    else rest
  }

  function Next(c: Cluster, e: Event): (r: Cluster)
    requires Enabled(c, e)
  {
    match e
    case Create(uid, name, spec) => c.(objects := c.objects[uid := Object(name, spec, true, [INITIAL])])
    case Delete(uid) => c.(objects := c.objects[uid := c.objects[uid].(live := false)])
    case Begin(p, uid, v) => c.(passes := c.passes[p := Pass(uid, v, c.objects[uid].hist[v], Begun)])
    case Run(p, looks, env) => RunPass(c, p, looks, env)
    case Publish(p, env) => PublishNext(c, p, env)
    case EndLoop(p) =>
      var pass := c.passes[p];
      if pass.stage.changed then
        c.(passes := c.passes[p := pass.(mem := pass.mem.(publishCount := pass.stage.count), stage := Updating)])
      else c.(passes := c.passes - {p})
    case Update(p) => UpdateStatus(c, p)
    case Cut(p) => c.(passes := c.passes - {p})
    case Mine(id, receipt) => c.(ledger := c.ledger.(receipts := c.ledger.receipts[id := receipt]))
  }

  // ---- runs ----

  ghost predicate ValidFrom(c: Cluster, run: seq<Event>)
    decreases |run|
  {
    run == [] || (Enabled(c, run[0]) && ValidFrom(Next(c, run[0]), run[1..]))
  }

  ghost function After(c: Cluster, run: seq<Event>): (r: Cluster)
    requires ValidFrom(c, run)
    decreases |run|
  {
    if run == [] then c else After(Next(c, run[0]), run[1..])
  }

  /** No registration lists the same transport twice. */
  predicate DistinctTransports(spec: Spec) {
    spec.Registration? ==> Distinct(spec.transports)
  }

  predicate AdmissibleRun(run: seq<Event>) {
    forall e <- run :: e.Create? ==> DistinctTransports(e.spec)
  }
}
