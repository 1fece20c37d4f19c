/**
 Every fair run deploys everything. Whatever else happens in it (crashes, lost answers, stale reads,
 conflicting updates, other passes of the same and other CRs in between), a run that keeps giving
 each deployment and invoke one fault-free pass brings them all to Success, within a bound known at
 its start.
 */
module Fairness {
  import opened Collections
  import opened Transactions
  import opened Dependencies
  import opened Reconcilers
  import opened Cluster
  import opened Safety
  import opened Preservation
  import opened Passes
  import opened Guarantees
  import opened Progress

  /** Anything may go wrong except that CRs come or go or a deployment or invoke fails on its node. */
  ghost predicate Calm(c: Cluster, e: Event) {
    match e
    case Create(_, _, _) => false
    case Delete(_) => false
    case Mine(id, receipt) => forall r <- c.ledger.txs :: c.ledger.txs[r].id == id ==>
        GoodReceipt(c, c.ledger.txs[r], receipt)
    case _ => true
  }

  ghost predicate CalmFrom(c: Cluster, run: seq<Event>)
    requires ValidFrom(c, run)
    decreases |run|
  {
    run == [] || (Calm(c, run[0]) && CalmFrom(Next(c, run[0]), run[1..]))
  }

  ghost predicate Scene(c: Cluster, level: Name -> nat, n: nat) {
    Inv(c) && Acyclic(c, level) && NodesSucceed(c) && Bounded(c, n)
  }

  ghost predicate SameObject(a: Object, b: Object) { b.live == a.live && b.spec == a.spec && b.name == a.name }

  /** The work left on `u` never grows, and shrinks whenever `u` is written. */
  ghost predicate CloserFor(c: Cluster, d: Cluster, u: Uid)
    requires u in c.objects && u in d.objects
  {
    && SameObject(c.objects[u], d.objects[u])
    && |c.objects[u].hist| <= |d.objects[u].hist|
    && (Tracked(c.objects[u]) && |c.objects[u].hist| < |d.objects[u].hist| ==> Weight(d, u) < Weight(c, u))
    && (Tracked(c.objects[u]) && Done(c.objects[u]) ==> Done(d.objects[u]))
  }

  ghost predicate Closer(c: Cluster, d: Cluster) {
    && d.objects.Keys == c.objects.Keys
    && (forall u <- c.objects :: CloserFor(c, d, u))
    && (forall u: Uid :: Weight(d, u) <= Weight(c, u))
  }

  lemma CloserSelf(c: Cluster)
    ensures Closer(c, c)
  {
  }

  lemma CloserThrough(b: Cluster, c: Cluster, d: Cluster)
    requires Closer(b, c) && Closer(c, d)
    ensures Closer(b, d)
  {
    hide Weight, Done, Tracked;
    forall u | u in b.objects ensures CloserFor(b, d, u) {
      assert CloserFor(b, c, u) && CloserFor(c, d, u);
      SameTracking(b.objects[u], c.objects[u]);
    }
  }

  lemma SameTracking(a: Object, b: Object)
    requires a.live == b.live && a.spec == b.spec
    ensures Tracked(a) <==> Tracked(b)
  {
  }

  // ---- one event ----

  /** Only an update adds a version, one and to one CR, and it leaves the nodes alone. */
  ghost predicate AtMostOneVersion(c: Cluster, d: Cluster) {
    && d.objects.Keys == c.objects.Keys
    && (forall u <- c.objects ::
          && d.objects[u].live == c.objects[u].live && d.objects[u].spec == c.objects[u].spec &&
              d.objects[u].name == c.objects[u].name
          && (d.objects[u].hist == c.objects[u].hist ||
              (|d.objects[u].hist| == |c.objects[u].hist| + 1 &&
                  d.objects[u].hist[..|c.objects[u].hist|] == c.objects[u].hist)))
    && (forall id <- c.ledger.receipts :: id in d.ledger.receipts)
  }

  lemma EventAdds(c: Cluster, e: Event)
    requires Enabled(c, e) && Calm(c, e)
    ensures AtMostOneVersion(c, Next(c, e))
  {
    hide RunPass, PublishNext, ReadsOk, EnvOk;
    match e {
      case Run(p, looks, env) => RunAdds(c, p, looks, env);
      case Publish(p, env) => PublishAdds(c, p, env);
      case Update(p) => UpdateAdds(c, p);
      case _ =>
    }
  }

  lemma UpdateAdds(c: Cluster, p: nat)
    requires p in c.passes && c.passes[p].uid in c.objects && c.passes[p].base < |c.objects[c.passes[p].uid].hist|
    ensures AtMostOneVersion(c, UpdateStatus(c, p))
  {
  }

  lemma RunAdds(c: Cluster, p: nat, looks: seq<Read>, env: Env)
    requires p in c.passes && c.passes[p].uid in c.objects && ReadsOk(c, c.objects[c.passes[p].uid].spec, looks)
    ensures RunPass(c, p, looks, env).objects == c.objects
    ensures RunPass(c, p, looks, env).ledger.receipts == c.ledger.receipts
  {
    hide Answers, CheckDeps, ReconcileTx, GrabAddress;
    var pass := c.passes[p];
    var spec := c.objects[pass.uid].spec;
    if spec.Contract() {
      PassReceipts(pass.uid, spec, pass.mem, Answers(c, spec, looks), c.ledger, env);
    } else if spec.Registration? {
      OpenReceipts(pass.uid, spec, pass.mem, Answers(c, spec, looks)[0], c.ledger, env);
    }
  }

  lemma OpenReceipts(uid: Uid, spec: Spec, st: Status, answer: Lookup, ledger: Ledger, env: Env)
    requires spec.Registration?
    ensures OpenRegistration(uid, spec, st, answer, ledger, env).1.receipts == ledger.receipts
  {
    hide ReconcileTx;
    if answer.Found? && answer.address != "" {
      SameReceipts(st.tx, spec.adminNode, RegistrationContent(uid, Main, spec, answer.address), ledger, env);
    }
  }

  lemma PublishAdds(c: Cluster, p: nat, env: Env)
    requires p in c.passes && c.passes[p].uid in c.objects && c.passes[p].stage.Publishing?
    requires c.objects[c.passes[p].uid].spec.Registration?
    requires c.passes[p].stage.next < |c.objects[c.passes[p].uid].spec.transports|
    ensures PublishNext(c, p, env).objects == c.objects && PublishNext(c, p, env).ledger.receipts == c.ledger.receipts
  {
    hide ReconcileTx;
    var pass := c.passes[p];
    var spec := c.objects[pass.uid].spec;
    var t := spec.transports[pass.stage.next];
    SameReceipts(SubAt(pass.mem, Transport(t)), spec.node,
        RegistrationContent(pass.uid, Transport(t), spec, pass.stage.registry), c.ledger, env);
  }

  /** One version more of a deployment or invoke is a step up, never a step back. */
  lemma VersionLowers(c: Cluster, d: Cluster, u: Uid)
    requires Inv(c) && Inv(d) && AtMostOneVersion(c, d) && u in c.objects && Tracked(c.objects[u])
    ensures Weight(d, u) <= Weight(c, u) && CloserFor(c, d, u)
  {
    hide Inv, Remaining, Shape;
    NonEmpty(c, u);
    NonEmpty(d, u);
    var h := d.objects[u].hist;
    if h != c.objects[u].hist {
      LastTwo(d, u);
      assert h[|h| - 2] == h[..|h| - 1][|h| - 2] == Last(c.objects[u]);
      OneStepDrops(c.objects[u].spec, Last(c.objects[u]), Last(d.objects[u]));
      assert Evolves(SubAt(Last(c.objects[u]), Main), SubAt(Last(d.objects[u]), Main));
    }
  }

  lemma EventCloser(c: Cluster, e: Event)
    requires Inv(c) && Enabled(c, e) && Calm(c, e)
    ensures Inv(Next(c, e)) && Extends(c, Next(c, e)) && Closer(c, Next(c, e))
  {
    hide Inv, Enabled, Next, Extends, Weight, Done, Calm, GoodReceipt;
    var d := Next(c, e);
    assert !e.Create? by { NoCreate(c, e); }
    NextKeeps(c, e);
    EventAdds(c, e);
    forall u: Uid ensures Weight(d, u) <= Weight(c, u) && (u in c.objects ==> CloserFor(c, d, u)) {
      if u in c.objects && Tracked(c.objects[u]) { VersionLowers(c, d, u); } else { Weightless(c, d, u); }
    }
  }

  lemma NoCreate(c: Cluster, e: Event)
    requires Calm(c, e)
    ensures !e.Create? && !e.Delete?
  {
  }

  lemma Weightless(c: Cluster, d: Cluster, u: Uid)
    requires AtMostOneVersion(c, d) && (u !in c.objects || !Tracked(c.objects[u]))
    ensures Weight(d, u) == Weight(c, u) == 0
  {
  }

  /** Every transaction that has a receipt in `m` is an older one, with its receipt, in `l`. */
  ghost predicate NoNewReceipt(l: Ledger, m: Ledger) {
    forall r <- m.txs :: m.txs[r].id in m.receipts ==>
      && r in l.txs && m.txs[r] == l.txs[r]
      && m.txs[r].id in l.receipts && m.receipts[m.txs[r].id] == l.receipts[m.txs[r].id]
  }

  lemma TxNodes(sub: Submission, at: Name, content: Content, ledger: Ledger, env: Env)
    requires env.freshId !in ledger.receipts
    ensures NoNewReceipt(ledger, ReconcileTx(sub, at, content, ledger, env).ledger)
  {
  }

  lemma NodesFrom(c: Cluster, d: Cluster)
    requires NodesSucceed(c) && NoNewReceipt(c.ledger, d.ledger) && AtMostOneVersion(c, d)
    ensures NodesSucceed(d)
  {
    forall r | r in d.ledger.txs && d.ledger.txs[r].id in d.ledger.receipts
      ensures GoodReceipt(d, d.ledger.txs[r], d.ledger.receipts[d.ledger.txs[r].id])
    {
      assert GoodReceipt(c, c.ledger.txs[r], c.ledger.receipts[c.ledger.txs[r].id]);
    }
  }

  lemma NoneNew(l: Ledger)
    ensures NoNewReceipt(l, l)
  {
  }

  lemma RunNodes(c: Cluster, p: nat, looks: seq<Read>, env: Env)
    requires p in c.passes && c.passes[p].uid in c.objects && ReadsOk(c, c.objects[c.passes[p].uid].spec, looks)
    requires env.freshId !in c.ledger.receipts
    ensures NoNewReceipt(c.ledger, RunPass(c, p, looks, env).ledger)
  {
    hide Answers, CheckDeps, ReconcileTx, GrabAddress, NoNewReceipt;
    var pass := c.passes[p];
    var spec := c.objects[pass.uid].spec;
    var answers := Answers(c, spec, looks);
    NoneNew(c.ledger);
    if spec.Contract() {
      TxNodes(pass.mem.tx, spec.node, Content(pass.uid, Main, pass.mem.deps.resolved), c.ledger, env);
    } else if spec.Registration? {
      TxNodes(pass.mem.tx, spec.adminNode, RegistrationContent(pass.uid, Main, spec, AddressIn(answers[0])), c.ledger,
          env);
    }
  }

  function AddressIn(l: Lookup): Address { if l.Found? then l.address else "" }

  lemma PublishNodes(c: Cluster, p: nat, env: Env)
    requires p in c.passes && c.passes[p].uid in c.objects && c.passes[p].stage.Publishing?
    requires c.objects[c.passes[p].uid].spec.Registration?
    requires c.passes[p].stage.next < |c.objects[c.passes[p].uid].spec.transports|
    requires env.freshId !in c.ledger.receipts
    ensures NoNewReceipt(c.ledger, PublishNext(c, p, env).ledger)
  {
    hide ReconcileTx, NoNewReceipt;
    var pass := c.passes[p];
    var spec := c.objects[pass.uid].spec;
    var t := spec.transports[pass.stage.next];
    TxNodes(SubAt(pass.mem, Transport(t)), spec.node,
        RegistrationContent(pass.uid, Transport(t), spec, pass.stage.registry), c.ledger, env);
  }

  lemma LedgerStays(c: Cluster, e: Event)
    requires Enabled(c, e) && !e.Mine?
    ensures NoNewReceipt(c.ledger, Next(c, e).ledger)
  {
    hide RunPass, PublishNext, ReadsOk, NoNewReceipt;
    NoneNew(c.ledger);
    match e {
      case Run(p, looks, env) => RunNodes(c, p, looks, env);
      case Publish(p, env) => PublishNodes(c, p, env);
      case _ =>
    }
  }

  lemma MineNodes(c: Cluster, id: TxId, receipt: Receipt)
    requires NodesSucceed(c) && Calm(c, Mine(id, receipt))
    ensures NodesSucceed(c.(ledger := c.ledger.(receipts := c.ledger.receipts[id := receipt])))
  {
    var d := c.(ledger := c.ledger.(receipts := c.ledger.receipts[id := receipt]));
    forall r | r in d.ledger.txs && d.ledger.txs[r].id in d.ledger.receipts
      ensures GoodReceipt(d, d.ledger.txs[r], d.ledger.receipts[d.ledger.txs[r].id])
    {
      if c.ledger.txs[r].id != id {
        assert GoodReceipt(c, c.ledger.txs[r], c.ledger.receipts[c.ledger.txs[r].id]);
      }
    }
  }

  lemma EventNodes(c: Cluster, e: Event)
    requires Enabled(c, e) && Calm(c, e) && NodesSucceed(c)
    ensures NodesSucceed(Next(c, e))
  {
    hide NodesSucceed, GoodReceipt, NoNewReceipt, Calm, AtMostOneVersion, RunPass, PublishNext, UpdateStatus, EnvOk,
         ReadsOk;
    if e.Mine? {
      MineNodes(c, e.id, e.receipt);
    } else {
      EventAdds(c, e);
      LedgerStays(c, e);
      NodesFrom(c, Next(c, e));
    }
  }

  // ---- any number of events ----

  lemma {:induction false} RunCloser(c: Cluster, level: Name -> nat, n: nat, run: seq<Event>)
    requires Scene(c, level, n) && ValidFrom(c, run) && CalmFrom(c, run)
    ensures Scene(After(c, run), level, n) && Closer(c, After(c, run)) && Extends(c, After(c, run))
    decreases |run|
  {
    hide Inv, Enabled, Next, Acyclic, NodesSucceed, Bounded, Closer, Extends, Calm;
    if run == [] {
      CloserSelf(c);
      Unchanged(c);
    } else {
      var d := Next(c, run[0]);
      EventCloser(c, run[0]);
      EventNodes(c, run[0]);
      SceneStays(c, d, level, n);
      RunCloser(d, level, n, run[1..]);
      CloserThrough(c, d, After(c, run));
      ExtendsThrough(c, d, After(c, run));
    }
  }

  lemma SceneStays(c: Cluster, d: Cluster, level: Name -> nat, n: nat)
    requires Acyclic(c, level) && Bounded(c, n) && Extends(c, d) && Closer(c, d)
    ensures Acyclic(d, level) && Bounded(d, n)
  {
    hide Acyclic, Extends, Weight, Done, Tracked;
    assert forall u <- c.objects :: CloserFor(c, d, u);
    ScenarioStays(c, d, level);
  }

  // ---- fair rounds ----

  /** The read returns the current version of a live deployment of that name. */
  ghost predicate UpToDate(c: Cluster, d: Name, r: Read) {
    r.ReadVersion? && LiveDeployment(c, r.uid, d) && c.objects[r.uid].hist != [] &&
        r.version == |c.objects[r.uid].hist| - 1
  }

  /** The pass an event belongs to. */
  function PassOf(e: Event): (p: Option<nat>) {
    match e
    case Begin(p, _, _) => Some(p)
    case Run(p, _, _) => Some(p)
    case Publish(p, _) => Some(p)
    case EndLoop(p) => Some(p)
    case Update(p) => Some(p)
    case Cut(p) => Some(p)
    case _ => None
  }

  /** Run on `u` without a fault: reads up to date, and its transaction mined if it had been submitted. */
  ghost predicate Clean(c: Cluster, u: Uid, e: Event) {
    && e.Run? && FaultFree(e.env)
    && u in c.objects && c.objects[u].spec.Contract() && c.objects[u].hist != []
    && |e.looks| == |c.objects[u].spec.required|
    && (forall i :: 0 <= i < |e.looks| ==> UpToDate(c, c.objects[u].spec.required[i], e.looks[i]))
    && (Last(c.objects[u]).tx.status.Pending? ==> Last(c.objects[u]).tx.txId in c.ledger.receipts)
  }

  /**
   A pass over `u` begins at i from its current version, runs cleanly at j and, if it wants to update
   the status, does so at k; no other event of that pass comes between. Anything else may.
   */
  ghost predicate ServedAt(c: Cluster, u: Uid, run: seq<Event>, i: nat, j: nat, k: nat)
    requires ValidFrom(c, run) && i < j < k <= |run|
  {
    && ValidFrom(c, run[..i]) && ValidFrom(c, run[..j]) && ValidFrom(c, run[..j + 1])
    && u in After(c, run[..i]).objects && After(c, run[..i]).objects[u].hist != []
    && run[j].Run? && run[i].Begin?
    && run[i] == Begin(run[j].pass, u, |After(c, run[..i]).objects[u].hist| - 1)
    && Clean(After(c, run[..j]), u, run[j])
    && (forall m :: i < m < k && m != j ==> PassOf(run[m]) != Some(run[j].pass))
    && (run[j].pass in After(c, run[..j + 1]).passes ==> k < |run| && run[k] == Update(run[j].pass))
  }

  /** By the end of the run, `u` is finished or has been served. */
  ghost predicate ServedDuring(c: Cluster, u: Uid, run: seq<Event>)
    requires ValidFrom(c, run)
  {
    || (u in After(c, run).objects && Done(After(c, run).objects[u]))
    || exists i: nat, j: nat, k: nat :: i < j < k <= |run| && ServedAt(c, u, run, i, j, k)
  }

  /** A calm run that serves every live deployment and invoke. */
  ghost predicate Round(c: Cluster, run: seq<Event>) {
    && ValidFrom(c, run) && CalmFrom(c, run)
    && forall u <- c.objects :: Tracked(c.objects[u]) ==> ServedDuring(c, u, run)
  }

  lemma {:induction false} SplitAt(c: Cluster, run: seq<Event>, i: nat)
    requires ValidFrom(c, run) && i <= |run|
    ensures ValidFrom(c, run[..i]) && ValidFrom(After(c, run[..i]), run[i..])
    ensures After(c, run) == After(After(c, run[..i]), run[i..])
    ensures CalmFrom(c, run) ==> CalmFrom(c, run[..i]) && CalmFrom(After(c, run[..i]), run[i..])
    decreases |run|
  {
    hide Enabled, Next, Calm;
    if i == 0 {
      assert run[..0] == [] && run[0..] == run;
    } else {
      SplitAt(Next(c, run[0]), run[1..], i - 1);
      assert run[1..][..i - 1] == run[..i][1..] && run[1..][i - 1..] == run[i..];
    }
  }

  /** An up-to-date read of a finished deployment finds its address. */
  lemma ReadFinds(c: Cluster, u: Uid, d: Name, r: Read)
    requires Inv(c) && Eligible(c, u) && d in c.objects[u].spec.required && UpToDate(c, d, r)
    ensures ReadOk(c, c.objects[u].spec, d, r) && Answer(c, r).Found? && Answer(c, r).address != ""
  {
    hide PassOk, LedgerOk, SubOk, DeployedAt;
    assert Done(c.objects[r.uid]);
    assert ObjectOk(c, r.uid) && VersionOk(c, r.uid, Last(c.objects[r.uid]));
  }

  /** An event of another pass leaves a pass alone. */
  lemma OtherPass(c: Cluster, e: Event, p: nat)
    requires Enabled(c, e) && p in c.passes && PassOf(e) != Some(p)
    ensures p in Next(c, e).passes && Next(c, e).passes[p] == c.passes[p]
  {
    hide ReadsOk, EnvOk, ContractPass, OpenRegistration, RegistryPass, DomainPass, PublishOne, Answers;
  }

  lemma {:induction false} PassWaits(c: Cluster, run: seq<Event>, p: nat)
    requires ValidFrom(c, run) && p in c.passes && forall m :: 0 <= m < |run| ==> PassOf(run[m]) != Some(p)
    ensures p in After(c, run).passes && After(c, run).passes[p] == c.passes[p]
    decreases |run|
  {
    hide Enabled, Next, PassOf;
    if run != [] {
      OtherPass(c, run[0], p);
      PassWaits(Next(c, run[0]), run[1..], p);
    }
  }

  /** Between positions a and b of a run. */
  lemma Stretch(c: Cluster, run: seq<Event>, a: nat, b: nat)
    requires ValidFrom(c, run) && a <= b <= |run|
    ensures ValidFrom(c, run[..a]) && ValidFrom(c, run[..b]) && ValidFrom(After(c, run[..a]), run[a..b])
    ensures After(c, run[..b]) == After(After(c, run[..a]), run[a..b])
    ensures CalmFrom(c, run) ==>
      CalmFrom(c, run[..a]) && CalmFrom(c, run[..b]) && CalmFrom(After(c, run[..a]), run[a..b])
  {
    hide ValidFrom, After, CalmFrom;
    SplitAt(c, run, b);
    SplitAt(c, run[..b], a);
    assert run[..b][..a] == run[..a] && run[..b][a..] == run[a..b];
  }

  lemma OneEvent(c: Cluster, run: seq<Event>, a: nat)
    requires ValidFrom(c, run) && a < |run|
    ensures ValidFrom(c, run[..a]) && ValidFrom(c, run[..a + 1])
    ensures Enabled(After(c, run[..a]), run[a]) && After(c, run[..a + 1]) == Next(After(c, run[..a]), run[a])
  {
    hide Enabled, Next;
    Stretch(c, run, a, a + 1);
    assert run[a..a + 1] == [run[a]] && [run[a]][1..] == [];
  }

  /** The reads of a clean run on a CR whose required deployments are finished all find addresses. */
  lemma CleanReads(c: Cluster, u: Uid, e: Event)
    requires Inv(c) && Eligible(c, u) && Clean(c, u, e)
    ensures ReadsOk(c, c.objects[u].spec, e.looks)
    ensures forall a <- Answers(c, c.objects[u].spec, e.looks) :: a.Found? && a.address != ""
  {
    hide Inv, FaultFree;
    var spec := c.objects[u].spec;
    forall i | 0 <= i < |e.looks|
      ensures ReadOk(c, spec, spec.required[i], e.looks[i])
      ensures Answer(c, e.looks[i]).Found? && Answer(c, e.looks[i]).address != ""
    {
      ReadFinds(c, u, spec.required[i], e.looks[i]);
    }
  }

  /** A clean run from the current version of an eligible CR wants to write a new version. */
  lemma CleanWrites(c: Cluster, level: Name -> nat, n: nat, u: Uid, e: Event)
    requires Scene(c, level, n) && Eligible(c, u) && Clean(c, u, e) && Enabled(c, e)
    requires e.pass in c.passes && c.passes[e.pass] == Pass(u, |c.objects[u].hist| - 1, Last(c.objects[u]), Begun)
    ensures var d := Next(c, e);
      && e.pass in d.passes && d.passes[e.pass].stage.Updating? && d.passes[e.pass].uid == u
      && d.passes[e.pass].base == |c.objects[u].hist| - 1 && d.passes[e.pass].mem != Last(c.objects[u])
  {
    hide Inv, Acyclic, NodesSucceed, Bounded, ContractPass, EnvOk, Answers, Eligible, FaultFree, ReadsOk;
    EligibleTracked(c, u);
    CleanReads(c, u, e);
    EnvFacts(c, e);
    Advance(c, level, u, Answers(c, c.objects[u].spec, e.looks), e.env);
  }

  lemma EnvFacts(c: Cluster, e: Event)
    requires Enabled(c, e) && e.Run?
    ensures e.env.freshKey != ""
  {
  }

  /** Updating the current version with something else adds a version. */
  lemma UpdateAppends(c: Cluster, u: Uid, p: nat)
    requires Enabled(c, Update(p)) && c.passes[p].uid == u && c.objects[u].live
    requires c.passes[p].base == |c.objects[u].hist| - 1 && c.passes[p].mem != Last(c.objects[u])
    ensures u in Next(c, Update(p)).objects && |Next(c, Update(p)).objects[u].hist| == |c.objects[u].hist| + 1
  {
  }

  lemma SameLength(c: Cluster, d: Cluster, u: Uid)
    requires Extends(c, d) && u in c.objects && u in d.objects && |d.objects[u].hist| == |c.objects[u].hist|
    ensures d.objects[u].hist == c.objects[u].hist
  {
  }

  /** As long as `u` is not written, a CR next in line is still next in line, with the same version. */
  lemma Unwritten(c: Cluster, d: Cluster, u: Uid)
    requires Closer(c, d) && Extends(c, d) && Eligible(c, u) && u in d.objects &&
      |d.objects[u].hist| == |c.objects[u].hist|
    ensures d.objects[u].hist == c.objects[u].hist && Eligible(d, u) && d.objects[u].live
  {
    hide Weight, Extends;
    SameLength(c, d, u);
    assert CloserFor(c, d, u);
    EligibleStays(c, d, u);
  }

  /** The version of `u` at three moments of a run that does not write it. */
  lemma LengthBetween(c: Cluster, level: Name -> nat, n: nat, u: Uid, run: seq<Event>, a: nat)
    requires Scene(c, level, n) && ValidFrom(c, run) && CalmFrom(c, run) && Eligible(c, u) && a <= |run|
    requires u in After(c, run).objects && |After(c, run).objects[u].hist| == |c.objects[u].hist|
    ensures ValidFrom(c, run[..a])
    ensures var d := After(c, run[..a]);
      Scene(d, level, n) && u in d.objects && d.objects[u].hist == c.objects[u].hist && Eligible(d, u) &&
          d.objects[u].live
  {
    hide Inv, Acyclic, NodesSucceed, Bounded, Extends, Eligible, Enabled, Next, ValidFrom, After, CalmFrom, CloserFor;
    SplitAt(c, run, a);
    var d := After(c, run[..a]);
    RunCloser(c, level, n, run[..a]);
    RunCloser(d, level, n, run[a..]);
    EligibleTracked(c, u);
    Lengths(c, d, u);
    Lengths(d, After(c, run), u);
    Unwritten(c, d, u);
  }

  lemma Lengths(c: Cluster, d: Cluster, u: Uid)
    requires Closer(c, d) && u in c.objects
    ensures u in d.objects && |c.objects[u].hist| <= |d.objects[u].hist|
  {
    hide Weight;
    assert CloserFor(c, d, u);
  }

  /** A CR whose required deployments are finished is written in a run that serves it. */
  lemma ServedWrites(c: Cluster, level: Name -> nat, n: nat, u: Uid, run: seq<Event>, i: nat, j: nat, k: nat)
    requires Scene(c, level, n) && ValidFrom(c, run) && CalmFrom(c, run) && Eligible(c, u)
    requires i < j < k <= |run| && ServedAt(c, u, run, i, j, k)
    ensures u in After(c, run).objects && |After(c, run).objects[u].hist| > |c.objects[u].hist|
  {
    hide Scene, Extends, Eligible, Enabled, Next, ValidFrom, After, CalmFrom, Closer, Clean, PassOf;
    RunCloser(c, level, n, run);
    EligibleTracked(c, u);
    Lengths(c, After(c, run), u);
    if |After(c, run).objects[u].hist| == |c.objects[u].hist| {
      PassUpdating(c, level, n, u, run, i, j, k);
      OneEvent(c, run, k);
      LengthBetween(c, level, n, u, run, k);
      LengthBetween(c, level, n, u, run, k + 1);
      UpdateAppends(After(c, run[..k]), u, run[j].pass);
    }
  }

  /** If `u` is never written, the pass that serves it arrives at its update with a new version. */
  lemma PassUpdating(c: Cluster, level: Name -> nat, n: nat, u: Uid, run: seq<Event>, i: nat, j: nat, k: nat)
    requires Scene(c, level, n) && ValidFrom(c, run) && CalmFrom(c, run) && Eligible(c, u)
    requires i < j < k <= |run| && ServedAt(c, u, run, i, j, k)
    requires u in After(c, run).objects && |After(c, run).objects[u].hist| == |c.objects[u].hist|
    ensures k < |run| && run[k] == Update(run[j].pass) && ValidFrom(c, run[..k])
    ensures var s, p := After(c, run[..k]), run[j].pass;
      && p in s.passes && s.passes[p].uid == u && s.passes[p].base == |c.objects[u].hist| - 1
      && u in c.objects && c.objects[u].hist != [] && s.passes[p].mem != Last(c.objects[u])
  {
    hide Scene, Extends, Eligible, Enabled, Next, ValidFrom, After, CalmFrom, Closer, Clean, PassOf;
    var p := run[j].pass;
    EligibleTracked(c, u);
    LengthBetween(c, level, n, u, run, i);
    LengthBetween(c, level, n, u, run, j);
    var s := After(c, run[..j]);
    OneEvent(c, run, i);
    BeginsPass(After(c, run[..i]), run[i]);
    Stretch(c, run, i + 1, j);
    PassWaits(After(c, run[..i + 1]), run[i + 1..j], p);
    OneEvent(c, run, j);
    CleanWrites(s, level, n, u, run[j]);
    Stretch(c, run, j + 1, k);
    PassWaits(After(c, run[..j + 1]), run[j + 1..k], p);
  }

  lemma BeginsPass(c: Cluster, e: Event)
    requires Enabled(c, e) && e.Begin?
    ensures e.uid in c.objects && e.version < |c.objects[e.uid].hist|
    ensures e.pass in Next(c, e).passes &&
      Next(c, e).passes[e.pass] == Pass(e.uid, e.version, c.objects[e.uid].hist[e.version], Begun)
  {
  }

  /** Being next in line lasts until the CR has moved. */
  lemma EligibleStays(c: Cluster, d: Cluster, u: Uid)
    requires Closer(c, d) && Eligible(c, u) && u in d.objects && !Done(d.objects[u])
    ensures Eligible(d, u)
  {
    hide Weight, Done;
    assert CloserFor(c, d, u);
    forall w, n | n in d.objects[u].spec.required && LiveDeployment(d, w, n) ensures Done(d.objects[w]) {
      assert CloserFor(c, d, w);
      assert LiveDeployment(c, w, n);
    }
  }

  lemma DoneWeighsLess(c: Cluster, d: Cluster, level: Name -> nat, n: nat, u: Uid)
    requires Scene(c, level, n) && Scene(d, level, n) && Closer(c, d) && Eligible(c, u) && u in d.objects &&
      Done(d.objects[u])
    ensures Weight(d, u) < Weight(c, u)
  {
    hide Acyclic, Bounded, Inv, Eligible, Done, NodesSucceed, Weight;
    EligibleTracked(c, u);
    assert CloserFor(c, d, u);
    SameTracking(c.objects[u], d.objects[u]);
    WeightDone(d, u);
    WeightUndone(c, level, u);
  }

  lemma WeightDone(d: Cluster, u: Uid)
    requires Inv(d) && u in d.objects && Tracked(d.objects[u]) && Done(d.objects[u])
    ensures Weight(d, u) == 0
  {
    hide PassOk, LedgerOk, SubOk, DeployedAt;
    assert ObjectOk(d, u) && VersionOk(d, u, Last(d.objects[u]));
    CoherentMain(d, u);
    assert |Last(d.objects[u]).deps.resolved| == |d.objects[u].spec.required|;
  }

  lemma WeightUndone(c: Cluster, level: Name -> nat, u: Uid)
    requires Inv(c) && Acyclic(c, level) && NodesSucceed(c) && Eligible(c, u)
    ensures Weight(c, u) > 0
  {
    hide Inv, Acyclic, NodesSucceed, Remaining, Shape, Coherent;
    NonEmpty(c, u);
    NextFacts(c, level, u);
    RemainingNonNegative(c.objects[u].spec, Last(c.objects[u]));
  }

  /** Every round lowers the work left, as long as there is any. */
  lemma RoundLowers(c: Cluster, level: Name -> nat, n: nat, run: seq<Event>)
    requires Scene(c, level, n) && Round(c, run) && !AllDone(c)
    ensures Scene(After(c, run), level, n) && Closer(c, After(c, run)) && Total(After(c, run), n) < Total(c, n)
  {
    hide Inv, Acyclic, NodesSucceed, AllDone, CalmFrom, Total, Eligible, Enabled, Next, ValidFrom, After, Done,
         Weight, Extends, ServedAt;
    RunCloser(c, level, n, run);
    var u := SomeNext(c, level);
    EligibleTracked(c, u);
    var d := After(c, run);
    assert CloserFor(c, d, u);
    if Done(d.objects[u]) {
      DoneWeighsLess(c, d, level, n, u);
    } else {
      var i: nat, j: nat, k: nat :| i < j < k <= |run| && ServedAt(c, u, run, i, j, k);
      ServedWrites(c, level, n, u, run, i, j, k);
    }
    TotalDrops(c, d, n, u);
  }

  lemma EligibleTracked(c: Cluster, u: Uid)
    requires Eligible(c, u)
    ensures u in c.objects && Tracked(c.objects[u]) && !Done(c.objects[u])
  {
  }

  // ---- fair runs ----

  ghost predicate FairRun(c: Cluster, rounds: seq<seq<Event>>)
    decreases |rounds|
  {
    rounds == [] || (Round(c, rounds[0]) && FairRun(After(c, rounds[0]), rounds[1..]))
  }

  ghost function AfterRounds(c: Cluster, rounds: seq<seq<Event>>): (d: Cluster)
    requires FairRun(c, rounds)
    decreases |rounds|
  {
    if rounds == [] then c else AfterRounds(After(c, rounds[0]), rounds[1..])
  }

  lemma DoneStays(c: Cluster, d: Cluster)
    requires Closer(c, d) && AllDone(c)
    ensures AllDone(d)
  {
    hide Weight, Done;
    forall u | u in d.objects && Tracked(d.objects[u]) ensures Done(d.objects[u]) {
      assert CloserFor(c, d, u);
    }
  }

  lemma {:induction false} RoundsFinish(c: Cluster, level: Name -> nat, n: nat, rounds: seq<seq<Event>>)
    requires Scene(c, level, n) && FairRun(c, rounds) && (AllDone(c) || |rounds| >= Total(c, n))
    ensures AllDone(AfterRounds(c, rounds))
    decreases |rounds|
  {
    hide AllDone, Total, CalmFrom, ValidFrom, After, Closer, Inv, Acyclic, NodesSucceed, Bounded;
    TotalNonNegative(c, n);
    if rounds == [] {
      if !AllDone(c) { WorkLeft(c, level, n); }
    } else {
      var d := After(c, rounds[0]);
      if AllDone(c) {
        RunCloser(c, level, n, rounds[0]);
        DoneStays(c, d);
      } else {
        RoundLowers(c, level, n, rounds[0]);
      }
      RoundsFinish(d, level, n, rounds[1..]);
    }
  }

  /** An unfinished CR leaves some weight. */
  lemma WorkLeft(c: Cluster, level: Name -> nat, n: nat)
    requires Scene(c, level, n) && !AllDone(c)
    ensures Total(c, n) > 0
  {
    hide Inv, Acyclic, NodesSucceed, AllDone, Weight;
    var u := SomeNext(c, level);
    WeightUndone(c, level, u);
    TotalCovers(c, n, u);
  }

  lemma {:induction false} TotalCovers(c: Cluster, n: nat, u: Uid)
    requires Inv(c) && u < n
    ensures Total(c, n) >= Weight(c, u)
  {
    hide Inv, Weight;
    if u == n - 1 { TotalNonNegative(c, n - 1); } else {
      TotalCovers(c, n - 1, u);
      WeightNonNegative(c, n - 1);
    }
  }

  /**
   From every reachable state with acyclic dependencies whose nodes have failed nothing, every fair
   continuation finishes every live deployment and invoke: as many rounds as there is work left are
   enough, whatever faults, stale reads, conflicts and other passes the rounds contain.
   */
  lemma EveryFairRunDeploys(run: seq<Event>, level: Name -> nat, n: nat, rounds: seq<seq<Event>>)
    requires Guarantees.Run(run) && Acyclic(State(run), level) && NodesSucceed(State(run)) && Bounded(State(run), n)
    requires FairRun(State(run), rounds) && |rounds| >= Total(State(run), n)
    ensures AllDone(AfterRounds(State(run), rounds))
  {
    hide Inv, Acyclic, NodesSucceed, Bounded, AllDone, FairRun, AfterRounds, Total, State, Guarantees.Run;
    Reached(run);
    RoundsFinish(State(run), level, n, rounds);
  }
}
