/**
 What each status update of a registration, registry or domain does to the version before it, in
 every run: exactly when PublishCount is right, and that every CR ends after a number of versions
 known from its spec.
 */
module Versions {
  import opened Collections
  import opened Transactions
  import opened Dependencies
  import opened Reconcilers
  import opened Cluster
  import opened Safety
  import opened Preservation
  import opened Passes
  import opened Guarantees

  function PhaseRank(p: Phase): (n: nat) { match p case NoPhase => 0 case PhasePending => 1 case Available => 2 }

  /** The count an update writes: nothing before the registration has succeeded, and then what it adds. */
  predicate CountStep(ts: seq<Name>, a: Status, b: Status) {
    if a.tx.status.Success? then b.tx == a.tx && b.publishCount == 1 + CountSuccess(b, ts) - CountSuccess(a, ts)
    else b.publishCount == 0 && CountSuccess(b, ts) == 0
  }

  /** Some record of the registration moves up. */
  ghost predicate SomeUp(ts: seq<Name>, a: Status, b: Status) {
    || StepsUp(a.tx, b.tx)
    || exists t <- ts :: StepsUp(SubAt(a, Transport(t)), SubAt(b, Transport(t)))
  }

  ghost predicate Stepped(spec: Spec, a: Status, b: Status) {
    match spec
    case Registration(_, _, _, ts) => CountStep(ts, a, b) && SomeUp(ts, a, b)
    case Registry(_, _, _) => PhaseRank(a.phase) < PhaseRank(b.phase)
    case Domain(_, _) => PhaseRank(a.phase) < PhaseRank(b.phase)
    case _ => true
  }

  /** The loop variables of a pass over a version. */
  ghost predicate LoopStep(spec: Spec, from: Status, pass: Pass)
    requires pass.stage.Publishing?
  {
    && spec.Registration? && pass.stage.next <= |spec.transports|
    && pass.stage.count == 1 + CountSuccess(pass.mem, spec.transports[..pass.stage.next])
                             - CountSuccess(from, spec.transports[..pass.stage.next])
    && (if pass.stage.changed then SomeUp(spec.transports, from, pass.mem) else pass.mem == from)
  }

  ghost predicate PassStep(o: Object, pass: Pass) {
    pass.base < |o.hist| &&
    var from := o.hist[pass.base];
    match pass.stage
    case Begun => true
    case Publishing(_, _, _, _) => LoopStep(o.spec, from, pass)
    case Updating => pass.mem == from || Stepped(o.spec, from, pass.mem)
  }

  ghost predicate HistoryStepped(o: Object) {
    forall i :: 0 < i < |o.hist| ==> Stepped(o.spec, o.hist[i - 1], o.hist[i])
  }

  ghost predicate StepInv(c: Cluster) {
    && (forall u <- c.objects :: HistoryStepped(c.objects[u]))
    && (forall p <- c.passes :: c.passes[p].uid in c.objects && PassStep(c.objects[c.passes[p].uid], c.passes[p]))
  }

  // ---- the passes ----

  /** Only pass `p` differs, and it is in order. */
  lemma OnePass(c: Cluster, d: Cluster, p: nat)
    requires StepInv(c) && d.objects == c.objects
    requires forall q <- d.passes :: q != p ==> q in c.passes && d.passes[q] == c.passes[q]
    requires p in d.passes ==> d.passes[p].uid in d.objects && PassStep(d.objects[d.passes[p].uid], d.passes[p])
    ensures StepInv(d)
  {
    hide PassStep, HistoryStepped;
  }

  lemma RegistryStep(c: Cluster, u: Uid, st: Status, answer: Lookup)
    requires u in c.objects && c.objects[u].spec.Registry? && VersionOk(c, u, st)
    ensures var v := RegistryPass(c.objects[u].spec, st, answer); v.Write? ==> Stepped(c.objects[u].spec, st, v.status)
  {
    hide SubOk, DeployedAt;
    AddressFacts(c, u, st);
  }

  lemma DomainStep(spec: Spec, st: Status, answer: Lookup)
    requires spec.Domain?
    ensures var v := DomainPass(spec, st, answer); v.Write? ==> Stepped(spec, st, v.status)
  {
  }

  /** A version whose registration has not succeeded has published nothing. */
  lemma {:induction false} NothingPublished(c: Cluster, u: Uid, st: Status, ts: seq<Name>)
    requires u in c.objects && c.objects[u].spec.Registration? && VersionOk(c, u, st) && !st.tx.status.Success?
    ensures CountSuccess(st, ts) == 0
  {
    hide DeployedAt, AddressOk;
    if ts != [] {
      var n := |ts| - 1;
      NothingPublished(c, u, st, ts[..n]);
      assert SubOk(c, u, Transport(ts[n]), SubAt(st, Transport(ts[n])));
    }
  }

  lemma OpeningStep(c: Cluster, u: Uid, st: Status, answer: Lookup, env: Env)
    requires Inv(c) && u in c.objects && c.objects[u].spec.Registration? && VersionOk(c, u, st)
    requires env.freshKey != "" && env.freshId != ""
    ensures var o := OpenRegistration(u, c.objects[u].spec, st, answer, c.ledger, env).0;
      if o.Stop? then o.verdict.Write? ==> Stepped(c.objects[u].spec, st, o.verdict.status) else answer.Found?
  {
    hide Inv, VersionOk, ReconcileTx, CountSuccess, StepsUp;
    var spec := c.objects[u].spec;
    if answer.Found? && answer.address != "" {
      var content := RegistrationContent(u, Main, spec, answer.address);
      var o := ReconcileTx(st.tx, spec.adminNode, content, c.ledger, env);
      MainSub(c, u, st, Main);
      IdsNonEmpty(c);
      ReconcileStepsUp(st.tx, spec.adminNode, content, c.ledger, env);
      if o.changed {
        UpFromUnfinished(st.tx, o.sub);
        NothingPublished(c, u, st, spec.transports);
        var publish := if st.publish.None? then Some(map[]) else st.publish;
        var st' := st.(tx := o.sub, publish := publish, publishCount := 0);
        CountSame(st, st', spec.transports);
      }
    }
  }

  lemma UpFromUnfinished(a: Submission, b: Submission)
    requires StepsUp(a, b)
    ensures !a.status.Success?
  {
    SubRank(b);
  }

  lemma SettleSteps(c: Cluster, p: nat, v: Verdict, l: Ledger)
    requires StepInv(c) && p in c.passes && c.passes[p].uid in c.objects &&
      c.passes[p].base < |c.objects[c.passes[p].uid].hist|
    requires var o := c.objects[c.passes[p].uid]; v.Write? ==> Stepped(o.spec, o.hist[c.passes[p].base], v.status)
    ensures StepInv(Settle(c, p, v, l))
  {
    hide StepInv, Stepped;
    OnePass(c, Settle(c, p, v, l), p);
  }

  lemma RunSteps(c: Cluster, p: nat, looks: seq<Read>, env: Env)
    requires Inv(c) && StepInv(c) && p in c.passes && c.passes[p].stage.Begun? && c.passes[p].uid in c.objects
    requires ReadsOk(c, c.objects[c.passes[p].uid].spec, looks) && EnvOk(c, c.passes[p].uid, Main, env)
    ensures StepInv(RunPass(c, p, looks, env))
  {
    hide Inv, StepInv, Stepped, ContractPass, OpenRegistration, RegistryPass, DomainPass, VersionOk, ObjectOk,
         Answers, Settle;
    var pass := c.passes[p];
    var u, spec := pass.uid, c.objects[pass.uid].spec;
    var answers := Answers(c, spec, looks);
    StartedPass(c, p);
    match spec {
      case Deployment(_, _) =>
        var (v, l) := ContractPass(u, spec, pass.mem, answers, c.ledger, env);
        FreeStep(spec, pass.mem, v);
        SettleSteps(c, p, v, l);
      case Invoke(_, _) =>
        var (v, l) := ContractPass(u, spec, pass.mem, answers, c.ledger, env);
        FreeStep(spec, pass.mem, v);
        SettleSteps(c, p, v, l);
      case Registration(_, _, _, _) =>
        var (o, l) := OpenRegistration(u, spec, pass.mem, answers[0], c.ledger, env);
        OpeningStep(c, u, pass.mem, answers[0], env);
        if o.Stop? { SettleSteps(c, p, o.verdict, l); } else { EnterSteps(c, p, answers[0].address, l); }
      case Registry(_, _, _) =>
        RegistryStep(c, u, pass.mem, answers[0]);
        SettleSteps(c, p, RegistryPass(spec, pass.mem, answers[0]), c.ledger);
      case Domain(_, _) =>
        DomainStep(spec, pass.mem, answers[0]);
        SettleSteps(c, p, DomainPass(spec, pass.mem, answers[0]), c.ledger);
    }
  }

  lemma FreeStep(spec: Spec, st: Status, v: Verdict)
    requires spec.Contract()
    ensures v.Write? ==> Stepped(spec, st, v.status)
  {
  }

  lemma EnterSteps(c: Cluster, p: nat, a: Address, l: Ledger)
    requires StepInv(c) && p in c.passes && Started(c, c.passes[p]) && c.objects[c.passes[p].uid].spec.Registration?
    ensures StepInv(c.(passes := c.passes[p := c.passes[p].(stage := Publishing(0, a, 1, false))], ledger := l))
  {
    hide StepInv, ObjectOk, VersionOk;
    OnePass(c, c.(passes := c.passes[p := c.passes[p].(stage := Publishing(0, a, 1, false))], ledger := l), p);
  }

  // ---- the loop ----

  /** A record that moves up in the loop was not a success, and then counts if it is one. */
  lemma IterationCounts(ts: seq<Name>, from: Status, mem: Status, next: nat, sub: Submission)
    requires next < |ts| && Distinct(ts) && mem.publish.Some?
    requires SubAt(mem, Transport(ts[next])) == SubAt(from, Transport(ts[next])) &&
      StepsUp(SubAt(mem, Transport(ts[next])), sub)
    ensures var mem' := mem.(publish := Some(mem.publish.value[ts[next] := sub]));
      && CountSuccess(mem', ts[..next + 1]) == CountSuccess(mem, ts[..next]) + (if sub.status.Success? then 1 else 0)
      && CountSuccess(from, ts[..next + 1]) == CountSuccess(from, ts[..next])
      && SomeUp(ts, from, mem')
  {
    PublishedCount(mem, ts, next, sub);
    PublishedSlots(mem, ts[next], sub);
    UpFromUnfinished(SubAt(from, Transport(ts[next])), sub);
    assert ts[..next + 1][..next] == ts[..next];
    assert ts[next] in ts;
  }

  lemma StillCounts(ts: seq<Name>, from: Status, mem: Status, next: nat)
    requires next < |ts| && SubAt(mem, Transport(ts[next])) == SubAt(from, Transport(ts[next]))
    ensures CountSuccess(mem, ts[..next + 1]) - CountSuccess(from, ts[..next + 1])
         == CountSuccess(mem, ts[..next]) - CountSuccess(from, ts[..next])
  {
    assert ts[..next + 1][..next] == ts[..next];
  }

  lemma PublishSteps(c: Cluster, p: nat, env: Env)
    requires Inv(c) && StepInv(c) && p in c.passes && c.passes[p].uid in c.objects && c.passes[p].stage.Publishing?
    requires c.objects[c.passes[p].uid].spec.Registration?
    requires c.passes[p].stage.next < |c.objects[c.passes[p].uid].spec.transports|
    requires EnvOk(c, c.passes[p].uid, Transport(c.objects[c.passes[p].uid].spec.transports[c.passes[p].stage.next]),
      env)
    ensures StepInv(PublishNext(c, p, env))
  {
    hide Inv, StepInv, VersionOk, Extends, LedgerOk, SubOk, ReconcileTx, EnvOk, CountSuccess, StepsUp, SomeUp,
         Progresses, RegistryAt;
    LoopFacts(c, p);
    var pass := c.passes[p];
    var o := c.objects[pass.uid];
    var from, ts, next := o.hist[pass.base], o.spec.transports, pass.stage.next;
    PublishTx(c, pass, env);
    StillCounts(ts, from, pass.mem, next);
    var sub := SubAt(pass.mem, Transport(ts[next]));
    var content := RegistrationContent(pass.uid, Transport(ts[next]), o.spec, pass.stage.registry);
    var r := ReconcileTx(sub, o.spec.node, content, c.ledger, env);
    if r.changed { IterationCounts(ts, from, pass.mem, next, r.sub); }
    OnePass(c, PublishNext(c, p, env), p);
  }

  /** What the invariants say of a pass in the loop. */
  lemma LoopFacts(c: Cluster, p: nat)
    requires Inv(c) && StepInv(c) && p in c.passes && c.passes[p].stage.Publishing?
    ensures var pass := c.passes[p];
      && pass.uid in c.objects && PassOk(c, pass) && pass.base < |c.objects[pass.uid].hist|
      && c.objects[pass.uid].spec.Registration? && Distinct(c.objects[pass.uid].spec.transports)
      && var o := c.objects[pass.uid];
         var from, ts := o.hist[pass.base], o.spec.transports;
         && LoopStep(o.spec, from, pass) && pass.mem.publish.Some? && from.tx.status.Success? && pass.mem.tx == from.tx
         && forall j :: pass.stage.next <= j < |ts| ==>
             SubAt(pass.mem, Transport(ts[j])) == SubAt(from, Transport(ts[j]))
  {
    hide VersionOk, LedgerOk, Progresses, RegistryAt, CountSuccess, SomeUp;
    assert PassOk(c, c.passes[p]);
    assert ObjectOk(c, c.passes[p].uid);
  }

  lemma EndSteps(c: Cluster, p: nat)
    requires Inv(c) && StepInv(c) && Enabled(c, EndLoop(p))
    ensures StepInv(Next(c, EndLoop(p)))
  {
    hide Inv, StepInv, VersionOk, LedgerOk, Progresses, RegistryAt, SomeUp;
    LoopFacts(c, p);
    var pass := c.passes[p];
    var o := c.objects[pass.uid];
    var ts := o.spec.transports;
    var st := pass.mem.(publishCount := pass.stage.count);
    assert ts[..|ts|] == ts;
    CountSame(pass.mem, st, ts);
    if pass.stage.changed { SameUp(ts, o.hist[pass.base], pass.mem, st); }
    OnePass(c, Next(c, EndLoop(p)), p);
  }

  lemma SameUp(ts: seq<Name>, a: Status, b: Status, b': Status)
    requires SomeUp(ts, a, b) && b'.tx == b.tx && b'.publish == b.publish
    ensures SomeUp(ts, a, b')
  {
    assert forall t :: SubAt(b', Transport(t)) == SubAt(b, Transport(t));
  }

  lemma UpdateSteps(c: Cluster, p: nat)
    requires StepInv(c) && Enabled(c, Update(p))
    ensures StepInv(UpdateStatus(c, p))
  {
    hide Stepped, LoopStep;
    var pass := c.passes[p];
    var d := UpdateStatus(c, p);
    assert PassStep(c.objects[pass.uid], pass);
    forall u | u in d.objects ensures HistoryStepped(d.objects[u]) { assert HistoryStepped(c.objects[u]); }
    forall q | q in d.passes ensures PassStep(d.objects[d.passes[q].uid], d.passes[q]) {
      assert PassStep(c.objects[c.passes[q].uid], c.passes[q]);
    }
  }

  // ---- every run ----

  lemma NextSteps(c: Cluster, e: Event)
    requires Inv(c) && StepInv(c) && Enabled(c, e)
    ensures StepInv(Next(c, e))
  {
    hide Inv, Stepped, LoopStep, RunPass, PublishNext, UpdateStatus, ReadsOk, EnvOk;
    match e {
      case Run(p, looks, env) => RunSteps(c, p, looks, env);
      case Publish(p, env) => PublishSteps(c, p, env);
      case EndLoop(p) => EndSteps(c, p);
      case Update(p) => UpdateSteps(c, p);
      case Create(u, name, spec) => CreateSteps(c, u, name, spec);
      case Delete(u) => DeleteSteps(c, u);
      case _ =>
    }
  }

  lemma CreateSteps(c: Cluster, u: Uid, name: Name, spec: Spec)
    requires StepInv(c) && u !in c.objects
    ensures StepInv(c.(objects := c.objects[u := Object(name, spec, true, [INITIAL])]))
  {
    hide Stepped, PassStep;
    assert forall v <- c.objects :: HistoryStepped(c.objects[v]);
  }

  lemma DeleteSteps(c: Cluster, u: Uid)
    requires StepInv(c) && u in c.objects
    ensures StepInv(c.(objects := c.objects[u := c.objects[u].(live := false)]))
  {
    hide Stepped, LoopStep;
    var d := c.(objects := c.objects[u := c.objects[u].(live := false)]);
    assert forall v <- c.objects :: HistoryStepped(c.objects[v]);
    forall q | q in d.passes ensures PassStep(d.objects[d.passes[q].uid], d.passes[q]) {
      assert PassStep(c.objects[c.passes[q].uid], c.passes[q]);
    }
  }

  lemma {:induction false} RunFromSteps(c: Cluster, run: seq<Event>)
    requires Inv(c) && StepInv(c) && ValidFrom(c, run) && AdmissibleRun(run)
    ensures StepInv(After(c, run))
    decreases |run|
  {
    hide Inv, StepInv, Enabled, Next;
    if run != [] {
      assert run[0] in run && forall e <- run[1..] :: e in run;
      NextKeeps(c, run[0]);
      NextSteps(c, run[0]);
      RunFromSteps(Next(c, run[0]), run[1..]);
    }
  }

  lemma EveryVersionSteps(run: seq<Event>, u: Uid, i: nat)
    requires Guarantees.Run(run) && u in State(run).objects && 0 < i < |State(run).objects[u].hist|
    ensures Stepped(State(run).objects[u].spec, State(run).objects[u].hist[i - 1], State(run).objects[u].hist[i])
  {
    hide Inv, Enabled, Next, ValidFrom, After, Stepped;
    InitOk();
    StartSteps();
    RunFromSteps(EMPTY_CLUSTER, run);
    assert HistoryStepped(State(run).objects[u]);
  }

  lemma StartSteps()
    ensures StepInv(EMPTY_CLUSTER)
  {
  }

  // ---- PublishCount ----

  /**
   In every run, a version's count is the true number of successes exactly if, when the registration
   had succeeded in the version before, no transport had, and otherwise if it has not succeeded in
   this one either. So the registration's own success is never counted when it is recorded, and
   transports only in the pass that first sees them succeed.
   */
  lemma PublishCountExact(run: seq<Event>, u: Uid, i: nat)
    requires Guarantees.Run(run) && u in State(run).objects && 0 < i < |State(run).objects[u].hist|
    requires State(run).objects[u].spec.Registration?
    ensures var o := State(run).objects[u];
      var ts, before, now := o.spec.transports, o.hist[i - 1], o.hist[i];
      now.publishCount == Successes(now, ts) <==>
        if before.tx.status.Success? then CountSuccess(before, ts) == 0 else !now.tx.status.Success?
  {
    hide Guarantees.Run, State, CountSuccess, SomeUp;
    EveryVersionSteps(run, u, i);
  }

  /** A registration without transports counts nothing, ever, not even its own success. */
  lemma {:induction false} NothingToPublish(run: seq<Event>, u: Uid, i: nat)
    requires Guarantees.Run(run) && u in State(run).objects && i < |State(run).objects[u].hist|
    requires State(run).objects[u].spec.Registration? && State(run).objects[u].spec.transports == []
    ensures State(run).objects[u].hist[i].publishCount == 0
  {
    hide Guarantees.Run, State, Inv;
    if i == 0 {
      Reached(run);
      FirstVersion(State(run), u);
    } else {
      EveryVersionSteps(run, u, i);
    }
  }

  lemma FirstVersion(c: Cluster, u: Uid)
    requires Inv(c) && u in c.objects
    ensures c.objects[u].hist != [] && c.objects[u].hist[0] == INITIAL
  {
    hide LedgerOk, PassOk, VersionOk, Progresses;
    ObjectOf(c, u);
  }

  // ---- every CR ends ----

  function LeftOf(st: Status, ts: seq<Name>): (n: int) {
    if ts == [] then 0
    else LeftOf(st, ts[..|ts| - 1]) + 3 - Rank(SubAt(st, Transport(ts[|ts| - 1])).status)
  }

  /** The status updates a CR still has before it, at most. */
  function Left(spec: Spec, st: Status): (n: int) {
    match spec
    case Registration(_, _, _, ts) => 3 - Rank(st.tx.status) + LeftOf(st, ts)
    case Registry(_, _, _) => 2 - PhaseRank(st.phase)
    case Domain(_, _) => 2 - PhaseRank(st.phase)
    case _ => Remaining(spec.required, st)
  }

  /** What it has before it at first. */
  function Most(spec: Spec): (n: int) {
    match spec
    case Registration(_, _, _, ts) => 3 + 3 * |ts|
    case Registry(_, _, _) => 2
    case Domain(_, _) => 2
    case _ => |spec.required| + 4
  }

  lemma {:induction false} LeftOfBounds(st: Status, ts: seq<Name>)
    ensures 0 <= LeftOf(st, ts) <= 3 * |ts|
  {
    if ts != [] {
      LeftOfBounds(st, ts[..|ts| - 1]);
      SubRank(SubAt(st, Transport(ts[|ts| - 1])));
    }
  }

  lemma {:induction false} LeftOfDrops(a: Status, b: Status, ts: seq<Name>)
    requires forall t <- ts :: Evolves(SubAt(a, Transport(t)), SubAt(b, Transport(t)))
    ensures LeftOf(b, ts) <= LeftOf(a, ts)
    ensures (exists t <- ts :: StepsUp(SubAt(a, Transport(t)), SubAt(b, Transport(t)))) ==>
      LeftOf(b, ts) < LeftOf(a, ts)
  {
    if ts != [] {
      var n := |ts| - 1;
      assert ts[n] in ts && forall t <- ts[..n] :: t in ts;
      assert forall t <- ts :: t in ts[..n] || t == ts[n];
      LeftOfDrops(a, b, ts[..n]);
    }
  }

  /** Every effective update lowers what is left, whatever the kind of CR. */
  lemma LeftDrops(spec: Spec, a: Status, b: Status)
    requires Progresses(spec, a, b) && Shape(spec, a) && Shape(spec, b) && Stepped(spec, a, b)
    ensures Left(spec, b) < Left(spec, a)
  {
    hide Shape, CountStep, Remaining;
    if spec.Contract() {
      OneStepDrops(spec, a, b);
    } else if spec.Registration? {
      assert Evolves(SubAt(a, Main), SubAt(b, Main));
      LeftOfDrops(a, b, spec.transports);
    }
  }

  lemma LeftBounds(spec: Spec, st: Status)
    requires Shape(spec, st)
    ensures Left(spec, st) >= 0 && Left(spec, INITIAL) <= Most(spec)
  {
    hide Shape;
    match spec {
      case Registration(_, _, _, ts) =>
        SubRank(st.tx);
        LeftOfBounds(st, ts);
        LeftOfBounds(INITIAL, ts);
      case Registry(_, _, _) =>
      case Domain(_, _) =>
      case Deployment(_, _) => RemainingNonNegative(spec, st);
      case Invoke(_, _) => RemainingNonNegative(spec, st);
    }
  }

  lemma {:induction false} LeftAfter(run: seq<Event>, u: Uid, i: nat)
    requires Guarantees.Run(run) && u in State(run).objects && i < |State(run).objects[u].hist|
    ensures Left(State(run).objects[u].spec, State(run).objects[u].hist[i]) <= Most(State(run).objects[u].spec) - i
  {
    hide Guarantees.Run, State, Inv, Shape, Progresses, Stepped, Left, Most;
    Reached(run);
    var c := State(run);
    var spec, h := c.objects[u].spec, c.objects[u].hist;
    VersionFacts(c, u, i);
    if i == 0 {
      FirstVersion(c, u);
      LeftBounds(spec, h[0]);
    } else {
      LeftAfter(run, u, i - 1);
      VersionFacts(c, u, i - 1);
      EveryVersionSteps(run, u, i);
      LeftDrops(spec, h[i - 1], h[i]);
    }
  }

  lemma VersionFacts(c: Cluster, u: Uid, i: nat)
    requires Inv(c) && u in c.objects && i < |c.objects[u].hist|
    ensures Shape(c.objects[u].spec, c.objects[u].hist[i])
    ensures i > 0 ==> Progresses(c.objects[u].spec, c.objects[u].hist[i - 1], c.objects[u].hist[i])
  {
    hide LedgerOk, PassOk, VersionOk, Shape, Progresses;
    ObjectOf(c, u);
    ShapeOf(c, u);
  }

  /**
   However passes interleave, every CR ends: a registration has at most 4 versions and 3 more for
   each transport, a registry or domain at most 3, a deployment or invoke 5 and one more for each
   required deployment.
   */
  lemma EveryKindEnds(run: seq<Event>, u: Uid)
    requires Guarantees.Run(run) && u in State(run).objects
    ensures |State(run).objects[u].hist| <= 1 + Most(State(run).objects[u].spec)
  {
    hide Guarantees.Run, State, Inv, Shape, Left, Most;
    Reached(run);
    var c := State(run);
    FirstVersion(c, u);
    var n := |c.objects[u].hist| - 1;
    LeftAfter(run, u, n);
    VersionFacts(c, u, n);
    LeftBounds(c.objects[u].spec, c.objects[u].hist[n]);
  }
}
