/**
 The debounced rollout of a Paladin StatefulSet (operator/internal/controller/inflight.go and the
 change detection in operator/internal/controller/paladin_controller.go): a changed configuration
 is queued with a timestamp and rolled out once `changeWaitDuration` has passed.
 */
module Rollout {
  import opened Collections

  type Time = int

  /** The mutex-guarded map of timestamps; the clock is a parameter. */
  class InFlight {
    var inFlight: map<string, Time>
    const changeWaitDuration: int

    constructor (changeWaitDuration: int)
      ensures inFlight == map[] && this.changeWaitDuration == changeWaitDuration
    {
      inFlight := map[];
      this.changeWaitDuration := changeWaitDuration;
    }

    method IsQueued(key: string) returns (r: bool)
      ensures r <==> key in inFlight
    {
      r := key in inFlight;
    }

    method IsReady(key: string, now: Time) returns (r: bool)
      ensures r <==> key in inFlight && now >= inFlight[key] + changeWaitDuration
    {
      if key !in inFlight {
        return false;
      }
      return now - inFlight[key] >= changeWaitDuration;
    }

    /** A key that is queued already keeps its first timestamp. */
    method Insert(key: string, now: Time) returns (inserted: bool)
      modifies this
      ensures inserted <==> key !in old(inFlight)
      ensures inFlight == if inserted then old(inFlight)[key := now] else old(inFlight)
    {
      if key in inFlight {
        return false;
      }
      inFlight := inFlight[key := now];
      return true;
    }

    method Delete(key: string)
      modifies this
      ensures inFlight == old(inFlight) - {key}
    {
      inFlight := inFlight - {key};
    }
  }

  /** What one pass meets: the time, the StatefulSet's config-sum annotation as first read (if the
      StatefulSet is found at all), whether the read inside createStatefulSet finds it, the sum of
      the configuration generated in this pass, and whether the API accepts the write. */
  datatype Pass = Pass(now: Time, seen: Option<string>, found: bool, sum: string, accepted: bool)

  /** An update of an existing StatefulSet; `stale` if the pass had at first not seen it. */
  datatype Rolled = Rolled(time: Time, sum: string, stale: bool)

  /** One StatefulSet: when its change was queued, and every successful update of it. */
  datatype State = State(queued: Option<Time>, updates: seq<Rolled>)

  const START := State(None, [])

  /** What the operator stores in the annotation. */
  function Annotation(sum: string): string { "md5-" + sum }

  predicate Ready(wait: int, s: State, now: Time) { s.queued.Some? && now >= s.queued.value + wait }

  /** The pass may write the StatefulSet: there is none, the queued change is due, or the sums agree. */
  predicate Changeable(wait: int, s: State, p: Pass) {
    p.seen.Some? && (if s.queued.Some? then Ready(wait, s, p.now) else p.seen.value == p.sum)
  }

  function Update(p: Pass): (u: Rolled) { Rolled(p.now, p.sum, p.seen.None?) }

  function Step(wait: int, s: State, p: Pass): (r: State) {
    if p.seen.Some? && s.queued.None? && p.seen.value != p.sum then s.(queued := Some(p.now))
    else if (p.seen.None? || Changeable(wait, s, p)) && p.accepted then
      State(if p.seen.Some? then None else s.queued,
            if p.found then s.updates + [Update(p)] else s.updates)
    else s
  }

  /** The pass as the reconciler runs it. */
  method ReconcileRollout(changes: InFlight, resource: string, p: Pass, ghost s: State) returns (updated: bool)
    requires s.queued == if resource in changes.inFlight then Some(changes.inFlight[resource]) else None
    modifies changes
    ensures var r := Step(changes.changeWaitDuration, s, p);
            && (r.queued == if resource in changes.inFlight then Some(changes.inFlight[resource]) else None)
            && changes.inFlight - {resource} == old(changes.inFlight) - {resource}
            && r.updates == if updated then s.updates + [Update(p)] else s.updates
  {
    var changeable := false;
    if p.seen.Some? {
      var queued := changes.IsQueued(resource);
      if queued {
        changeable := changes.IsReady(resource, p.now);
      } else {
        if p.seen.value != p.sum {
          var _ := changes.Insert(resource, p.now);
          return false;
        } else {
          changeable := true;
        }
      }
    }
    if p.seen.None? || changeable {
      if !p.accepted {
        return false;
      }
      updated := p.found;
      if changeable {
        changes.Delete(resource);
      }
      return;
    }
    return false;
  }

  // ---- the stored annotation never equals a computed sum ----

  predicate Hex(s: string) { s != "" && forall c <- s :: '0' <= c <= '9' || 'a' <= c <= 'f' }

  /** What a read of the annotation can return: nothing, or something the operator stored. */
  ghost predicate Stored(a: string) { a == "" || exists sum :: a == Annotation(sum) }

  lemma SumNeverMatches(a: string, sum: string)
    requires Stored(a) && Hex(sum)
    ensures a != sum
  {
    if a != "" {
      var x :| a == Annotation(x);
      assert a[0] == 'm';
      assert sum[0] in sum;
    }
  }

  // ---- spacing ----

  /** Sums are digests and annotations are the operator's own. */
  ghost predicate Regular(p: Pass) { Hex(p.sum) && (p.seen.Some? ==> Stored(p.seen.value)) }

  ghost predicate Timely(run: seq<Pass>) {
    && (forall p <- run :: Regular(p))
    && forall i, j :: 0 <= i < j < |run| ==> run[i].now <= run[j].now
  }

  function Run(wait: int, run: seq<Pass>): (s: State) {
    if run == [] then START else Step(wait, Run(wait, run[..|run| - 1]), run[|run| - 1])
  }

  predicate Apart(wait: int, a: Rolled, b: Rolled) { a.time + wait <= b.time }

  ghost predicate Spaced(wait: int, s: State, now: Time) {
    && (forall i, j :: 0 <= i < j < |s.updates| && !s.updates[i].stale && !s.updates[j].stale ==>
        Apart(wait, s.updates[i], s.updates[j]))
    && (forall i :: 0 <= i < |s.updates| ==> s.updates[i].time <= now)
    && (s.queued.Some? ==> s.queued.value <= now)
    && (s.queued.Some? ==> forall i :: 0 <= i < |s.updates| && !s.updates[i].stale ==>
        s.updates[i].time <= s.queued.value)
  }

  lemma StepSpaced(wait: int, s: State, p: Pass, before: Time)
    requires Spaced(wait, s, before) && before <= p.now && Regular(p)
    ensures Spaced(wait, Step(wait, s, p), p.now)
  {
    if p.seen.Some? { SumNeverMatches(p.seen.value, p.sum); }
  }

  lemma {:induction false} RunSpaced(wait: int, run: seq<Pass>)
    requires Timely(run) && run != []
    ensures Spaced(wait, Run(wait, run), run[|run| - 1].now)
  {
    var n := |run| - 1;
    assert run[n] in run;
    if n == 0 {
      assert Run(wait, run[..0]) == START;
      StepSpaced(wait, START, run[0], run[0].now);
    } else {
      assert forall p <- run[..n] :: p in run;
      RunSpaced(wait, run[..n]);
      StepSpaced(wait, Run(wait, run[..n]), run[n], run[n - 1].now);
    }
  }

  /**
   In every timely run any two updates that followed a read of the StatefulSet are at least the wait
   apart, whatever updates after a stale first read come between them.
   */
  lemma UpdatesAreSpaced(wait: int, run: seq<Pass>, i: nat, j: nat)
    requires Timely(run) && i < j < |Run(wait, run).updates|
    requires !Run(wait, run).updates[i].stale && !Run(wait, run).updates[j].stale
    ensures Apart(wait, Run(wait, run).updates[i], Run(wait, run).updates[j])
  {
    RunSpaced(wait, run);
  }

  /** A pass that did not see the StatefulSet at first, found it after all, and updated it. */
  predicate StalePass(p: Pass) { p.seen.None? && p.found && p.accepted }

  /** Pass `k` of the run updates the StatefulSet. */
  predicate Rolls(wait: int, run: seq<Pass>, k: nat)
    requires k < |run|
  {
    |Run(wait, run[..k]).updates| < |Run(wait, run[..k + 1]).updates|
  }

  /** A stale pass always updates; any other only does with the StatefulSet in sight. */
  lemma StaleRolls(wait: int, run: seq<Pass>, k: nat)
    requires k < |run|
    ensures StalePass(run[k]) ==> Rolls(wait, run, k)
    ensures Rolls(wait, run, k) ==> run[k].seen.Some? || StalePass(run[k])
  {
    assert run[..k + 1][..k] == run[..k];
  }

  lemma {:induction false} UpdatesGrow(wait: int, run: seq<Pass>, k: nat)
    requires k <= |run|
    ensures Run(wait, run[..k]).updates <= Run(wait, run).updates
  {
    if k < |run| {
      var n := |run| - 1;
      UpdatesGrow(wait, run[..n], k);
      assert run[..n][..k] == run[..k];
    } else {
      assert run[..k] == run;
    }
  }

  /** Where in the list of updates that of pass `k` stands. */
  lemma RolledAt(wait: int, run: seq<Pass>, k: nat)
    requires k < |run| && Rolls(wait, run, k)
    ensures var at := |Run(wait, run[..k]).updates|;
      at < |Run(wait, run).updates| && Run(wait, run).updates[at] == Update(run[k])
  {
    assert run[..k + 1][..k] == run[..k];
    UpdatesGrow(wait, run, k + 1);
  }

  /** Two passes that both see the StatefulSet and roll it out are the wait apart. */
  lemma SeenPassesSpaced(wait: int, run: seq<Pass>, i: nat, j: nat)
    requires Timely(run) && i < j < |run| && Rolls(wait, run, i) && Rolls(wait, run, j)
    requires run[i].seen.Some? && run[j].seen.Some?
    ensures run[i].now + wait <= run[j].now
  {
    RolledAt(wait, run, i);
    RolledAt(wait, run, j);
    UpdatesGrow(wait, run[..j], i + 1);
    assert run[..j][..i + 1] == run[..i + 1];
    UpdatesAreSpaced(wait, run, |Run(wait, run[..i]).updates|, |Run(wait, run[..j]).updates|);
  }

  /**
   All rollouts of a timely run are the wait apart exactly when every stale pass in it is the wait
   apart from the rollouts before and after it.
   */
  lemma SpacedExactly(wait: int, run: seq<Pass>)
    requires Timely(run)
    ensures
      (forall i, j :: 0 <= i < j < |run| && Rolls(wait, run, i) && Rolls(wait, run, j) ==>
          run[i].now + wait <= run[j].now)
      <==>
      && (forall i, j :: 0 <= i < j < |run| && StalePass(run[i]) && Rolls(wait, run, j) ==>
          run[i].now + wait <= run[j].now)
      && (forall i, j :: 0 <= i < j < |run| && Rolls(wait, run, i) && StalePass(run[j]) ==>
          run[i].now + wait <= run[j].now)
  {
    hide Rolls, Timely;
    forall k: nat | k < |run|
      ensures StalePass(run[k]) ==> Rolls(wait, run, k)
      ensures Rolls(wait, run, k) ==> run[k].seen.Some? || StalePass(run[k])
    {
      StaleRolls(wait, run, k);
    }
    forall i: nat, j: nat | i < j < |run| && Rolls(wait, run, i) && Rolls(wait, run, j) && run[i].seen.Some? &&
        run[j].seen.Some?
      ensures run[i].now + wait <= run[j].now
    {
      SeenPassesSpaced(wait, run, i, j);
    }
  }

  /** Every update carries the sum of the configuration generated in its own pass. */
  lemma {:induction false} UpdateCarriesOwnSum(wait: int, run: seq<Pass>, i: nat)
    requires i < |Run(wait, run).updates|
    ensures exists p <- run :: p.accepted && p.found && Run(wait, run).updates[i] == Update(p)
  {
    var n := |run| - 1;
    if i < |Run(wait, run[..n]).updates| {
      UpdateCarriesOwnSum(wait, run[..n], i);
      var p :| p in run[..n] && p.accepted && p.found && Run(wait, run[..n]).updates[i] == Update(p);
      assert p in run;
    } else {
      assert run[n] in run;
    }
  }

  /** The passes between queueing a change and its rollout: any configurations, not yet due or refused. */
  predicate Waiting(wait: int, since: Time, run: seq<Pass>) {
    forall p <- run :: p.seen.Some? && (p.now < since + wait || !p.accepted)
  }

  /**
   Churn never postpones a queued change: however the configuration changes meanwhile, the change
   stays queued since its first timestamp, and the first accepted pass after the wait rolls it out.
   */
  lemma {:induction false} ChurnNeverPostpones(wait: int, s: State, run: seq<Pass>, last: Pass)
    requires s.queued.Some? && Waiting(wait, s.queued.value, run)
    requires last.seen.Some? && last.found && last.accepted && last.now >= s.queued.value + wait
    ensures var t := Fold(wait, s, run);
            t == s && Step(wait, t, last) == State(None, s.updates + [Update(last)])
  {
    if run != [] {
      var n := |run| - 1;
      assert forall p <- run[..n] :: p in run;
      ChurnNeverPostpones(wait, s, run[..n], last);
      assert run[n] in run;
    }
  }

  function Fold(wait: int, s: State, run: seq<Pass>): (t: State) {
    if run == [] then s else Step(wait, Fold(wait, s, run[..|run| - 1]), run[|run| - 1])
  }

  /** A stale first read lets createStatefulSet update at once: two updates can be no time apart. */
  lemma StaleReadSkipsTheWait(wait: int, now: Time, sum: string)
    requires wait > 0
    ensures var p := Pass(now, None, true, sum, true);
            Run(wait, [p, p]).updates == [Rolled(now, sum, true), Rolled(now, sum, true)]
  {
    var p := Pass(now, None, true, sum, true);
    assert [p, p][..1] == [p] && [p][..0] == [];
    assert Run(wait, [p]) == Step(wait, START, p);
  }

  // ---- an unchanged configuration ----

  /** Passes over a StatefulSet that carries the sum of its configuration, at least the wait apart. */
  ghost predicate Unchanged(wait: int, sum: string, run: seq<Pass>) {
    && (forall p <- run :: p.seen == Some(Annotation(sum)) && p.sum == sum && p.found && p.accepted)
    && forall i :: 0 < i < |run| ==> run[i - 1].now + wait <= run[i].now
  }

  /**
   The annotation is stored with an "md5-" prefix and compared without it, so an unchanged
   configuration never settles: in every such run each pass either queues the StatefulSet or, the
   wait being over, updates it again, in turn.
   */
  lemma {:induction false} UnchangedConfigRollsForEver(wait: int, sum: string, run: seq<Pass>)
    requires Hex(sum) && Unchanged(wait, sum, run)
    ensures |Run(wait, run).updates| == |run| / 2
    ensures Run(wait, run).queued == if |run| % 2 == 1 then Some(run[|run| - 1].now) else None
  {
    if run != [] {
      var n := |run| - 1;
      assert run[n] in run && forall p <- run[..n] :: p in run;
      UnchangedConfigRollsForEver(wait, sum, run[..n]);
      SumNeverMatches(Annotation(sum), sum);
      assert n > 0 ==> run[..n][n - 1] == run[n - 1];
    }
  }
}
