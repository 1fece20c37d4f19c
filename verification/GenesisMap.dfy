/**
 The genesis config map (operator/internal/controller/besugenesis_controller.go, `createConfigMap`):
 read it, generate it if the read says it is missing, create it. Any number of passes interleave
 between these steps; reads may be stale, and requests and answers may be lost. The API server
 refuses to create a map that exists, and anyone may delete it.
 */
module GenesisMap {
  import opened Collections

  /** Every value the map ever had, the last one current; None where it did not exist. */
  type History = h: seq<Option<string>> | h != [] witness [None]

  datatype Fault = Delivered | RequestLost | ReplyLost

  function Current(h: History): (v: Option<string>) { h[|h| - 1] }

  /** Create: takes effect only while the map does not exist; `ok` if the caller learns that it did. */
  function Create(h: History, content: string, fault: Fault): (r: (History, bool)) {
    if fault.RequestLost? || Current(h).Some? then (h, false)
    else (h + [Some(content)], fault.Delivered?)
  }

  /**
   createConfigMap, undisturbed: `read` is what Get answers (if it answers), `made` the new genesis
   (if it is ready).
   */
  function Alone(h: History, read: Option<nat>, made: Option<string>, fault: Fault): (r: (History, Option<string>))
    requires read.Some? ==> read.value < |h|
  {
    if read.None? then (h, None)
    else if h[read.value].Some? then (h, h[read.value])
    else if made.None? then (h, None)
    else
      var (after, ok) := Create(h, made.value, fault);
      (after, if ok then made else None)
  }

  class ConfigMapStore {
    var hist: History

    constructor ()
      ensures hist == [None]
    {
      hist := [None];
    }

    method CreateConfigMap(read: Option<nat>, made: Option<string>, fault: Fault) returns (answer: Option<string>)
      requires read.Some? ==> read.value < |hist|
      modifies this
      ensures (hist, answer) == Alone(old(hist), read, made, fault)
      ensures answer.Some? ==> answer in hist
      ensures hist != old(hist) ==> Current(old(hist)).None? && hist == old(hist) + [made]
    {
      if read.None? {
        return None;
      }
      if hist[read.value].Some? {
        return hist[read.value];
      }
      if made.None? {
        return None;
      }
      var (h, ok) := Create(hist, made.value, fault);
      hist := h;
      if !ok {
        return None;
      }
      assert hist[|hist| - 1] == made;
      return made;
    }
  }

  // ---- interleavings ----

  /** Where a pass stands; `Ended` with the genesis it reports, or none if it failed or was not ready. */
  datatype Stage = Begun | Missing | Generated(content: string) | Ended(answer: Option<string>)

  datatype World = World(hist: History, passes: map<nat, Stage>)

  const START := World([None], map[])

  datatype Event =
    | Begin(p: nat)
    | Get(p: nat, version: Option<nat>)          // any version, or a failed read
    | Generate(p: nat, made: Option<string>)     // whatever spec and identities give, if they are ready
    | Submit(p: nat, fault: Fault)
    | Delete

  predicate At(w: World, p: nat, stage: Stage) { p in w.passes && w.passes[p] == stage }

  predicate Enabled(w: World, e: Event) {
    match e
    case Begin(p) => p !in w.passes
    case Get(p, v) => At(w, p, Begun) && (v.Some? ==> v.value < |w.hist|)
    case Generate(p, _) => At(w, p, Missing)
    case Submit(p, _) => p in w.passes && w.passes[p].Generated?
    case Delete => Current(w.hist).Some?
  }

  function Next(w: World, e: Event): (x: World)
    requires Enabled(w, e)
  {
    match e
    case Begin(p) => w.(passes := w.passes[p := Begun])
    case Get(p, v) =>
      w.(passes := w.passes[p :=
        if v.None? then Ended(None) else if w.hist[v.value].Some? then Ended(w.hist[v.value]) else Missing])
    case Generate(p, made) => w.(passes := w.passes[p := if made.Some? then Generated(made.value) else Ended(None)])
    case Submit(p, fault) =>
      var content := w.passes[p].content;
      var (h, ok) := Create(w.hist, content, fault);
      World(h, w.passes[p := Ended(if ok then Some(content) else None)])
    case Delete => w.(hist := w.hist + [None])
  }

  ghost predicate ValidFrom(w: World, run: seq<Event>)
    decreases |run|
  {
    run == [] || (Enabled(w, run[0]) && ValidFrom(Next(w, run[0]), run[1..]))
  }

  ghost function After(w: World, run: seq<Event>): (x: World)
    requires ValidFrom(w, run)
    decreases |run|
  {
    if run == [] then w else After(Next(w, run[0]), run[1..])
  }

  /** Consecutive versions are a creation or a deletion, and reports are of stored versions. */
  ghost predicate Inv(w: World) {
    && w.hist[0] == None
    && (forall i :: 0 < i < |w.hist| ==> w.hist[i].Some? != w.hist[i - 1].Some?)
    && (forall p <- w.passes :: w.passes[p].Ended? && w.passes[p].answer.Some? ==> w.passes[p].answer in w.hist)
  }

  lemma NextKeeps(w: World, e: Event)
    requires Inv(w) && Enabled(w, e)
    ensures Inv(Next(w, e)) && w.hist <= Next(w, e).hist
    ensures !e.Delete? ==> w.hist == Next(w, e).hist || Current(w.hist).None?
  {
    var x := Next(w, e);
    assert forall i :: 0 <= i < |w.hist| ==> x.hist[i] == w.hist[i];
    assert forall v <- w.hist :: v in x.hist;
    if e.Submit? && x.hist != w.hist { assert x.hist[|w.hist|] == Some(w.passes[e.p].content); }
  }

  lemma {:induction false} RunKeeps(w: World, run: seq<Event>)
    requires Inv(w) && ValidFrom(w, run)
    ensures Inv(After(w, run)) && w.hist <= After(w, run).hist
    decreases |run|
  {
    hide Inv, Enabled, Next;
    if run != [] {
      NextKeeps(w, run[0]);
      RunKeeps(Next(w, run[0]), run[1..]);
    }
  }

  lemma {:induction false} Untouched(w: World, run: seq<Event>)
    requires Inv(w) && ValidFrom(w, run) && (forall e <- run :: !e.Delete?) && Current(w.hist).Some?
    ensures After(w, run).hist == w.hist
    decreases |run|
  {
    hide Inv, Enabled, Next;
    if run != [] {
      NextKeeps(w, run[0]);
      Untouched(Next(w, run[0]), run[1..]);
    }
  }

  /**
   A created genesis is final: after every run that leaves one, no further steps of any passes,
   whatever they read before and generate, write the map again until somebody deletes it.
   */
  lemma GenesisIsFinal(run: seq<Event>, more: seq<Event>)
    requires ValidFrom(START, run) && Current(After(START, run).hist).Some?
    requires ValidFrom(After(START, run), more) && forall e <- more :: !e.Delete?
    ensures After(After(START, run), more).hist == After(START, run).hist
  {
    hide Inv, Enabled, Next, ValidFrom, After;
    StartOk();
    RunKeeps(START, run);
    Untouched(After(START, run), more);
  }

  lemma StartOk()
    ensures Inv(START)
  {
  }

  /**
   While nobody deletes it there is one genesis: whatever the interleaved passes read and generate,
   all that report one report the same, and it is the one stored.
   */
  lemma OneGenesis(run: seq<Event>, p: nat)
    requires ValidFrom(START, run) && forall e <- run :: !e.Delete?
    requires p in After(START, run).passes && After(START, run).passes[p].Ended? &&
      After(START, run).passes[p].answer.Some?
    ensures After(START, run).passes[p].answer == Current(After(START, run).hist)
  {
    hide Enabled, Next;
    RunKeeps(START, run);
    AtMostTwo(START, run);
  }

  lemma {:induction false} AtMostTwo(w: World, run: seq<Event>)
    requires Inv(w) && ValidFrom(w, run) && (forall e <- run :: !e.Delete?) && |w.hist| <= 2
    ensures |After(w, run).hist| <= 2
    decreases |run|
  {
    hide Inv, Enabled, Next;
    if run != [] {
      var x := Next(w, run[0]);
      NextKeeps(w, run[0]);
      FirstCreation(w, run[0]);
      AtMostTwo(x, run[1..]);
    }
  }

  lemma FirstCreation(w: World, e: Event)
    requires Inv(w) && Enabled(w, e) && !e.Delete? && |w.hist| <= 2
    ensures |Next(w, e).hist| <= 2
  {
    assert |w.hist| == 2 ==> w.hist[1].Some? != w.hist[1 - 1].Some?;
  }

  // ---- one pass on its own ----

  /** The steps of a pass, as far as it gets. */
  function PassSteps(h: History, p: nat, read: Option<nat>, made: Option<string>, fault: Fault): (run: seq<Event>)
    requires read.Some? ==> read.value < |h|
  {
    if read.None? || h[read.value].Some? then [Begin(p), Get(p, read)]
    else if made.None? then [Begin(p), Get(p, read), Generate(p, made)]
    else [Begin(p), Get(p, read), Generate(p, made), Submit(p, fault)]
  }

  lemma Stepwise(w: World, e: Event, rest: seq<Event>)
    requires Enabled(w, e) && ValidFrom(Next(w, e), rest)
    ensures ValidFrom(w, [e] + rest) && After(w, [e] + rest) == After(Next(w, e), rest)
  {
    hide Enabled, Next;
    assert ([e] + rest)[1..] == rest;
  }

  /** The undisturbed pass is the run of its steps: same map afterwards, same report. */
  lemma AloneIsARun(w: World, p: nat, read: Option<nat>, made: Option<string>, fault: Fault)
    requires p !in w.passes && (read.Some? ==> read.value < |w.hist|)
    ensures var run := PassSteps(w.hist, p, read, made, fault);
      var (h, answer) := Alone(w.hist, read, made, fault);
      ValidFrom(w, run) && After(w, run) == World(h, w.passes[p := Ended(answer)])
  {
    var e1, e2, e3, e4 := Begin(p), Get(p, read), Generate(p, made), Submit(p, fault);
    var w1 := Next(w, e1);
    var w2 := Next(w1, e2);
    var (h, answer) := Alone(w.hist, read, made, fault);
    if read.None? || w.hist[read.value].Some? {
      Stepwise(w1, e2, []);
      Stepwise(w, e1, [e2]);
      assert [e1] + [e2] == [e1, e2] && [e2] + [] == [e2];
      assert w2 == World(h, w.passes[p := Ended(answer)]);
    } else {
      var w3 := Next(w2, e3);
      if made.None? {
        Stepwise(w2, e3, []);
        Stepwise(w1, e2, [e3]);
        Stepwise(w, e1, [e2, e3]);
        assert [e1] + [e2, e3] == [e1, e2, e3] && [e2] + [e3] == [e2, e3] && [e3] + [] == [e3];
        assert w3 == World(h, w.passes[p := Ended(answer)]);
      } else {
        Stepwise(w3, e4, []);
        Stepwise(w2, e3, [e4]);
        Stepwise(w1, e2, [e3, e4]);
        Stepwise(w, e1, [e2, e3, e4]);
        assert [e1] + [e2, e3, e4] == [e1, e2, e3, e4] && [e2] + [e3, e4] == [e2, e3, e4];
        assert [e3] + [e4] == [e3, e4] && [e4] + [] == [e4];
        assert Next(w3, e4) == World(h, w.passes[p := Ended(answer)]);
      }
    }
  }
}
