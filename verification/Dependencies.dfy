/**
 Resolution of required contract deployments, shared by SmartContractDeployment and
 TransactionInvoke (operator/internal/controller/transactioninvoke_controller.go,
 `checkSmartContractDeps`). The empty resolved-address map is dropped on persistence, so an empty
 map read back is the source's nil map.
 */
module Dependencies {
  import opened Collections
  import opened Transactions

  /** `ContractDepsSummary`: the empty string, or "resolved/required". */
  datatype Summary = Unwritten | Counted(resolved: nat, required: nat)

  /** The answer to reading another CR: an error, not found, or the address field in its status. */
  datatype Lookup = LookupFailed | NotFound | Found(address: Address)

  datatype Deps = Deps(summary: Summary, resolved: map<Name, Address>)

  datatype Check = Check(deps: Deps, changed: bool, ready: bool, err: bool)

  predicate Missing(resolved: map<Name, Address>, dep: Name) {
    dep !in resolved || resolved[dep] == ""
  }

  function Addresses(resolved: map<Name, Address>, dep: Name, answer: Lookup): (r: map<Name, Address>) {
    if Missing(resolved, dep) && answer.Found? && answer.address != "" then resolved[dep := answer.address]
    else resolved
  }

  /** The addresses known after looking at the dependencies in order, or None if a read failed. */
  function Resolve(required: seq<Name>, answers: seq<Lookup>, resolved: map<Name, Address>): (r: Option<map<Name,
      Address>>)
    requires |answers| == |required|
  {
    if required == [] then Some(resolved)
    else
      var n := |required| - 1;
      match Resolve(required[..n], answers[..n], resolved)
      case None => None
      case Some(m) =>
        if Missing(m, required[n]) && answers[n].LookupFailed? then None
        else Some(Addresses(m, required[n], answers[n]))
  }

  predicate DepsReady(required: seq<Name>, deps: Deps) {
    deps.summary != Unwritten && |deps.resolved| == |required|
  }

  function CheckDeps(required: seq<Name>, answers: seq<Lookup>, deps: Deps): (r: Check)
    requires |answers| == |required|
  {
    if DepsReady(required, deps) then Check(deps, false, true, false)
    else
      match Resolve(required, answers, deps.resolved)
      case None => Check(deps, false, false, true)
      case Some(m) =>
        Check(Deps(Counted(|m|, |required|), m), deps.resolved == map[] || m != deps.resolved, false, false)
  }

  /** Resolved addresses belong to required deployments and are never empty. */
  predicate ProperlyResolved(required: seq<Name>, resolved: map<Name, Address>) {
    resolved.Keys <= Names(required) && forall d <- resolved :: resolved[d] != ""
  }

  /** Every address `after` adds to `before` is the answer to a read of that very dependency. */
  ghost predicate Answered(required: seq<Name>, answers: seq<Lookup>, before: map<Name, Address>, after: map<Name,
      Address>)
    requires |answers| == |required|
  {
    forall d <- after :: d in before ||
      exists i :: 0 <= i < |required| && required[i] == d && answers[i] == Found(after[d])
  }

  /** Known addresses are never replaced, and new ones are genuine answers. */
  lemma {:induction false} ResolveAdds(required: seq<Name>, answers: seq<Lookup>, resolved: map<Name, Address>)
    requires |answers| == |required|
    requires forall d <- resolved :: resolved[d] != ""
    ensures var r := Resolve(required, answers, resolved);
            r.Some? ==>
              && (forall d <- resolved :: d in r.value && r.value[d] == resolved[d])
              && (forall d <- r.value :: r.value[d] != "")
              && r.value.Keys <= resolved.Keys + Names(required)
              && Answered(required, answers, resolved, r.value)
  {
    if required != [] {
      var n := |required| - 1;
      ResolveAdds(required[..n], answers[..n], resolved);
      assert Names(required[..n]) + {required[n]} == Names(required);
      var m := Resolve(required[..n], answers[..n], resolved);
      var r := Resolve(required, answers, resolved);
      if r.Some? {
        forall d | d in r.value && d !in resolved
          ensures exists i :: 0 <= i < |required| && required[i] == d && answers[i] == Found(r.value[d])
        {
          if d in m.value {
            var i :| 0 <= i < n && required[..n][i] == d && answers[..n][i] == Found(m.value[d]);
            assert required[i] == d && answers[i] == Found(r.value[d]);
          } else {
            assert required[n] == d && answers[n] == Found(r.value[d]);
          }
        }
      }
    }
  }

  /** A dependency whose read found an address is resolved afterwards. */
  lemma {:induction false} ResolveCompletes(required: seq<Name>, answers: seq<Lookup>, resolved: map<Name, Address>)
    requires |answers| == |required|
    requires forall d <- resolved :: resolved[d] != ""
    requires forall a <- answers :: a.Found? && a.address != ""
    ensures var r := Resolve(required, answers, resolved);
            r.Some? && Names(required) <= r.value.Keys
  {
    if required != [] {
      var n := |required| - 1;
      assert forall a <- answers[..n] :: a in answers;
      ResolveCompletes(required[..n], answers[..n], resolved);
      assert answers[n] in answers;
      assert Names(required[..n]) + {required[n]} == Names(required);
    }
  }

  /**
   The source compares two lengths; that test holds exactly when the required list has no
   repetition and every required deployment has an address. A repeated name blocks for ever.
   */
  lemma ReadyExactly(required: seq<Name>, resolved: map<Name, Address>)
    requires ProperlyResolved(required, resolved)
    ensures |resolved| == |required| <==> Distinct(required) && Names(required) == resolved.Keys
  {
    NamesCount(required);
    assert |resolved| == |resolved.Keys|;
    if |resolved| == |required| {
      SubsetOfEqualSize(resolved.Keys, Names(required));
    }
  }

  /** The status fields `checkSmartContractDeps` updates in place. */
  class ContractDependencies {
    var summary: Summary
    var resolved: map<Name, Address>

    constructor (deps: Deps)
      ensures Value() == deps
    {
      summary, resolved := deps.summary, deps.resolved;
    }

    ghost function Value(): (d: Deps)
      reads this
    {
      Deps(summary, resolved)
    }

    method CheckSmartContractDeps(required: seq<Name>, answers: seq<Lookup>) returns (changed: bool, ready: bool,
        err: bool)
      requires |answers| == |required|
      modifies this
      ensures var c := CheckDeps(required, answers, old(Value()));
              && (changed, ready, err) == (c.changed, c.ready, c.err)
              && (!err ==> Value() == c.deps)
    {
      if summary != Unwritten && |resolved| == |required| {
        return false, true, false;
      }
      changed := resolved == map[];
      for i := 0 to |required|
        invariant summary == old(summary)
        invariant Resolve(required[..i], answers[..i], old(resolved)) == Some(resolved)
        invariant changed == (old(resolved) == map[] || resolved != old(resolved))
        invariant forall d <- old(resolved) :: d in resolved && (resolved[d] == old(resolved)[d] || resolved[d] != "")
        invariant forall d <- resolved :: d !in old(resolved) ==> resolved[d] != ""
      {
        ghost var before := resolved;
        assert required[..i + 1][..i] == required[..i] && answers[..i + 1][..i] == answers[..i];
        if required[i] !in resolved || resolved[required[i]] == "" {
          if answers[i].LookupFailed? {
            FailureStays(required, answers, old(resolved), i + 1);
            return false, false, true;
          }
          if answers[i].Found? && answers[i].address != "" {
            changed := true;
            resolved := resolved[required[i] := answers[i].address];
            assert required[i] in resolved && Missing(before, required[i]);
            assert resolved != old(resolved) by {
              assert required[i] !in old(resolved) || old(resolved)[required[i]] == "";
            }
          }
        }
      }
      assert required[..|required|] == required && answers[..|answers|] == answers;
      summary := Counted(|resolved|, |required|);
      return changed, false, false;
    }
  }

  /** Once a read has failed the whole check fails. */
  lemma {:induction false} FailureStays(required: seq<Name>, answers: seq<Lookup>, resolved: map<Name, Address>, i: nat)
    requires |answers| == |required| && i <= |required|
    requires Resolve(required[..i], answers[..i], resolved).None?
    ensures Resolve(required, answers, resolved).None?
  {
    if i == |required| {
      assert required[..i] == required && answers[..i] == answers;
    } else {
      var n := |required| - 1;
      assert required[..n][..i] == required[..i] && answers[..n][..i] == answers[..i];
      FailureStays(required[..n], answers[..n], resolved, i);
    }
  }
}
