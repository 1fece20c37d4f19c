/**
 Deterministic generation of Kubernetes objects: merging service ports and de-duplicating lists
 (operator/internal/controller/common.go), and the TLS mounts of a node's transports
 (operator/internal/controller/paladin_controller.go).
 */
module Generation {
  import opened Collections

  // ---- the order of sort.Strings ----

  predicate Less(a: string, b: string) {
    b != [] && (a == [] || a[0] < b[0] || (a[0] == b[0] && Less(a[1..], b[1..])))
  }

  lemma {:induction false} LessIrreflexive(a: string)
    ensures !Less(a, a)
  {
    if a != [] { LessIrreflexive(a[1..]); }
  }

  lemma {:induction false} LessTransitive(a: string, b: string, c: string)
    requires Less(a, b) && Less(b, c)
    ensures Less(a, c)
  {
    if a != [] && a[0] == b[0] && b[0] == c[0] { LessTransitive(a[1..], b[1..], c[1..]); }
  }

  lemma {:induction false} LessTotal(a: string, b: string)
    ensures Less(a, b) || a == b || Less(b, a)
  {
    if a != [] && b != [] && a[0] == b[0] {
      LessTotal(a[1..], b[1..]);
      assert a[1..] == b[1..] ==> a == [a[0]] + a[1..] && b == [b[0]] + b[1..];
    }
  }

  predicate Ascending(s: seq<string>) { forall i, j :: 0 <= i < j < |s| ==> Less(s[i], s[j]) }

  ghost predicate Lists(s: seq<string>, names: set<string>) {
    Ascending(s) && forall n :: n in s <==> n in names
  }

  /** A set of names has only one ascending listing, so map iteration order leaves no trace. */
  lemma {:induction false} ListingUnique(a: seq<string>, b: seq<string>, names: set<string>)
    requires Lists(a, names) && Lists(b, names)
    ensures a == b
  {
    assert a == [] <==> b == [] by {
      assert a != [] ==> a[0] in a;
      assert b != [] ==> b[0] in b;
    }
    if a != [] {
      assert a[0] in a && b[0] in b;
      FirstIsLeast(a, b);
      FirstIsLeast(b, a);
      LessAsymmetric(a[0], b[0]);
      TailLists(a, names);
      TailLists(b, names);
      ListingUnique(a[1..], b[1..], names - {a[0]});
      assert a == [a[0]] + a[1..] && b == [b[0]] + b[1..];
    }
  }

  lemma LessAsymmetric(a: string, b: string)
    ensures !(Less(a, b) && Less(b, a))
  {
    if Less(a, b) && Less(b, a) {
      LessTransitive(a, b, a);
      LessIrreflexive(a);
    }
  }

  lemma FirstIsLeast(a: seq<string>, b: seq<string>)
    requires a != [] && b != [] && Ascending(a) && b[0] in a
    ensures a[0] == b[0] || Less(a[0], b[0])
  {
    var i :| 0 <= i < |a| && a[i] == b[0];
  }

  lemma TailLists(s: seq<string>, names: set<string>)
    requires s != [] && Lists(s, names)
    ensures Lists(s[1..], names - {s[0]})
  {
    forall n ensures n in s[1..] <==> n in names - {s[0]} {
      if n in s[1..] {
        var i :| 0 < i < |s| && s[i] == n;
        assert Less(s[0], s[i]);
        LessIrreflexive(s[0]);
      }
      assert n in names && n != s[0] ==> n in s && n in s[1..];
    }
  }

  /** sort.Strings on the distinct keys of a map, visited in any order. */
  method SortNames(names: set<string>) returns (s: seq<string>)
    ensures Lists(s, names)
  {
    s := [];
    var rest := names;
    while rest != {}
      invariant rest <= names && Ascending(s)
      invariant forall n :: n in s <==> n in names - rest
    {
      var n :| n in rest;
      s := InsertName(s, n);
      rest := rest - {n};
    }
  }

  method InsertName(s: seq<string>, n: string) returns (r: seq<string>)
    requires Ascending(s) && n !in s
    ensures Ascending(r) && forall x :: x in r <==> x in s || x == n
  {
    var i := 0;
    while i < |s| && Less(s[i], n)
      invariant 0 <= i <= |s| && forall j :: 0 <= j < i ==> Less(s[j], n)
    {
      i := i + 1;
    }
    forall j | i <= j < |s| ensures Less(n, s[j]) {
      assert s[i] in s;
      LessTotal(n, s[i]);
      if i < j { LessTransitive(n, s[i], s[j]); }
    }
    r := s[..i] + [n] + s[i..];
    forall x ensures x in r <==> x in s || x == n {
      assert s == s[..i] + s[i..];
    }
  }

  // ---- mergeServicePorts ----

  /** A service port: `port` is the service's own port, `extra` whatever else the entry carries. */
  datatype Port = Port(name: string, port: int, target: string, protocol: string, extra: string)

  /** Where a required port meets a provided one of the same name. */
  function Override(p: Port, r: Port): (q: Port) {
    p.(target := r.target, protocol := r.protocol, port := if p.port == 0 then r.port else p.port)
  }

  function ByName(ports: seq<Port>): (m: map<string, Port>) {
    if ports == [] then map[] else ByName(ports[..|ports| - 1])[ports[|ports| - 1].name := ports[|ports| - 1]]
  }

  function Require(m: map<string, Port>, required: seq<Port>): (r: map<string, Port>) {
    if required == [] then m
    else
      var before := Require(m, required[..|required| - 1]);
      var p := required[|required| - 1];
      before[p.name := if p.name in before then Override(before[p.name], p) else p]
  }

  /** The ports of a map in name order. */
  ghost predicate PortList(ports: seq<Port>, m: map<string, Port>) {
    && (forall i, j :: 0 <= i < j < |ports| ==> Less(ports[i].name, ports[j].name))
    && (forall i :: 0 <= i < |ports| ==> ports[i].name in m && m[ports[i].name] == ports[i])
    && (forall n <- m :: exists i :: 0 <= i < |ports| && ports[i].name == n)
  }

  class ServiceSpec {
    var ports: seq<Port>

    method MergeServicePorts(required: seq<Port>)
      modifies this
      ensures PortList(ports, Require(ByName(old(ports)), required))
    {
      var byName: map<string, Port> := map[];
      for i := 0 to |ports|
        invariant ports == old(ports) && byName == ByName(ports[..i])
      {
        assert ports[..i + 1][..i] == ports[..i];
        byName := byName[ports[i].name := ports[i]];
      }
      assert ports[..|ports|] == ports;
      for i := 0 to |required|
        invariant ports == old(ports) && byName == Require(ByName(ports), required[..i])
      {
        assert required[..i + 1][..i] == required[..i];
        var r := required[i];
        if r.name !in byName {
          byName := byName[r.name := r];
        } else {
          var p := byName[r.name];
          p := p.(target := r.target);
          p := p.(protocol := r.protocol);
          if p.port == 0 {
            p := p.(port := r.port);
          }
          byName := byName[r.name := p];
        }
      }
      assert required[..|required|] == required;
      ByNameKept(old(ports));
      NamesKept(ByName(old(ports)), required);
      ports := InNameOrder(byName);
    }
  }

  /** The loop that lists the merged ports by sorted name. */
  method InNameOrder(byName: map<string, Port>) returns (ports: seq<Port>)
    requires forall n <- byName :: byName[n].name == n
    ensures PortList(ports, byName)
  {
    var names := SortNames(byName.Keys);
    ports := [];
    for i := 0 to |names|
      invariant |ports| == i && forall j :: 0 <= j < i ==> ports[j] == byName[names[j]] && ports[j].name == names[j]
    {
      assert names[i] in names;
      ports := ports + [byName[names[i]]];
    }
    forall n | n in byName ensures exists i :: 0 <= i < |ports| && ports[i].name == n {
      assert n in names;
      var i :| 0 <= i < |names| && names[i] == n;
      assert ports[i].name == n;
    }
  }

  lemma {:induction false} ByNameKept(ports: seq<Port>)
    ensures forall n <- ByName(ports) :: ByName(ports)[n].name == n
  {
    if ports != [] { ByNameKept(ports[..|ports| - 1]); }
  }

  lemma {:induction false} NamesKept(m: map<string, Port>, required: seq<Port>)
    requires forall n <- m :: m[n].name == n
    ensures forall n <- Require(m, required) :: Require(m, required)[n].name == n
  {
    if required != [] { NamesKept(m, required[..|required| - 1]); }
  }

  /** What the required ports make of the entry of one name, looked at on its own. */
  function Value(o: Option<Port>, required: seq<Port>, n: string): (v: Option<Port>) {
    if required == [] then o
    else
      var v := Value(o, required[..|required| - 1], n);
      var r := required[|required| - 1];
      if r.name != n then v else if v.None? then Some(r) else Some(Override(v.value, r))
  }

  function Lookup(m: map<string, Port>, n: string): (o: Option<Port>) { if n in m then Some(m[n]) else None }

  lemma {:induction false} RequireByName(m: map<string, Port>, required: seq<Port>, n: string)
    ensures Lookup(Require(m, required), n) == Value(Lookup(m, n), required, n)
  {
    if required != [] { RequireByName(m, required[..|required| - 1], n); }
  }

  /** The last required port of that name. */
  function LastOf(required: seq<Port>, n: string): (r: Option<Port>) {
    if required == [] then None
    else if required[|required| - 1].name == n then Some(required[|required| - 1])
    else LastOf(required[..|required| - 1], n)
  }

  /** The service port kept: the first non-zero one. */
  function KeptPort(port: int, required: seq<Port>, n: string): (p: int) {
    if required == [] then port
    else
      var p := KeptPort(port, required[..|required| - 1], n);
      var r := required[|required| - 1];
      if r.name == n && p == 0 then r.port else p
  }

  lemma {:induction false} ValueOfProvided(p: Port, required: seq<Port>, n: string)
    ensures Value(Some(p), required, n) ==
              match LastOf(required, n)
              case None => Some(p)
              case Some(r) => Some(p.(target := r.target, protocol := r.protocol,
                  port := KeptPort(p.port, required, n)))
    ensures LastOf(required, n).None? ==> KeptPort(p.port, required, n) == p.port
  {
    if required != [] { ValueOfProvided(p, required[..|required| - 1], n); }
  }

  lemma {:induction false} ValueOfMissing(required: seq<Port>, n: string)
    ensures match LastOf(required, n)
            case None => Value(None, required, n) == None
            case Some(r) => Value(None, required, n).Some? && Value(None, required, n).value.target == r.target
                            && Value(None, required, n).value.protocol == r.protocol
                            && Value(None, required, n).value.port == KeptPort(0, required, n)
    ensures LastOf(required, n).None? ==> KeptPort(0, required, n) == 0
  {
    if required != [] { ValueOfMissing(required[..|required| - 1], n); }
  }

  lemma {:induction false} KeptPortSettles(port: int, required: seq<Port>, n: string, again: seq<Port>)
    requires again <= required
    ensures KeptPort(KeptPort(port, required, n), again, n) == KeptPort(port, required, n)
  {
    if again != [] {
      KeptPortSettles(port, required, n, again[..|again| - 1]);
      if KeptPort(port, required, n) == 0 &&
          required[|again| - 1].name == n { ZeroMeansZeros(port, required, n, |again| - 1); }
    }
  }

  lemma {:induction false} ZeroMeansZeros(port: int, required: seq<Port>, n: string, i: nat)
    requires KeptPort(port, required, n) == 0 && i < |required| && required[i].name == n
    ensures required[i].port == 0
  {
    var k := |required| - 1;
    if i < k { ZeroMeansZeros(port, required[..k], n, i); }
  }

  lemma ValueSettles(o: Option<Port>, required: seq<Port>, n: string)
    ensures Value(Value(o, required, n), required, n) == Value(o, required, n)
  {
    if o.Some? {
      ValueOfProvided(o.value, required, n);
      KeptPortSettles(o.value.port, required, n, required);
    } else {
      ValueOfMissing(required, n);
      KeptPortSettles(0, required, n, required);
    }
    var v := Value(o, required, n);
    if v.Some? { ValueOfProvided(v.value, required, n); }
  }

  lemma SameLookups(a: map<string, Port>, b: map<string, Port>)
    requires forall n :: Lookup(a, n) == Lookup(b, n)
    ensures a == b
  {
    assert forall n :: n in a <==> Lookup(a, n).Some?;
    assert forall n :: n in b <==> Lookup(b, n).Some?;
    assert a.Keys == b.Keys;
    forall n | n in a ensures a[n] == b[n] { assert Lookup(a, n) == Lookup(b, n); }
  }

  /** Target port and protocol always come from the required side; every name is covered. */
  lemma RequiredSideWins(provided: seq<Port>, required: seq<Port>, ports: seq<Port>, n: string)
    requires PortList(ports, Require(ByName(provided), required))
    ensures (exists i :: 0 <= i < |ports| && ports[i].name == n) <==> n in ByName(provided) || LastOf(required, n).Some?
    ensures forall i :: 0 <= i < |ports| && ports[i].name == n && LastOf(required, n).Some? ==>
              ports[i].target == LastOf(required, n).value.target &&
                  ports[i].protocol == LastOf(required, n).value.protocol
    ensures forall i :: 0 <= i < |ports| && ports[i].name == n && LastOf(required, n).None? ==>
      ports[i] == ByName(provided)[n]
  {
    var m := Require(ByName(provided), required);
    RequireByName(ByName(provided), required, n);
    if n in ByName(provided) { ValueOfProvided(ByName(provided)[n], required, n); }
        else { ValueOfMissing(required, n); }
    assert n in m <==> Lookup(m, n).Some?;
  }

  lemma {:induction false} ListByName(ports: seq<Port>, m: map<string, Port>)
    requires PortList(ports, m)
    ensures forall n :: Lookup(ByName(ports), n) == Lookup(m, n)
  {
    forall n ensures Lookup(ByName(ports), n) == Lookup(m, n) {
      if n in m {
        var i :| 0 <= i < |ports| && ports[i].name == n;
        ByNameFinds(ports, i);
      } else {
        ByNameMisses(ports, n);
      }
    }
  }

  lemma {:induction false} ByNameFinds(ports: seq<Port>, i: nat)
    requires i < |ports| && forall j, k :: 0 <= j < k < |ports| ==> Less(ports[j].name, ports[k].name)
    ensures Lookup(ByName(ports), ports[i].name) == Some(ports[i])
  {
    var k := |ports| - 1;
    if i < k {
      ByNameFinds(ports[..k], i);
      LessIrreflexive(ports[i].name);
    }
  }

  lemma {:induction false} ByNameMisses(ports: seq<Port>, n: string)
    requires forall i :: 0 <= i < |ports| ==> ports[i].name != n
    ensures n !in ByName(ports)
  {
    if ports != [] { ByNameMisses(ports[..|ports| - 1], n); }
  }

  function PortNames(ports: seq<Port>): (s: seq<string>)
    ensures |s| == |ports| && forall i :: 0 <= i < |s| ==> s[i] == ports[i].name
  {
    seq(|ports|, i requires 0 <= i < |ports| => ports[i].name)
  }

  lemma PortListUnique(a: seq<Port>, b: seq<Port>, m: map<string, Port>)
    requires PortList(a, m) && PortList(b, m)
    ensures a == b
  {
    PortListNames(a, m);
    PortListNames(b, m);
    ListingUnique(PortNames(a), PortNames(b), m.Keys);
    forall i | 0 <= i < |a| ensures a[i] == b[i] { assert PortNames(a)[i] == PortNames(b)[i]; }
  }

  lemma PortListNames(ports: seq<Port>, m: map<string, Port>)
    requires PortList(ports, m)
    ensures Lists(PortNames(ports), m.Keys)
  {
    forall n | n in m ensures n in PortNames(ports) {
      var i :| 0 <= i < |ports| && ports[i].name == n;
      assert PortNames(ports)[i] == n;
    }
  }

  /** Merging again with the same required ports changes nothing. */
  lemma MergeIdempotent(provided: seq<Port>, required: seq<Port>, once: seq<Port>, twice: seq<Port>)
    requires PortList(once, Require(ByName(provided), required)) && PortList(twice, Require(ByName(once), required))
    ensures twice == once
  {
    var m := Require(ByName(provided), required);
    ListByName(once, m);
    forall n ensures Lookup(Require(ByName(once), required), n) == Lookup(m, n) {
      RequireByName(ByName(once), required, n);
      RequireByName(ByName(provided), required, n);
      ValueSettles(Lookup(ByName(provided), n), required, n);
    }
    SameLookups(Require(ByName(once), required), m);
    PortListUnique(once, twice, m);
  }

  // ---- deDupAndSortInLocalNS ----

  /** The first item with that name. */
  function FirstNamed<T>(items: seq<T>, name: T -> string, n: string): (r: Option<T>) {
    if items == [] then None
    else
      var before := FirstNamed(items[..|items| - 1], name, n);
      var e := items[|items| - 1];
      if before.None? && name(e) == n then Some(e) else before
  }

  /** The de-duplicated list: one item per name, the first one given, in name order. */
  ghost predicate DeDuped<T>(items: seq<T>, name: T -> string, out: seq<T>) {
    && (forall i, j :: 0 <= i < j < |out| ==> Less(name(out[i]), name(out[j])))
    && (forall i :: 0 <= i < |out| ==> FirstNamed(items, name, name(out[i])) == Some(out[i]))
    && (forall e <- items :: exists i :: 0 <= i < |out| && name(out[i]) == name(e))
  }

  method DeDupAndSort<T>(items: seq<T>, name: T -> string) returns (out: seq<T>)
    ensures DeDuped(items, name, out)
  {
    var entries: map<string, T> := map[];
    for i := 0 to |items|
      invariant forall n :: FirstNamed(items[..i], name, n) == if n in entries then Some(entries[n]) else None
      invariant forall n <- entries :: name(entries[n]) == n
      invariant forall e <- items[..i] :: name(e) in entries
    {
      assert items[..i + 1][..i] == items[..i];
      if name(items[i]) !in entries {
        entries := entries[name(items[i]) := items[i]];
      }
    }
    assert items[..|items|] == items;
    var names := SortNames(entries.Keys);
    out := [];
    for i := 0 to |names|
      invariant |out| == i && forall j :: 0 <= j < i ==> names[j] in entries && out[j] == entries[names[j]]
    {
      assert names[i] in names;
      out := out + [entries[names[i]]];
    }
    forall e | e in items ensures exists i :: 0 <= i < |out| && name(out[i]) == name(e) {
      assert name(e) in names;
      var i :| 0 <= i < |names| && names[i] == name(e);
      assert name(out[i]) == name(e);
    }
  }

  lemma {:induction false} FirstNamedIsOne<T>(items: seq<T>, name: T -> string, n: string)
    ensures var f := FirstNamed(items, name, n);
            if f.Some? then f.value in items && name(f.value) == n else forall e <- items :: name(e) != n
  {
    if items != [] {
      FirstNamedIsOne(items[..|items| - 1], name, n);
      assert forall e <- items :: e in items[..|items| - 1] || e == items[|items| - 1];
    }
  }

  function NamesOf<T>(items: seq<T>, name: T -> string): (s: seq<string>)
    ensures |s| == |items| && forall i :: 0 <= i < |s| ==> s[i] == name(items[i])
  {
    seq(|items|, i requires 0 <= i < |items| => name(items[i]))
  }

  lemma DeDupedNames<T>(items: seq<T>, name: T -> string, out: seq<T>)
    requires DeDuped(items, name, out)
    ensures Lists(NamesOf(out, name), set e <- items :: name(e))
  {
    var names := set e <- items :: name(e);
    forall n ensures n in NamesOf(out, name) <==> n in names {
      if n in names {
        var e :| e in items && name(e) == n;
        var i :| 0 <= i < |out| && name(out[i]) == name(e);
        assert NamesOf(out, name)[i] == n;
      }
      if n in NamesOf(out, name) {
        var i :| 0 <= i < |out| && name(out[i]) == n;
        FirstNamedIsOne(items, name, n);
        assert out[i] in items;
      }
    }
  }

  /** If equal names mean equal items, the output does not depend on the order or repetition of the input. */
  lemma DeDupIgnoresOrder<T>(items: seq<T>, items': seq<T>, name: T -> string, out: seq<T>, out': seq<T>)
    requires DeDuped(items, name, out) && DeDuped(items', name, out')
    requires forall e :: e in items <==> e in items'
    requires forall d <- items, e <- items :: name(d) == name(e) ==> d == e
    ensures out == out'
  {
    assert (set e <- items :: name(e)) == (set e <- items' :: name(e));
    DeDupedNames(items, name, out);
    DeDupedNames(items', name, out');
    ListingUnique(NamesOf(out, name), NamesOf(out', name), set e <- items :: name(e));
    forall i | 0 <= i < |out| ensures out[i] == out'[i] {
      assert NamesOf(out, name)[i] == NamesOf(out', name)[i];
      FirstNamedIsOne(items, name, name(out[i]));
      FirstNamedIsOne(items', name, name(out'[i]));
    }
  }

  // ---- TLS mounts ----

  function Digit(d: nat): char
    requires d < 10
  {
    ('0' as int + d) as char
  }

  function Decimal(n: nat): (s: string) {
    if n < 10 then [Digit(n)] else Decimal(n / 10) + [Digit(n % 10)]
  }

  /** fmt.Sprintf("%.3d", n) */
  function Padded(n: nat): (s: string) {
    if n < 10 then "00" + Decimal(n) else if n < 100 then "0" + Decimal(n) else Decimal(n)
  }

  function Number(s: string): (n: int) {
    if s == [] then 0 else Number(s[..|s| - 1]) * 10 + (s[|s| - 1] as int - '0' as int)
  }

  lemma {:induction false} NumberOfDecimal(n: nat)
    ensures Number(Decimal(n)) == n
  {
    if n < 10 {
      assert Decimal(n)[..0] == [];
    } else {
      NumberOfDecimal(n / 10);
      assert Decimal(n)[..|Decimal(n)| - 1] == Decimal(n / 10);
    }
  }

  lemma {:induction false} LeadingZero(s: string)
    ensures Number("0" + s) == Number(s)
  {
    if s == [] {
      assert "0" + s == "0" && "0"[..0] == [];
    } else {
      LeadingZero(s[..|s| - 1]);
      assert ("0" + s)[..|"0" + s| - 1] == "0" + s[..|s| - 1];
    }
  }

  /** Directory numbers are unambiguous, beyond three digits too. */
  lemma PaddedInjective(i: nat, j: nat)
    requires Padded(i) == Padded(j)
    ensures i == j
  {
    NumberOfPadded(i);
    NumberOfPadded(j);
  }

  lemma NumberOfPadded(n: nat)
    ensures Number(Padded(n)) == n
  {
    NumberOfDecimal(n);
    LeadingZero(Decimal(n));
    LeadingZero("0" + Decimal(n));
    assert "00" + Decimal(n) == "0" + ("0" + Decimal(n));
  }

  /** A transport of a node's spec, and what looking up its TLS secret answers. */
  datatype Answer = SecretFound | SecretMissing | LookupFailed
  datatype Transport = Transport(name: string, configParses: bool, secret: string, answer: Answer)

  predicate Skipped(t: Transport) { !t.configParses || t.secret == "" }

  function Directory(i: nat): string { "/cert" + Padded(i) }
  function VolumeName(i: nat): string { "cert" + Padded(i) }

  datatype Generated = Generated(secrets: seq<string>, certDirs: map<string, string>)

  /** generatePaladinTransports: the secrets to mount, and the certificate directory of each transport. */
  function Transports(ts: seq<Transport>): (r: Option<Generated>) {
    if ts == [] then Some(Generated([], map[]))
    else
      var t := ts[|ts| - 1];
      match Transports(ts[..|ts| - 1])
      case None => None
      case Some(g) =>
        if Skipped(t) then Some(g)
        else if !t.answer.SecretFound? then None
        else Some(Generated(g.secrets + [t.secret], g.certDirs[t.name := Directory(|g.secrets|)]))
  }

  class NodeConfig {
    var certDirs: map<string, string>

    constructor ()
      ensures certDirs == map[]
    {
      certDirs := map[];
    }

    method GeneratePaladinTransports(ts: seq<Transport>) returns (secrets: seq<string>, err: bool)
      requires certDirs == map[]
      modifies this
      ensures err <==> Transports(ts).None?
      ensures !err ==> Generated(secrets, certDirs) == Transports(ts).value
    {
      secrets := [];
      for i := 0 to |ts|
        invariant Transports(ts[..i]) == Some(Generated(secrets, certDirs))
      {
        assert ts[..i + 1][..i] == ts[..i];
        if !ts[i].configParses {
          continue;
        }
        if ts[i].secret == "" {
          continue;
        }
        if !ts[i].answer.SecretFound? {
          ErrorStays(ts, i + 1);
          return [], true;
        }
        var tlsIdx := |secrets|;
        secrets := secrets + [ts[i].secret];
        certDirs := certDirs[ts[i].name := Directory(tlsIdx)];
      }
      assert ts[..|ts|] == ts;
      return secrets, false;
    }
  }

  lemma {:induction false} ErrorStays(ts: seq<Transport>, i: nat)
    requires i <= |ts| && Transports(ts[..i]).None?
    ensures Transports(ts).None?
  {
    if i == |ts| {
      assert ts[..i] == ts;
    } else {
      assert ts[..|ts| - 1][..i] == ts[..i];
      ErrorStays(ts[..|ts| - 1], i);
    }
  }

  datatype Volume = Volume(name: string, secret: string)
  datatype Mount = Mount(volume: string, path: string)

  function Volumes(secrets: seq<string>): (v: seq<Volume>)
    ensures |v| == |secrets| && forall i :: 0 <= i < |v| ==> v[i] == Volume(VolumeName(i), secrets[i])
  {
    seq(|secrets|, i requires 0 <= i < |secrets| => Volume(VolumeName(i), secrets[i]))
  }

  function Mounts(secrets: seq<string>): (m: seq<Mount>)
    ensures |m| == |secrets| && forall i :: 0 <= i < |m| ==> m[i] == Mount(VolumeName(i), Directory(i))
  {
    seq(|secrets|, i requires 0 <= i < |secrets| => Mount(VolumeName(i), Directory(i)))
  }

  /** addTLSSecretMounts: one volume and one mount per secret, added to those there already. */
  method AddTLSSecretMounts(secrets: seq<string>, volumes: seq<Volume>,
      mounts: seq<Mount>) returns (volumes': seq<Volume>, mounts': seq<Mount>)
    ensures volumes' == volumes + Volumes(secrets) && mounts' == mounts + Mounts(secrets)
  {
    volumes', mounts' := volumes, mounts;
    for i := 0 to |secrets|
      invariant volumes' == volumes + Volumes(secrets)[..i] && mounts' == mounts + Mounts(secrets)[..i]
    {
      mounts' := mounts' + [Mount(VolumeName(i), Directory(i))];
      volumes' := volumes' + [Volume(VolumeName(i), secrets[i])];
    }
  }

  lemma NamesDiffer(i: nat, j: nat)
    requires i != j
    ensures VolumeName(i) != VolumeName(j) && Directory(i) != Directory(j)
  {
    if VolumeName(i) == VolumeName(j) || Directory(i) == Directory(j) {
      assert VolumeName(i)[4..] == Padded(i) && VolumeName(j)[4..] == Padded(j);
      assert Directory(i)[5..] == Padded(i) && Directory(j)[5..] == Padded(j);
      PaddedInjective(i, j);
    }
  }

  /** The secret of the last usable transport of that name. */
  function OwnSecret(ts: seq<Transport>, name: string): (r: Option<string>) {
    if ts == [] then None
    else
      var t := ts[|ts| - 1];
      if !Skipped(t) && t.name == name then Some(t.secret) else OwnSecret(ts[..|ts| - 1], name)
  }

  /** Each generated transport's certificate directory carries the number of its own secret. */
  lemma {:induction false} CertDirIsOwn(ts: seq<Transport>, name: string)
    requires Transports(ts).Some?
    ensures var g := Transports(ts).value;
            && (name in g.certDirs <==> OwnSecret(ts, name).Some?)
            && (name in g.certDirs ==>
                  exists i :: 0 <= i < |g.secrets| && g.certDirs[name] == Directory(i) &&
                      OwnSecret(ts, name) == Some(g.secrets[i]))
  {
    if ts != [] {
      var k := |ts| - 1;
      CertDirIsOwn(ts[..k], name);
      var before, after := Transports(ts[..k]).value, Transports(ts).value;
      if !Skipped(ts[k]) && ts[k].name == name {
        assert after.certDirs[name] == Directory(|before.secrets|) && after.secrets[|before.secrets|] == ts[k].secret;
      } else if name in before.certDirs {
        var i :| 0 <= i < |before.secrets| && before.certDirs[name] == Directory(i) &&
            OwnSecret(ts[..k], name) == Some(before.secrets[i]);
        assert after.certDirs[name] == Directory(i) && after.secrets[i] == before.secrets[i];
      }
    }
  }

  /** A directory at which exactly one mount of exactly one volume puts that secret. */
  ghost predicate MountedAt(volumes: seq<Volume>, mounts: seq<Mount>, path: string, secret: string) {
    exists v: nat, m: nat ::
      && v < |volumes| && m < |mounts| && mounts[m] == Mount(volumes[v].name, path) && volumes[v].secret == secret
      && (forall w: nat :: w < |volumes| && volumes[w].name == volumes[v].name ==> w == v)
      && (forall n: nat :: n < |mounts| && mounts[n].path == path ==> n == m)
  }

  /** No volume or mount that is there already takes the name or the directory. */
  predicate Free(volumes: seq<Volume>, mounts: seq<Mount>, path: string)
    requires path != ""
  {
    (forall v <- volumes :: v.name != path[1..]) && forall m <- mounts :: m.path != path
  }

  lemma DirectoryName(i: nat)
    ensures Directory(i) != "" && Directory(i)[1..] == VolumeName(i)
  {
  }

  /** One secret among the volumes and mounts of a container, those it had before included. */
  lemma MountedExactly(volumes: seq<Volume>, mounts: seq<Mount>, secrets: seq<string>, i: nat)
    requires i < |secrets|
    ensures Directory(i) != ""
    ensures MountedAt(volumes + Volumes(secrets), mounts + Mounts(secrets), Directory(i), secrets[i])
       <==> Free(volumes, mounts, Directory(i))
  {
    hide Directory, VolumeName;
    var vs, ms := volumes + Volumes(secrets), mounts + Mounts(secrets);
    DirectoryName(i);
    var v, m := |volumes| + i, |mounts| + i;
    assert vs[v] == Volume(VolumeName(i), secrets[i]) && ms[m] == Mount(VolumeName(i), Directory(i));
    forall j: nat | j != i ensures VolumeName(j) != VolumeName(i) && Directory(j) != Directory(i) { NamesDiffer(j, i); }
    if Free(volumes, mounts, Directory(i)) {
      assert forall w :: 0 <= w < |volumes| ==> vs[w] == volumes[w] && volumes[w] in volumes;
      assert forall n :: 0 <= n < |mounts| ==> ms[n] == mounts[n] && mounts[n] in mounts;
    }
    if MountedAt(vs, ms, Directory(i), secrets[i]) {
      OnlyMount(volumes, mounts, secrets, i);
    }
  }

  lemma OnlyMount(volumes: seq<Volume>, mounts: seq<Mount>, secrets: seq<string>, i: nat)
    requires i < |secrets|
    requires MountedAt(volumes + Volumes(secrets), mounts + Mounts(secrets), Directory(i), secrets[i])
    ensures Directory(i) != "" && Free(volumes, mounts, Directory(i))
  {
    hide Directory, VolumeName;
    var vs, ms := volumes + Volumes(secrets), mounts + Mounts(secrets);
    DirectoryName(i);
    assert ms[|mounts| + i] == Mount(VolumeName(i), Directory(i)) && vs[|volumes| + i].name == VolumeName(i);
    var v: nat, m: nat :|
      && v < |vs| && m < |ms| && ms[m] == Mount(vs[v].name, Directory(i)) && vs[v].secret == secrets[i]
      && (forall w: nat :: w < |vs| && vs[w].name == vs[v].name ==> w == v)
      && (forall n: nat :: n < |ms| && ms[n].path == Directory(i) ==> n == m);
    assert m == |mounts| + i && v == |volumes| + i;
    forall x | x in mounts ensures x.path != Directory(i) {
      var n :| 0 <= n < |mounts| && mounts[n] == x;
      assert ms[n] == x;
    }
    forall x | x in volumes ensures x.name != VolumeName(i) {
      var n :| 0 <= n < |volumes| && volumes[n] == x;
      assert vs[n] == x;
    }
  }

  /**
   From the configuration to the container: a transport has a certificate directory exactly if it is
   configured with TLS, and what is mounted there is one volume with that transport's own secret,
   however many transports are skipped or repeated, exactly if nothing the container had before
   takes the name or the directory (a log path such as /cert000/x.log would).
   */
  lemma CertDirIsMounted(ts: seq<Transport>, volumes: seq<Volume>, mounts: seq<Mount>, name: string)
    requires Transports(ts).Some?
    ensures var g := Transports(ts).value;
            && (name in g.certDirs <==> OwnSecret(ts, name).Some?)
            && (name in g.certDirs ==>
                  var own := OwnSecret(ts, name).value;
                  && g.certDirs[name] != ""
                  && (MountedAt(volumes + Volumes(g.secrets), mounts + Mounts(g.secrets), g.certDirs[name], own)
                      <==> Free(volumes, mounts, g.certDirs[name])))
  {
    hide Transports, OwnSecret, Directory, VolumeName, MountedAt, Free;
    CertDirIsOwn(ts, name);
    var g := Transports(ts).value;
    if name in g.certDirs {
      var i: nat :|
        i < |g.secrets| && g.certDirs[name] == Directory(i) && OwnSecret(ts, name) == Some(g.secrets[i]);
      MountedExactly(volumes, mounts, g.secrets, i);
    }
  }
}
