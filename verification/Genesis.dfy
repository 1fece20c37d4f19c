/**
 The Besu genesis: which validators it starts with
 (operator/internal/controller/besugenesis_controller.go) and how they are written into the QBFT
 extra data (testinfra/pkg/besugenesis/genesis.go).
 */
module Genesis {
  import opened Collections
  import Rlp

  // ---- QBFT extra data ----

  type Address = a: Rlp.Bytes | |a| == 20 witness seq(20, _ => 0)

  /** The bytes of "paladin". */
  const PALADIN: Rlp.Bytes := [112, 97, 108, 97, 100, 105, 110]

  /** 32 bytes of vanity: "paladin", then zeros. */
  function Vanity(): (v: Rlp.Bytes)
    ensures |v| == 32
  {
    PALADIN + seq(25, _ => 0)
  }

  function Wrapped(validators: seq<Address>): (items: seq<Rlp.Item>)
    ensures |items| == |validators| && forall i :: 0 <= i < |items| ==> items[i] == Rlp.Data(validators[i])
  {
    seq(|validators|, i requires 0 <= i < |validators| => Rlp.Data(validators[i]))
  }

  /** Vanity, validators, no vote, round 0, no seals. */
  function ExtraData(validators: seq<Address>): (x: Rlp.Item) {
    Rlp.List([Rlp.Data(Vanity()), Rlp.List(Wrapped(validators)), Rlp.List([]), Rlp.Data(Rlp.BigEndian(0)),
        Rlp.List([])])
  }

  method BuildQBFTExtraData(validators: seq<Address>) returns (out: Rlp.Bytes)
    requires Rlp.Fits(ExtraData(validators))
    ensures out == Rlp.Encode(ExtraData(validators))
  {
    var vanity := new Rlp.Byte[32](_ => 0);
    for i := 0 to |PALADIN|
      invariant vanity[..i] == PALADIN[..i]
      invariant forall j :: i <= j < 32 ==> vanity[j] == 0
    {
      vanity[i] := PALADIN[i];
    }
    assert vanity[..] == Vanity() by {
      assert vanity[..7] == PALADIN;
      assert forall j :: 7 <= j < 32 ==> vanity[..][j] == Vanity()[j];
      assert forall j :: 0 <= j < 7 ==> vanity[..][j] == vanity[..7][j] == Vanity()[j];
    }
    var rlpValidators: seq<Rlp.Item> := [];
    for i := 0 to |validators|
      invariant rlpValidators == Wrapped(validators[..i])
    {
      rlpValidators := rlpValidators + [Rlp.Data(validators[i])];
    }
    assert validators[..|validators|] == validators;
    var extraData := Rlp.List([
      Rlp.Data(vanity[..]),
      Rlp.List(rlpValidators),
      Rlp.List([]),
      Rlp.Data(Rlp.BigEndian(0)),
      Rlp.List([])]);
    out := Rlp.Encode(extraData);
  }

  lemma {:induction false} AddressesLength(validators: seq<Address>)
    ensures Rlp.FitsAll(Wrapped(validators)) && |Rlp.EncodeAll(Wrapped(validators))| == 21 * |validators|
  {
    if validators != [] {
      AddressesLength(validators[1..]);
      assert Wrapped(validators)[1..] == Wrapped(validators[1..]);
      assert |Rlp.Encode(Wrapped(validators)[0])| == 21;
    }
  }

  /** How long the five parts are, given the length prefix of the validators. */
  lemma PartsLength(v: Rlp.Item)
    requires Rlp.Fits(v)
    ensures var parts := [Rlp.Data(Vanity()), v, Rlp.List([]), Rlp.Data(Rlp.BigEndian(0)), Rlp.List([])];
      Rlp.FitsAll(parts) && |Rlp.EncodeAll(parts)| == 36 + |Rlp.Encode(v)|
  {
    var last := [Rlp.List([]), Rlp.Data(Rlp.BigEndian(0)), Rlp.List([])];
    assert Rlp.EncodeAll([]) == [];
    assert Rlp.Fits(Rlp.List([])) && |Rlp.Encode(Rlp.List([]))| == 1;
    assert |Rlp.Encode(Rlp.Data([]))| == 1;
    assert |Rlp.EncodeAll(last[1..][1..])| == 1 && |Rlp.EncodeAll(last[1..])| == 2 && |Rlp.EncodeAll(last)| == 3;
    var rest := [v] + last;
    assert rest[1..] == last && |Rlp.EncodeAll(rest)| == |Rlp.Encode(v)| + 3;
    var parts := [Rlp.Data(Vanity())] + rest;
    assert parts[1..] == rest && |Rlp.Encode(Rlp.Data(Vanity()))| == 33;
  }

  lemma BigWidth(n: nat)
    requires 0x100_0000_0000_0000 <= n < Rlp.LIMIT
    ensures |Rlp.BigEndian(n)| == 8
  {
    Rlp.LengthWidth(n);
    assert Rlp.Pow256(3) == 0x100_0000 && Rlp.Pow256(5) == 0x100_0000_0000 && Rlp.Pow256(7) == 0x100_0000_0000_0000;
    Rlp.BigEndianAtLeast(n, 7);
  }

  /** The extra data can be encoded exactly as long as it is shorter than 2^64 bytes. */
  lemma FitsExactly(validators: seq<Address>)
    ensures Rlp.Fits(ExtraData(validators)) <==> 21 * |validators| + 45 < Rlp.LIMIT
  {
    hide Rlp.Encode, Rlp.EncodeAll, Rlp.BigEndian, Vanity;
    AddressesLength(validators);
    var v := Rlp.List(Wrapped(validators));
    var n := 21 * |validators|;
    var parts := ExtraData(validators).items;
    assert parts[1] == v && v in parts;
    assert Rlp.Fits(v) <==> n < Rlp.LIMIT;
    if n < Rlp.LIMIT {
      ListLength(validators);
      PartsLength(v);
      assert Rlp.FitsAll(parts) && |Rlp.EncodeAll(parts)| == 36 + |Rlp.Encode(v)|;
      if n >= 0x100_0000_0000_0000 {
        BigWidth(n);
      } else if n >= 56 {
        Rlp.LengthWidth(n);
      }
    } else {
      assert !Rlp.FitsAll(parts);
    }
  }

  lemma ListLength(validators: seq<Address>)
    requires 21 * |validators| < Rlp.LIMIT
    ensures var v := Rlp.List(Wrapped(validators));
      var n := 21 * |validators|;
      Rlp.Fits(v) && |Rlp.Encode(v)| == n + if n < 56 then 1 else 1 + |Rlp.BigEndian(n)|
  {
    AddressesLength(validators);
  }

  /** Decoding the extra data returns vanity, the same validators in order, no vote, round 0, no seals. */
  lemma ExtraDataRoundTrip(validators: seq<Address>)
    requires Rlp.Fits(ExtraData(validators))
    ensures Rlp.Decode(Rlp.Encode(ExtraData(validators))) == Some((ExtraData(validators), []))
    ensures Rlp.Scalar(Rlp.BigEndian(0)) == 0
  {
    Rlp.DecodeEncode(ExtraData(validators), []);
    assert Rlp.Encode(ExtraData(validators)) + [] == Rlp.Encode(ExtraData(validators));
  }

  /** Different validator lists give different extra data. */
  lemma ExtraDataInjective(a: seq<Address>, b: seq<Address>)
    requires Rlp.Fits(ExtraData(a)) && Rlp.Fits(ExtraData(b)) && Rlp.Encode(ExtraData(a)) == Rlp.Encode(ExtraData(b))
    ensures a == b
  {
    Rlp.EncodeInjective(ExtraData(a), ExtraData(b));
    assert ExtraData(a).items[1] == ExtraData(b).items[1];
    assert Wrapped(a) == Wrapped(b);
    forall i | 0 <= i < |a| ensures a[i] == b[i] {
      assert Wrapped(a)[i] == Wrapped(b)[i];
    }
  }

  // ---- the initial validators ----

  /** An identity secret: its besu-node-id label and its address entry, if it has one. */
  datatype Secret = Secret(nodeId: string, address: Option<string>)

  datatype Validators<T> = Invalid | NotReady | Ready(addresses: seq<T>)

  /** The address in the first listed secret with that label, if there is one and it parses. */
  function AddressOf<T>(name: string, secrets: seq<Secret>, parse: string -> Option<T>): (r: Option<T>) {
    if secrets == [] then None
    else if secrets[0].nodeId == name then
      if secrets[0].address.None? then None else parse(secrets[0].address.value)
    else AddressOf(name, secrets[1..], parse)
  }

  method GetInitialValidators<T>(names: seq<string>, secrets: seq<Secret>,
      parse: string -> Option<T>) returns (r: Validators<T>)
    ensures r.Ready? <==> names != [] && |secrets| == |names| && forall n <- names :: AddressOf(n, secrets, parse).Some?
    ensures r.NotReady? <==> names != [] && |secrets| != |names|
    ensures r.Ready? ==> |r.addresses| == |names|
                         && forall i :: 0 <= i < |names| ==> AddressOf(names[i], secrets, parse) == Some(r.addresses[i])
  {
    if |names| == 0 {
      return Invalid;
    }
    if |secrets| != |names| {
      return NotReady;
    }
    var addrs: seq<T> := [];
    for i := 0 to |names|
      invariant |addrs| == i
      invariant forall j :: 0 <= j < i ==> AddressOf(names[j], secrets, parse) == Some(addrs[j])
    {
      var secret: Option<Secret> := None;
      var k := 0;
      while k < |secrets| && secret.None?
        invariant 0 <= k <= |secrets|
        invariant secret.None? ==> AddressOf(names[i], secrets, parse) == AddressOf(names[i], secrets[k..], parse)
        invariant secret.Some? ==>
                    AddressOf(names[i], secrets, parse) ==
                    (if secret.value.address.None? then None else parse(secret.value.address.value))
      {
        if secrets[k].nodeId == names[i] {
          secret := Some(secrets[k]);
        }
        k := k + 1;
      }
      if secret.None? || secret.value.address.None? {
        assert names[i] in names;
        return Invalid;
      }
      var addr := parse(secret.value.address.value);
      if addr.None? {
        assert names[i] in names;
        return Invalid;
      }
      addrs := addrs + [addr.value];
    }
    forall n | n in names ensures AddressOf(n, secrets, parse).Some? {
      var i :| 0 <= i < |names| && names[i] == n;
    }
    return Ready(addrs);
  }

  /** Each node has one identity secret. */
  predicate OnePerNode(all: set<Secret>) {
    forall s <- all, t <- all :: s.nodeId == t.nodeId ==> s == t
  }

  /** The label selector returns the secrets of the named nodes, each once, in any order. */
  ghost predicate Listing(all: set<Secret>, names: seq<string>, listed: seq<Secret>) {
    && Distinct(listed)
    && (forall s :: s in listed <==> s in all && s.nodeId in names)
  }

  predicate HasSecret(all: set<Secret>, name: string) {
    exists s <- all :: s.nodeId == name
  }

  lemma {:induction false} FirstListed<T>(all: set<Secret>, listed: seq<Secret>, s: Secret, parse: string -> Option<T>)
    requires OnePerNode(all) && s in listed && forall t <- listed :: t in all
    ensures AddressOf(s.nodeId, listed, parse) == if s.address.None? then None else parse(s.address.value)
  {
    if listed[0].nodeId == s.nodeId {
      assert listed[0] in all && s in all;
    } else {
      assert s in listed[1..];
      FirstListed(all, listed[1..], s, parse);
    }
  }

  function Labels(listed: seq<Secret>): (l: seq<string>)
    ensures |l| == |listed| && forall i :: 0 <= i < |l| ==> l[i] == listed[i].nodeId
  {
    seq(|listed|, i requires 0 <= i < |listed| => listed[i].nodeId)
  }

  /** The labels of the listed secrets are distinct, and they are the names that have a secret. */
  lemma ListedLabels(all: set<Secret>, names: seq<string>, listed: seq<Secret>)
    requires OnePerNode(all) && Listing(all, names, listed)
    ensures Distinct(Labels(listed))
    ensures forall n :: n in Names(Labels(listed)) <==> n in Names(names) && HasSecret(all, n)
  {
    var labels := Labels(listed);
    forall i, j | 0 <= i < j < |labels| ensures labels[i] != labels[j] {
      assert listed[i] in listed && listed[j] in listed && listed[i] != listed[j];
    }
    forall n | n in Names(labels) ensures n in Names(names) && HasSecret(all, n) {
      var i :| 0 <= i < |labels| && labels[i] == n;
      assert listed[i] in listed;
    }
    forall n | n in names && HasSecret(all, n) ensures n in Names(labels) {
      var s :| s in all && s.nodeId == n;
      assert s in listed;
      var i :| 0 <= i < |listed| && listed[i] == s;
      assert labels[i] == n;
    }
  }

  /**
   As many secrets are listed as there are validators exactly when the validator names are distinct
   and each has its secret.
   */
  lemma EnoughSecrets(all: set<Secret>, names: seq<string>, listed: seq<Secret>)
    requires OnePerNode(all) && Listing(all, names, listed)
    ensures |listed| == |names| <==> Distinct(names) && forall n <- names :: HasSecret(all, n)
  {
    hide HasSecret, Listing, OnePerNode, Distinct;
    var labels := Labels(listed);
    ListedLabels(all, names, listed);
    NamesCount(labels);
    NamesCount(names);
    assert Names(names) == Names(labels) + (Names(names) - Names(labels));
    if |listed| == |names| {
      SubsetOfEqualSize(Names(labels), Names(names));
    }
    if forall n <- names :: HasSecret(all, n) {
      assert Names(labels) == Names(names);
    }
  }

  /** The identity every validator ends up with, found by its name. */
  ghost predicate Identity<T>(all: set<Secret>, name: string, parse: string -> Option<T>, address: T) {
    exists s <- all :: s.nodeId == name && s.address.Some? && parse(s.address.value) == Some(address)
  }

  /** Whatever order the secrets are listed in, the addresses come out in the order of the spec. */
  lemma AddressesInSpecOrder<T>(all: set<Secret>, names: seq<string>, listed: seq<Secret>, parse: string -> Option<T>,
      i: nat, address: T)
    requires OnePerNode(all) && Listing(all, names, listed) && i < |names|
    ensures AddressOf(names[i], listed, parse) == Some(address) <==> Identity(all, names[i], parse, address)
  {
    if s :| s in all && s.nodeId == names[i] {
      assert s in listed;
      FirstListed(all, listed, s, parse);
    } else {
      assert forall s <- listed :: s in all;
      NotListed(names[i], listed, parse);
    }
  }

  lemma {:induction false} NotListed<T>(name: string, listed: seq<Secret>, parse: string -> Option<T>)
    requires forall s <- listed :: s.nodeId != name
    ensures AddressOf(name, listed, parse).None?
  {
    if listed != [] { NotListed(name, listed[1..], parse); }
  }

  /**
   For any listing of the secrets, validators are ready exactly when their names are distinct and
   each has an identity secret with a valid address.
   */
  lemma ReadyExactlyWhen<T(!new)>(all: set<Secret>, names: seq<string>, listed: seq<Secret>, parse: string -> Option<T>)
    requires OnePerNode(all) && Listing(all, names, listed)
    ensures names != [] && |listed| == |names| && (forall n <- names :: AddressOf(n, listed, parse).Some?)
       <==> names != [] && Distinct(names) && (forall n <- names :: exists a: T :: Identity(all, n, parse, a))
  {
    EnoughSecrets(all, names, listed);
    forall n | n in names
      ensures AddressOf(n, listed, parse).Some? <==> exists a: T :: Identity(all, n, parse, a)
    {
      var i :| 0 <= i < |names| && names[i] == n;
      var found := AddressOf(n, listed, parse);
      if found.Some? {
        AddressesInSpecOrder(all, names, listed, parse, i, found.value);
      }
      forall a: T | Identity(all, n, parse, a) ensures found == Some(a) {
        AddressesInSpecOrder(all, names, listed, parse, i, a);
      }
    }
    if forall n <- names :: exists a: T :: Identity(all, n, parse, a) {
      forall n | n in names ensures HasSecret(all, n) {
        var a: T :| Identity(all, n, parse, a);
      }
    }
  }
}
