/**
 RLP, from Appendix B of the Ethereum Yellow Paper, with its decoder. The encoder the genesis code
 calls lives in another repository; this is the public definition it implements.
 */
module Rlp {
  import opened Collections

  type Byte = x: int | 0 <= x < 256
  type Bytes = seq<Byte>

  datatype Item = Data(bytes: Bytes) | List(items: seq<Item>)

  const LIMIT := 0x1_0000_0000_0000_0000

  /** A scalar as big-endian bytes without leading zeros; zero is the empty string. */
  function BigEndian(n: nat): (b: Bytes) {
    if n == 0 then [] else BigEndian(n / 256) + [n % 256]
  }

  function Scalar(b: Bytes): (n: nat) {
    if b == [] then 0 else Scalar(b[..|b| - 1]) * 256 + b[|b| - 1]
  }

  lemma {:induction false} ScalarBigEndian(n: nat)
    ensures Scalar(BigEndian(n)) == n
  {
    if n > 0 {
      ScalarBigEndian(n / 256);
      var b := BigEndian(n);
      assert b[..|b| - 1] == BigEndian(n / 256);
    }
  }

  function Pow256(k: nat): (p: nat) { if k == 0 then 1 else 256 * Pow256(k - 1) }

  lemma {:induction false} BigEndianWidth(n: nat, k: nat)
    requires n < Pow256(k)
    ensures |BigEndian(n)| <= k
  {
    if n > 0 { BigEndianWidth(n / 256, k - 1); }
  }

  lemma {:induction false} BigEndianAtLeast(n: nat, k: nat)
    requires n >= Pow256(k)
    ensures |BigEndian(n)| > k
  {
    if k > 0 { BigEndianAtLeast(n / 256, k - 1); }
  }

  lemma LengthWidth(n: nat)
    requires 0 < n < LIMIT
    ensures 1 <= |BigEndian(n)| <= 8
  {
    assert Pow256(2) == 0x1_0000;
    assert Pow256(4) == 0x1_0000_0000;
    assert Pow256(6) == 0x1_0000_0000_0000;
    assert Pow256(8) == LIMIT;
    BigEndianWidth(n, 8);
  }

  // ---- encoding ----

  /** The length prefix of a string (offset 128) or list (offset 192). */
  function Prefix(offset: nat, n: nat): (p: Bytes)
    requires (offset == 128 || offset == 192) && n < LIMIT
  {
    if n < 56 then [offset + n]
    else
      LengthWidth(n);
      [offset + 55 + |BigEndian(n)|] + BigEndian(n)
  }

  /** The standard encodes items whose payloads are shorter than 2^64 bytes. */
  predicate Fits(x: Item)
    decreases x, 0
  {
    match x
    case Data(b) => |b| < LIMIT
    case List(items) => FitsAll(items) && |EncodeAll(items)| < LIMIT
  }

  predicate FitsAll(items: seq<Item>)
    decreases items, 0
  {
    forall x <- items :: Fits(x)
  }

  function Encode(x: Item): (b: Bytes)
    requires Fits(x)
    decreases x, 1
  {
    match x
    case Data(b) => if |b| == 1 && b[0] < 128 then b else Prefix(128, |b|) + b
    case List(items) => Prefix(192, |EncodeAll(items)|) + EncodeAll(items)
  }

  function EncodeAll(items: seq<Item>): (b: Bytes)
    requires FitsAll(items)
    decreases items, 1
  {
    if items == [] then [] else Encode(items[0]) + EncodeAll(items[1..])
  }

  // ---- decoding ----

  datatype Header = Header(list: bool, start: nat, length: nat)

  /** Where the payload of the first item starts and how long it is. */
  function ReadHeader(s: Bytes): (h: Option<Header>)
    requires s != []
    ensures h.Some? && h.value.start == 0 ==> !h.value.list && h.value.length == 1
  {
    var b := s[0];
    if b < 128 then Some(Header(false, 0, 1))
    else if b < 184 then Some(Header(false, 1, b - 128))
    else if b < 192 then LongHeader(false, s, b - 183)
    else if b < 248 then Some(Header(true, 1, b - 192))
    else LongHeader(true, s, b - 247)
  }

  function LongHeader(list: bool, s: Bytes, width: nat): (h: Option<Header>) {
    if |s| < 1 + width then None else Some(Header(list, 1 + width, Scalar(s[1..1 + width])))
  }

  /** The first item and the bytes after it. */
  function Decode(s: Bytes): (r: Option<(Item, Bytes)>)
    ensures r.Some? ==> |r.value.1| < |s|
    decreases |s|, 0
  {
    if s == [] then None
    else
      match ReadHeader(s)
      case None => None
      case Some(Header(list, start, length)) =>
        if |s| < start + length then None
        else if start + length == 0 then None
        else
          var payload, rest := s[start..start + length], s[start + length..];
          if !list then Some((Data(payload), rest))
          else
            match DecodeAll(payload)
            case None => None
            case Some(items) => Some((List(items), rest))
  }

  function DecodeAll(s: Bytes): (r: Option<seq<Item>>)
    decreases |s|, 1
  {
    if s == [] then Some([])
    else
      match Decode(s)
      case None => None
      case Some((x, rest)) =>
        match DecodeAll(rest)
        case None => None
        case Some(items) => Some([x] + items)
  }

  // ---- round trip ----

  lemma HeaderOfPrefix(list: bool, n: nat, tail: Bytes)
    requires n < LIMIT
    ensures var p := Prefix(if list then 192 else 128, n);
            |p| >= 1 && ReadHeader(p + tail) == Some(Header(list, |p|, n))
  {
    if n >= 56 {
      LengthWidth(n);
      var p := Prefix(if list then 192 else 128, n);
      assert (p + tail)[1..1 + |BigEndian(n)|] == BigEndian(n);
      ScalarBigEndian(n);
    }
  }

  lemma {:induction false} DecodeEncode(x: Item, rest: Bytes)
    requires Fits(x)
    ensures Encode(x) != [] && Decode(Encode(x) + rest) == Some((x, rest))
    decreases x
  {
    var s := Encode(x) + rest;
    match x {
      case Data(b) =>
        if |b| == 1 && b[0] < 128 {
          assert s[0..1] == b && s[1..] == rest;
        } else {
          var p := Prefix(128, |b|);
          HeaderOfPrefix(false, |b|, b + rest);
          assert s == p + (b + rest);
          assert s[|p|..|p| + |b|] == b && s[|p| + |b|..] == rest;
        }
      case List(items) =>
        var b := EncodeAll(items);
        var p := Prefix(192, |b|);
        HeaderOfPrefix(true, |b|, b + rest);
        assert s == p + (b + rest);
        assert s[|p|..|p| + |b|] == b && s[|p| + |b|..] == rest;
        DecodeEncodeAll(items);
    }
  }

  lemma {:induction false} DecodeEncodeAll(items: seq<Item>)
    requires FitsAll(items)
    ensures DecodeAll(EncodeAll(items)) == Some(items)
    decreases items
  {
    if items != [] {
      DecodeEncode(items[0], EncodeAll(items[1..]));
      DecodeEncodeAll(items[1..]);
      assert [items[0]] + items[1..] == items;
    }
  }

  /** Different items have different encodings. */
  lemma EncodeInjective(x: Item, y: Item)
    requires Fits(x) && Fits(y) && Encode(x) == Encode(y)
    ensures x == y
  {
    DecodeEncode(x, []);
    DecodeEncode(y, []);
  }
}
