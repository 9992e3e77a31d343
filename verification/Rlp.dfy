/**
 Recursive Length Prefix.

 The encoder is the signer's own. Its partner here is a strict decoder after Appendix B of the Ethereum Yellow
 Paper: it undoes every encoding whatever follows, and accepts nothing else. So the encoding is prefix-free.
 */
module Rlp {
  import opened Basics

  type Byte = b: int | 0 <= b < 256

  datatype Item = Bytes(bytes: seq<Byte>) | List(items: seq<Item>)

  const MAX_LENGTH := 0x1_0000_0000_0000_0000

  // ----- integers --------------------------------------------------------------------------------

  function ToBeBytes(n: nat, width: nat): (r: seq<Byte>)
    ensures |r| == width
  {
    if width == 0 then [] else ToBeBytes(n / 256, width - 1) + [n % 256]
  }

  /** Drops leading zeros: RLP integers carry none. */
  function Strip(word: seq<Byte>): (r: seq<Byte>)
    ensures |r| <= |word| && (r != [] ==> r[0] != 0)
  {
    if word == [] then [] else if word[0] != 0 then word else Strip(word[1..])
  }

  /** What a big-endian byte string says. */
  function Value(bytes: seq<Byte>): nat {
    if bytes == [] then 0 else Value(bytes[..|bytes| - 1]) * 256 + bytes[|bytes| - 1]
  }

  function Pow256(k: nat): nat {
    if k == 0 then 1 else 256 * Pow256(k - 1)
  }

  function Uint(n: nat): Item {
    Bytes(Strip(ToBeBytes(n, 16)))
  }

  lemma {:induction false} ToBeBytesValue(n: nat, width: nat)
    requires n < Pow256(width)
    ensures Value(ToBeBytes(n, width)) == n
  {
    if width > 0 {
      ToBeBytesValue(n / 256, width - 1);
      assert ToBeBytes(n, width)[..width - 1] == ToBeBytes(n / 256, width - 1);
    }
  }

  lemma {:induction false} LeadingZero(bytes: seq<Byte>)
    requires bytes != [] && bytes[0] == 0
    ensures Value(bytes) == Value(bytes[1..])
  {
    var n := |bytes| - 1;
    if n > 0 {
      LeadingZero(bytes[..n]);
      assert bytes[1..][..n - 1] == bytes[..n][1..];
    }
  }

  lemma {:induction false} StripValue(word: seq<Byte>)
    ensures Value(Strip(word)) == Value(word)
  {
    if word != [] && word[0] == 0 {
      LeadingZero(word);
      StripValue(word[1..]);
    }
  }

  lemma {:induction false} ValueBound(bytes: seq<Byte>)
    ensures Value(bytes) < Pow256(|bytes|)
  {
    if bytes != [] {
      ValueBound(bytes[..|bytes| - 1]);
    }
  }

  lemma {:induction false} ValueAtLeast(bytes: seq<Byte>)
    requires bytes != [] && bytes[0] != 0
    ensures Value(bytes) >= Pow256(|bytes| - 1)
  {
    var n := |bytes| - 1;
    if n > 0 {
      ValueAtLeast(bytes[..n]);
    }
  }

  lemma {:induction false} PowGrows(j: nat, k: nat)
    requires j <= k
    ensures 1 <= Pow256(j) <= Pow256(k)
  {
    if j < k {
      PowGrows(j, k - 1);
    } else if j > 0 {
      PowGrows(j - 1, k - 1);
    }
  }

  /** A number has one minimal byte string. */
  lemma {:induction false} MinimalIsUnique(a: seq<Byte>, b: seq<Byte>)
    requires Value(a) == Value(b) && (a != [] ==> a[0] != 0) && (b != [] ==> b[0] != 0)
    ensures a == b
  {
    SameLength(a, b);
    SameLength(b, a);
    SameValue(a, b);
  }

  lemma SameLength(a: seq<Byte>, b: seq<Byte>)
    requires Value(a) == Value(b) && (a != [] ==> a[0] != 0)
    ensures |a| <= |b|
  {
    ValueBound(b);
    if a != [] {
      ValueAtLeast(a);
      if |b| < |a| { PowGrows(|b|, |a| - 1); }
    }
  }

  lemma {:induction false} SameValue(a: seq<Byte>, b: seq<Byte>)
    requires Value(a) == Value(b) && |a| == |b|
    ensures a == b
  {
    if a != [] {
      var n := |a| - 1;
      assert Value(a[..n]) == Value(b[..n]) && a[n] == b[n];
      SameValue(a[..n], b[..n]);
      assert a == a[..n] + [a[n]] && b == b[..n] + [b[n]];
    }
  }

  /** An integer below 2^128 is written minimally, and read back. */
  lemma UintRoundTrip(n: nat)
    requires n < Pow256(16)
    ensures Value(Uint(n).bytes) == n && (Uint(n).bytes != [] ==> Uint(n).bytes[0] != 0)
  {
    ToBeBytesValue(n, 16);
    StripValue(ToBeBytes(n, 16));
  }

  // ----- the encoder -----------------------------------------------------------------------------

  function LengthPrefix(len: nat, short: nat, long: nat): seq<Byte>
    requires len < MAX_LENGTH && short + 55 < 256 && long + 8 < 256
  {
    if len <= 55 then [short + len]
    else
      var be := Strip(ToBeBytes(len, 8));
      [long + |be|] + be
  }

  /** Every length in the item fits the 64 bits of a length of length. */
  predicate Encodable(item: Item)
    decreases item, 0
  {
    match item
    case Bytes(b) => |b| < MAX_LENGTH
    case List(items) => AllEncodable(items) && |EncodeAll(items)| < MAX_LENGTH
  }

  predicate AllEncodable(items: seq<Item>)
    decreases items, 0
  {
    items == [] || (Encodable(items[0]) && AllEncodable(items[1..]))
  }

  function Encode(item: Item): seq<Byte>
    requires Encodable(item)
    decreases item, 1
  {
    match item
    case Bytes(b) => if |b| == 1 && b[0] < 0x80 then b else LengthPrefix(|b|, 0x80, 0xb7) + b
    case List(items) =>
      var payload := EncodeAll(items);
      LengthPrefix(|payload|, 0xc0, 0xf7) + payload
  }

  function EncodeAll(items: seq<Item>): seq<Byte>
    requires AllEncodable(items)
    decreases items, 1
  {
    if items == [] then [] else Encode(items[0]) + EncodeAll(items[1..])
  }

  /** A payload after its prefix: its length in one byte, or, above 55, how many bytes its length takes and then the
      length, big-endian, with no leading zero. */
  ghost predicate Framed(bytes: seq<Byte>, payload: seq<Byte>, short: int, long: int) {
    if |payload| <= 55 then bytes == [short + |payload|] + payload
    else exists be: seq<Byte> :: be != [] && be[0] != 0 && Value(be) == |payload| && bytes == [long + |be|] + be + payload
  }

  lemma LengthReadBack(len: nat)
    requires 0 < len < MAX_LENGTH
    ensures var be := Strip(ToBeBytes(len, 8)); be != [] && |be| <= 8 && be[0] != 0 && Value(be) == len
  {
    SixtyFourBits();
    ToBeBytesValue(len, 8);
    StripValue(ToBeBytes(len, 8));
  }

  lemma PrefixFrames(payload: seq<Byte>, short: nat, long: nat)
    requires |payload| < MAX_LENGTH && short + 55 < 256 && long + 8 < 256
    ensures Framed(LengthPrefix(|payload|, short, long) + payload, payload, short, long)
  {
    if |payload| > 55 {
      var be := Strip(ToBeBytes(|payload|, 8));
      LengthReadBack(|payload|);
      assert LengthPrefix(|payload|, short, long) + payload == [long + |be|] + be + payload;
    }
  }

  /** The bytes of an item, as the format has them. */
  lemma {:induction false} WireFormat(item: Item)
    requires Encodable(item)
    ensures match item
            case Bytes(b) => if |b| == 1 && b[0] < 0x80 then Encode(item) == b else Framed(Encode(item), b, 0x80, 0xb7)
            case List(items) => Framed(Encode(item), EncodeAll(items), 0xc0, 0xf7)
  {
    match item
    case Bytes(b) => PrefixFrames(b, 0x80, 0xb7);
    case List(items) => PrefixFrames(EncodeAll(items), 0xc0, 0xf7);
  }

  // ----- the decoder -----------------------------------------------------------------------------

  datatype Decoded = Decoded(item: Item, rest: seq<Byte>)

  /** The payload a prefix announces, and what comes after it. The length takes the short form up to 55 and the
      long one above, with no leading zero. */
  function Payload(bytes: seq<Byte>, short: nat, long: nat): (r: Option<(seq<Byte>, seq<Byte>)>)
    requires bytes != [] && short <= bytes[0] <= long + 8 && long == short + 55
    ensures r.Some? ==> |r.value.0| + |r.value.1| < |bytes|
  {
    var first := bytes[0];
    if first <= long then Split(bytes[1..], first - short)
    else
      var k := first - long;
      if |bytes| < 1 + k || bytes[1] == 0 || Value(bytes[1..1 + k]) <= 55 then None
      else Split(bytes[1 + k..], Value(bytes[1..1 + k]))
  }

  function Split(bytes: seq<Byte>, n: nat): (r: Option<(seq<Byte>, seq<Byte>)>)
    ensures r.Some? ==> |r.value.0| == n && bytes == r.value.0 + r.value.1
  {
    if n <= |bytes| then Some((bytes[..n], bytes[n..])) else None
  }

  function Decode(bytes: seq<Byte>): (r: Option<Decoded>)
    ensures r.Some? ==> |r.value.rest| < |bytes|
    decreases |bytes|, 0
  {
    if bytes == [] then None
    else if bytes[0] < 0x80 then Some(Decoded(Bytes(bytes[..1]), bytes[1..]))
    else if bytes[0] <= 0xbf then
      var p := Payload(bytes, 0x80, 0xb7);
      if p.None? || (|p.value.0| == 1 && p.value.0[0] < 0x80) then None
      else Some(Decoded(Bytes(p.value.0), p.value.1))
    else
      var p := Payload(bytes, 0xc0, 0xf7);
      if p.None? then None
      else
        var items := DecodeAll(p.value.0);
        if items.None? then None else Some(Decoded(List(items.value), p.value.1))
  }

  function DecodeAll(bytes: seq<Byte>): Option<seq<Item>>
    decreases |bytes|, 1
  {
    if bytes == [] then Some([])
    else
      var first := Decode(bytes);
      if first.None? then None
      else
        var others := DecodeAll(first.value.rest);
        if others.None? then None else Some([first.value.item] + others.value)
  }

  // ----- the decoder undoes the encoder ----------------------------------------------------------

  lemma SixtyFourBits()
    ensures Pow256(8) == MAX_LENGTH
  {
    assert Pow256(4) == 0x1_0000_0000;
  }

  lemma SplitJoined(payload: seq<Byte>, rest: seq<Byte>)
    ensures Split(payload + rest, |payload|) == Some((payload, rest))
  {
  }

  lemma PrefixRoundTrip(payload: seq<Byte>, short: nat, long: nat, rest: seq<Byte>)
    requires |payload| < MAX_LENGTH && long == short + 55 && long + 8 < 256
    ensures var p := LengthPrefix(|payload|, short, long);
            && p != [] && short <= p[0] <= long + 8 && (p + payload + rest)[0] == p[0]
            && Payload(p + payload + rest, short, long) == Some((payload, rest))
  {
    hide Value, ToBeBytes, Strip, Split;
    var p := LengthPrefix(|payload|, short, long);
    var all := p + payload + rest;
    SplitJoined(payload, rest);
    if |payload| <= 55 {
      assert all[1..] == payload + rest;
    } else {
      var be := Strip(ToBeBytes(|payload|, 8));
      LengthReadBack(|payload|);
      assert all == [long + |be|] + be + payload + rest;
      assert all[1..1 + |be|] == be && all[1 + |be|..] == payload + rest;
    }
  }

  /** Every item is read back from its encoding, whatever follows it. */
  lemma {:induction false} RoundTrip(item: Item, rest: seq<Byte>)
    requires Encodable(item)
    ensures Encode(item) != [] && Decode(Encode(item) + rest) == Some(Decoded(item, rest))
    decreases item
  {
    match item {
      case Bytes(b) =>
        if |b| == 1 && b[0] < 0x80 {
          assert (b + rest)[..1] == b && (b + rest)[1..] == rest;
        } else {
          PrefixRoundTrip(b, 0x80, 0xb7, rest);
        }
      case List(items) =>
        PrefixRoundTrip(EncodeAll(items), 0xc0, 0xf7, rest);
        RoundTripAll(items);
    }
  }

  lemma {:induction false} RoundTripAll(items: seq<Item>)
    requires AllEncodable(items)
    ensures DecodeAll(EncodeAll(items)) == Some(items)
    decreases items
  {
    if items != [] {
      hide Decode, Encode;
      RoundTrip(items[0], EncodeAll(items[1..]));
      RoundTripAll(items[1..]);
      assert items == [items[0]] + items[1..];
    }
  }

  // ----- and accepts nothing else ----------------------------------------------------------------

  lemma PayloadIsPrefixed(bytes: seq<Byte>, short: nat, long: nat)
    requires bytes != [] && short <= bytes[0] <= long + 8 && long == short + 55 && long + 8 < 256
    requires Payload(bytes, short, long).Some?
    ensures var p := Payload(bytes, short, long).value;
            |p.0| < MAX_LENGTH && bytes == LengthPrefix(|p.0|, short, long) + p.0 + p.1
  {
    var p := Payload(bytes, short, long).value;
    if bytes[0] <= long {
      assert bytes == [bytes[0]] + bytes[1..];
    } else {
      var k := bytes[0] - long;
      var be := bytes[1..1 + k];
      ValueBound(be);
      PowGrows(k, 8);
      SixtyFourBits();
      ToBeBytesValue(Value(be), 8);
      StripValue(ToBeBytes(Value(be), 8));
      MinimalIsUnique(Strip(ToBeBytes(Value(be), 8)), be);
      assert bytes == [bytes[0]] + be + bytes[1 + k..];
    }
  }

  /** What the decoder accepts begins with the encoding of what it returns. */
  lemma {:induction false} OnlyEncodings(bytes: seq<Byte>)
    requires Decode(bytes).Some?
    ensures var d := Decode(bytes).value; Encodable(d.item) && bytes == Encode(d.item) + d.rest
    decreases |bytes|, 0
  {
    if bytes[0] < 0x80 {
      assert bytes == bytes[..1] + bytes[1..];
    } else if bytes[0] <= 0xbf {
      PayloadIsPrefixed(bytes, 0x80, 0xb7);
    } else {
      PayloadIsPrefixed(bytes, 0xc0, 0xf7);
      OnlyEncodingsAll(Payload(bytes, 0xc0, 0xf7).value.0);
    }
  }

  lemma {:induction false} OnlyEncodingsAll(bytes: seq<Byte>)
    requires DecodeAll(bytes).Some?
    ensures AllEncodable(DecodeAll(bytes).value) && bytes == EncodeAll(DecodeAll(bytes).value)
    decreases |bytes|, 1
  {
    if bytes != [] {
      var d := Decode(bytes).value;
      OnlyEncodings(bytes);
      OnlyEncodingsAll(d.rest);
      var items := DecodeAll(bytes).value;
      assert items[0] == d.item && items[1..] == DecodeAll(d.rest).value;
    }
  }

  /** No encoding begins another: items need no separator. */
  lemma PrefixFree(a: Item, b: Item)
    requires Encodable(a) && Encodable(b) && Encode(a) <= Encode(b)
    ensures a == b
  {
    var rest := Encode(b)[|Encode(a)|..];
    assert Encode(b) == Encode(a) + rest && Encode(b) + [] == Encode(b);
    RoundTrip(a, rest);
    RoundTrip(b, []);
  }
}
