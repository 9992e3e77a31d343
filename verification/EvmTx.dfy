/**
 A legacy EVM transaction and the bytes its EIP-155 signature covers.
 */
module EvmTx {
  import opened Basics
  import opened Rlp

  /** `to` is text, `0x` and 40 hex digits. */
  datatype LegacyTx = LegacyTx(nonce: nat, gasPrice: nat, gasLimit: nat, to: string, value: nat, data: seq<Byte>)

  /** The widths of the fields, and the most a vector holds. */
  predicate Fits(tx: LegacyTx) {
    && tx.nonce < Pow256(8) && tx.gasPrice < Pow256(16) && tx.gasLimit < Pow256(8) && tx.value < Pow256(16)
    && |tx.data| < 0x8000_0000_0000_0000
  }

  function HexDigit(c: char): Option<nat> {
    if '0' <= c <= '9' then Some((c - '0') as nat)
    else if 'a' <= c <= 'f' then Some((c - 'a') as nat + 10)
    else if 'A' <= c <= 'F' then Some((c - 'A') as nat + 10)
    else None
  }

  predicate IsHex(c: char) {
    '0' <= c <= '9' || 'a' <= c <= 'f' || 'A' <= c <= 'F'
  }

  function HexDecode(s: string): (r: Option<seq<Byte>>)
    ensures r.Some? <==> |s| % 2 == 0 && forall i :: 0 <= i < |s| ==> IsHex(s[i])
    ensures r.Some? ==> |r.value| * 2 == |s|
    ensures r.Some? ==> forall i :: 0 <= i < |r.value| ==>
                          HexDigit(s[2 * i]).Some? && HexDigit(s[2 * i + 1]).Some?
                          && r.value[i] == HexDigit(s[2 * i]).value * 16 + HexDigit(s[2 * i + 1]).value
  {
    if s == "" then Some([])
    else if |s| == 1 then None
    else
      var high, low, others := HexDigit(s[0]), HexDigit(s[1]), HexDecode(s[2..]);
      if high.None? || low.None? || others.None? then None else Some([high.value * 16 + low.value] + others.value)
  }

  /** What follows an optional `0x`. */
  function Digits(to: string): string {
    if |to| >= 2 && to[..2] == "0x" then to[2..] else to
  }

  /** The 20 bytes of an address, or nothing when the text is not one. */
  function Address(to: string): (r: Option<seq<Byte>>)
    ensures r.Some? <==> |Digits(to)| == 40 && forall i :: 0 <= i < 40 ==> IsHex(Digits(to)[i])
    ensures r.Some? ==> |r.value| == 20
    ensures r.Some? ==> forall i :: 0 <= i < 20 ==>
                          HexDigit(Digits(to)[2 * i]).Some? && HexDigit(Digits(to)[2 * i + 1]).Some?
                          && r.value[i] == HexDigit(Digits(to)[2 * i]).value * 16 + HexDigit(Digits(to)[2 * i + 1]).value
  {
    var bytes := HexDecode(Digits(to));
    if bytes.Some? && |bytes.value| == 20 then bytes else None
  }

  function Fields(tx: LegacyTx): Option<seq<Item>> {
    var to := Address(tx.to);
    if to.None? then None
    else Some([Uint(tx.nonce), Uint(tx.gasPrice), Uint(tx.gasLimit), Bytes(to.value), Uint(tx.value), Bytes(tx.data)])
  }

  /** What is hashed and signed: the six fields, then the chain and two zeros. */
  function Unsigned(tx: LegacyTx, chainId: nat): Option<Item> {
    var fields := Fields(tx);
    if fields.None? then None else Some(List(fields.value + [Uint(chainId), Uint(0), Uint(0)]))
  }

  function V(chainId: nat, recovery: nat): nat {
    chainId * 2 + 35 + recovery
  }

  /** What is sent: the six fields, then `v`, which carries the chain, and the signature. */
  function Signed(tx: LegacyTx, chainId: nat, recovery: nat, r: seq<Byte>, s: seq<Byte>): Option<Item> {
    var fields := Fields(tx);
    if fields.None? then None
    else Some(List(fields.value + [Uint(V(chainId, recovery)), Bytes(Strip(r)), Bytes(Strip(s))]))
  }

  // ----- nine small items are encodable ----------------------------------------------------------

  predicate Plain(items: seq<Item>) {
    forall i :: 0 <= i < |items| ==> items[i].Bytes?
  }

  function Size(items: seq<Item>): nat
    requires Plain(items)
  {
    if items == [] then 0 else |items[0].bytes| + 9 + Size(items[1..])
  }

  lemma {:induction false} PlainIsEncodable(items: seq<Item>)
    requires Plain(items) && Size(items) < MAX_LENGTH
    ensures AllEncodable(items) && |EncodeAll(items)| <= Size(items)
  {
    if items != [] {
      PlainIsEncodable(items[1..]);
    }
  }

  lemma {:induction false} SizeJoins(a: seq<Item>, b: seq<Item>)
    requires Plain(a) && Plain(b)
    ensures Size(a + b) == Size(a) + Size(b)
  {
    if a == [] {
      assert a + b == b;
    } else {
      SizeJoins(a[1..], b);
      assert (a + b)[1..] == a[1..] + b;
    }
  }

  lemma SizeOfThree(a: Item, b: Item, c: Item)
    requires a.Bytes? && b.Bytes? && c.Bytes?
    ensures Size([a, b, c]) == |a.bytes| + |b.bytes| + |c.bytes| + 27
  {
    assert [a, b, c][1..] == [b, c] && [b, c][1..] == [c] && [c][1..] == [];
    assert Size([c]) == |c.bytes| + 9 && Size([b, c]) == |b.bytes| + |c.bytes| + 18;
  }

  lemma FieldsAreEncodable(tx: LegacyTx, more: seq<Item>)
    requires Fits(tx) && Fields(tx).Some? && |more| == 3 && Plain(more)
    requires forall i :: 0 <= i < 3 ==> |more[i].bytes| <= 32
    ensures Encodable(List(Fields(tx).value + more))
  {
    hide Address, Pow256;
    Widths();
    var f := Fields(tx).value;
    assert f == [f[0], f[1], f[2]] + [f[3], f[4], f[5]] && more == [more[0], more[1], more[2]];
    SizeOfThree(f[0], f[1], f[2]);
    SizeOfThree(f[3], f[4], f[5]);
    SizeOfThree(more[0], more[1], more[2]);
    SizeJoins([f[0], f[1], f[2]], [f[3], f[4], f[5]]);
    SizeJoins(f, more);
    PlainIsEncodable(f + more);
  }

  lemma UnsignedIsEncodable(tx: LegacyTx, chainId: nat)
    requires Fits(tx) && Unsigned(tx, chainId).Some?
    ensures Encodable(Unsigned(tx, chainId).value)
  {
    hide Fields, Encodable;
    FieldsAreEncodable(tx, [Uint(chainId), Uint(0), Uint(0)]);
  }

  lemma SignedIsEncodable(tx: LegacyTx, chainId: nat, recovery: nat, r: seq<Byte>, s: seq<Byte>)
    requires Fits(tx) && |r| == 32 && |s| == 32 && Signed(tx, chainId, recovery, r, s).Some?
    ensures Encodable(Signed(tx, chainId, recovery, r, s).value)
  {
    hide Fields, Encodable;
    FieldsAreEncodable(tx, [Uint(V(chainId, recovery)), Bytes(Strip(r)), Bytes(Strip(s))]);
  }

  /** The bytes that are hashed and signed. */
  function SigningBytes(tx: LegacyTx, chainId: nat): Option<seq<Byte>>
    requires Fits(tx)
  {
    var item := Unsigned(tx, chainId);
    if item.None? then None else UnsignedIsEncodable(tx, chainId); Some(Encode(item.value))
  }

  /** The bytes that are sent. */
  function RawBytes(tx: LegacyTx, chainId: nat, recovery: nat, r: seq<Byte>, s: seq<Byte>): Option<seq<Byte>>
    requires Fits(tx) && |r| == 32 && |s| == 32
  {
    var item := Signed(tx, chainId, recovery, r, s);
    if item.None? then None else SignedIsEncodable(tx, chainId, recovery, r, s); Some(Encode(item.value))
  }

  // ----- what a reader of the bytes finds --------------------------------------------------------

  /** A big-endian integer with no leading zero. */
  predicate Says(item: Item, n: nat) {
    item.Bytes? && Value(item.bytes) == n && (item.bytes != [] ==> item.bytes[0] != 0)
  }

  /** The six fields of a transaction, in their order. */
  predicate Describes(items: seq<Item>, tx: LegacyTx) {
    && |items| == 9
    && Says(items[0], tx.nonce) && Says(items[1], tx.gasPrice) && Says(items[2], tx.gasLimit)
    && Address(tx.to).Some? && items[3] == Bytes(Address(tx.to).value)
    && Says(items[4], tx.value) && items[5] == Bytes(tx.data)
  }

  lemma UintSays(n: nat)
    requires n < Pow256(16)
    ensures Says(Uint(n), n)
  {
    UintRoundTrip(n);
  }

  lemma StripSays(word: seq<Byte>)
    ensures Says(Bytes(Strip(word)), Value(word))
  {
    StripValue(word);
  }

  lemma FieldsDescribe(tx: LegacyTx, more: seq<Item>)
    requires Fits(tx) && Fields(tx).Some? && |more| == 3
    ensures Describes(Fields(tx).value + more, tx)
  {
    hide Address, Uint, Says, Pow256;
    Widths();
    UintSays(tx.nonce);
    UintSays(tx.gasPrice);
    UintSays(tx.gasLimit);
    UintSays(tx.value);
  }

  /** Any reader of the bytes that are signed finds the six fields, the chain, and two zeros. */
  lemma SigningBytesDecode(tx: LegacyTx, chainId: nat)
    requires Fits(tx) && chainId < Pow256(8)
    ensures SigningBytes(tx, chainId).Some? <==> Address(tx.to).Some?
    ensures SigningBytes(tx, chainId).Some? ==>
              var d := Decode(SigningBytes(tx, chainId).value);
              && d.Some? && d.value.rest == [] && d.value.item.List? && Describes(d.value.item.items, tx)
              && Says(d.value.item.items[6], chainId) && d.value.item.items[7] == Bytes([]) && d.value.item.items[8] == Bytes([])
  {
    if Address(tx.to).Some? {
      Widths();
      UnsignedIsEncodable(tx, chainId);
      ReadBack(Unsigned(tx, chainId).value);
      FieldsDescribe(tx, [Uint(chainId), Uint(0), Uint(0)]);
      UintSays(chainId);
      UintSays(0);
      MinimalIsUnique(Uint(0).bytes, []);
    }
  }

  /** And of the bytes that are sent: the same six, then the chain and the recovery id in one number, then `r` and `s`. */
  lemma RawBytesDecode(tx: LegacyTx, chainId: nat, recovery: nat, r: seq<Byte>, s: seq<Byte>)
    requires Fits(tx) && chainId < Pow256(8) && recovery < 4 && |r| == 32 && |s| == 32
    ensures RawBytes(tx, chainId, recovery, r, s).Some? <==> Address(tx.to).Some?
    ensures RawBytes(tx, chainId, recovery, r, s).Some? ==>
              var d := Decode(RawBytes(tx, chainId, recovery, r, s).value);
              && d.Some? && d.value.rest == [] && d.value.item.List? && Describes(d.value.item.items, tx)
              && Says(d.value.item.items[6], 2 * chainId + 35 + recovery)
              && Says(d.value.item.items[7], Value(r)) && Says(d.value.item.items[8], Value(s))
  {
    if Address(tx.to).Some? {
      SignedIsEncodable(tx, chainId, recovery, r, s);
      ReadBack(Signed(tx, chainId, recovery, r, s).value);
      FieldsDescribe(tx, [Uint(V(chainId, recovery)), Bytes(Strip(r)), Bytes(Strip(s))]);
      VFits(chainId, recovery);
      UintSays(V(chainId, recovery));
      StripSays(r);
      StripSays(s);
    }
  }

  lemma ReadBack(item: Item)
    requires Encodable(item)
    ensures Decode(Encode(item)) == Some(Decoded(item, []))
  {
    assert Encode(item) + [] == Encode(item);
    RoundTrip(item, []);
  }

  // ----- the bytes name one transaction ----------------------------------------------------------

  /** The same transaction, but for how its address is spelt. */
  predicate SameTx(a: LegacyTx, b: LegacyTx) {
    && a.nonce == b.nonce && a.gasPrice == b.gasPrice && a.gasLimit == b.gasLimit
    && a.value == b.value && a.data == b.data && Address(a.to) == Address(b.to)
  }

  lemma Widths()
    ensures Pow256(8) == MAX_LENGTH && Pow256(8) * 4 <= Pow256(16)
  {
    SixtyFourBits();
    assert Pow256(12) == 0x1_0000_0000 * Pow256(8);
  }

  lemma VFits(chainId: nat, recovery: nat)
    requires chainId < Pow256(8) && recovery < 4
    ensures V(chainId, recovery) < Pow256(16)
  {
    Widths();
  }

  lemma UintIsInjective(m: nat, n: nat)
    requires m < Pow256(16) && n < Pow256(16) && Uint(m) == Uint(n)
    ensures m == n
  {
    UintRoundTrip(m);
    UintRoundTrip(n);
  }

  lemma SameFields(a: LegacyTx, b: LegacyTx)
    requires Fits(a) && Fits(b) && Fields(a).Some? && Fields(a) == Fields(b)
    ensures SameTx(a, b)
  {
    var f, g := Fields(a).value, Fields(b).value;
    assert f[0] == g[0] && f[1] == g[1] && f[2] == g[2] && f[3] == g[3] && f[4] == g[4] && f[5] == g[5];
    Widths();
    UintIsInjective(a.nonce, b.nonce);
    UintIsInjective(a.gasPrice, b.gasPrice);
    UintIsInjective(a.gasLimit, b.gasLimit);
    UintIsInjective(a.value, b.value);
  }

  /** What a signature covers is one transaction on one chain. */
  lemma SigningBytesNameOneTransaction(a: LegacyTx, b: LegacyTx, chainA: nat, chainB: nat)
    requires Fits(a) && Fits(b) && chainA < Pow256(8) && chainB < Pow256(8)
    requires SigningBytes(a, chainA).Some? && SigningBytes(a, chainA) == SigningBytes(b, chainB)
    ensures SameTx(a, b) && chainA == chainB
  {
    UnsignedIsEncodable(a, chainA);
    UnsignedIsEncodable(b, chainB);
    PrefixFree(Unsigned(a, chainA).value, Unsigned(b, chainB).value);
    var f, g := Fields(a).value, Fields(b).value;
    var x, y := Unsigned(a, chainA).value.items, Unsigned(b, chainB).value.items;
    assert f == x[..6] && g == y[..6] && x[6] == y[6];
    SameFields(a, b);
    Widths();
    UintIsInjective(chainA, chainB);
  }

  lemma StrippedIsSame(a: seq<Byte>, b: seq<Byte>)
    requires Strip(a) == Strip(b)
    ensures Value(a) == Value(b)
  {
    StripValue(a);
    StripValue(b);
  }

  lemma SignedNamesOneTransaction(a: LegacyTx, b: LegacyTx, vA: nat, vB: nat, rA: seq<Byte>, rB: seq<Byte>, sA: seq<Byte>, sB: seq<Byte>)
    requires Fits(a) && Fits(b) && vA < Pow256(16) && vB < Pow256(16) && Fields(a).Some? && Fields(b).Some?
    requires Fields(a).value + [Uint(vA), Bytes(Strip(rA)), Bytes(Strip(sA))] == Fields(b).value + [Uint(vB), Bytes(Strip(rB)), Bytes(Strip(sB))]
    ensures SameTx(a, b) && vA == vB && Value(rA) == Value(rB) && Value(sA) == Value(sB)
  {
    var x := Fields(a).value + [Uint(vA), Bytes(Strip(rA)), Bytes(Strip(sA))];
    var y := Fields(b).value + [Uint(vB), Bytes(Strip(rB)), Bytes(Strip(sB))];
    assert Fields(a).value == x[..6] && Fields(b).value == y[..6];
    assert x[6] == y[6] && x[7] == y[7] && x[8] == y[8];
    SameFields(a, b);
    UintIsInjective(vA, vB);
    StrippedIsSame(rA, rB);
    StrippedIsSame(sA, sB);
  }

  lemma RawItemsAgree(a: LegacyTx, b: LegacyTx, chainA: nat, chainB: nat, recA: nat, recB: nat,
                      rA: seq<Byte>, rB: seq<Byte>, sA: seq<Byte>, sB: seq<Byte>)
    requires Fits(a) && Fits(b) && |rA| == 32 && |rB| == 32 && |sA| == 32 && |sB| == 32
    requires RawBytes(a, chainA, recA, rA, sA).Some? && RawBytes(a, chainA, recA, rA, sA) == RawBytes(b, chainB, recB, rB, sB)
    ensures Fields(a).Some? && Fields(b).Some?
    ensures Fields(a).value + [Uint(V(chainA, recA)), Bytes(Strip(rA)), Bytes(Strip(sA))]
            == Fields(b).value + [Uint(V(chainB, recB)), Bytes(Strip(rB)), Bytes(Strip(sB))]
  {
    SignedIsEncodable(a, chainA, recA, rA, sA);
    SignedIsEncodable(b, chainB, recB, rB, sB);
    var x, y := Signed(a, chainA, recA, rA, sA).value, Signed(b, chainB, recB, rB, sB).value;
    PrefixFree(x, y);
    assert x.items == y.items;
  }

  /** And what is sent is one transaction with one signature; on one chain, when the recovery id is the parity
      bit, as it is unless the curve point's abscissa was reduced. */
  lemma RawBytesNameOneTransaction(a: LegacyTx, b: LegacyTx, chainA: nat, chainB: nat, recA: nat, recB: nat,
                                   rA: seq<Byte>, rB: seq<Byte>, sA: seq<Byte>, sB: seq<Byte>)
    requires Fits(a) && Fits(b) && chainA < Pow256(8) && chainB < Pow256(8) && recA < 4 && recB < 4
    requires |rA| == 32 && |rB| == 32 && |sA| == 32 && |sB| == 32
    requires RawBytes(a, chainA, recA, rA, sA).Some? && RawBytes(a, chainA, recA, rA, sA) == RawBytes(b, chainB, recB, rB, sB)
    ensures SameTx(a, b) && Value(rA) == Value(rB) && Value(sA) == Value(sB) && chainA * 2 + recA == chainB * 2 + recB
    ensures recA < 2 && recB < 2 ==> chainA == chainB && recA == recB
  {
    RawItemsAgree(a, b, chainA, chainB, recA, recB, rA, rB, sA, sB);
    VFits(chainA, recA);
    VFits(chainB, recB);
    SignedNamesOneTransaction(a, b, V(chainA, recA), V(chainB, recB), rA, rB, sA, sB);
  }
}
