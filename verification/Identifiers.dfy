/** The 40-byte key of the pending maps: a user id in little-endian order, then an order id. */
module Identifiers {
  import opened Bytes

  type ClientOrderId = s: seq<Byte> | |s| == 32 witness Zeros(32)

  type Identifier = s: seq<Byte> | |s| == 40 witness Zeros(40)

  function LittleEndian(v: nat, n: nat): (s: seq<Byte>)
    ensures |s| == n
  {
    if n == 0 then [] else [v % 0x100] + LittleEndian(v / 0x100, n - 1)
  }

  function LittleEndianValue(s: seq<Byte>): nat {
    if s == [] then 0 else s[0] + 0x100 * LittleEndianValue(s[1..])
  }

  function Power256(n: nat): (p: nat)
    ensures p > 0
  {
    if n == 0 then 1 else 0x100 * Power256(n - 1)
  }

  lemma {:induction false} LittleEndianRoundTrip(v: nat, n: nat)
    requires v < Power256(n)
    ensures LittleEndianValue(LittleEndian(v, n)) == v
  {
    if n > 0 {
      LittleEndianRoundTrip(v / 0x100, n - 1);
      assert LittleEndian(v, n)[1..] == LittleEndian(v / 0x100, n - 1);
    }
  }

  lemma LowByte(b: Byte, v: nat)
    ensures (b + 0x100 * v) % 0x100 == b && (b + 0x100 * v) / 0x100 == v
  {
  }

  lemma {:induction false} LittleEndianOfValue(s: seq<Byte>)
    ensures LittleEndianValue(s) < Power256(|s|)
    ensures LittleEndian(LittleEndianValue(s), |s|) == s
  {
    if s != [] {
      LittleEndianOfValue(s[1..]);
      LowByte(s[0], LittleEndianValue(s[1..]));
      assert s == [s[0]] + s[1..];
    }
  }

  lemma EightBytes()
    ensures Power256(8) == 0x1_0000_0000_0000_0000
  {
    assert Power256(4) == 0x1_0000_0000;
  }

  function UserOf(id: Identifier): (u: UInt64) {
    LittleEndianOfValue(id[..8]);
    EightBytes();
    LittleEndianValue(id[..8])
  }

  function ClientOf(id: Identifier): ClientOrderId {
    id[8..]
  }

  /** The postcondition is an explicit inverse, so two equal keys have equal users and equal order ids. */
  function GetIdentifier(userID: UInt64, clientOrderID: ClientOrderId): (id: Identifier)
    ensures UserOf(id) == userID && ClientOf(id) == clientOrderID
  {
    var id := LittleEndian(userID, 8) + clientOrderID;
    EightBytes();
    LittleEndianRoundTrip(userID, 8);
    assert id[..8] == LittleEndian(userID, 8);
    id
  }

  /** Every 40-byte key is the key of exactly one user and order. */
  lemma IdentifierIsBijective(id: Identifier, userID: UInt64, clientOrderID: ClientOrderId)
    ensures GetIdentifier(UserOf(id), ClientOf(id)) == id
    ensures GetIdentifier(userID, clientOrderID) == id <==> userID == UserOf(id) && clientOrderID == ClientOf(id)
  {
    LittleEndianOfValue(id[..8]);
    assert id == id[..8] + id[8..];
  }
}
