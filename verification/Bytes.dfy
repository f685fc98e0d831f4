/** The integer widths the firmware works with, and the byte-level operations
    that need more than plain arithmetic. */
module Bytes {
  type uint8 = x: int | 0 <= x < 0x100
  type int16 = x: int | -0x8000 <= x < 0x8000
  type int32 = x: int | -0x8000_0000 <= x < 0x8000_0000
  type uint32 = x: int | 0 <= x < 0x1_0000_0000

  type bytes = seq<uint8>

  datatype Option<+T> = None | Some(value: T)

  // A cast to a narrower type keeps the low bits.

  function AsUint8(x: int): uint8 {
    x % 0x100
  }

  function AsInt16(x: int): int16 {
    var low := x % 0x1_0000;
    if low < 0x8000 then low else low - 0x1_0000
  }

  function AsInt32(x: int): int32 {
    var low := x % 0x1_0000_0000;
    if low < 0x8000_0000 then low else low - 0x1_0000_0000
  }

  function AsUint32(x: int): uint32 {
    x % 0x1_0000_0000
  }

  /** The bytes of a text. */
  function Ascii(s: string): bytes {
    seq(|s|, i requires 0 <= i < |s| => AsUint8(s[i] as int))
  }

  // ---- Exclusive or ------------------------------------------------------

  function Pow2(n: nat): nat {
    if n == 0 then 1 else 2 * Pow2(n - 1)
  }

  /** Exclusive or of the low `n` bits, from the lowest bit up. */
  function XorBits(n: nat, a: nat, b: nat): (r: nat)
    ensures r < Pow2(n)
    decreases n, a, b
  {
    if n == 0 then 0
    else (if a % 2 == b % 2 then 0 else 1) + 2 * XorBits(n - 1, a / 2, b / 2)
  }

  function Xor(a: uint8, b: uint8): uint8 {
    assert Pow2(8) == 0x100;
    XorBits(8, a, b)
  }

  lemma {:induction false} XorBitsCancels(n: nat, a: nat, b: nat)
    requires a < Pow2(n)
    ensures XorBits(n, XorBits(n, a, b), b) == a
    decreases n
  {
    if n > 0 {
      XorBitsCancels(n - 1, a / 2, b / 2);
      var r := XorBits(n, a, b);
      assert r / 2 == XorBits(n - 1, a / 2, b / 2);
    }
  }

  lemma {:induction false} XorBitsCommutes(n: nat, a: nat, b: nat)
    ensures XorBits(n, a, b) == XorBits(n, b, a)
    decreases n
  {
    if n > 0 {
      XorBitsCommutes(n - 1, a / 2, b / 2);
    }
  }

  lemma {:induction false} XorCancels(a: uint8, b: uint8)
    ensures Xor(Xor(a, b), b) == a
  {
    assert Pow2(8) == 0x100;
    XorBitsCancels(8, a, b);
  }

  lemma {:induction false} XorInjective(a: uint8, b: uint8, c: uint8)
    requires Xor(a, c) == Xor(b, c) || Xor(c, a) == Xor(c, b)
    ensures a == b
  {
    XorBitsCommutes(8, a, c);
    XorBitsCommutes(8, b, c);
    XorCancels(a, c);
    XorCancels(b, c);
  }

  // ---- Big-endian coding -------------------------------------------------
  // `>>` on a signed value rounds down, as `/` does here.

  function GetBe16(p: bytes): int16
    requires |p| >= 2
  {
    AsInt16(p[0] as int * 0x100 + p[1])
  }

  function PutBe16(v: int16): (p: bytes)
    ensures |p| == 2
  {
    [AsUint8(v / 0x100), AsUint8(v)]
  }

  function GetBe32(p: bytes): int32
    requires |p| >= 4
  {
    AsInt32(p[0] as int * 0x100_0000 + p[1] as int * 0x1_0000 + p[2] as int * 0x100 + p[3])
  }

  function PutBe32(v: int32): (p: bytes)
    ensures |p| == 4
  {
    [AsUint8(v / 0x100_0000), AsUint8(v / 0x1_0000), AsUint8(v / 0x100), AsUint8(v)]
  }

  lemma {:induction false} Be16RoundTrip(v: int16)
    ensures GetBe16(PutBe16(v)) == v
  {
    assert v == v / 0x100 * 0x100 + v % 0x100;
  }

  /** What follows an id does not disturb it. */
  lemma {:induction false} Be16Onto(v: int16, rest: bytes)
    ensures GetBe16(PutBe16(v) + rest) == v && (PutBe16(v) + rest)[2..] == rest
  {
    Be16RoundTrip(v);
  }

  lemma {:induction false} Be32RoundTrip(v: int32)
    ensures GetBe32(PutBe32(v)) == v
  {
    var a, b, c := v as int / 0x100, v as int / 0x1_0000, v as int / 0x100_0000;
    assert b == a / 0x100 && c == b / 0x100;
    assert v == c * 0x100_0000 + b % 0x100 * 0x1_0000 + a % 0x100 * 0x100 + v % 0x100;
    assert c % 0x100 == if c < 0 then c + 0x100 else c;
  }
}
