/** The two check bytes of the HU handshake: a 256-entry table and a fold over
    it, run twice from two starting bytes. */
module Verifier {
  import opened Bytes

  /** The entries of NIVONA_HU_TABLE, 16 to a row. */
  function HuEntry(b: int): int {
    match b / 16
    case 0 => (match b % 16
      case 0 => 0x62 case 1 => 0x06 case 2 => 0x55 case 3 => 0x96 case 4 => 0x24
      case 5 => 0x17 case 6 => 0x70 case 7 => 0xA4
      case 8 => 0x87 case 9 => 0xCF case 10 => 0xA9 case 11 => 0x05 case 12 => 0x1A
      case 13 => 0x40 case 14 => 0xA5 case _ => 0xDB)
    case 1 => (match b % 16
      case 0 => 0x3D case 1 => 0x14 case 2 => 0x44 case 3 => 0x59 case 4 => 0x82
      case 5 => 0x3F case 6 => 0x34 case 7 => 0x66
      case 8 => 0x18 case 9 => 0xE5 case 10 => 0x84 case 11 => 0xF5 case 12 => 0x50
      case 13 => 0xD8 case 14 => 0xC3 case _ => 0x73)
    case 2 => (match b % 16
      case 0 => 0x5A case 1 => 0xA8 case 2 => 0x9C case 3 => 0xCB case 4 => 0xB1
      case 5 => 0x78 case 6 => 0x02 case 7 => 0xBE
      case 8 => 0xBC case 9 => 0x07 case 10 => 0x64 case 11 => 0xB9 case 12 => 0xAE
      case 13 => 0xF3 case 14 => 0xA2 case _ => 0x0A)
    case 3 => (match b % 16
      case 0 => 0xED case 1 => 0x12 case 2 => 0xFD case 3 => 0xE1 case 4 => 0x08
      case 5 => 0xD0 case 6 => 0xAC case 7 => 0xF4
      case 8 => 0xFF case 9 => 0x7E case 10 => 0x65 case 11 => 0x4F case 12 => 0x91
      case 13 => 0xEB case 14 => 0xE4 case _ => 0x79)
    case 4 => (match b % 16
      case 0 => 0x7B case 1 => 0xFB case 2 => 0x43 case 3 => 0xFA case 4 => 0xA1
      case 5 => 0x00 case 6 => 0x6B case 7 => 0x61
      case 8 => 0xF1 case 9 => 0x6F case 10 => 0xB5 case 11 => 0x52 case 12 => 0xF9
      case 13 => 0x21 case 14 => 0x45 case _ => 0x37)
    case 5 => (match b % 16
      case 0 => 0x3B case 1 => 0x99 case 2 => 0x1D case 3 => 0x09 case 4 => 0xD5
      case 5 => 0xA7 case 6 => 0x54 case 7 => 0x5D
      case 8 => 0x1E case 9 => 0x2E case 10 => 0x5E case 11 => 0x4B case 12 => 0x97
      case 13 => 0x72 case 14 => 0x49 case _ => 0xDE)
    case 6 => (match b % 16
      case 0 => 0xC5 case 1 => 0x60 case 2 => 0xD2 case 3 => 0x2D case 4 => 0x10
      case 5 => 0xE3 case 6 => 0xF8 case 7 => 0xCA
      case 8 => 0x33 case 9 => 0x98 case 10 => 0xFC case 11 => 0x7D case 12 => 0x51
      case 13 => 0xCE case 14 => 0xD7 case _ => 0xBA)
    case 7 => (match b % 16
      case 0 => 0x27 case 1 => 0x9E case 2 => 0xB2 case 3 => 0xBB case 4 => 0x83
      case 5 => 0x88 case 6 => 0x01 case 7 => 0x31
      case 8 => 0x32 case 9 => 0x11 case 10 => 0x8D case 11 => 0x5B case 12 => 0x2F
      case 13 => 0x81 case 14 => 0x3C case _ => 0x63)
    case 8 => (match b % 16
      case 0 => 0x9A case 1 => 0x23 case 2 => 0x56 case 3 => 0xAB case 4 => 0x69
      case 5 => 0x22 case 6 => 0x26 case 7 => 0xC8
      case 8 => 0x93 case 9 => 0x3A case 10 => 0x4D case 11 => 0x76 case 12 => 0xAD
      case 13 => 0xF6 case 14 => 0x4C case _ => 0xFE)
    case 9 => (match b % 16
      case 0 => 0x85 case 1 => 0xE8 case 2 => 0xC4 case 3 => 0x90 case 4 => 0xC6
      case 5 => 0x7C case 6 => 0x35 case 7 => 0x04
      case 8 => 0x6C case 9 => 0x4A case 10 => 0xDF case 11 => 0xEA case 12 => 0x86
      case 13 => 0xE6 case 14 => 0x9D case _ => 0x8B)
    case 10 => (match b % 16
      case 0 => 0xBD case 1 => 0xCD case 2 => 0xC7 case 3 => 0x80 case 4 => 0xB0
      case 5 => 0x13 case 6 => 0xD3 case 7 => 0xEC
      case 8 => 0x7F case 9 => 0xC0 case 10 => 0xE7 case 11 => 0x46 case 12 => 0xE9
      case 13 => 0x58 case 14 => 0x92 case _ => 0x2C)
    case 11 => (match b % 16
      case 0 => 0xB7 case 1 => 0xC9 case 2 => 0x16 case 3 => 0x53 case 4 => 0x0D
      case 5 => 0xD6 case 6 => 0x74 case 7 => 0x6D
      case 8 => 0x9F case 9 => 0x20 case 10 => 0x5F case 11 => 0xE2 case 12 => 0x8C
      case 13 => 0xDC case 14 => 0x39 case _ => 0x0C)
    case 12 => (match b % 16
      case 0 => 0xDD case 1 => 0x1F case 2 => 0xD1 case 3 => 0xB6 case 4 => 0x8F
      case 5 => 0x5C case 6 => 0x95 case 7 => 0xB8
      case 8 => 0x94 case 9 => 0x3E case 10 => 0x71 case 11 => 0x41 case 12 => 0x25
      case 13 => 0x1B case 14 => 0x6A case _ => 0xA6)
    case 13 => (match b % 16
      case 0 => 0x03 case 1 => 0x0E case 2 => 0xCC case 3 => 0x48 case 4 => 0x15
      case 5 => 0x29 case 6 => 0x38 case 7 => 0x42
      case 8 => 0x1C case 9 => 0xC1 case 10 => 0x28 case 11 => 0xD9 case 12 => 0x19
      case 13 => 0x36 case 14 => 0xB3 case _ => 0x75)
    case 14 => (match b % 16
      case 0 => 0xEE case 1 => 0x57 case 2 => 0xF0 case 3 => 0x9B case 4 => 0xB4
      case 5 => 0xAA case 6 => 0xF2 case 7 => 0xD4
      case 8 => 0xBF case 9 => 0xA3 case 10 => 0x4E case 11 => 0xDA case 12 => 0x89
      case 13 => 0xC2 case 14 => 0xAF case _ => 0x6E)
    case _ => (match b % 16
      case 0 => 0x2B case 1 => 0x77 case 2 => 0xE0 case 3 => 0x47 case 4 => 0x7A
      case 5 => 0x8E case 6 => 0x2A case 7 => 0xA0
      case 8 => 0x68 case 9 => 0x30 case 10 => 0xF7 case 11 => 0x67 case 12 => 0x0F
      case 13 => 0x0B case 14 => 0x8A case _ => 0xEF)
  }

  /** The place of each value in the table. */
  function HuPlace(b: int): int {
    match b / 16
    case 0 => (match b % 16
      case 0 => 0x45 case 1 => 0x76 case 2 => 0x26 case 3 => 0xD0 case 4 => 0x97
      case 5 => 0x0B case 6 => 0x01 case 7 => 0x29
      case 8 => 0x34 case 9 => 0x53 case 10 => 0x2F case 11 => 0xFD case 12 => 0xBF
      case 13 => 0xB4 case 14 => 0xD1 case _ => 0xFC)
    case 1 => (match b % 16
      case 0 => 0x64 case 1 => 0x79 case 2 => 0x31 case 3 => 0xA5 case 4 => 0x11
      case 5 => 0xD4 case 6 => 0xB2 case 7 => 0x05
      case 8 => 0x18 case 9 => 0xDC case 10 => 0x0C case 11 => 0xCD case 12 => 0xD8
      case 13 => 0x52 case 14 => 0x58 case _ => 0xC1)
    case 2 => (match b % 16
      case 0 => 0xB9 case 1 => 0x4D case 2 => 0x85 case 3 => 0x81 case 4 => 0x04
      case 5 => 0xCC case 6 => 0x86 case 7 => 0x70
      case 8 => 0xDA case 9 => 0xD5 case 10 => 0xF6 case 11 => 0xF0 case 12 => 0xAF
      case 13 => 0x63 case 14 => 0x59 case _ => 0x7C)
    case 3 => (match b % 16
      case 0 => 0xF9 case 1 => 0x77 case 2 => 0x78 case 3 => 0x68 case 4 => 0x16
      case 5 => 0x96 case 6 => 0xDD case 7 => 0x4F
      case 8 => 0xD6 case 9 => 0xBE case 10 => 0x89 case 11 => 0x50 case 12 => 0x7E
      case 13 => 0x10 case 14 => 0xC9 case _ => 0x15)
    case 4 => (match b % 16
      case 0 => 0x0D case 1 => 0xCB case 2 => 0xD7 case 3 => 0x42 case 4 => 0x12
      case 5 => 0x4E case 6 => 0xAB case 7 => 0xF3
      case 8 => 0xD3 case 9 => 0x5E case 10 => 0x99 case 11 => 0x5B case 12 => 0x8E
      case 13 => 0x8A case 14 => 0xEA case _ => 0x3B)
    case 5 => (match b % 16
      case 0 => 0x1C case 1 => 0x6C case 2 => 0x4B case 3 => 0xB3 case 4 => 0x56
      case 5 => 0x02 case 6 => 0x82 case 7 => 0xE1
      case 8 => 0xAD case 9 => 0x13 case 10 => 0x20 case 11 => 0x7B case 12 => 0xC5
      case 13 => 0x57 case 14 => 0x5A case _ => 0xBA)
    case 6 => (match b % 16
      case 0 => 0x61 case 1 => 0x47 case 2 => 0x00 case 3 => 0x7F case 4 => 0x2A
      case 5 => 0x3A case 6 => 0x17 case 7 => 0xFB
      case 8 => 0xF8 case 9 => 0x84 case 10 => 0xCE case 11 => 0x46 case 12 => 0x98
      case 13 => 0xB7 case 14 => 0xEF case _ => 0x49)
    case 7 => (match b % 16
      case 0 => 0x06 case 1 => 0xCA case 2 => 0x5D case 3 => 0x1F case 4 => 0xB6
      case 5 => 0xDF case 6 => 0x8B case 7 => 0xF1
      case 8 => 0x25 case 9 => 0x3F case 10 => 0xF4 case 11 => 0x40 case 12 => 0x95
      case 13 => 0x6B case 14 => 0x39 case _ => 0xA8)
    case 8 => (match b % 16
      case 0 => 0xA3 case 1 => 0x7D case 2 => 0x14 case 3 => 0x74 case 4 => 0x1A
      case 5 => 0x90 case 6 => 0x9C case 7 => 0x08
      case 8 => 0x75 case 9 => 0xEC case 10 => 0xFE case 11 => 0x9F case 12 => 0xBC
      case 13 => 0x7A case 14 => 0xF5 case _ => 0xC4)
    case 9 => (match b % 16
      case 0 => 0x93 case 1 => 0x3C case 2 => 0xAE case 3 => 0x88 case 4 => 0xC8
      case 5 => 0xC6 case 6 => 0x03 case 7 => 0x5C
      case 8 => 0x69 case 9 => 0x51 case 10 => 0x80 case 11 => 0xE3 case 12 => 0x22
      case 13 => 0x9E case 14 => 0x71 case _ => 0xB8)
    case 10 => (match b % 16
      case 0 => 0xF7 case 1 => 0x44 case 2 => 0x2E case 3 => 0xE9 case 4 => 0x07
      case 5 => 0x0E case 6 => 0xCF case 7 => 0x55
      case 8 => 0x21 case 9 => 0x0A case 10 => 0xE5 case 11 => 0x83 case 12 => 0x36
      case 13 => 0x8C case 14 => 0x2C case _ => 0xEE)
    case 11 => (match b % 16
      case 0 => 0xA4 case 1 => 0x24 case 2 => 0x72 case 3 => 0xDE case 4 => 0xE4
      case 5 => 0x4A case 6 => 0xC3 case 7 => 0xB0
      case 8 => 0xC7 case 9 => 0x2B case 10 => 0x6F case 11 => 0x73 case 12 => 0x28
      case 13 => 0xA0 case 14 => 0x27 case _ => 0xE8)
    case 12 => (match b % 16
      case 0 => 0xA9 case 1 => 0xD9 case 2 => 0xED case 3 => 0x1E case 4 => 0x92
      case 5 => 0x60 case 6 => 0x94 case 7 => 0xA2
      case 8 => 0x87 case 9 => 0xB1 case 10 => 0x67 case 11 => 0x23 case 12 => 0xD2
      case 13 => 0xA1 case 14 => 0x6D case _ => 0x09)
    case 13 => (match b % 16
      case 0 => 0x35 case 1 => 0xC2 case 2 => 0x62 case 3 => 0xA6 case 4 => 0xE7
      case 5 => 0x54 case 6 => 0xB5 case 7 => 0x6E
      case 8 => 0x1D case 9 => 0xDB case 10 => 0xEB case 11 => 0x0F case 12 => 0xBD
      case 13 => 0xC0 case 14 => 0x5F case _ => 0x9A)
    case 14 => (match b % 16
      case 0 => 0xF2 case 1 => 0x33 case 2 => 0xBB case 3 => 0x65 case 4 => 0x3E
      case 5 => 0x19 case 6 => 0x9D case 7 => 0xAA
      case 8 => 0x91 case 9 => 0xAC case 10 => 0x9B case 11 => 0x3D case 12 => 0xA7
      case 13 => 0x30 case 14 => 0xE0 case _ => 0xFF)
    case _ => (match b % 16
      case 0 => 0xE2 case 1 => 0x48 case 2 => 0xE6 case 3 => 0x2D case 4 => 0x37
      case 5 => 0x1B case 6 => 0x8D case 7 => 0xFA
      case 8 => 0x66 case 9 => 0x4C case 10 => 0x43 case 11 => 0x41 case 12 => 0x6A
      case 13 => 0x32 case 14 => 0x8F case _ => 0x38)
  }

  lemma {:induction false} HuPlace0(b: int)
    requires 0 <= b < 64
    ensures 0 <= HuEntry(b) < 256 && HuPlace(HuEntry(b)) == b
  {
  }

  lemma {:induction false} HuPlace1(b: int)
    requires 64 <= b < 128
    ensures 0 <= HuEntry(b) < 256 && HuPlace(HuEntry(b)) == b
  {
  }

  lemma {:induction false} HuPlace2(b: int)
    requires 128 <= b < 192
    ensures 0 <= HuEntry(b) < 256 && HuPlace(HuEntry(b)) == b
  {
  }

  lemma {:induction false} HuPlace3(b: int)
    requires 192 <= b < 256
    ensures 0 <= HuEntry(b) < 256 && HuPlace(HuEntry(b)) == b
  {
  }

  lemma {:induction false} HuPlaced(b: uint8)
    ensures 0 <= HuEntry(b) < 256 && HuPlace(HuEntry(b)) == b
  {
    if b < 64 { HuPlace0(b); } else if b < 128 { HuPlace1(b); } else if b < 192 { HuPlace2(b); } else { HuPlace3(b); }
  }

  type Table = t: bytes | |t| == 256 witness seq(256, _ => 0)

  function HuTable(): Table {
    seq(256, b requires 0 <= b < 256 => HuPlaced(b); HuEntry(b))
  }

  ghost predicate Distinct(t: Table) {
    forall a: uint8, b: uint8 :: t[a] == t[b] ==> a == b
  }

  /** The table is a permutation of 0..255. */
  lemma {:induction false} HuTableDistinct()
    ensures Distinct(HuTable())
  {
    var t := HuTable();
    forall a: uint8, b: uint8 | t[a] == t[b]
      ensures a == b
    {
      HuPlaced(a);
      HuPlaced(b);
    }
  }

  /** The running value after the fold over table `t` has taken all of `data`. */
  function Fold(t: Table, s: uint8, data: bytes): uint8 {
    if data == [] then s else t[Xor(Fold(t, s, data[..|data| - 1]), data[|data| - 1])]
  }

  /** One check byte: the fold of `rest` from the entry of `first`, moved by `offset`. */
  function CheckByte(t: Table, first: uint8, rest: bytes, offset: int): uint8 {
    AsUint8(Fold(t, t[first], rest) as int + offset)
  }

  function CheckWith(t: Table, data: bytes): (out: bytes)
    requires 0 < |data|
    ensures |out| == 2
  {
    [CheckByte(t, data[0], data[1..], 0x5D), CheckByte(t, AsUint8(data[0] as int + 1), data[1..], 0xA7)]
  }

  function Check(data: bytes): (out: bytes)
    requires 0 < |data|
    ensures |out| == 2
  {
    CheckWith(HuTable(), data)
  }

  lemma {:induction false} StepInjective(a: uint8, b: uint8, c: uint8)
    requires a != b
    ensures Xor(a, c) != Xor(b, c) && Xor(c, a) != Xor(c, b)
  {
    if Xor(a, c) == Xor(b, c) || Xor(c, a) == Xor(c, b) {
      XorInjective(a, b, c);
    }
  }

  lemma {:induction false} FoldInjective(t: Table, r: uint8, s: uint8, data: bytes)
    requires Distinct(t) && r != s
    ensures Fold(t, r, data) != Fold(t, s, data)
  {
    if data != [] {
      var n := |data| - 1;
      FoldInjective(t, r, s, data[..n]);
      StepInjective(Fold(t, r, data[..n]), Fold(t, s, data[..n]), data[n]);
    }
  }

  lemma {:induction false} FoldSeesOneByte(t: Table, s: uint8, data: bytes, k: nat, b: uint8)
    requires Distinct(t) && k < |data| && data[k] != b
    ensures Fold(t, s, data[k := b]) != Fold(t, s, data)
  {
    var n := |data| - 1;
    var changed := data[k := b];
    if k == n {
      assert changed[..n] == data[..n];
      StepInjective(b, data[n], Fold(t, s, data[..n]));
    } else {
      FoldSeesOneByte(t, s, data[..n], k, b);
      assert changed[..n] == data[..n][k := b];
      StepInjective(Fold(t, s, data[..n]), Fold(t, s, changed[..n]), data[n]);
    }
  }

  lemma {:induction false} NextDiffers(a: uint8, b: uint8)
    requires a != b
    ensures AsUint8(a as int + 1) != AsUint8(b as int + 1)
  {
  }

  lemma {:induction false} CheckByteSeesFirst(t: Table, a: uint8, b: uint8, rest: bytes, offset: int)
    requires Distinct(t) && a != b
    ensures CheckByte(t, a, rest, offset) != CheckByte(t, b, rest, offset)
  {
    FoldInjective(t, t[a], t[b], rest);
  }

  lemma {:induction false} CheckByteSeesRest(t: Table, first: uint8, rest: bytes, k: nat, b: uint8, offset: int)
    requires Distinct(t) && k < |rest| && rest[k] != b
    ensures CheckByte(t, first, rest[k := b], offset) != CheckByte(t, first, rest, offset)
  {
    FoldSeesOneByte(t, t[first], rest, k, b);
  }

  lemma {:induction false} CheckWithSeesOneByte(t: Table, data: bytes, k: nat, b: uint8)
    requires Distinct(t) && k < |data| && data[k] != b
    ensures CheckWith(t, data[k := b])[0] != CheckWith(t, data)[0]
    ensures CheckWith(t, data[k := b])[1] != CheckWith(t, data)[1]
  {
    if k == 0 {
      assert data[k := b][1..] == data[1..];
      NextDiffers(data[0], b);
      CheckByteSeesFirst(t, data[0], b, data[1..], 0x5D);
      CheckByteSeesFirst(t, AsUint8(data[0] as int + 1), AsUint8(b as int + 1), data[1..], 0xA7);
    } else {
      assert data[k := b][1..] == data[1..][k - 1 := b];
      CheckByteSeesRest(t, data[0], data[1..], k - 1, b, 0x5D);
      CheckByteSeesRest(t, AsUint8(data[0] as int + 1), data[1..], k - 1, b, 0xA7);
    }
  }

  /** Changing any one byte of the input changes both check bytes. */
  lemma {:induction false} CheckSeesOneByte(data: bytes, k: nat, b: uint8)
    requires k < |data| && data[k] != b
    ensures Check(data[k := b])[0] != Check(data)[0]
    ensures Check(data[k := b])[1] != Check(data)[1]
  {
    HuTableDistinct();
    CheckWithSeesOneByte(HuTable(), data, k, b);
  }

  lemma {:induction false} FoldThree(t: Table, s: uint8, a: uint8, b: uint8, c: uint8)
    ensures Fold(t, s, [a, b, c]) == t[Xor(t[Xor(t[Xor(s, a)], b)], c)]
  {
    assert [a, b, c][..2] == [a, b] && [a, b][..1] == [a];
    assert Fold(t, s, [a]) == t[Xor(s, a)];
    assert Fold(t, s, [a, b]) == t[Xor(Fold(t, s, [a]), b)];
  }

  lemma {:induction false} CheckByteOfThree(first: uint8, a: uint8, b: uint8, c: uint8,
                                            x: uint8, y: uint8, z: uint8, r: uint8)
    requires Xor(HuTable()[first], a) == x && Xor(HuTable()[x], b) == y && Xor(HuTable()[y], c) == z
    requires HuTable()[z] == r
    ensures Fold(HuTable(), HuTable()[first], [a, b, c]) == r
  {
    FoldThree(HuTable(), HuTable()[first], a, b, c);
  }

  lemma {:induction false} KnownCheckByte0()
    ensures CheckByte(HuTable(), 0xB3, [0x89, 0x00, 0x48], 0x5D) == 0xD7
  {
    assert HuEntry(0xB3) == 0x53 && HuEntry(0xDA) == 0x28 && HuEntry(0x28) == 0xBC && HuEntry(0xF4) == 0x7A;
    assert Xor(0x53, 0x89) == 0xDA && Xor(0x28, 0x00) == 0x28 && Xor(0xBC, 0x48) == 0xF4;
    CheckByteOfThree(0xB3, 0x89, 0x00, 0x48, 0xDA, 0x28, 0xF4, 0x7A);
  }

  lemma {:induction false} KnownCheckByte1()
    ensures CheckByte(HuTable(), 0xB4, [0x89, 0x00, 0x48], 0xA7) == 0xAA
  {
    assert HuEntry(0xB4) == 0x0D && HuEntry(0x84) == 0x69 && HuEntry(0x69) == 0x98 && HuEntry(0xD0) == 0x03;
    assert Xor(0x0D, 0x89) == 0x84 && Xor(0x69, 0x00) == 0x69 && Xor(0x98, 0x48) == 0xD0;
    CheckByteOfThree(0xB4, 0x89, 0x00, 0x48, 0x84, 0x69, 0xD0, 0x03);
  }

  /** The published example: seed b3890048 has check d7aa. */
  lemma {:induction false} KnownCheck(seed: bytes)
    requires seed == [0xB3, 0x89, 0x00, 0x48]
    ensures Check(seed) == [0xD7, 0xAA]
  {
    KnownCheckByte0();
    KnownCheckByte1();
    var rest: bytes := [0x89, 0x00, 0x48];
    assert seed[1..] == rest;
    assert seed[0] == 0xB3;
  }

  /** One pass of the fold over `buf[start..start + count]`, from byte `first`. */
  method ComputeCheckByte(t: Table, first: uint8, buf: array<uint8>, start: nat, count: nat, offset: int)
    returns (r: uint8)
    requires 0 < count && start + count <= buf.Length
    ensures r == CheckByte(t, first, buf[start..start + count][1..], offset)
  {
    var s := t[first];
    ghost var data := buf[start..start + count][1..];
    for i := start + 1 to start + count
      invariant s == Fold(t, t[first], data[..i - start - 1])
    {
      ghost var n := i - start - 1;
      assert data[..n + 1][..n] == data[..n] && data[n] == buf[i];
      s := t[Xor(s, buf[i])];
    }
    assert data[..count - 1] == data;
    r := AsUint8(s as int + offset);
  }

  /** Writes the check of `buf[start..start + count]` to `out[at..at + 2]`.  The
      caller may pass one buffer, with the input before the place written. */
  method ComputeCheck(buf: array<uint8>, start: nat, count: nat, out: array<uint8>, at: nat)
    requires 0 < count && start + count <= buf.Length && at + 2 <= out.Length
    requires buf == out ==> start + count <= at
    modifies out
    ensures out[..] == old(out[..at]) + Check(old(buf[start..start + count])) + old(out[at + 2..])
  {
    var t := HuTable();
    ghost var data := buf[start..start + count];
    var b := ComputeCheckByte(t, buf[start], buf, start, count, 0x5D);
    out[at] := b;
    assert buf[start..start + count] == data;
    b := ComputeCheckByte(t, AsUint8(buf[start] as int + 1), buf, start, count, 0xA7);
    out[at + 1] := b;
    assert out[..at] == old(out[..at]) && out[at + 2..] == old(out[at + 2..]);
    assert out[at..at + 2] == CheckWith(t, data);
  }
}
