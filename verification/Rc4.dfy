/** The stream cipher of nivona_crypto.c: the state array and the two loops
    that mix it, as values first and then as the loops themselves. */
module Rc4 {
  import opened Bytes

  /** The key that every frame is enciphered under. */
  const MASTER_KEY: bytes := [
    0x4E, 0x49, 0x56, 0x5F, 0x30, 0x36, 0x30, 0x36, 0x31, 0x36, 0x5F, 0x56, 0x31, 0x30, 0x5F, 0x31,
    0x2A, 0x39, 0x23, 0x33, 0x21, 0x34, 0x24, 0x36, 0x2B, 0x34, 0x72, 0x65, 0x73, 0x2D, 0x3F, 0x33
  ]

  // The 256-byte state array.
  type SBox = s: bytes | |s| == 256 witness seq(256, _ => 0)

  function Identity(): SBox {
    seq(256, i requires 0 <= i < 256 => i)
  }

  function Swap(s: SBox, i: uint8, j: uint8): SBox {
    s[i := s[j]][j := s[i]]
  }

  datatype Mixing = Mixing(s: SBox, j: uint8)

  /** The key setup after `n` of its 256 rounds. */
  function KeySetup(key: bytes, n: nat): Mixing
    requires 0 < |key| && n <= 256
    decreases n, key
  {
    if n == 0 then Mixing(Identity(), 0)
    else
      var p := KeySetup(key, n - 1);
      var j := AsUint8(p.j as int + p.s[n - 1] + key[(n - 1) % |key|]);
      Mixing(Swap(p.s, n - 1, j), j)
  }

  datatype Generator = Generator(s: SBox, i: uint8, j: uint8)

  function Advance(g: Generator): Generator {
    var i := AsUint8(g.i + 1);
    var j := AsUint8(g.j as int + g.s[i]);
    Generator(Swap(g.s, i, j), i, j)
  }

  function GeneratorAfter(key: bytes, n: nat): Generator
    requires 0 < |key|
    decreases n, key
  {
    if n == 0 then Generator(KeySetup(key, 256).s, 0, 0)
    else Advance(GeneratorAfter(key, n - 1))
  }

  function Output(g: Generator): uint8 {
    g.s[AsUint8(g.s[g.i] as int + g.s[g.j])]
  }

  /** The key stream byte combined with input byte `k`. */
  function KeyByte(key: bytes, k: nat): uint8
    requires 0 < |key|
  {
    Output(GeneratorAfter(key, k + 1))
  }

  function Cipher(key: bytes, data: bytes): (out: bytes)
    requires 0 < |key|
    ensures |out| == |data|
  {
    seq(|data|, k requires 0 <= k < |data| => Xor(data[k], KeyByte(key, k)))
  }

  // ---- What the cipher promises ------------------------------------------

  /** Enciphering twice under one key gives the data back. */
  lemma {:induction false} CipherInvolutive(key: bytes, data: bytes)
    requires 0 < |key|
    ensures Cipher(key, Cipher(key, data)) == data
  {
    var out := Cipher(key, data);
    forall k | 0 <= k < |data|
      ensures Cipher(key, out)[k] == data[k]
    {
      XorCancels(data[k], KeyByte(key, k));
    }
  }

  /** A prefix of the input gives that prefix of the output. */
  lemma {:induction false} CipherPrefix(key: bytes, data: bytes, n: nat)
    requires 0 < |key| && n <= |data|
    ensures Cipher(key, data[..n]) == Cipher(key, data)[..n]
  {
  }

  /** Changing an input byte changes that output byte and no other. */
  lemma {:induction false} CipherChangesOneByte(key: bytes, data: bytes, k: nat, b: uint8)
    requires 0 < |key| && k < |data| && b != data[k]
    ensures var c := Cipher(key, data[k := b])[k];
            c != Cipher(key, data)[k] && Cipher(key, data[k := b]) == Cipher(key, data)[k := c]
  {
    var c := Xor(b, KeyByte(key, k));
    if c == Cipher(key, data)[k] {
      XorInjective(b, data[k], KeyByte(key, k));
    }
    assert Cipher(key, data[k := b]) == Cipher(key, data)[k := c];
  }

  ghost predicate IsPermutation(s: SBox) {
    multiset(s) == multiset(Identity())
  }

  lemma {:induction false} SwapKeepsPermutation(s: SBox, i: uint8, j: uint8)
    requires IsPermutation(s)
    ensures IsPermutation(Swap(s, i, j))
  {
  }

  /** The state array is a permutation of 0..255 after every round of the setup. */
  lemma {:induction false} KeySetupPermutes(key: bytes, n: nat)
    requires 0 < |key| && n <= 256
    ensures IsPermutation(KeySetup(key, n).s)
    decreases n
  {
    if n > 0 {
      KeySetupPermutes(key, n - 1);
      var p := KeySetup(key, n - 1);
      SwapKeepsPermutation(p.s, n - 1, KeySetup(key, n).j);
    }
  }

  /** ... and after every output byte. */
  lemma {:induction false} GeneratorPermutes(key: bytes, n: nat)
    requires 0 < |key|
    ensures IsPermutation(GeneratorAfter(key, n).s)
    decreases n
  {
    if n == 0 {
      KeySetupPermutes(key, 256);
    } else {
      GeneratorPermutes(key, n - 1);
      var g := GeneratorAfter(key, n);
      SwapKeepsPermutation(GeneratorAfter(key, n - 1).s, g.i, g.j);
    }
  }

  // ---- The loops -----------------------------------------------------------

  /** `dst` with the first `k` bytes of `out` written at `off`. */
  function Written(dst: bytes, off: nat, out: bytes, k: nat): bytes
    requires k <= |out| && off + k <= |dst|
  {
    dst[..off] + out[..k] + dst[off + k..]
  }

  lemma {:induction false} WriteNext(dst: bytes, off: nat, out: bytes, k: nat)
    requires k < |out| && off + k < |dst|
    ensures Written(dst, off, out, k)[off + k := out[k]] == Written(dst, off, out, k + 1)
    ensures Written(dst, off, out, k)[off + k] == dst[off + k]
  {
  }

  /** One input byte on its way to an output byte. */
  predicate Turns(before: Generator, after: Generator, input: uint8, output: uint8) {
    after == Advance(before) && output == Xor(input, Output(after))
  }

  /** The states the generator goes through as `data` becomes `out`. */
  ghost predicate Produces(gens: seq<Generator>, data: bytes, out: bytes) {
    |gens| == |data| + 1 && |out| == |data|
    && forall k | 0 <= k < |data| :: Turns(gens[k], gens[k + 1], data[k], out[k])
  }

  ghost function Generators(key: bytes, n: nat): seq<Generator>
    requires 0 < |key|
  {
    seq(n + 1, k requires 0 <= k => GeneratorAfter(key, k))
  }

  lemma {:induction false} CipherProduces(key: bytes, data: bytes)
    requires 0 < |key|
    ensures Produces(Generators(key, |data|), data, Cipher(key, data))
  {
  }

  method Exchange(s: array<uint8>, i: uint8, j: uint8)
    requires s.Length == 256
    modifies s
    ensures s[..] == Swap(old(s[..]), i, j)
  {
    s[i], s[j] := s[j], s[i];
  }

  /** One round of the output loop, up to the key stream byte it yields. */
  method NextKeyByte(s: array<uint8>, i0: uint8, j0: uint8) returns (i: uint8, j: uint8, z: uint8)
    requires s.Length == 256
    modifies s
    ensures Generator(s[..], i, j) == Advance(Generator(old(s[..]), i0, j0))
    ensures z == Output(Generator(s[..], i, j))
  {
    i := AsUint8(i0 + 1);
    j := AsUint8(j0 as int + s[i]);
    Exchange(s, i, j);
    z := s[AsUint8(s[i] as int + s[j])];
  }

  /** The output loop. */
  method CryptWith(s: array<uint8>, src: array<uint8>, srcOff: nat, dst: array<uint8>, dstOff: nat, len: nat,
                   ghost gens: seq<Generator>, ghost out: bytes)
    requires s.Length == 256 && s != src && s != dst
    requires srcOff + len <= src.Length && dstOff + len <= dst.Length
    requires src == dst ==> srcOff == dstOff
    requires Produces(gens, src[srcOff..srcOff + len], out) && Generator(s[..], 0, 0) == gens[0]
    modifies s, dst
    ensures dst[..] == Written(old(dst[..]), dstOff, out, len)
  {
    var i: uint8, j: uint8 := 0, 0;
    ghost var data, was := src[srcOff..srcOff + len], dst[..];
    ghost var now := was;
    assert now == Written(was, dstOff, out, 0);
    for k := 0 to len
      invariant Generator(s[..], i, j) == gens[k]
      invariant dst[..] == now == Written(was, dstOff, out, k)
      invariant src != dst ==> src[..] == old(src[..])
    {
      WriteNext(was, dstOff, out, k);
      assert src[srcOff + k] == data[k] by {
        if src == dst {
          assert now[dstOff + k] == was[dstOff + k];
        }
      }
      assert Turns(gens[k], gens[k + 1], data[k], out[k]);
      var z;
      i, j, z := NextKeyByte(s, i, j);
      dst[dstOff + k] := Xor(src[srcOff + k], z);
      now := now[dstOff + k := out[k]];
    }
  }

  method MixKey(key: bytes) returns (s: array<uint8>)
    requires 0 < |key|
    ensures fresh(s) && s.Length == 256 && Generator(s[..], 0, 0) == GeneratorAfter(key, 0)
  {
    s := new uint8[256];
    for i := 0 to 256
      invariant forall m | 0 <= m < i :: s[m] == m
    {
      s[i] := i;
    }
    assert s[..] == Identity();
    var j: uint8 := 0;
    for i := 0 to 256
      invariant Mixing(s[..], j) == KeySetup(key, i)
    {
      j := AsUint8(j as int + s[i] + key[i % |key|]);
      Exchange(s, i, j);
    }
  }

  /** Enciphers `len` bytes of `src` into `dst`.  The two may be one buffer, at
      one offset: each input byte is read before its output byte is written. */
  method Crypt(key: bytes, src: array<uint8>, srcOff: nat, dst: array<uint8>, dstOff: nat, len: nat)
    requires 0 < |key|
    requires srcOff + len <= src.Length && dstOff + len <= dst.Length
    requires src == dst ==> srcOff == dstOff
    modifies dst
    ensures dst[..] == Written(old(dst[..]), dstOff, Cipher(key, old(src[srcOff..srcOff + len])), len)
  {
    ghost var data := src[srcOff..srcOff + len];
    CipherProduces(key, data);
    var s := MixKey(key);
    CryptWith(s, src, srcOff, dst, dstOff, len, Generators(key, len), Cipher(key, data));
  }
}
