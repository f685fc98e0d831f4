/** The client of tests/test_emulator.py: its own cipher loop, check bytes, frame
    builder and frame parser, which the emulator must agree with. */
module Client {
  import opened Bytes
  import Framing
  import Rc4
  import Verifier

  /** `(~sum(data)) & 0xFF` on unbounded integers. */
  function Checksum(data: bytes): uint8 {
    AsUint8(-1 - Framing.Sum(data))
  }

  lemma {:induction false} ChecksumsAgree(data: bytes)
    ensures Checksum(data) == Framing.Checksum(data)
  {
  }

  function BuildFrame(c: Framing.Cipher, cmd: bytes, payload: bytes, keyPrefix: bytes, encrypt: bool): bytes {
    var body := keyPrefix + payload;
    var plain := body + [Checksum(cmd + body)];
    [0x53] + cmd + (if encrypt then c(plain) else plain) + [0x45]
  }

  datatype Message = Message(cmd: bytes, payload: bytes)

  /** Failed assertions of the original are None. */
  function ParseFrame(c: Framing.Cipher, frame: bytes): Option<Message> {
    if |frame| < 5 || frame[0] != 0x53 || frame[|frame| - 1] != 0x45 then None
    else
      var cmd, plain := frame[1..3], c(frame[3..|frame| - 1]);
      var body := plain[..|plain| - 1];
      if plain[|plain| - 1] != Checksum(cmd + body) then None else Some(Message(cmd, body))
  }

  /** Client and emulator print the same frames. */
  lemma {:induction false} FramesAgree(c: Framing.Cipher, cmd: bytes, payload: bytes, keyPrefix: bytes, encrypt: bool)
    ensures BuildFrame(c, cmd, payload, keyPrefix, encrypt)
            == Framing.FrameBytes(c, cmd, keyPrefix + payload, encrypt)
  {
    ChecksumsAgree(cmd + (keyPrefix + payload));
  }

  lemma {:induction false} SealedOpens(c: Framing.Cipher, cmd: bytes, body: bytes)
    ensures c(Framing.Seal(c, cmd, body, true)) == body + [Checksum(cmd + body)]
  {
    ChecksumsAgree(cmd + body);
    var plain := body + [Framing.Checksum(cmd + body)];
    assert c(c(plain)) == plain;
  }

  /** The client reads back any two-byte-command frame the emulator prints. */
  lemma {:induction false} ClientReads(c: Framing.Cipher, cmd: bytes, body: bytes)
    requires |cmd| == 2
    ensures ParseFrame(c, Framing.FrameBytes(c, cmd, body, true)) == Some(Message(cmd, body))
  {
    SealedOpens(c, cmd, body);
    Framing.EnclosedParts(cmd, Framing.Seal(c, cmd, body, true));
    assert (body + [Checksum(cmd + body)])[..|body|] == body;
  }

  method NextKeyByte(s0: Rc4.SBox, i0: uint8, j0: uint8) returns (s: Rc4.SBox, i: uint8, j: uint8, z: uint8)
    ensures Rc4.Generator(s, i, j) == Rc4.Advance(Rc4.Generator(s0, i0, j0)) && z == Rc4.Output(Rc4.Generator(s, i, j))
  {
    i := AsUint8(i0 as int + 1);
    j := AsUint8(j0 as int + s0[i]);
    s := s0[i := s0[j]][j := s0[i]];
    z := s[AsUint8(s[i] as int + s[j])];
  }

  method Generate(data: bytes, s0: Rc4.SBox, ghost gens: seq<Rc4.Generator>, ghost whole: bytes) returns (out: bytes)
    requires Rc4.Produces(gens, data, whole) && Rc4.Generator(s0, 0, 0) == gens[0]
    ensures out == whole
  {
    out := [];
    var s, i: uint8, j: uint8 := s0, 0, 0;
    for idx := 0 to |data|
      invariant Rc4.Generator(s, i, j) == gens[idx]
      invariant out == whole[..idx]
    {
      assert Rc4.Turns(gens[idx], gens[idx + 1], data[idx], whole[idx]);
      var z;
      s, i, j, z := NextKeyByte(s, i, j);
      out := out + [Xor(data[idx], z)];
    }
  }

  method MixKey(key: bytes) returns (s: Rc4.SBox)
    requires 0 < |key|
    ensures Rc4.Generator(s, 0, 0) == Rc4.GeneratorAfter(key, 0)
  {
    var j: uint8 := 0;
    s := Rc4.Identity();
    for i := 0 to 256
      invariant Rc4.Mixing(s, j) == Rc4.KeySetup(key, i)
    {
      j := AsUint8(j as int + s[i] + key[i % |key|]);
      s := s[i := s[j]][j := s[i]];
    }
  }

  /** The client's cipher: lists and loops of its own, the same result. */
  method Cipher(data: bytes, key: bytes) returns (out: bytes)
    requires 0 < |key|
    ensures out == Rc4.Cipher(key, data)
  {
    Rc4.CipherProduces(key, data);
    var s := MixKey(key);
    out := Generate(data, s, Rc4.Generators(key, |data|), Rc4.Cipher(key, data));
  }

  method CheckByte(t: Verifier.Table, first: uint8, buf: bytes, start: nat, count: nat, offset: int) returns (r: uint8)
    requires 0 < count && start + count <= |buf|
    ensures r == Verifier.CheckByte(t, first, buf[start..start + count][1..], offset)
  {
    var s := t[first];
    ghost var data := buf[start..start + count][1..];
    for i := start + 1 to start + count
      invariant s == Verifier.Fold(t, t[first], data[..i - start - 1])
    {
      ghost var n := i - start - 1;
      assert data[..n + 1][..n] == data[..n] && data[n] == buf[i];
      s := t[Xor(s, buf[i])];
    }
    assert data[..count - 1] == data;
    r := AsUint8(s as int + offset);
  }

  method HuVerifier(buf: bytes, start: nat, count: nat) returns (out: bytes)
    requires 0 < count && start + count <= |buf|
    ensures out == Verifier.Check(buf[start..start + count])
  {
    var t := Verifier.HuTable();
    ghost var data := buf[start..start + count];
    var b0 := CheckByte(t, buf[start], buf, start, count, 0x5D);
    var b1 := CheckByte(t, AsUint8(buf[start] as int + 1), buf, start, count, 0xA7);
    out := [b0, b1];
    assert data[0] == buf[start];
  }
}
