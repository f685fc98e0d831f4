/** The wire frames of nivona_frame.c as values: what one frame means, how a
    frame is printed, and how the byte-at-a-time parser cuts a stream into frames. */
module Framing {
  import opened Bytes

  const FRAME_START: uint8 := 0x53
  const FRAME_END: uint8 := 0x45
  const BLE_MTU: nat := 20
  const MAX_FRAME_BYTES: nat := 512
  const KEY_PREFIX_LEN: nat := 2

  const ACK: uint8 := 0x41
  const NACK: uint8 := 0x4E
  const H: uint8 := 0x48

  type SessionKey = k: bytes | |k| == KEY_PREFIX_LEN witness [0, 0]

  /** The handshake state: whether a key was agreed, and the key (zeros before). */
  datatype Link = Link(done: bool, key: SessionKey)

  const NO_LINK := Link(false, [0, 0])

  ghost predicate ChangesOneByte(c: bytes -> bytes, d: bytes, k: nat, b: uint8)
    requires k < |d|
  {
    |c(d)| == |c(d[k := b])| == |d| && c(d[k := b])[k] != c(d)[k] && c(d[k := b]) == c(d)[k := c(d[k := b])[k]]
  }

  ghost predicate IsCipher(c: bytes -> bytes) {
    && (forall d: bytes :: |c(d)| == |d| && c(c(d)) == d)
    && (forall d: bytes, k: nat, b: uint8 | k < |d| && b != d[k] :: ChangesOneByte(c, d, k, b))
  }

  /** The cipher is a parameter of everything below: all that framing needs of it
      is that it works byte by byte and undoes itself. */
  type Cipher = c: bytes -> bytes | IsCipher(c) witness (d: bytes) => d

  // ---- Checksum ------------------------------------------------------------

  function Sum(data: bytes): nat {
    if data == [] then 0 else Sum(data[..|data| - 1]) + data[|data| - 1]
  }

  /** The complement of the byte sum. */
  function Checksum(data: bytes): uint8 {
    0xFF - AsUint8(Sum(data))
  }

  lemma {:induction false} SumConcat(a: bytes, b: bytes)
    ensures Sum(a + b) == Sum(a) + Sum(b)
  {
    if b == [] {
      assert a + b == a;
    } else {
      SumConcat(a, b[..|b| - 1]);
      assert (a + b)[..|a + b| - 1] == a + b[..|b| - 1];
    }
  }

  lemma {:induction false} SumUpdate(data: bytes, k: nat, b: uint8)
    requires k < |data|
    ensures Sum(data[k := b]) == Sum(data) - data[k] + b
  {
    var pre, post := data[..k], data[k + 1..];
    assert data == pre + [data[k]] + post && data[k := b] == pre + [b] + post;
    SumConcat(pre, [data[k]]);
    SumConcat(pre + [data[k]], post);
    SumConcat(pre, [b]);
    SumConcat(pre + [b], post);
  }

  // ---- One frame -----------------------------------------------------------

  datatype CommandInfo = CommandInfo(len: nat, encrypted: bool)

  /** The command a frame starts with.  `A` and `N` count only before the handshake. */
  function ReadCommand(buf: bytes, done: bool): (r: Option<CommandInfo>)
    ensures r.Some? ==> 1 <= r.value.len <= 2 && r.value.len <= |buf|
  {
    if |buf| < 1 then None
    else if !done && (buf[0] == ACK || buf[0] == NACK) then Some(CommandInfo(1, false))
    else if |buf| >= 2 && buf[0] == H then Some(CommandInfo(2, true))
    else None
  }

  /** A frame's content; `stripped` says that a session key was taken off the payload. */
  datatype Parsed = Parsed(cmd: bytes, payload: bytes, stripped: bool)

  function Strip(cmd: bytes, body: bytes, encrypted: bool, link: Link): Parsed
  {
    if encrypted && link.done && |body| >= KEY_PREFIX_LEN && body[..KEY_PREFIX_LEN] == link.key
    then Parsed(cmd, body[KEY_PREFIX_LEN..], true)
    else Parsed(cmd, body, false)
  }

  /** Deciphers what follows the command, checks the sum, takes the session key off. */
  function Open(c: Cipher, cmd: bytes, data: bytes, encrypted: bool, link: Link): Option<Parsed>
    requires 0 < |data|
  {
    var plain := if encrypted then c(data) else data;
    var body := plain[..|plain| - 1];
    if plain[|plain| - 1] != Checksum(cmd + body) then None else Some(Strip(cmd, body, encrypted, link))
  }

  function ParseFrame(c: Cipher, f: bytes, link: Link): Option<Parsed>
  {
    if |f| < 4 || f[0] != FRAME_START || f[|f| - 1] != FRAME_END then None
    else
      var info := ReadCommand(f[1..|f| - 1], link.done);
      if info.None? then None
      else
        var n := 1 + info.value.len;
        if |f| - 1 <= n then None
        else Open(c, f[1..n], f[n..|f| - 1], info.value.encrypted, link)
  }

  /** A body (session key, if any, and payload) with its checksum, as it is sent. */
  function Seal(c: Cipher, cmd: bytes, body: bytes, encrypt: bool): (data: bytes)
    ensures |data| == |body| + 1
  {
    var plain := body + [Checksum(cmd + body)];
    if encrypt then c(plain) else plain
  }

  /** A frame around a command and what follows it. */
  function Enclose(cmd: bytes, data: bytes): (f: bytes)
    ensures |f| == |cmd| + |data| + 2
  {
    [FRAME_START] + cmd + data + [FRAME_END]
  }

  function FrameBytes(c: Cipher, cmd: bytes, body: bytes, encrypt: bool): bytes {
    Enclose(cmd, Seal(c, cmd, body, encrypt))
  }

  /** A command a frame can carry while the link is in the given state. */
  predicate IsCommand(cmd: bytes, encrypted: bool, done: bool) {
    if encrypted then |cmd| == 2 && cmd[0] == H
    else !done && (cmd == [ACK] || cmd == [NACK])
  }

  lemma {:induction false} ReadCommandIsCommand(buf: bytes, done: bool)
    requires ReadCommand(buf, done).Some?
    ensures var info := ReadCommand(buf, done).value;
            IsCommand(buf[..info.len], info.encrypted, done) && (info.encrypted <==> buf[0] == H)
  {
  }

  lemma {:induction false} OpenSealed(c: Cipher, cmd: bytes, body: bytes, encrypt: bool, link: Link)
    ensures Open(c, cmd, Seal(c, cmd, body, encrypt), encrypt, link) == Some(Strip(cmd, body, encrypt, link))
  {
    var plain := body + [Checksum(cmd + body)];
    assert plain[..|plain| - 1] == body;
  }

  lemma {:induction false} SealOpened(c: Cipher, cmd: bytes, data: bytes, encrypted: bool, link: Link)
    requires 0 < |data| && Open(c, cmd, data, encrypted, link).Some?
    ensures var p := Open(c, cmd, data, encrypted, link).value;
            p.cmd == cmd && (p.stripped ==> encrypted && link.done)
            && data == Seal(c, cmd, (if p.stripped then link.key else []) + p.payload, encrypted)
  {
    var plain := if encrypted then c(data) else data;
    var body := plain[..|plain| - 1];
    var p := Strip(cmd, body, encrypted, link);
    assert plain == body + [Checksum(cmd + body)];
    assert (if p.stripped then link.key else []) + p.payload == body;
  }

  lemma {:induction false} EnclosedParts(cmd: bytes, data: bytes)
    ensures var f := Enclose(cmd, data);
            |f| == |cmd| + |data| + 2 && f[0] == FRAME_START && f[|f| - 1] == FRAME_END
            && f[1..|f| - 1] == cmd + data && f[1..1 + |cmd|] == cmd && f[1 + |cmd|..|f| - 1] == data
  {
  }

  lemma {:induction false} EncloseParts(f: bytes, n: nat)
    requires 1 <= n < |f| && f[0] == FRAME_START && f[|f| - 1] == FRAME_END
    ensures f == Enclose(f[1..n], f[n..|f| - 1])
    ensures f[1..|f| - 1] == f[1..n] + f[n..|f| - 1]
  {
  }

  lemma {:induction false} CommandIsRead(cmd: bytes, data: bytes, encrypted: bool, done: bool)
    requires IsCommand(cmd, encrypted, done)
    ensures ReadCommand(cmd + data, done) == Some(CommandInfo(|cmd|, encrypted))
  {
    assert (cmd + data)[0] == cmd[0];
  }

  lemma {:induction false} ParseEnclosed(c: Cipher, cmd: bytes, data: bytes, encrypted: bool, link: Link)
    requires IsCommand(cmd, encrypted, link.done) && 0 < |data|
    ensures ParseFrame(c, Enclose(cmd, data), link) == Open(c, cmd, data, encrypted, link)
  {
    EnclosedParts(cmd, data);
    CommandIsRead(cmd, data, encrypted, link.done);
  }

  /** Parsing a printed frame gives back its command and its body, stripped or not. */
  lemma {:induction false} ParsePrinted(c: Cipher, cmd: bytes, body: bytes, encrypt: bool, link: Link)
    requires IsCommand(cmd, encrypt, link.done)
    ensures ParseFrame(c, FrameBytes(c, cmd, body, encrypt), link) == Some(Strip(cmd, body, encrypt, link))
  {
    OpenSealed(c, cmd, body, encrypt, link);
    ParseEnclosed(c, cmd, Seal(c, cmd, body, encrypt), encrypt, link);
  }

  /** Printing what was parsed gives back the frame, byte for byte, with the
      session key put back exactly when it had been taken off. */
  lemma {:induction false} PrintParsed(c: Cipher, f: bytes, link: Link)
    requires ParseFrame(c, f, link).Some?
    ensures var p := ParseFrame(c, f, link).value;
            p.cmd != []
            && (if p.cmd[0] == 0x48 then |p.cmd| == 2 else !link.done && (p.cmd == [0x41] || p.cmd == [0x4E]))
            && (p.stripped ==> p.cmd[0] == 0x48 && link.done)
            && f == FrameBytes(c, p.cmd, (if p.stripped then link.key else []) + p.payload, p.cmd[0] == H)
  {
    var head := f[1..|f| - 1];
    var info := ReadCommand(head, link.done).value;
    var n := 1 + info.len;
    EncloseParts(f, n);
    assert head[..info.len] == f[1..n];
    ReadCommandIsCommand(head, link.done);
    SealOpened(c, f[1..n], f[n..|f| - 1], info.encrypted, link);
  }

  /** The last byte of the plaintext is the checksum of the rest. */
  predicate Sealed(cmd: bytes, plain: bytes)
    requires 0 < |plain|
  {
    plain[|plain| - 1] == Checksum(cmd + plain[..|plain| - 1])
  }

  lemma {:induction false} CloseDiffer(a: int, b: int)
    requires a != b && -256 < a - b < 256
    ensures AsUint8(a) != AsUint8(b)
  {
  }

  lemma {:induction false} ChecksumSeesOneByte(cmd: bytes, plain: bytes, k: nat, x: uint8)
    requires k < |plain| && x != plain[k] && Sealed(cmd, plain)
    ensures !Sealed(cmd, plain[k := x])
  {
    var noise, last := plain[k := x], |plain| - 1;
    if k < last {
      assert noise[..last] == plain[..last][k := x];
      SumConcat(cmd, plain[..last]);
      SumConcat(cmd, noise[..last]);
      SumUpdate(plain[..last], k, x);
      CloseDiffer(Sum(cmd + plain[..last]), Sum(cmd + noise[..last]));
    } else {
      assert noise[..last] == plain[..last];
    }
  }

  /** A change to one byte of what follows the command never passes the checksum. */
  lemma {:induction false} OpenSeesOneByte(c: Cipher, cmd: bytes, data: bytes, link: Link, k: nat, b: uint8)
    requires k < |data| && b != data[k] && Open(c, cmd, data, true, link).Some?
    ensures Open(c, cmd, data[k := b], true, link) == None
  {
    assert ChangesOneByte(c, data, k, b);
    ChecksumSeesOneByte(cmd, c(data), k, c(data[k := b])[k]);
  }

  /** A frame with exactly one byte of its ciphertext changed is never dispatched. */
  lemma {:induction false} CorruptionIsSeen(c: Cipher, f: bytes, link: Link, k: nat, b: uint8)
    requires ParseFrame(c, f, link).Some? && f[1] == H
    requires 3 <= k < |f| - 1 && b != f[k]
    ensures ParseFrame(c, f[k := b], link) == None
  {
    var g := f[k := b];
    assert f[1..|f| - 1][0] == g[1..|g| - 1][0] == H;
    assert g[1..3] == f[1..3] && g[3..|g| - 1] == f[3..|f| - 1][k - 3 := b];
    OpenSeesOneByte(c, f[1..3], f[3..|f| - 1], link, k - 3, b);
  }

  // ---- Printing ------------------------------------------------------------

  /** A C string: the bytes before the first zero. */
  function CString(s: bytes): (c: bytes)
    ensures |c| <= |s| && c == s[..|c|] && 0 !in c
  {
    if s == [] || s[0] == 0 then [] else [s[0]] + CString(s[1..])
  }

  /** What nivona_frame_send puts on the wire, if anything. */
  function Printed(c: Cipher, link: Link, cmd: bytes, payload: bytes, withKey: bool, encrypt: bool): (r: Option<bytes>)
  {
    var name := CString(cmd);
    var body := (if withKey && link.done then link.key else []) + payload;
    if |name| < 1 || |name| > 2 || |name| + |body| + 3 > MAX_FRAME_BYTES then None
    else Some(FrameBytes(c, name, body, encrypt))
  }

  /** The notifications a frame is sent in. */
  function Chunks(f: bytes): seq<bytes> {
    if f == [] then []
    else if |f| <= BLE_MTU then [f]
    else [f[..BLE_MTU]] + Chunks(f[BLE_MTU..])
  }

  function Flatten(parts: seq<bytes>): bytes {
    if parts == [] then [] else parts[0] + Flatten(parts[1..])
  }

  /** No notification is empty or over the limit, and together they are the frame. */
  lemma {:induction false} ChunksRejoin(f: bytes)
    ensures Flatten(Chunks(f)) == f
    ensures forall c | c in Chunks(f) :: 0 < |c| <= 20
    ensures |Chunks(f)| == (|f| + 19) / 20
  {
    if f == [] {
    } else if |f| <= BLE_MTU {
      assert Chunks(f)[1..] == [];
    } else {
      ChunksRejoin(f[BLE_MTU..]);
      assert Chunks(f)[1..] == Chunks(f[BLE_MTU..]);
    }
  }
}
