/** The radio side as it runs: nivona_frame.c's parser buffer and handshake,
    nivona_dispatch.c's handlers, and the register store and the machine they work on. */
module Device {
  import opened Bytes
  import opened Dispatch
  import opened Families
  import opened Framing
  import opened Front
  import opened Store
  import Emulator
  import Machine
  import Registers
  import Rc4
  import Stream
  import Verifier

  ghost predicate IsMaster(c: Cipher) {
    forall d: bytes {:trigger Rc4.Cipher(Rc4.MASTER_KEY, d)} :: c(d) == Rc4.Cipher(Rc4.MASTER_KEY, d)
  }

  /** RC4 under the bundled key is a cipher in the sense of framing. */
  lemma {:induction false} MasterIsCipher()
    ensures IsCipher((d: bytes) => Rc4.Cipher(Rc4.MASTER_KEY, d))
  {
    var c: bytes -> bytes := (d: bytes) => Rc4.Cipher(Rc4.MASTER_KEY, d);
    forall d: bytes
      ensures |c(d)| == |d| && c(c(d)) == d
    {
      Rc4.CipherInvolutive(Rc4.MASTER_KEY, d);
    }
    forall d: bytes, k: nat, b: uint8 | k < |d| && b != d[k]
      ensures ChangesOneByte(c, d, k, b)
    {
      Rc4.CipherChangesOneByte(Rc4.MASTER_KEY, d, k, b);
    }
  }

  method MasterCrypt(ghost c: Cipher, src: array<uint8>, srcOff: nat, dst: array<uint8>, dstOff: nat, len: nat)
    requires IsMaster(c)
    requires srcOff + len <= src.Length && dstOff + len <= dst.Length
    requires src == dst ==> srcOff == dstOff
    modifies dst
    ensures dst[..] == old(dst[..dstOff]) + c(old(src[srcOff..srcOff + len])) + old(dst[dstOff + len..])
  {
    ghost var out := Rc4.Cipher(Rc4.MASTER_KEY, src[srcOff..srcOff + len]);
    assert out[..len] == out;
    Rc4.Crypt(Rc4.MASTER_KEY, src, srcOff, dst, dstOff, len);
  }

  method ComputeChecksum(data: array<uint8>, from: nat, len: nat) returns (cs: uint8)
    requires from + len <= data.Length
    ensures cs == Checksum(data[from..from + len])
  {
    var s: uint8 := 0;
    for i := 0 to len
      invariant s == AsUint8(Sum(data[from..from + i]))
    {
      assert data[from..from + i + 1][..i] == data[from..from + i];
      s := AsUint8(s as int + data[from + i]);
    }
    cs := 0xFF - s;
  }

  /** memcpy into a buffer. */
  method CopyInto(dst: array<uint8>, at: nat, data: bytes)
    requires at + |data| <= dst.Length
    modifies dst
    ensures dst[..] == old(dst[..at]) + data + old(dst[at + |data|..])
  {
    forall i | 0 <= i < |data| {
      dst[at + i] := data[i];
    }
  }

  /** memcpy after the first `pos` bytes, which stay as they are. */
  method Append(dst: array<uint8>, pos: nat, data: bytes) returns (end: nat)
    requires pos + |data| <= dst.Length
    modifies dst
    ensures end == pos + |data| && dst[..end] == old(dst[..pos]) + data
  {
    CopyInto(dst, pos, data);
    end := pos + |data|;
    assert dst[..end] == dst[..][..end];
  }

  /** The sum over the command and what it came with, from a copy of both. */
  method ChecksumOver(cmd: bytes, body: bytes) returns (cs: uint8)
    ensures cs == Checksum(cmd + body)
  {
    var csIn := new uint8[|cmd| + |body|];
    var n := Append(csIn, 0, cmd);
    n := Append(csIn, n, body);
    assert csIn[0..0 + n] == csIn[..n] == cmd + body;
    cs := ComputeChecksum(csIn, 0, n);
  }

  lemma {:induction false} HeadAndRest(head: bytes, rest: bytes, n: nat)
    requires n <= |rest|
    ensures (head + rest)[..|head|] == head && (head + rest)[|head| + n..] == rest[n..]
  {
  }

  lemma {:induction false} PartOfBuffer(a: array<uint8>, n: nat, from: nat, to: nat)
    requires from <= to <= n <= a.Length
    ensures a[..n][from..to] == a[from..to]
  {
  }

  lemma {:induction false} PartsOfSuffix(f: bytes, off: nat, n: nat)
    requires off + n <= |f|
    ensures f[off..][..n] == f[off..off + n] && f[off..][n..] == f[off + n..]
  {
  }

  lemma {:induction false} AfterFirst(a: array<uint8>, n: nat, first: uint8, rest: bytes)
    requires n <= a.Length && a[..n] == [first] + rest
    ensures a[1..1 + (n - 1)] == rest
  {
    assert a[1..n] == a[..n][1..];
  }

  /** Where the machine has no part, how it would answer makes no difference. */
  lemma {:induction false} PlainIsPlain(e: Env, f: Env, w: World, cmd: bytes, payload: bytes)
    requires cmd != HX && cmd != HE && cmd != HZ && cmd != HY
    requires e.cipher == f.cipher && e.random == f.random && e.report == f.report
    ensures Dispatch.Dispatch(e, w, cmd, payload) == Dispatch.Dispatch(f, w, cmd, payload)
  {
  }

  /** One more byte of a chunk, served. */
  lemma {:induction false} StepServed(key: Key, env: Env, created: nat -> bool, x: Emulator.System, data: bytes, i: nat)
    requires i < |data|
    ensures var y := Emulator.Received(key, env, created, x, data[..i]);
            var t := Stream.Take(y.pending, data[i]);
            Emulator.Received(key, env, created, x, data[..i + 1])
            == (if t.frame.Some? then Emulator.Served(key, env, created, y, t.frame.value) else y)
               .(pending := t.pending)
  {
    var start := Stream.Start(x.pending);
    var p, q := Stream.Feed(start, data[..i]), Stream.Feed(start, data[..i + 1]);
    assert data[..i + 1][..i] == data[..i];
    assert q == Stream.Step(p, data[i]);
    var t := Stream.Take(p.pending, data[i]);
    if t.frame.Some? {
      assert q.Datas() == p.Datas() + [t.frame.value];
      assert q.Datas()[..|q.Datas()| - 1] == p.Datas();
    } else {
      assert q.Datas() == p.Datas();
    }
  }

  class Radio {
    const env: Env
    const store: RegisterStore
    const front: Front
    // What comes of making the task for each action.
    const created: nat -> bool
    // Parser state.
    const buf: array<uint8>
    var len: nat
    var inFrame: bool
    // Handshake state.
    var handshakeDone: bool
    var keyPrefix: SessionKey
    // What went out: notifications to the client, requests to the machine.
    var sent: seq<bytes>
    var actions: seq<Action>
    ghost var dispatched: seq<Parsed>

    /** All but what the parser keeps of its own state. */
    ghost predicate Ready()
      reads this, buf, store, store.num, store.alpha
      reads front, front.tanks, front.tanks.levels, front.tanks.parts, front.panel, front.brews, front.cycles
    {
      && IsMaster(env.cipher) && buf != front.tanks.levels
      && store.Valid() && front.Valid() && front.m.nums == store.Model().num
      && buf.Length == MAX_FRAME_BYTES && len <= buf.Length
    }

    ghost predicate Valid()
      reads this, buf, store, store.num, store.alpha
      reads front, front.tanks, front.tanks.levels, front.tanks.parts, front.panel, front.brews, front.cycles
    {
      Ready() && (inFrame <==> len > 0) && Stream.PendingOk(buf[..len])
    }

    ghost function State(): World
      reads this, store, store.num, store.alpha
    {
      World(Link(handshakeDone, keyPrefix), store.Model(), sent, dispatched, actions)
    }

    ghost function Pending(): bytes
      requires len <= buf.Length
      reads this, buf
    {
      buf[..len]
    }

    /** How the machine would answer now. */
    ghost function Now(): Env
      reads front
    {
      Emulator.EnvIn(front.key, env, front.m, created)
    }

    /** Radio and machine. */
    ghost function System(): Emulator.System
      requires len <= buf.Length
      reads this, buf, store, store.num, store.alpha, front
    {
      Emulator.System(State(), Pending(), front.m)
    }

    constructor (env: Env, store: RegisterStore, front: Front, created: nat -> bool)
      requires IsMaster(env.cipher) && store.Valid() && front.Valid() && front.m.nums == store.Model().num
      ensures Valid() && fresh(buf) && this.env == env && this.store == store && this.front == front
      ensures this.created == created
      ensures System() == Emulator.System(World(NO_LINK, store.Model(), [], [], []), [], front.m)
    {
      this.env := env;
      this.store := store;
      this.front := front;
      this.created := created;
      buf := new uint8[MAX_FRAME_BYTES];
      len, inFrame := 0, false;
      handshakeDone, keyPrefix := false, [0, 0];
      sent, actions, dispatched := [], [], [];
    }

    /** nivona_frame_reset: a fresh connection must run a fresh handshake. */
    method Reset()
      requires Valid()
      modifies this
      ensures Valid() && System() == old(System()).(w := old(State()).(link := NO_LINK), pending := [])
      ensures System() == Emulator.Next(front.key, env, created, old(System()), Emulator.Disconnected)
    {
      len, inFrame := 0, false;
      handshakeDone, keyPrefix := false, [0, 0];
    }

    method Decipher(from: nat, to: nat, encrypted: bool) returns (plain: array<uint8>)
      requires IsMaster(env.cipher) && from < to <= buf.Length
      ensures fresh(plain)
      ensures plain[..] == if encrypted then env.cipher(buf[from..to]) else buf[from..to]
    {
      var dataLen := to - from;
      plain := new uint8[dataLen];
      if encrypted {
        assert buf[from..from + dataLen] == buf[from..to];
        MasterCrypt(env.cipher, buf, from, plain, 0, dataLen);
      } else {
        var n := Append(plain, 0, buf[from..to]);
        assert plain[..] == plain[..n];
      }
    }

    /** Deciphers `buf[from..to]`, compares checksums, strips a matching key. */
    method OpenData(cmd: bytes, from: nat, to: nat, encrypted: bool) returns (r: Option<Parsed>)
      requires IsMaster(env.cipher) && buf.Length == MAX_FRAME_BYTES && from < to <= buf.Length && |cmd| <= 2
      ensures r == Open(env.cipher, cmd, buf[from..to], encrypted, Link(handshakeDone, keyPrefix))
    {
      var plain := Decipher(from, to, encrypted);
      var payloadLen := plain.Length - 1;
      var body := plain[..payloadLen];
      assert body == plain[..][..payloadLen];
      var expected := ChecksumOver(cmd, body);
      if plain[payloadLen] != expected {
        return None;
      }
      return Some(Strip(cmd, body, encrypted, Link(handshakeDone, keyPrefix)));
    }

    method ParseBuffer() returns (r: Option<Parsed>)
      requires IsMaster(env.cipher) && buf.Length == MAX_FRAME_BYTES && len <= buf.Length
      ensures r == ParseFrame(env.cipher, buf[..len], Link(handshakeDone, keyPrefix))
    {
      var f := buf[..len];
      if len < 4 {
        return None;
      }
      if f[0] != FRAME_START || f[len - 1] != FRAME_END {
        return None;
      }
      var info := ReadCommand(f[1..len - 1], handshakeDone);
      if info.None? {
        return None;
      }
      var dataStart, dataEnd := 1 + info.value.len, len - 1;
      if dataEnd <= dataStart {
        return None;
      }
      PartOfBuffer(buf, len, dataStart, dataEnd);
      r := OpenData(f[1..dataStart], dataStart, dataEnd, info.value.encrypted);
    }

    method SendChunks(frame: array<uint8>, pos: nat)
      requires pos <= frame.Length
      modifies `sent
      ensures sent == old(sent) + Chunks(frame[..pos])
    {
      ghost var f := frame[..pos];
      var off := 0;
      while off < pos
        invariant off <= pos
        invariant sent + Chunks(f[off..]) == old(sent) + Chunks(f)
      {
        var n := pos - off;
        if n > BLE_MTU {
          n := BLE_MTU;
        }
        ghost var rest := f[off..];
        PartOfBuffer(frame, pos, off, off + n);
        PartsOfSuffix(f, off, n);
        assert Chunks(rest) == [rest[..n]] + Chunks(rest[n..]);
        sent := sent + [frame[off..off + n]];
        off := off + n;
      }
      assert f[pos..] == [];
    }

    /** The frame as far as what the checksum is over. */
    method BuildHead(frame: array<uint8>, name: bytes, key: bytes, payload: bytes) returns (pos: nat)
      requires 1 + |name| + |key| + |payload| <= frame.Length
      modifies frame
      ensures pos == 1 + |name| + |key| + |payload|
      ensures frame[..pos] == [FRAME_START] + (name + (key + payload))
    {
      pos := Append(frame, 0, [FRAME_START]);
      pos := Append(frame, pos, name);
      pos := Append(frame, pos, key);
      pos := Append(frame, pos, payload);
    }

    /** The frame up to its checksum, before anything is enciphered. */
    method BuildPlain(frame: array<uint8>, name: bytes, key: bytes, payload: bytes) returns (pos: nat)
      requires 1 + |name| + |key| + |payload| + 2 <= frame.Length
      modifies frame
      ensures pos == 1 + |name| + |key| + |payload| + 1
      ensures frame[..pos] == [FRAME_START] + name + (key + payload + [Checksum(name + (key + payload))])
    {
      pos := BuildHead(frame, name, key, payload);
      AfterFirst(frame, pos, FRAME_START, name + (key + payload));
      var cs := ComputeChecksum(frame, 1, pos - 1);
      pos := Append(frame, pos, [cs]);
    }

    method EncryptTail(frame: array<uint8>, from: nat, to: nat, ghost head: bytes, ghost plain: bytes)
      requires IsMaster(env.cipher) && from <= to <= frame.Length
      requires frame[..to] == head + plain && |head| == from
      modifies frame
      ensures frame[..to] == head + env.cipher(plain)
    {
      assert frame[from..to] == frame[..to][from..] == plain;
      assert frame[..from] == frame[..to][..from] == head;
      MasterCrypt(env.cipher, frame, from, frame, from, to - from);
    }

    method BuildFrame(frame: array<uint8>, name: bytes, key: bytes, payload: bytes, encrypt: bool) returns (pos: nat)
      requires IsMaster(env.cipher) && 1 + |name| + |key| + |payload| + 2 <= frame.Length
      modifies frame
      ensures pos <= frame.Length && frame[..pos] == FrameBytes(env.cipher, name, key + payload, encrypt)
    {
      pos := BuildPlain(frame, name, key, payload);
      var encStart := 1 + |name|;
      ghost var plain := key + payload + [Checksum(name + (key + payload))];
      if encrypt {
        EncryptTail(frame, encStart, pos, [FRAME_START] + name, plain);
      }
      pos := Append(frame, pos, [FRAME_END]);
    }

    /** nivona_frame_send: builds the frame in a local buffer and sends it in chunks. */
    method SendFrame(cmd: bytes, payload: bytes, includeKey: bool, encrypt: bool)
      requires IsMaster(env.cipher)
      modifies `sent
      ensures State() == Send(env, old(State()), cmd, payload, includeKey, encrypt)
    {
      var frame := new uint8[MAX_FRAME_BYTES];
      var name := CString(cmd);
      var cmdLen := |name|;
      var key: bytes := if includeKey && handshakeDone then keyPrefix else [];
      var required := 1 + cmdLen + |key| + |payload| + 1 + 1;
      if cmdLen < 1 || cmdLen > 2 {
        return;
      }
      if required > frame.Length {
        return;
      }
      var pos := BuildFrame(frame, name, key, payload, encrypt);
      SendChunks(frame, pos);
    }

    method SendResponse(cmd: bytes, payload: bytes)
      requires IsMaster(env.cipher)
      modifies `sent
      ensures State() == Respond(env, old(State()), cmd, payload)
    {
      SendFrame(cmd, payload, false, true);
    }

    method SendAckFrame()
      requires IsMaster(env.cipher)
      modifies `sent
      ensures State() == SendAck(env, old(State()))
    {
      SendFrame([ACK], [], false, false);
    }

    // ---- Handlers ------------------------------------------------------------

    method HandleHu(payload: bytes)
      requires IsMaster(env.cipher)
      modifies this
      ensures unchanged(`len) && unchanged(`inFrame)
      ensures State() == Handshake(env, old(State()), payload)
    {
      if |payload| < 6 {
        return;
      }
      // The client's check bytes are compared for the log only.
      var key := env.Key(|sent|);
      handshakeDone, keyPrefix := true, key;
      var resp := new uint8[8];
      CopyInto(resp, 0, payload[..4]);
      CopyInto(resp, 4, key);
      assert resp[0..0 + 6] == payload[..4] + key;
      Verifier.ComputeCheck(resp, 0, 6, resp, 6);
      assert resp[..] == payload[..4] + key + Verifier.Check(payload[..4] + key);
      SendResponse(HU, resp[..]);
    }

    method HandleHr(req: bytes)
      requires IsMaster(env.cipher) && store.Valid()
      modifies `sent
      ensures State() == ReadNum(env, old(State()), req)
    {
      var id := RequestId(req);
      var v := store.GetNum(id);
      var out := new uint8[6];
      CopyInto(out, 0, PutBe16(id));
      CopyInto(out, 2, PutBe32(v));
      assert out[..] == PutBe16(id) + PutBe32(v);
      SendResponse(HR, out[..]);
    }

    method HandleHw(req: bytes)
      requires IsMaster(env.cipher) && store.Valid()
      modifies `sent, store, store.num
      ensures store.Valid() && State() == WriteNum(env, old(State()), req)
    {
      if |req| >= 6 {
        store.SetNum(GetBe16(req), GetBe32(req[2..]));
      }
      SendAckFrame();
    }

    method HandleHa(req: bytes)
      requires IsMaster(env.cipher) && store.Valid()
      modifies `sent
      ensures State() == ReadAlpha(env, old(State()), req)
    {
      var id := RequestId(req);
      var out := new uint8[66](_ => 0);
      CopyInto(out, 0, PutBe16(id));
      ghost var zeros: bytes := seq(64, _ => 0);
      ghost var before := out[..];
      assert before == PutBe16(id) + zeros;
      var n := store.GetAlpha(id, out, 2, 64);
      ghost var text := store.Model().Alpha(id);
      assert out[..] == before[..2] + text[..n] + before[2 + n..];
      HeadAndRest(PutBe16(id), zeros, n);
      PaddedIs(text, n);
      assert out[..] == PutBe16(id) + Padded(text);
      SendResponse(HA, out[..]);
    }

    method HandleHb(req: bytes)
      requires IsMaster(env.cipher) && store.Valid()
      modifies `sent, store, store.alpha
      ensures store.Valid() && State() == WriteAlpha(env, old(State()), req)
    {
      if |req| >= 2 {
        var vlen := |req| - 2;
        if vlen > Registers.ALPHA_MAX {
          vlen := Registers.ALPHA_MAX;
        }
        assert Registers.Truncated(req[2..2 + vlen]) == Registers.Truncated(req[2..]);
        store.SetAlpha(GetBe16(req), req[2..2 + vlen]);
      }
      SendAckFrame();
    }

    method SendNackFrame()
      requires IsMaster(env.cipher)
      modifies `sent
      ensures State() == SendNack(env, old(State()))
    {
      SendFrame([NACK], [], false, false);
    }

    /** The machine after the actions asked for since there were `n`. */
    ghost function Performed(m: Machine.State, n: nat): Machine.State
      requires n <= |actions|
      reads this
    {
      Emulator.Performed(front.key, m, actions[n..], n, created)
    }

    /** Has the machine start a brew. */
    method AskForBrew(selector: uint8) returns (ok: bool)
      requires front.Valid()
      modifies `actions, front, front.brews
      ensures front.Valid() && actions == old(actions) + [StartBrew(selector)]
      ensures ok <==> old(Now()).accepts(old(|actions|), selector)
      ensures front.m == Performed(old(front.m), old(|actions|))
    {
      Emulator.OneAction(front.key, front.m, StartBrew(selector), |actions|, created);
      ok := front.Start(selector, created(|actions|));
      actions := actions + [StartBrew(selector)];
      assert actions[old(|actions|)..] == [StartBrew(selector)];
    }

    /** Whether a brew request is taken; only one with the right mode and flag reaches the
        machine. */
    method TakeBrew(payload: bytes) returns (ok: bool)
      requires front.Valid()
      modifies `actions, front, front.brews
      ensures var right := RightBrew(FamilyOf(front.key).mode, payload);
              && actions == old(actions) + (if right then [StartBrew(ByteAt(payload, 3))] else [])
              && (ok <==> right && old(Now()).accepts(old(|actions|), ByteAt(payload, 3)))
      ensures front.Valid() && front.m == Performed(old(front.m), old(|actions|))
    {
      Emulator.NoAction(front.key, front.m, |actions|, created);
      var mode := if |payload| >= 2 then payload[1] else 0;
      var selector := if |payload| >= 4 then payload[3] else 0;
      var flags := if |payload| >= 6 then payload[5] else 0;
      if mode != FamilyOf(front.key).mode {
        return false;
      }
      if flags != 0x00 && flags != 0x01 {
        return false;
      }
      ok := AskForBrew(selector);
    }

    method HandleHe(payload: bytes)
      requires IsMaster(env.cipher) && front.Valid()
      modifies `sent, `actions, front, front.brews
      ensures front.Valid() && old(actions) <= actions
      ensures State() == Dispatch.Brew(old(Now()), old(State()), payload)
      ensures front.m == Performed(old(front.m), old(|actions|))
    {
      BrewIs(Now(), env, State(), payload);
      var taken := TakeBrew(payload);
      if taken {
        SendAckFrame();
      } else {
        SendNackFrame();
      }
    }

    method HandleHz()
      requires IsMaster(env.cipher) && front.Valid()
      modifies `sent, `actions, front, front.brews
      ensures front.Valid() && old(actions) <= actions
      ensures State() == Act(old(Now()), old(State()), CancelBrew)
      ensures front.m == Performed(old(front.m), old(|actions|))
    {
      Emulator.OneAction(front.key, front.m, CancelBrew, |actions|, created);
      ActIs(Now(), env, State(), CancelBrew);
      front.Cancel();
      actions := actions + [CancelBrew];
      SendAckFrame();
    }

    method HandleHy()
      requires IsMaster(env.cipher) && front.Valid()
      modifies `sent, `actions, front, front.panel
      ensures front.Valid() && old(actions) <= actions
      ensures State() == Act(old(Now()), old(State()), ConfirmPrompt)
      ensures front.m == Performed(old(front.m), old(|actions|))
    {
      Emulator.OneAction(front.key, front.m, ConfirmPrompt, |actions|, created);
      ActIs(Now(), env, State(), ConfirmPrompt);
      front.Confirm();
      actions := actions + [ConfirmPrompt];
      SendAckFrame();
    }

    method HandleHx()
      requires IsMaster(env.cipher) && front.Valid()
      modifies `sent
      ensures State() == Respond(Now(), old(State()), HX, Now().status(old(|sent|)))
    {
      var status := front.PackStatus();
      SendResponse(HX, status);
    }

    method HandleHd(payload: bytes)
      requires IsMaster(env.cipher) && store.Valid()
      modifies `sent, store, store.num
      ensures store.Valid() && State() == ResetNum(env, old(State()), payload)
    {
      if |payload| >= 2 {
        store.EraseNum(GetBe16(payload));
      }
      SendAckFrame();
    }

    /** The commands that the machine has no part in. */
    method DispatchPlain(cmd: bytes, payload: bytes)
      requires IsMaster(env.cipher) && store.Valid() && cmd != HX && cmd != HE && cmd != HZ && cmd != HY
      modifies this, store, store.num, store.alpha
      ensures store.Valid() && unchanged(`len) && unchanged(`inFrame) && unchanged(`actions)
      ensures State() == Dispatch.Dispatch(env, old(State()), cmd, payload)
    {
      if cmd == HU {
        HandleHu(payload);
      } else if cmd == HV || cmd == HI || cmd == HL || cmd == HS || cmd == HP || cmd == HC {
        SendResponse(cmd, env.report(cmd, payload));
      } else if cmd == HR {
        HandleHr(payload);
      } else if cmd == HA {
        HandleHa(payload);
      } else if cmd == HW {
        HandleHw(payload);
      } else if cmd == HB {
        HandleHb(payload);
      } else if cmd == HD {
        HandleHd(payload);
      } else {
        SendAckFrame();
      }
    }

    /** The commands that reach the machine. */
    method DispatchToMachine(cmd: bytes, payload: bytes)
      requires IsMaster(env.cipher) && front.Valid() && (cmd == HX || cmd == HE || cmd == HZ || cmd == HY)
      modifies `sent, `actions, front, front.panel, front.brews
      ensures front.Valid() && old(actions) <= actions && front.m == Performed(old(front.m), old(|actions|))
      ensures State() == Dispatch.Dispatch(old(Now()), old(State()), cmd, payload)
    {
      if cmd == HX {
        Emulator.NoAction(front.key, front.m, |actions|, created);
        Emulator.StatusIsDispatched(Now(), State(), payload);
        HandleHx();
      } else if cmd == HE {
        BrewIsDispatched(Now(), State(), payload);
        HandleHe(payload);
      } else if cmd == HZ {
        Emulator.CancelIsDispatched(Now(), State(), payload);
        HandleHz();
      } else {
        Emulator.ConfirmIsDispatched(Now(), State(), payload);
        HandleHy();
      }
    }

    method DispatchRequest(cmd: bytes, payload: bytes)
      requires Ready()
      modifies this, store, store.num, store.alpha, front, front.panel, front.brews
      ensures store.Valid() && front.Valid() && unchanged(`len) && unchanged(`inFrame) && old(actions) <= actions
      ensures State() == Dispatch.Dispatch(old(Now()), old(State()), cmd, payload)
      ensures front.m == Performed(old(front.m), old(|actions|))
    {
      if cmd == HX || cmd == HE || cmd == HZ || cmd == HY {
        DispatchToMachine(cmd, payload);
      } else {
        Emulator.NoAction(front.key, front.m, |actions|, created);
        PlainIsPlain(env, Now(), State(), cmd, payload);
        DispatchPlain(cmd, payload);
      }
    }

    /** Dispatches a request; the machine's registers are the store's. */
    method Serve(request: Parsed)
      requires Ready()
      modifies this, store, store.num, store.alpha, front, front.panel, front.brews
      ensures Ready() && unchanged(`len) && unchanged(`inFrame) && old(actions) <= actions
      ensures var v := old(State()).(dispatched := old(dispatched) + [request]);
              State() == Dispatch.Dispatch(old(Now()), v, request.cmd, request.payload)
      ensures front.m == Performed(old(front.m), old(|actions|)).(nums := store.Model().num)
    {
      dispatched := dispatched + [request];
      DispatchRequest(request.cmd, request.payload);
      front.m := front.m.(nums := store.Model().num);
    }

    /** Checks the collected frame and hands its request on. */
    method TryParse()
      requires Ready()
      modifies this, store, store.num, store.alpha, front, front.panel, front.brews
      ensures Ready() && unchanged(`len) && unchanged(`inFrame)
      ensures System() == Emulator.Served(front.key, env, created, old(System()), buf[..len])
    {
      ghost var x, f := System(), buf[..len];
      var request := ParseBuffer();
      if request.None? {
        Emulator.IgnoredIsServed(front.key, env, created, x, f);
      } else {
        Emulator.ParsedIsServed(front.key, env, created, x, f, request.value);
        Serve(request.value);
      }
    }

    /** The frame collected is done with. */
    method TakeFrame()
      requires Ready()
      modifies this, store, store.num, store.alpha, front, front.panel, front.brews
      ensures Valid()
      ensures System() == Emulator.Served(front.key, env, created, old(System()), old(Pending())).(pending := [])
    {
      TryParse();
      ghost var y := System();
      inFrame := false;
      len := 0;
      assert Pending() == [] && System() == y.(pending := []);
    }

    /** One more byte of the frame being collected; tells whether that ends it. */
    method Collect(b: uint8) returns (complete: bool)
      requires Ready() && 0 < len < MAX_FRAME_BYTES
      modifies `len, buf
      ensures Ready() && len == old(len) + 1 && Pending() == old(Pending()) + [b]
      ensures complete <==> Stream.Complete(Pending())
    {
      ghost var pending := Pending();
      buf[len] := b;
      len := len + 1;
      assert buf[..len] == pending + [b];

      var expected := 0;
      if len >= 3 && buf[1] == H {
        expected := Stream.ExpectedRequestSize(buf[2]);
      }
      if expected > 0 {
        complete := len == expected;
      } else {
        complete := b == FRAME_END;
      }
    }

    /** Outside a frame, only its first byte does anything. */
    method Begin(b: uint8)
      requires Ready() && !inFrame && len == 0
      modifies `len, `inFrame, buf
      ensures Ready() && (inFrame <==> len > 0) && Pending() == if b == FRAME_START then [b] else []
    {
      if b == FRAME_START {
        inFrame := true;
        buf[len] := b;
        len := len + 1;
      }
    }

    /** One turn of the parser's loop. */
    method FeedByte(b: uint8)
      requires Valid()
      modifies this, buf, store, store.num, store.alpha, front, front.panel, front.brews
      ensures Valid()
      ensures var t, x := Stream.Take(old(Pending()), b), old(System());
              System() == (if t.frame.Some? then Emulator.Served(front.key, env, created, x, t.frame.value) else x)
                          .(pending := t.pending)
    {
      Stream.TakeOk(Pending(), b);
      if !inFrame {
        Begin(b);
      } else if len >= MAX_FRAME_BYTES {
        inFrame := false;
        len := 0;
      } else {
        var complete := Collect(b);
        if complete {
          TakeFrame();
        }
      }
    }

    method Feed(data: bytes)
      requires Valid()
      modifies this, buf, store, store.num, store.alpha, front, front.panel, front.brews
      ensures Valid()
      ensures System() == Emulator.Received(front.key, env, created, old(System()), data)
    {
      ghost var x := System();
      Emulator.NothingReceived(front.key, env, created, x);
      for i := 0 to |data|
        invariant Valid() && System() == Emulator.Received(front.key, env, created, x, data[..i])
      {
        StepServed(front.key, env, created, x, data, i);
        FeedByte(data[i]);
      }
      assert data[..|data|] == data;
    }
  }
}
