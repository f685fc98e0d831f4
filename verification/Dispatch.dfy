/** What nivona_dispatch.c does with a request, as a function on what the radio
    side holds: the handshake, the registers, and what has been sent. */
module Dispatch {
  import opened Bytes
  import opened Framing
  import opened Registers
  import Verifier

  // Commands, as the two bytes on the wire.
  const HU: bytes := [H, 0x55]
  const HX: bytes := [H, 0x58]
  const HV: bytes := [H, 0x56]
  const HI: bytes := [H, 0x49]
  const HL: bytes := [H, 0x4C]
  const HS: bytes := [H, 0x53]
  const HP: bytes := [H, 0x70]
  const HR: bytes := [H, 0x52]
  const HA: bytes := [H, 0x41]
  const HC: bytes := [H, 0x43]
  const HW: bytes := [H, 0x57]
  const HB: bytes := [H, 0x42]
  const HE: bytes := [H, 0x45]
  const HZ: bytes := [H, 0x5A]
  const HY: bytes := [H, 0x59]
  const HD: bytes := [H, 0x44]

  /** What a request asks of the machine. */
  datatype Action = StartBrew(selector: uint8) | CancelBrew | ConfirmPrompt

  /** The rest of the firmware, as the radio side sees it.  Answers that vary are
      given by how many notifications, or actions, have gone before. */
  datatype Env = Env(
    cipher: Cipher,
    random: nat -> (uint8, uint8),    // the bytes esp_fill_random yields
    status: nat -> bytes,             // the packed status block
    report: (bytes, bytes) -> bytes,  // content of the replies to HV, HL, HI, HS, Hp, HC
    brewMode: uint8,                  // brew_command_mode of the current family
    accepts: (nat, uint8) -> bool     // whether nivona_brew_start takes the selector
  ) {
    function Key(n: nat): SessionKey {
      [random(n).0, random(n).1]
    }
  }

  datatype World = World(
    link: Link,
    regs: Registers,
    sent: seq<bytes>,         // notifications, oldest first
    dispatched: seq<Parsed>,  // requests, oldest first
    actions: seq<Action>
  )

  function Send(env: Env, w: World, cmd: bytes, payload: bytes, withKey: bool, encrypt: bool): (r: World)
    ensures r == w.(sent := r.sent) && w.sent <= r.sent
  {
    match Printed(env.cipher, w.link, cmd, payload, withKey, encrypt)
    case None => w
    case Some(f) => w.(sent := w.sent + Chunks(f))
  }

  /** Replies never carry the session key. */
  function Respond(env: Env, w: World, cmd: bytes, payload: bytes): World {
    Send(env, w, cmd, payload, false, true)
  }

  function SendAck(env: Env, w: World): World {
    Send(env, w, [ACK], [], false, false)
  }

  function SendNack(env: Env, w: World): World {
    Send(env, w, [NACK], [], false, false)
  }

  /** The handshake completes whatever the client's check bytes are. */
  function Handshake(env: Env, w: World, payload: bytes): World {
    if |payload| < 6 then w
    else
      var key := env.Key(|w.sent|);
      var body := payload[..4] + key;
      Respond(env, w.(link := Link(true, key)), HU, body + Verifier.Check(body))
  }

  function RequestId(payload: bytes): int16 {
    if |payload| >= 2 then GetBe16(payload) else 0
  }

  function ReadNum(env: Env, w: World, payload: bytes): World {
    var id := RequestId(payload);
    Respond(env, w, HR, PutBe16(id) + PutBe32(Num(w.regs.num, id)))
  }

  function WriteNum(env: Env, w: World, payload: bytes): World {
    SendAck(env, if |payload| >= 6 then w.(regs := w.regs.PutNum(GetBe16(payload), GetBe32(payload[2..]))) else w)
  }

  /** A text padded with zeros to the register width. */
  function Padded(text: bytes): (p: bytes)
    ensures |p| == 64
  {
    seq(ALPHA_MAX, i requires 0 <= i => if i < |text| then text[i] else 0)
  }

  lemma {:induction false} PaddedIs(text: bytes, n: nat)
    requires n == if |text| < ALPHA_MAX then |text| else ALPHA_MAX
    ensures Padded(text) == text[..n] + seq(ALPHA_MAX, _ => 0)[n..]
  {
  }

  function ReadAlpha(env: Env, w: World, payload: bytes): World {
    var id := RequestId(payload);
    Respond(env, w, HA, PutBe16(id) + Padded(w.regs.Alpha(id)))
  }

  function WriteAlpha(env: Env, w: World, payload: bytes): World {
    SendAck(env, if |payload| >= 2 then w.(regs := w.regs.PutAlpha(GetBe16(payload), payload[2..])) else w)
  }

  function ResetNum(env: Env, w: World, payload: bytes): World {
    SendAck(env, if |payload| >= 2 then w.(regs := w.regs.EraseNum(GetBe16(payload))) else w)
  }

  function ByteAt(payload: bytes, i: nat): uint8 {
    if i < |payload| then payload[i] else 0
  }

  function Brew(env: Env, w: World, payload: bytes): World {
    if ByteAt(payload, 1) != env.brewMode then SendNack(env, w)
    else if ByteAt(payload, 5) != 0 && ByteAt(payload, 5) != 1 then SendNack(env, w)
    else
      var selector := ByteAt(payload, 3);
      var asked := w.(actions := w.actions + [StartBrew(selector)]);
      if env.accepts(|w.actions|, selector) then SendAck(env, asked) else SendNack(env, asked)
  }

  function Act(env: Env, w: World, action: Action): World {
    SendAck(env, w.(actions := w.actions + [action]))
  }

  function Dispatch(env: Env, w: World, cmd: bytes, payload: bytes): World {
    if cmd == HU then Handshake(env, w, payload)
    else if cmd == HX then Respond(env, w, HX, env.status(|w.sent|))
    else if cmd == HV || cmd == HI || cmd == HL || cmd == HS || cmd == HP || cmd == HC then
      Respond(env, w, cmd, env.report(cmd, payload))
    else if cmd == HR then ReadNum(env, w, payload)
    else if cmd == HA then ReadAlpha(env, w, payload)
    else if cmd == HW then WriteNum(env, w, payload)
    else if cmd == HB then WriteAlpha(env, w, payload)
    else if cmd == HE then Brew(env, w, payload)
    else if cmd == HZ then Act(env, w, CancelBrew)
    else if cmd == HY then Act(env, w, ConfirmPrompt)
    else if cmd == HD then ResetNum(env, w, payload)
    else SendAck(env, w)
  }

  /** One completed frame: ignored, or dispatched. */
  function Handle(env: Env, w: World, f: bytes): World
  {
    match ParseFrame(env.cipher, f, w.link)
    case None => w
    case Some(p) => Dispatch(env, w.(dispatched := w.dispatched + [p]), p.cmd, p.payload)
  }

  function HandleAll(env: Env, w: World, fs: seq<bytes>): World
  {
    if fs == [] then w else Handle(env, HandleAll(env, w, fs[..|fs| - 1]), fs[|fs| - 1])
  }

  // ---- What dispatching leaves alone -------------------------------------------

  lemma {:induction false} BrewIsDispatched(env: Env, w: World, payload: bytes)
    ensures Dispatch(env, w, HE, payload) == Brew(env, w, payload)
  {
    assert HE != HU && HE != HX && HE != HV && HE != HI && HE != HL && HE != HS && HE != HP && HE != HC
           && HE != HR && HE != HA && HE != HW && HE != HB;
  }

  /** Mode and flag of a brew request are right. */
  predicate RightBrew(mode: uint8, payload: bytes) {
    ByteAt(payload, 1) == mode && (ByteAt(payload, 5) == 0 || ByteAt(payload, 5) == 1)
  }

  /** A brew request asks for a brew if it is right, and is answered by whether it is taken;
      the reply itself needs no more of the surroundings than the cipher. */
  lemma {:induction false} BrewIs(e: Env, f: Env, w: World, payload: bytes)
    requires e.cipher == f.cipher
    ensures var right, selector := RightBrew(e.brewMode, payload), ByteAt(payload, 3);
            var v := w.(actions := w.actions + if right then [StartBrew(selector)] else []);
            Brew(e, w, payload) == if right && e.accepts(|w.actions|, selector) then SendAck(f, v) else SendNack(f, v)
  {
    assert w.actions + [] == w.actions;
  }

  lemma {:induction false} ActIs(e: Env, f: Env, w: World, action: Action)
    requires e.cipher == f.cipher
    ensures Act(e, w, action) == SendAck(f, w.(actions := w.actions + [action]))
  {
  }

  /** Only HU touches the handshake; nothing dispatched is re-dispatched or lost. */
  lemma {:induction false} DispatchKeeps(env: Env, w: World, cmd: bytes, payload: bytes)
    ensures cmd != HU ==> Dispatch(env, w, cmd, payload).link == w.link
    ensures Dispatch(env, w, cmd, payload).dispatched == w.dispatched
    ensures w.sent <= Dispatch(env, w, cmd, payload).sent
  {
  }

  lemma {:induction false} BrewKeepsActions(env: Env, w: World, payload: bytes)
    ensures w.actions <= Brew(env, w, payload).actions
  {
  }

  /** Actions once asked for stay asked for. */
  lemma {:induction false} DispatchKeepsActions(env: Env, w: World, cmd: bytes, payload: bytes)
    ensures w.actions <= Dispatch(env, w, cmd, payload).actions
  {
    if cmd == HE {
      BrewIsDispatched(env, w, payload);
      BrewKeepsActions(env, w, payload);
    }
  }

  lemma {:induction false} HandleKeepsActions(env: Env, w: World, f: bytes)
    ensures w.actions <= Handle(env, w, f).actions
  {
    var p := ParseFrame(env.cipher, f, w.link);
    if p.Some? {
      DispatchKeepsActions(env, w.(dispatched := w.dispatched + [p.value]), p.value.cmd, p.value.payload);
    }
  }
}
