/** What a client can rely on: properties that cross framing, cipher, handshake,
    dispatch and registers, for every stream and every way of chunking it. */
module Protocol {
  import opened Bytes
  import opened Dispatch
  import opened Framing
  import opened Stream
  import Client
  import Verifier

  /** The radio side after a sequence of chunks, from parser state `pending`. */
  function AfterChunks(env: Env, w: World, pending: bytes, chunks: seq<bytes>): World {
    HandleAll(env, w, FeedChunks(Start(pending), chunks).Datas())
  }

  // ---- Requests of a declared size ---------------------------------------------

  /** A request in session: prefix, payload and command sealed together. */
  function RequestFrame(env: Env, key: SessionKey, m: Client.Message): bytes {
    Client.BuildFrame(env.cipher, m.cmd, m.payload, key, true)
  }

  /** The requests that have a size of their own, and the payload each carries. */
  predicate IsSized(m: Client.Message) {
    |m.cmd| == 2 && m.cmd[0] == H &&
    match m.cmd[1]
    case 0x56 => |m.payload| == 0   // HV
    case 0x58 => |m.payload| == 0   // HX
    case 0x49 => |m.payload| == 0   // HI
    case 0x52 => |m.payload| == 2   // HR: id
    case 0x41 => |m.payload| == 2   // HA: id
    case 0x44 => |m.payload| == 2   // HD: id
    case 0x43 => |m.payload| == 2   // HC: id
    case 0x57 => |m.payload| == 6   // HW: id and value
    case 0x59 => |m.payload| == 4   // HY
    case 0x5A => |m.payload| == 4   // HZ
    case 0x45 => |m.payload| == 18  // HE
    case 0x4A => |m.payload| == 66  // HJ
    case _ => false
  }

  lemma {:induction false} RequestFrameIs(env: Env, key: SessionKey, m: Client.Message)
    requires |m.cmd| == 2 && m.cmd[0] == H
    ensures var f := RequestFrame(env, key, m);
            f == FrameBytes(env.cipher, m.cmd, key + m.payload, true)
            && |f| == |m.payload| + 7 && f[0] == FRAME_START && f[1] == H && f[2] == m.cmd[1] && f[|f| - 1] == FRAME_END
  {
    Client.FramesAgree(env.cipher, m.cmd, m.payload, key, true);
  }

  /** A request in session is taken whole exactly when it carries the payload its
      command declares, or, for a command that declares none, when its ciphertext
      holds no 0x45. */
  lemma {:induction false} RequestTakenWholeIff(env: Env, key: SessionKey, m: Client.Message)
    requires |m.cmd| == 2 && m.cmd[0] == H && m.cmd != HU && |m.payload| + 7 <= MAX_FRAME_BYTES
    ensures var f := RequestFrame(env, key, m);
            Feed(Start([]), f).frames == [Located(0, f)]
            <==> (if ExpectedRequestSize(m.cmd[1]) > 0 then IsSized(m) else FRAME_END !in f[3..|f| - 1])
  {
    RequestFrameIs(env, key, m);
    TakenWholeIff(RequestFrame(env, key, m));
    WholeIff(RequestFrame(env, key, m));
  }

  lemma {:induction false} SizedIsWhole(env: Env, key: SessionKey, m: Client.Message)
    requires IsSized(m)
    ensures Whole(RequestFrame(env, key, m))
  {
    RequestFrameIs(env, key, m);
    WholeIff(RequestFrame(env, key, m));
  }

  /** A request under the session key is dispatched without it. */
  lemma {:induction false} RequestParses(env: Env, link: Link, m: Client.Message)
    requires link.done && |m.cmd| == 2 && m.cmd[0] == H
    ensures ParseFrame(env.cipher, RequestFrame(env, link.key, m), link) == Some(Parsed(m.cmd, m.payload, true))
  {
    RequestFrameIs(env, link.key, m);
    ParsePrinted(env.cipher, m.cmd, link.key + m.payload, true, link);
    assert (link.key + m.payload)[..KEY_PREFIX_LEN] == link.key;
    assert (link.key + m.payload)[KEY_PREFIX_LEN..] == m.payload;
  }

  /** A request under another key is dispatched all the same, with that key left
      at the head of its payload. */
  lemma {:induction false} WrongKeyIsDispatched(env: Env, w: World, key: SessionKey, m: Client.Message)
    requires w.link.done && key != w.link.key && |m.cmd| == 2 && m.cmd[0] == H
    ensures Handle(env, w, RequestFrame(env, key, m)).dispatched
            == w.dispatched + [Parsed(m.cmd, key + m.payload, false)]
  {
    RequestFrameIs(env, key, m);
    ParsePrinted(env.cipher, m.cmd, key + m.payload, true, w.link);
    assert (key + m.payload)[..KEY_PREFIX_LEN] == key;
    var v := w.(dispatched := w.dispatched + [Parsed(m.cmd, key + m.payload, false)]);
    DispatchKeeps(env, v, m.cmd, key + m.payload);
  }

  function RequestFrames(env: Env, key: SessionKey, ms: seq<Client.Message>): seq<bytes> {
    seq(|ms|, i requires 0 <= i < |ms| => RequestFrame(env, key, ms[i]))
  }

  function Stripped(ms: seq<Client.Message>): seq<Parsed> {
    seq(|ms|, i requires 0 <= i < |ms| => Parsed(ms[i].cmd, ms[i].payload, true))
  }

  lemma {:induction false} SizedRequestsCut(env: Env, key: SessionKey, ms: seq<Client.Message>, chunks: seq<bytes>)
    requires forall m | m in ms :: IsSized(m)
    requires Flatten(chunks) == Flatten(RequestFrames(env, key, ms))
    ensures FeedChunks(Start([]), chunks).pending == []
    ensures FeedChunks(Start([]), chunks).Datas() == RequestFrames(env, key, ms)
  {
    var fs := RequestFrames(env, key, ms);
    forall f | f in fs
      ensures Whole(f)
    {
      var i :| 0 <= i < |fs| && fs[i] == f;
      SizedIsWhole(env, key, ms[i]);
    }
    ChunkingIsIrrelevant(Start([]), chunks);
    FeedRun(Start([]), fs);
    assert Start([]).Datas() + fs == fs;
  }

  lemma {:induction false} SizedRequestDispatched(env: Env, w: World, m: Client.Message)
    requires w.link.done && IsSized(m)
    ensures var r := Handle(env, w, RequestFrame(env, w.link.key, m));
            r.link == w.link && r.dispatched == w.dispatched + [Parsed(m.cmd, m.payload, true)]
  {
    RequestParses(env, w.link, m);
    DispatchKeeps(env, w.(dispatched := w.dispatched + [Parsed(m.cmd, m.payload, true)]), m.cmd, m.payload);
  }

  lemma {:induction false} SizedRequestsDispatched(env: Env, w: World, ms: seq<Client.Message>)
    requires w.link.done && forall m | m in ms :: IsSized(m)
    ensures var r := HandleAll(env, w, RequestFrames(env, w.link.key, ms));
            r.link == w.link && r.dispatched == w.dispatched + Stripped(ms)
  {
    if ms != [] {
      var n := |ms| - 1;
      var fs := RequestFrames(env, w.link.key, ms);
      assert fs[..n] == RequestFrames(env, w.link.key, ms[..n]);
      assert Stripped(ms) == Stripped(ms[..n]) + [Parsed(ms[n].cmd, ms[n].payload, true)];
      assert ms[n] in ms;
      SizedRequestsDispatched(env, w, ms[..n]);
      SizedRequestDispatched(env, HandleAll(env, w, fs[..n]), ms[n]);
    }
  }

  /** In session, any sequence of sized requests, printed one after another and
      delivered in any chunks, is dispatched request for request, in order, and
      leaves the parser idle, whatever bytes the ciphertext holds. */
  lemma {:induction false} SizedRequestsArrive(env: Env, w: World, ms: seq<Client.Message>, chunks: seq<bytes>)
    requires w.link.done && forall m | m in ms :: IsSized(m)
    requires Flatten(chunks) == Flatten(RequestFrames(env, w.link.key, ms))
    ensures FeedChunks(Start([]), chunks).pending == []
    ensures AfterChunks(env, w, [], chunks) == HandleAll(env, w, RequestFrames(env, w.link.key, ms))
    ensures AfterChunks(env, w, [], chunks).dispatched == w.dispatched + Stripped(ms)
    ensures AfterChunks(env, w, [], chunks).link == w.link
  {
    SizedRequestsCut(env, w.link.key, ms, chunks);
    SizedRequestsDispatched(env, w, ms);
  }

  // ---- The handshake -----------------------------------------------------------

  function HandshakeFrame(env: Env, seed: bytes, check: bytes): bytes {
    Client.BuildFrame(env.cipher, HU, seed + check, [], true)
  }

  lemma {:induction false} HandshakeFrameIs(env: Env, seed: bytes, check: bytes)
    requires |seed| == 4 && |check| == 2
    ensures HandshakeFrame(env, seed, check) == FrameBytes(env.cipher, HU, seed + check, true)
    ensures Whole(HandshakeFrame(env, seed, check))
  {
    Client.FramesAgree(env.cipher, HU, seed + check, [], true);
    assert [] + (seed + check) == seed + check;
    WholeIff(HandshakeFrame(env, seed, check));
  }

  /** The reply to a handshake that the client can check: its own seed, the new
      session key, and check bytes over both. */
  ghost predicate Answers(env: Env, reply: bytes, seed: bytes, key: SessionKey) {
    Client.ParseFrame(env.cipher, reply) == Some(Client.Message(HU, seed + key + Verifier.Check(seed + key)))
  }

  lemma {:induction false} OneChunk(f: bytes)
    requires 0 < |f| <= BLE_MTU
    ensures Chunks(f) == [f]
  {
  }

  lemma {:induction false} CStringWhole(s: bytes)
    requires 0 !in s
    ensures CString(s) == s
  {
    if s != [] {
      CStringWhole(s[1..]);
    }
  }

  /** Replies of up to 14 bytes go out as one notification, which the client reads back. */
  lemma {:induction false} ResponseIsRead(env: Env, w: World, cmd: bytes, payload: bytes)
    requires |cmd| == 2 && 0 !in cmd && |payload| <= 14
    ensures var f := FrameBytes(env.cipher, cmd, payload, true);
            Respond(env, w, cmd, payload) == w.(sent := w.sent + [f])
            && Client.ParseFrame(env.cipher, f) == Some(Client.Message(cmd, payload))
  {
    CStringWhole(cmd);
    assert [] + payload == payload;
    OneChunk(FrameBytes(env.cipher, cmd, payload, true));
    Client.ClientReads(env.cipher, cmd, payload);
  }

  lemma {:induction false} CStringShort(s: bytes)
    requires 0 in s
    ensures |CString(s)| < |s|
  {
    if s[0] != 0 {
      CStringShort(s[1..]);
    }
  }

  lemma {:induction false} HandshakeAnswered(env: Env, w: World, payload: bytes)
    requires |payload| == 6
    ensures var key := env.Key(|w.sent|);
            var r := Handshake(env, w, payload);
            r.link == Link(true, key) && r.dispatched == w.dispatched && r.regs == w.regs && r.actions == w.actions
            && |r.sent| == |w.sent| + 1 && r.sent[..|w.sent|] == w.sent
            && Answers(env, r.sent[|w.sent|], payload[..4], key)
  {
    var key := env.Key(|w.sent|);
    var body := payload[..4] + key;
    ResponseIsRead(env, w.(link := Link(true, key)), HU, body + Verifier.Check(body));
  }

  lemma {:induction false} HandleOne(env: Env, w: World, fs: seq<bytes>)
    requires |fs| == 1
    ensures HandleAll(env, w, fs) == Handle(env, w, fs[0])
  {
    assert fs[..0] == [];
    assert HandleAll(env, w, fs[..0]) == w;
  }

  lemma {:induction false} OneFrame(env: Env, w: World, f: bytes, chunks: seq<bytes>)
    requires Whole(f) && Flatten(chunks) == f
    ensures FeedChunks(Start([]), chunks).pending == []
    ensures AfterChunks(env, w, [], chunks) == Handle(env, w, f)
  {
    ChunkingIsIrrelevant(Start([]), chunks);
    FeedWhole(Start([]), f);
    assert Feed(Start([]), f).Datas() == [f];
    HandleOne(env, w, [f]);
  }

  /** From a reset link, a client's handshake gives exactly one reply, which it can
      check, and a session under the key in it, whatever check bytes it sent. */
  lemma {:induction false} HandshakeFromReset(env: Env, w: World, seed: bytes, check: bytes, chunks: seq<bytes>)
    requires w.link == NO_LINK && |seed| == 4 && |check| == 2
    requires Flatten(chunks) == HandshakeFrame(env, seed, check)
    ensures var r := AfterChunks(env, w, [], chunks);
            var key := env.Key(|w.sent|);
            FeedChunks(Start([]), chunks).pending == []
            && r.link == Link(true, key)
            && |r.sent| == |w.sent| + 1 && r.sent[..|w.sent|] == w.sent
            && Answers(env, r.sent[|w.sent|], seed, key)
            && r.dispatched == w.dispatched + [Parsed(HU, seed + check, false)]
            && r.regs == w.regs && r.actions == w.actions
  {
    var f := HandshakeFrame(env, seed, check);
    HandshakeFrameIs(env, seed, check);
    OneFrame(env, w, f, chunks);
    ParsePrinted(env.cipher, HU, seed + check, true, w.link);
    assert (seed + check)[..4] == seed;
    HandshakeAnswered(env, w.(dispatched := w.dispatched + [Parsed(HU, seed + check, false)]), seed + check);
  }

  /** On a live link a handshake is answered exactly when its seed does not begin
      with the current session key: one that does is taken for a prefixed request. */
  lemma {:induction false} RehandshakeIff(env: Env, w: World, seed: bytes, check: bytes)
    requires w.link.done && |seed| == 4 && |check| == 2
    ensures var r := Handle(env, w, HandshakeFrame(env, seed, check));
            if seed[..KEY_PREFIX_LEN] != w.link.key
            then r.link == Link(true, env.Key(|w.sent|)) && |r.sent| == |w.sent| + 1
                 && Answers(env, r.sent[|w.sent|], seed, env.Key(|w.sent|))
            else r.link == w.link && r.sent == w.sent
  {
    var payload := seed + check;
    HandshakeFrameIs(env, seed, check);
    ParsePrinted(env.cipher, HU, payload, true, w.link);
    assert payload[..4] == seed && payload[..KEY_PREFIX_LEN] == seed[..KEY_PREFIX_LEN];
    if seed[..KEY_PREFIX_LEN] != w.link.key {
      HandshakeAnswered(env, w.(dispatched := w.dispatched + [Parsed(HU, payload, false)]), payload);
    }
  }

  lemma {:induction false} CorruptedIsIgnored(env: Env, w: World, f: bytes, k: nat, b: uint8)
    requires ParseFrame(env.cipher, f, w.link).Some? && f[1] == H && 3 <= k < |f| - 1 && b != f[k]
    ensures Handle(env, w, f[k := b]) == w
  {
    CorruptionIsSeen(env.cipher, f, w.link, k, b);
  }

  /** Whether a changed byte leaves the parser's cut where it was. */
  predicate KeepsCut(m: Client.Message, b: uint8)
    requires |m.cmd| == 2
  {
    ExpectedRequestSize(m.cmd[1]) > 0 || b != FRAME_END
  }

  lemma {:induction false} CutStays(f: bytes, k: nat, b: uint8)
    requires Whole(f) && f[1] == H && 3 <= k < |f| - 1 && f[|f| - 1] == FRAME_END
    requires ExpectedRequestSize(f[2]) > 0 || b != FRAME_END
    ensures Whole(f[k := b])
  {
    var g := f[k := b];
    WholeIff(f);
    WholeIff(g);
    assert g[3..|g| - 1] == f[3..|f| - 1][k - 3 := b];
  }

  lemma {:induction false} CutComesEarly(f: bytes, k: nat, b: uint8)
    requires Whole(f) && f[1] == H && 3 <= k < |f| - 1 && f[|f| - 1] == FRAME_END
    requires ExpectedRequestSize(f[2]) == 0 && b == FRAME_END
    ensures Whole(f[k := b][..k + 1])
  {
    var h := f[k := b][..k + 1];
    WholeIff(f);
    WholeIff(h);
    assert h[3..|h| - 1] == f[3..|f| - 1][..k - 3];
  }

  lemma {:induction false} FirstFrame(g: bytes, n: nat)
    requires n <= |g| && Whole(g[..n])
    ensures var p := Feed(Start([]), g); p.Datas() != [] && p.Datas()[0] == g[..n]
  {
    assert g == g[..n] + g[n..];
    FeedConcat(Start([]), g[..n], g[n..]);
    FeedWhole(Start([]), g[..n]);
    FeedResumes(Feed(Start([]), g[..n]), g[n..]);
  }

  /** A request that would arrive, with one byte of its ciphertext changed on the way, in
      any chunks: nothing comes of it and the parser is idle again; unless the command
      has no size and the new byte is 0x45, which ends the frame there and then. */
  lemma {:induction false} CorruptedRequest(env: Env, w: World, m: Client.Message, k: nat, b: uint8, chunks: seq<bytes>)
    requires w.link.done && |m.cmd| == 2 && m.cmd[0] == H
    requires var f := RequestFrame(env, w.link.key, m);
             Whole(f) && 3 <= k < |f| - 1 && b != f[k] && Flatten(chunks) == f[k := b]
    ensures var g := RequestFrame(env, w.link.key, m)[k := b];
            if KeepsCut(m, b)
            then AfterChunks(env, w, [], chunks) == w && FeedChunks(Start([]), chunks).pending == []
            else FeedChunks(Start([]), chunks).Datas() != [] && FeedChunks(Start([]), chunks).Datas()[0] == g[..k + 1]
  {
    var f := RequestFrame(env, w.link.key, m);
    var g := f[k := b];
    RequestFrameIs(env, w.link.key, m);
    WholeIff(f);
    if KeepsCut(m, b) {
      CutStays(f, k, b);
      OneFrame(env, w, g, chunks);
      RequestParses(env, w.link, m);
      CorruptedIsIgnored(env, w, f, k, b);
    } else {
      WholeIff(g[..k + 1]);
      CutComesEarly(f, k, b);
      ChunkingIsIrrelevant(Start([]), chunks);
      FirstFrame(g, k + 1);
    }
  }

  // ---- Every dispatch comes from the stream --------------------------------------

  /** A dispatched request with the stretch it came from and the link it was read under. */
  datatype Entry = Entry(frame: Located, parsed: Parsed, link: Link)

  function Log(env: Env, w: World, frames: seq<Located>): seq<Entry> {
    if frames == [] then []
    else
      var n := |frames| - 1;
      var link := HandleAll(env, w, DatasOf(frames[..n])).link;
      var before := Log(env, w, frames[..n]);
      match ParseFrame(env.cipher, frames[n].data, link)
      case None => before
      case Some(p) => before + [Entry(frames[n], p, link)]
  }

  function Requests(log: seq<Entry>): seq<Parsed> {
    seq(|log|, i requires 0 <= i < |log| => log[i].parsed)
  }

  function PrintedAgain(env: Env, e: Entry): Option<bytes>
    requires e.parsed.cmd != []
  {
    Printed(env.cipher, e.link, e.parsed.cmd, e.parsed.payload, e.parsed.stripped, e.parsed.cmd[0] == H)
  }

  /** Sending the request again, with the session key exactly when it was taken
      off, gives the stretch byte for byte, unless the command holds a zero byte. */
  ghost predicate Reprints(env: Env, e: Entry) {
    && e.parsed.cmd != []
    && (PrintedAgain(env, e) == Some(e.frame.data) <==> 0 !in e.parsed.cmd)
  }

  ghost predicate Ordered(frames: seq<Located>) {
    forall i, j | 0 <= i < j < |frames| :: frames[i].at + |frames[i].data| <= frames[j].at
  }

  ghost predicate LogFits(env: Env, log: seq<Entry>, frames: seq<Located>) {
    && (forall e | e in log :: e.frame in frames && Reprints(env, e))
    && (forall i, j | 0 <= i < j < |log| :: log[i].frame.at + |log[i].frame.data| <= log[j].frame.at)
  }

  /** What the last frame adds to the requests dispatched. */
  function Newest(env: Env, w: World, frames: seq<Located>): seq<Parsed>
    requires frames != []
  {
    var n := |frames| - 1;
    var p := ParseFrame(env.cipher, frames[n].data, HandleAll(env, w, DatasOf(frames[..n])).link);
    if p.Some? then [p.value] else []
  }

  lemma {:induction false} HandleDispatches(env: Env, w: World, f: bytes)
    ensures var p := ParseFrame(env.cipher, f, w.link);
            Handle(env, w, f).dispatched == w.dispatched + if p.Some? then [p.value] else []
  {
    var p := ParseFrame(env.cipher, f, w.link);
    if p.Some? {
      DispatchKeeps(env, w.(dispatched := w.dispatched + [p.value]), p.value.cmd, p.value.payload);
    }
  }

  lemma {:induction false} DatasSplit(frames: seq<Located>)
    requires frames != []
    ensures var n := |frames| - 1;
            DatasOf(frames)[..n] == DatasOf(frames[..n]) && DatasOf(frames)[n] == frames[n].data
  {
  }

  lemma {:induction false} OneMoreDispatched(env: Env, w: World, frames: seq<Located>)
    requires frames != []
    ensures HandleAll(env, w, DatasOf(frames)).dispatched
            == HandleAll(env, w, DatasOf(frames[..|frames| - 1])).dispatched + Newest(env, w, frames)
  {
    var n := |frames| - 1;
    DatasSplit(frames);
    HandleDispatches(env, HandleAll(env, w, DatasOf(frames[..n])), frames[n].data);
  }

  lemma {:induction false} OneMoreLogged(env: Env, w: World, frames: seq<Located>)
    requires frames != []
    ensures Requests(Log(env, w, frames))
            == Requests(Log(env, w, frames[..|frames| - 1])) + Newest(env, w, frames)
  {
  }

  lemma {:induction false} LogDispatched(env: Env, w: World, frames: seq<Located>)
    ensures HandleAll(env, w, DatasOf(frames)).dispatched == w.dispatched + Requests(Log(env, w, frames))
  {
    if frames == [] {
      assert w.dispatched + [] == w.dispatched;
    } else {
      var n := |frames| - 1;
      LogDispatched(env, w, frames[..n]);
      OneMoreDispatched(env, w, frames);
      OneMoreLogged(env, w, frames);
      assert w.dispatched + Requests(Log(env, w, frames[..n])) + Newest(env, w, frames)
          == w.dispatched + (Requests(Log(env, w, frames[..n])) + Newest(env, w, frames));
    }
  }

  lemma {:induction false} LogWidens(env: Env, log: seq<Entry>, frames: seq<Located>, n: nat)
    requires n <= |frames| && LogFits(env, log, frames[..n])
    ensures LogFits(env, log, frames)
  {
  }

  lemma {:induction false} LogSnoc(env: Env, log: seq<Entry>, frames: seq<Located>, e: Entry)
    requires frames != [] && Ordered(frames) && LogFits(env, log, frames[..|frames| - 1])
    requires e.frame == frames[|frames| - 1] && Reprints(env, e)
    ensures LogFits(env, log + [e], frames)
  {
    var n := |frames| - 1;
    LogWidens(env, log, frames, n);
    forall x | x in log
      ensures x.frame.at + |x.frame.data| <= e.frame.at
    {
      var i :| 0 <= i < n && frames[..n][i] == x.frame;
      assert frames[i] == x.frame;
    }
  }

  lemma {:induction false} ReprintsIff(env: Env, e: Entry)
    requires ParseFrame(env.cipher, e.frame.data, e.link) == Some(e.parsed) && Whole(e.frame.data)
    ensures Reprints(env, e)
  {
    var p := e.parsed;
    PrintParsed(env.cipher, e.frame.data, e.link);
    var body := (if p.stripped then e.link.key else []) + p.payload;
    if 0 !in p.cmd {
      CStringWhole(p.cmd);
    } else {
      CStringShort(p.cmd);
    }
  }

  lemma {:induction false} LogFitsFrames(env: Env, w: World, frames: seq<Located>)
    requires Ordered(frames) && forall f | f in frames :: Whole(f.data)
    ensures LogFits(env, Log(env, w, frames), frames)
  {
    if frames != [] {
      var n := |frames| - 1;
      LogFitsFrames(env, w, frames[..n]);
      var link := HandleAll(env, w, DatasOf(frames[..n])).link;
      var parsed := ParseFrame(env.cipher, frames[n].data, link);
      if parsed.Some? {
        ReprintsIff(env, Entry(frames[n], parsed.value, link));
        LogSnoc(env, Log(env, w, frames[..n]), frames, Entry(frames[n], parsed.value, link));
      } else {
        LogWidens(env, Log(env, w, frames[..n]), frames, n);
      }
    }
  }

  /** Every dispatched request comes from one contiguous stretch of the stream; the
      stretches are disjoint and in order; and each is what sending the request
      again would print. */
  lemma {:induction false} DispatchedAreStretches(env: Env, w: World, stream: bytes)
    ensures var p := Feed(Start([]), stream);
            var log := Log(env, w, p.frames);
            HandleAll(env, w, p.Datas()).dispatched == w.dispatched + Requests(log)
            && LogFits(env, log, p.frames)
            && forall f | f in p.frames :: LiesIn(f, stream)
  {
    FramesAreStretches([], Start([]), stream);
    assert [] + stream == stream;
    LogDispatched(env, w, Feed(Start([]), stream).frames);
    LogFitsFrames(env, w, Feed(Start([]), stream).frames);
  }
}
