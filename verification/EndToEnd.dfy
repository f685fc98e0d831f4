/** In session, the emulator's numeric registers behave as one bounded map, seen
    from the client through framing, cipher, checksum, coding and slot table. */
module EndToEnd {
  import opened Bytes
  import opened Dispatch
  import opened Framing
  import opened Protocol
  import opened Registers
  import opened Slots
  import Client
  import Stream

  datatype Query = Read(id: int16) | Write(id: int16, value: int32) | Reset(id: int16)

  datatype Answer = Acked | Refused | Value(id: int16, value: int32)

  function Asked(q: Query): Client.Message {
    match q
    case Read(id) => Client.Message(HR, PutBe16(id))
    case Write(id, value) => Client.Message(HW, PutBe16(id) + PutBe32(value))
    case Reset(id) => Client.Message(HD, PutBe16(id))
  }

  function AskedAll(qs: seq<Query>): seq<Client.Message> {
    seq(|qs|, i requires 0 <= i < |qs| => Asked(qs[i]))
  }

  // ---- The plain map ---------------------------------------------------------

  function AfterQuery(m: Nums, q: Query): Nums {
    match q
    case Read(_) => m
    case Write(id, value) => BoundedPut(m, 256, id, value)
    case Reset(id) => m - {id}
  }

  function AnswerTo(m: Nums, q: Query): Answer {
    match q
    case Read(id) => Value(id, Num(m, id))
    case Write(_, _) => Acked
    case Reset(_) => Acked
  }

  function After(m: Nums, qs: seq<Query>): Nums {
    if qs == [] then m else AfterQuery(After(m, qs[..|qs| - 1]), qs[|qs| - 1])
  }

  function AnswersTo(m: Nums, qs: seq<Query>): seq<Option<Answer>> {
    if qs == [] then []
    else AnswersTo(m, qs[..|qs| - 1]) + [Some(AnswerTo(After(m, qs[..|qs| - 1]), qs[|qs| - 1]))]
  }

  // ---- What the client makes of a notification ----------------------------------

  function Decode(c: Cipher, reply: bytes): Option<Answer> {
    if reply == [0x53, 0x41, Client.Checksum([0x41]), 0x45] then Some(Acked)
    else if reply == [0x53, 0x4E, Client.Checksum([0x4E]), 0x45] then Some(Refused)
    else match Client.ParseFrame(c, reply)
      case None => None
      case Some(m) =>
        if m.cmd == HR && |m.payload| == 6 then Some(Value(GetBe16(m.payload), GetBe32(m.payload[2..]))) else None
  }

  function DecodeAll(c: Cipher, replies: seq<bytes>): seq<Option<Answer>> {
    seq(|replies|, i requires 0 <= i < |replies| => Decode(c, replies[i]))
  }

  /** One more notification, which the client reads as `answer`. */
  ghost predicate Replied(env: Env, before: World, after: World, answer: Answer) {
    |after.sent| == |before.sent| + 1 && after.sent[..|before.sent|] == before.sent
    && Decode(env.cipher, after.sent[|before.sent|]) == Some(answer)
  }

  lemma {:induction false} AckIsRead(env: Env, w: World)
    ensures Replied(env, w, SendAck(env, w), Acked)
    ensures SendAck(env, w) == w.(sent := SendAck(env, w).sent)
  {
    CStringWhole([ACK]);
    Client.ChecksumsAgree([ACK]);
    var f := FrameBytes(env.cipher, [ACK], [], false);
    assert [ACK] + [] == [ACK];
    assert f == [0x53, ACK, Client.Checksum([ACK]), 0x45];
    OneChunk(f);
  }

  lemma {:induction false} NackIsRead(env: Env, w: World)
    ensures Replied(env, w, SendNack(env, w), Refused)
    ensures SendNack(env, w) == w.(sent := SendNack(env, w).sent)
  {
    CStringWhole([NACK]);
    Client.ChecksumsAgree([NACK]);
    var f := FrameBytes(env.cipher, [NACK], [], false);
    assert [NACK] + [] == [NACK];
    assert f == [0x53, NACK, Client.Checksum([NACK]), 0x45];
    OneChunk(f);
  }

  lemma {:induction false} ValueIsRead(env: Env, w: World, id: int16, value: int32)
    ensures Replied(env, w, Respond(env, w, HR, PutBe16(id) + PutBe32(value)), Value(id, value))
    ensures var r := Respond(env, w, HR, PutBe16(id) + PutBe32(value)); r == w.(sent := r.sent)
  {
    ResponseIsRead(env, w, HR, PutBe16(id) + PutBe32(value));
    Be16Onto(id, PutBe32(value));
    Be32RoundTrip(value);
  }

  /** The world in which a parsed query is dispatched. */
  function Logged(w: World, q: Query): World {
    w.(dispatched := w.dispatched + [Parsed(Asked(q).cmd, Asked(q).payload, true)])
  }

  ghost predicate QueryWorks(env: Env, w: World, q: Query) {
    var r := Dispatch.Dispatch(env, Logged(w, q), Asked(q).cmd, Asked(q).payload);
    && r.link == w.link && r.regs.num == AfterQuery(w.regs.num, q) && r.actions == w.actions
    && Replied(env, w, r, AnswerTo(w.regs.num, q))
  }

  lemma {:induction false} ReadWorks(env: Env, w: World, id: int16)
    ensures QueryWorks(env, w, Read(id))
  {
    Be16RoundTrip(id);
    ValueIsRead(env, Logged(w, Read(id)), id, Num(w.regs.num, id));
  }

  lemma {:induction false} WriteWorks(env: Env, w: World, id: int16, value: int32)
    ensures QueryWorks(env, w, Write(id, value))
  {
    Be16Onto(id, PutBe32(value));
    Be32RoundTrip(value);
    AckIsRead(env, Logged(w, Write(id, value)).(regs := w.regs.PutNum(id, value)));
  }

  lemma {:induction false} ResetWorks(env: Env, w: World, id: int16)
    ensures QueryWorks(env, w, Reset(id))
  {
    Be16RoundTrip(id);
    AckIsRead(env, Logged(w, Reset(id)).(regs := w.regs.EraseNum(id)));
  }

  /** One query, handled: the map moves, the client reads the map's answer. */
  lemma {:induction false} QueryHandled(env: Env, w: World, q: Query)
    requires w.link.done
    ensures var r := Handle(env, w, RequestFrame(env, w.link.key, Asked(q)));
            && r.link == w.link && r.regs.num == AfterQuery(w.regs.num, q) && r.actions == w.actions
            && Replied(env, w, r, AnswerTo(w.regs.num, q))
  {
    RequestParses(env, w.link, Asked(q));
    match q {
      case Read(id) => ReadWorks(env, w, id);
      case Write(id, value) => WriteWorks(env, w, id, value);
      case Reset(id) => ResetWorks(env, w, id);
    }
  }

  /** What was sent between `before` and `after` reads as `answers`. */
  ghost predicate Conversation(c: Cipher, before: seq<bytes>, after: seq<bytes>, answers: seq<Option<Answer>>) {
    |before| <= |after| && after[..|before|] == before && DecodeAll(c, after[|before|..]) == answers
  }

  lemma {:induction false} OneMoreAnswer(c: Cipher, before: seq<bytes>, mid: seq<bytes>, after: seq<bytes>,
                                         answers: seq<Option<Answer>>)
    requires Conversation(c, before, mid, answers) && |after| == |mid| + 1 && after[..|mid|] == mid
    ensures Conversation(c, before, after, answers + [Decode(c, after[|mid|])])
  {
    assert after[|before|..] == mid[|before|..] + [after[|mid|]];
  }

  lemma {:induction false} FramesSplit(env: Env, w: World, qs: seq<Query>)
    requires qs != []
    ensures var n, key := |qs| - 1, w.link.key;
            HandleAll(env, w, RequestFrames(env, key, AskedAll(qs)))
            == Handle(env, HandleAll(env, w, RequestFrames(env, key, AskedAll(qs[..n]))),
                      RequestFrame(env, key, Asked(qs[n])))
  {
    var n := |qs| - 1;
    var fs := RequestFrames(env, w.link.key, AskedAll(qs));
    assert fs[..n] == RequestFrames(env, w.link.key, AskedAll(qs[..n]));
    assert fs[n] == RequestFrame(env, w.link.key, Asked(qs[n]));
  }

  lemma {:induction false} QueriesHandled(env: Env, w: World, qs: seq<Query>)
    requires w.link.done
    ensures var r := HandleAll(env, w, RequestFrames(env, w.link.key, AskedAll(qs)));
            r.link == w.link && r.regs.num == After(w.regs.num, qs)
            && Conversation(env.cipher, w.sent, r.sent, AnswersTo(w.regs.num, qs))
  {
    if qs == [] {
      assert w.sent[|w.sent|..] == [];
    } else {
      var n := |qs| - 1;
      FramesSplit(env, w, qs);
      QueriesHandled(env, w, qs[..n]);
      var v := HandleAll(env, w, RequestFrames(env, w.link.key, AskedAll(qs[..n])));
      QueryHandled(env, v, qs[n]);
      var r := Handle(env, v, RequestFrame(env, v.link.key, Asked(qs[n])));
      OneMoreAnswer(env.cipher, w.sent, v.sent, r.sent, AnswersTo(w.regs.num, qs[..n]));
    }
  }

  /** After a handshake, for every sequence of reads, writes and resets sent as one
      byte stream in any chunks, the client reads exactly the answers of a plain map
      of at most 256 keys, and the registers end as that map. */
  lemma {:induction false} RegistersAreAMap(env: Env, w: World, qs: seq<Query>, chunks: seq<bytes>)
    requires w.link.done
    requires Flatten(chunks) == Flatten(RequestFrames(env, w.link.key, AskedAll(qs)))
    ensures var r := AfterChunks(env, w, [], chunks);
            Stream.FeedChunks(Stream.Start([]), chunks).pending == []
            && r.regs.num == After(w.regs.num, qs)
            && Conversation(env.cipher, w.sent, r.sent, AnswersTo(w.regs.num, qs))
  {
    forall m | m in AskedAll(qs)
      ensures IsSized(m)
    {
      var i :| 0 <= i < |qs| && AskedAll(qs)[i] == m;
      assert m == Asked(qs[i]);
    }
    SizedRequestsCut(env, w.link.key, AskedAll(qs), chunks);
    QueriesHandled(env, w, qs);
  }

  // ---- Texts, whose replies take several notifications -------------------------------

  /** What was sent since `before` is notifications of at most 20 bytes which, put
      together, the client reads as `m`. */
  ghost predicate RepliedInChunks(env: Env, before: seq<bytes>, after: seq<bytes>, m: Client.Message) {
    && |before| <= |after| && after[..|before|] == before
    && (forall c | c in after[|before|..] :: 0 < |c| <= 20)
    && Client.ParseFrame(env.cipher, Flatten(after[|before|..])) == Some(m)
  }

  lemma {:induction false} LongReplyIsRead(env: Env, w: World, cmd: bytes, payload: bytes)
    requires |cmd| == 2 && 0 !in cmd && |payload| + 5 <= 512
    ensures RepliedInChunks(env, w.sent, Respond(env, w, cmd, payload).sent, Client.Message(cmd, payload))
  {
    var f := FrameBytes(env.cipher, cmd, payload, true);
    CStringWhole(cmd);
    assert [] + payload == payload;
    assert Respond(env, w, cmd, payload).sent == w.sent + Chunks(f);
    ChunksRejoin(f);
    Client.ClientReads(env.cipher, cmd, payload);
    assert (w.sent + Chunks(f))[|w.sent|..] == Chunks(f);
  }

  /** The commands are spelled as the client spells them. */
  lemma {:induction false} CommandsAre()
    ensures HU == Ascii("HU") && HX == Ascii("HX") && HV == Ascii("HV") && HI == Ascii("HI") && HL == Ascii("HL")
    ensures HS == Ascii("HS") && HP == Ascii("Hp") && HR == Ascii("HR") && HA == Ascii("HA") && HC == Ascii("HC")
    ensures HW == Ascii("HW") && HB == Ascii("HB") && HE == Ascii("HE") && HZ == Ascii("HZ") && HY == Ascii("HY")
    ensures HD == Ascii("HD") && [ACK] == Ascii("A") && [NACK] == Ascii("N")
    ensures [FRAME_START] == Ascii("S") && [FRAME_END] == Ascii("E")
  {
  }

  lemma {:induction false} ReportIsDispatched(env: Env, v: World, cmd: bytes, payload: bytes)
    requires cmd == HV || cmd == HI || cmd == HL || cmd == HS || cmd == HP || cmd == HC
    ensures Dispatch.Dispatch(env, v, cmd, payload) == Respond(env, v, cmd, env.report(cmd, payload))
  {
    assert cmd[1] != HU[1] && cmd[1] != HX[1];
  }

  /** Asked for version, features, serial number, status frame, ping or recipe, the emulator
      sends no acknowledgement: it replies with the command and what it has to report. */
  lemma {:induction false} ReportIsRead(env: Env, w: World, cmd: bytes, payload: bytes)
    requires w.link.done && |env.report(cmd, payload)| + 5 <= 512
    requires cmd == Ascii("HV") || cmd == Ascii("HI") || cmd == Ascii("HL") || cmd == Ascii("HS") || cmd == Ascii("Hp")
             || cmd == Ascii("HC")
    ensures var r := Handle(env, w, RequestFrame(env, w.link.key, Client.Message(cmd, payload)));
            && RepliedInChunks(env, w.sent, r.sent, Client.Message(cmd, env.report(cmd, payload)))
            && r.link == w.link && r.regs == w.regs && r.actions == w.actions
  {
    CommandsAre();
    var m := Client.Message(cmd, payload);
    RequestParses(env, w.link, m);
    var v := w.(dispatched := w.dispatched + [Parsed(cmd, payload, true)]);
    ReportIsDispatched(env, v, cmd, payload);
    LongReplyIsRead(env, v, cmd, env.report(cmd, payload));
  }

  lemma {:induction false} WriteIsDone(env: Env, v: World, id: int16, text: bytes)
    ensures WriteAlpha(env, v, PutBe16(id) + text) == SendAck(env, v.(regs := v.regs.PutAlpha(id, text)))
  {
    Be16Onto(id, text);
  }

  lemma {:induction false} WriteIsDispatched(env: Env, v: World, id: int16, text: bytes)
    ensures Dispatch.Dispatch(env, v, HB, PutBe16(id) + text) == SendAck(env, v.(regs := v.regs.PutAlpha(id, text)))
  {
    assert HB != HU && HB != HX && HB != HV && HB != HI && HB != HL && HB != HS && HB != HP && HB != HC
           && HB != HR && HB != HA && HB != HW;
    WriteIsDone(env, v, id, text);
  }

  lemma {:induction false} TextIsHandled(env: Env, w: World, id: int16, text: bytes)
    requires w.link.done
    ensures var v := Handle(env, w, RequestFrame(env, w.link.key, Client.Message(HB, PutBe16(id) + text)));
            v.link == w.link && v.regs == w.regs.PutAlpha(id, text) && Replied(env, w, v, Acked)
  {
    var m := Client.Message(HB, PutBe16(id) + text);
    RequestParses(env, w.link, m);
    var v := w.(dispatched := w.dispatched + [Parsed(m.cmd, m.payload, true)]);
    WriteIsDispatched(env, v, id, text);
    AckIsRead(env, v.(regs := w.regs.PutAlpha(id, text)));
  }

  lemma {:induction false} FetchIsDispatched(env: Env, u: World, id: int16)
    ensures Dispatch.Dispatch(env, u, HA, PutBe16(id)) == Respond(env, u, HA, PutBe16(id) + Padded(u.regs.Alpha(id)))
  {
    Be16RoundTrip(id);
    assert HA[1] == 0x41;
  }

  lemma {:induction false} FetchIsHandled(env: Env, v: World, id: int16)
    requires v.link.done
    ensures var r := Handle(env, v, RequestFrame(env, v.link.key, Client.Message(HA, PutBe16(id))));
            RepliedInChunks(env, v.sent, r.sent, Client.Message(HA, PutBe16(id) + Padded(v.regs.Alpha(id))))
  {
    RequestParses(env, v.link, Client.Message(HA, PutBe16(id)));
    var u := v.(dispatched := v.dispatched + [Parsed(HA, PutBe16(id), true)]);
    FetchIsDispatched(env, u, id);
    LongReplyIsRead(env, u, HA, PutBe16(id) + Padded(v.regs.Alpha(id)));
  }

  lemma {:induction false} TwoFrames(env: Env, w: World, f: bytes, g: bytes, chunks: seq<bytes>)
    requires Stream.Whole(f) && Stream.Whole(g) && Flatten(chunks) == f + g
    ensures AfterChunks(env, w, [], chunks) == Handle(env, Handle(env, w, f), g)
    ensures Stream.FeedChunks(Stream.Start([]), chunks).pending == []
  {
    Stream.ChunkingIsIrrelevant(Stream.Start([]), chunks);
    assert [g][1..] == [] && Flatten([g]) == g + [] == g;
    assert [f, g][1..] == [g] && Flatten([f, g]) == f + g;
    Stream.FeedRun(Stream.Start([]), [f, g]);
    assert Stream.Start([]).Datas() + [f, g] == [f, g];
    HandleOne(env, w, [f]);
    assert [f, g][..1] == [f];
  }

  lemma {:induction false} WriteIsWhole(env: Env, key: SessionKey, m: Client.Message)
    requires m.cmd == HB && |m.payload| + 7 <= 512
    requires var f := RequestFrame(env, key, m); |f| > 3 && FRAME_END !in f[3..|f| - 1]
    ensures Stream.Whole(RequestFrame(env, key, m))
  {
    RequestFrameIs(env, key, m);
    Stream.WholeIff(RequestFrame(env, key, m));
  }

  lemma {:induction false} PutIsRead(r: Registers, id: int16, text: bytes)
    requires id in r.alpha || |r.alpha| < 64
    ensures r.PutAlpha(id, text).Alpha(id) == Truncated(text)
  {
  }

  /** In session, a write of a text and a read of it, in any chunks: the write is
      acknowledged, and the client reads the text back, cut to 64 bytes and padded to
      them, if its frame arrives whole and the table has room for it. */
  lemma {:induction false} TextRoundTrip(env: Env, w: World, id: int16, text: bytes, chunks: seq<bytes>)
    requires w.link.done && (id in w.regs.alpha || |w.regs.alpha| < 64)
    requires |text| + 9 <= 512
    requires var f := RequestFrame(env, w.link.key, Client.Message(HB, PutBe16(id) + text));
             var g := RequestFrame(env, w.link.key, Client.Message(HA, PutBe16(id)));
             |f| > 3 && FRAME_END !in f[3..|f| - 1] && Flatten(chunks) == f + g
    ensures var v := Handle(env, w, RequestFrame(env, w.link.key, Client.Message(HB, PutBe16(id) + text)));
            && Replied(env, w, v, Acked)
            && RepliedInChunks(env, v.sent, AfterChunks(env, w, [], chunks).sent,
                               Client.Message(HA, PutBe16(id) + Padded(Truncated(text))))
            && Stream.FeedChunks(Stream.Start([]), chunks).pending == []
  {
    var write, read := Client.Message(HB, PutBe16(id) + text), Client.Message(HA, PutBe16(id));
    var f, g := RequestFrame(env, w.link.key, write), RequestFrame(env, w.link.key, read);
    WriteIsWhole(env, w.link.key, write);
    SizedIsWhole(env, w.link.key, read);
    TextIsHandled(env, w, id, text);
    PutIsRead(w.regs, id, text);
    FetchIsHandled(env, Handle(env, w, f), id);
    TwoFrames(env, w, f, g, chunks);
  }

  // ---- Requests out of the ordinary ----------------------------------------------------

  lemma {:induction false} ShortHw(env: Env, v: World, payload: bytes)
    requires |payload| < 6
    ensures Dispatch.Dispatch(env, v, HW, payload) == SendAck(env, v)
  {
    assert HW != HU && HW != HX && HW != HV && HW != HI && HW != HL && HW != HS && HW != HP && HW != HC
           && HW != HR && HW != HA;
  }

  lemma {:induction false} ShortHb(env: Env, v: World, payload: bytes)
    requires |payload| < 2
    ensures Dispatch.Dispatch(env, v, HB, payload) == SendAck(env, v)
  {
    assert HB != HU && HB != HX && HB != HV && HB != HI && HB != HL && HB != HS && HB != HP && HB != HC
           && HB != HR && HB != HA && HB != HW;
  }

  lemma {:induction false} ShortHd(env: Env, v: World, payload: bytes)
    requires |payload| < 2
    ensures Dispatch.Dispatch(env, v, HD, payload) == SendAck(env, v)
  {
    assert HD != HU && HD != HX && HD != HV && HD != HI && HD != HL && HD != HS && HD != HP && HD != HC
           && HD != HR && HD != HA && HD != HW && HD != HB && HD != HE && HD != HZ && HD != HY;
  }

  /** A write or a reset too short for its command is acknowledged, and changes nothing. */
  lemma {:induction false} ShortWrite(env: Env, w: World, m: Client.Message)
    requires w.link.done
    requires (m.cmd == Ascii("HW") && |m.payload| < 6)
             || ((m.cmd == Ascii("HD") || m.cmd == Ascii("HB")) && |m.payload| < 2)
    ensures var r := Handle(env, w, RequestFrame(env, w.link.key, m));
            r.link == w.link && r.regs == w.regs && r.actions == w.actions && Replied(env, w, r, Acked)
  {
    CommandsAre();
    RequestParses(env, w.link, m);
    var v := w.(dispatched := w.dispatched + [Parsed(m.cmd, m.payload, true)]);
    if m.cmd == Ascii("HW") {
      ShortHw(env, v, m.payload);
    } else if m.cmd == Ascii("HB") {
      ShortHb(env, v, m.payload);
    } else {
      ShortHd(env, v, m.payload);
    }
    AckIsRead(env, v);
  }

  lemma {:induction false} ShortHr(env: Env, v: World, payload: bytes)
    requires |payload| < 2
    ensures Dispatch.Dispatch(env, v, HR, payload) == Respond(env, v, HR, PutBe16(0) + PutBe32(Num(v.regs.num, 0)))
  {
    assert HR != HU && HR != HX && HR != HV && HR != HI && HR != HL && HR != HS && HR != HP && HR != HC;
  }

  lemma {:induction false} ShortHa(env: Env, v: World, payload: bytes)
    requires |payload| < 2
    ensures Dispatch.Dispatch(env, v, HA, payload) == Respond(env, v, HA, [0, 0] + Padded(v.regs.Alpha(0)))
  {
    assert HA != HU && HA != HX && HA != HV && HA != HI && HA != HL && HA != HS && HA != HP && HA != HC && HA != HR;
  }

  /** A read without an id reads register 0. */
  lemma {:induction false} ShortRead(env: Env, w: World, payload: bytes)
    requires w.link.done && |payload| < 2
    ensures var r := Handle(env, w, RequestFrame(env, w.link.key, Client.Message(Ascii("HR"), payload)));
            r.link == w.link && r.regs == w.regs && Replied(env, w, r, Value(0, Num(w.regs.num, 0)))
  {
    CommandsAre();
    RequestParses(env, w.link, Client.Message(HR, payload));
    var v := w.(dispatched := w.dispatched + [Parsed(HR, payload, true)]);
    ShortHr(env, v, payload);
    ValueIsRead(env, v, 0, Num(w.regs.num, 0));
  }

  /** So does a read of a text. */
  lemma {:induction false} ShortFetch(env: Env, w: World, payload: bytes)
    requires w.link.done && |payload| < 2
    ensures var r := Handle(env, w, RequestFrame(env, w.link.key, Client.Message(Ascii("HA"), payload)));
            RepliedInChunks(env, w.sent, r.sent, Client.Message(Ascii("HA"), [0, 0] + Padded(w.regs.Alpha(0))))
  {
    CommandsAre();
    RequestParses(env, w.link, Client.Message(HA, payload));
    var v := w.(dispatched := w.dispatched + [Parsed(HA, payload, true)]);
    ShortHa(env, v, payload);
    LongReplyIsRead(env, v, HA, [0, 0] + Padded(v.regs.Alpha(0)));
  }

  /** The commands that the emulator knows. */
  predicate IsKnown(cmd: bytes) {
    cmd in {Ascii("HU"), Ascii("HX"), Ascii("HV"), Ascii("HI"), Ascii("HL"), Ascii("HS"), Ascii("Hp"), Ascii("HR"),
            Ascii("HA"), Ascii("HC"), Ascii("HW"), Ascii("HB"), Ascii("HE"), Ascii("HZ"), Ascii("HY"), Ascii("HD")}
  }

  /** Any other command is acknowledged, and changes nothing. */
  lemma {:induction false} UnknownIsAcked(env: Env, w: World, m: Client.Message)
    requires w.link.done && |m.cmd| == 2 && m.cmd[0] == 0x48 && !IsKnown(m.cmd)
    ensures var r := Handle(env, w, RequestFrame(env, w.link.key, m));
            r.link == w.link && r.regs == w.regs && r.actions == w.actions && Replied(env, w, r, Acked)
  {
    CommandsAre();
    RequestParses(env, w.link, m);
    AckIsRead(env, w.(dispatched := w.dispatched + [Parsed(m.cmd, m.payload, true)]));
  }

  /** A handshake too short for its seed and check bytes is passed over. */
  lemma {:induction false} ShortHandshake(env: Env, w: World, payload: bytes)
    requires |payload| < 6
    ensures Dispatch.Dispatch(env, w, Ascii("HU"), payload) == w
  {
    CommandsAre();
  }

  // ---- Brewing on request --------------------------------------------------------

  lemma {:induction false} BrewIsHandled(env: Env, w: World, payload: bytes)
    requires w.link.done
    ensures Handle(env, w, RequestFrame(env, w.link.key, Client.Message(HE, payload)))
            == Brew(env, w.(dispatched := w.dispatched + [Parsed(HE, payload, true)]), payload)
  {
    RequestParses(env, w.link, Client.Message(HE, payload));
    BrewIsDispatched(env, w.(dispatched := w.dispatched + [Parsed(HE, payload, true)]), payload);
  }

  lemma {:induction false} BrewReplies(env: Env, v: World, payload: bytes)
    requires |payload| == 18
    ensures var r := Brew(env, v, payload);
            && Replied(env, v, r, if RightBrew(env.brewMode, payload)
                && env.accepts(|v.actions|, payload[3]) then Acked else Refused)
            && r.actions == v.actions + if RightBrew(env.brewMode, payload) then [StartBrew(payload[3])] else []
  {
    var asked := v.(actions := v.actions + [StartBrew(payload[3])]);
    if !RightBrew(env.brewMode, payload) {
      NackIsRead(env, v);
    } else if env.accepts(|v.actions|, payload[3]) {
      AckIsRead(env, asked);
    } else {
      NackIsRead(env, asked);
    }
  }

  /** A brew request too short for all its fields is as good as one filled up with zeros. */
  lemma {:induction false} ShortBrew(env: Env, w: World, payload: bytes, n: nat)
    ensures Dispatch.Dispatch(env, w, Ascii("HE"), payload)
            == Dispatch.Dispatch(env, w, Ascii("HE"), payload + seq(n, _ => 0))
  {
    CommandsAre();
    BrewIsDispatched(env, w, payload);
    BrewIsDispatched(env, w, payload + seq(n, _ => 0));
  }

  /** A brew request is acknowledged exactly when it carries the family's mode and a
      flag of 0 or 1 and the machine takes it, and the machine is asked exactly when
      the request is well formed. */
  lemma {:induction false} BrewAnswerIff(env: Env, w: World, payload: bytes)
    requires w.link.done && |payload| == 18
    ensures var r := Handle(env, w, RequestFrame(env, w.link.key, Client.Message(HE, payload)));
            && Replied(env, w, r, if RightBrew(env.brewMode, payload)
                && env.accepts(|w.actions|, payload[3]) then Acked else Refused)
            && r.actions == w.actions + if RightBrew(env.brewMode, payload) then [StartBrew(payload[3])] else []
  {
    BrewIsHandled(env, w, payload);
    BrewReplies(env, w.(dispatched := w.dispatched + [Parsed(HE, payload, true)]), payload);
  }
}
