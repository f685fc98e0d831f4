/** The byte-at-a-time parser of nivona_frame.c as a function from a stream to
    the frames it hands on.  The parser's state is the bytes of the frame being
    collected; empty means idle. */
module Stream {
  import opened Bytes
  import opened Framing

  /** Request sizes by second command byte; 0 stands for "ends at the first 0x45". */
  function ExpectedRequestSize(cmd2: uint8): nat {
    match cmd2
    case 0x55 => 11  // HU
    case 0x56 => 7   // HV
    case 0x58 => 7   // HX
    case 0x49 => 7   // HI
    case 0x52 => 9   // HR
    case 0x41 => 9   // HA
    case 0x57 => 13  // HW
    case 0x44 => 9   // HD
    case 0x59 => 11  // HY
    case 0x5A => 11  // HZ
    case 0x45 => 25  // HE
    case 0x43 => 9   // HC
    case 0x42 => 0   // HB
    case 0x4A => 73  // HJ
    case _ => 0
  }

  function Expected(buf: bytes): nat {
    if |buf| >= 3 && buf[1] == H then ExpectedRequestSize(buf[2]) else 0
  }

  /** Whether the byte just collected ends the frame. */
  predicate Complete(buf: bytes)
    requires 2 <= |buf|
  {
    if Expected(buf) > 0 then |buf| == Expected(buf) else buf[|buf| - 1] == FRAME_END
  }

  datatype Taken = Taken(pending: bytes, frame: Option<bytes>)

  /** One turn of the parser's loop. */
  function Take(pending: bytes, b: uint8): Taken {
    if pending == [] then Taken(if b == FRAME_START then [b] else [], None)
    else if |pending| >= MAX_FRAME_BYTES then Taken([], None)
    else
      var buf := pending + [b];
      if Complete(buf) then Taken([], Some(buf)) else Taken(buf, None)
  }

  /** A frame and the place in the stream where it starts. */
  datatype Located = Located(at: int, data: bytes)

  function DatasOf(frames: seq<Located>): seq<bytes> {
    seq(|frames|, i requires 0 <= i < |frames| => frames[i].data)
  }

  /** The parser with its history: the frames it handed on, the bytes of the frame
      it is collecting, and how many bytes it has seen. */
  datatype Parser = Parser(frames: seq<Located>, pending: bytes, seen: nat) {
    function Datas(): seq<bytes> {
      DatasOf(frames)
    }
  }

  function Start(pending: bytes): Parser {
    Parser([], pending, |pending|)
  }

  function Step(p: Parser, b: uint8): Parser {
    var t := Take(p.pending, b);
    match t.frame
    case None => Parser(p.frames, t.pending, p.seen + 1)
    case Some(f) => Parser(p.frames + [Located(p.seen + 1 - |f|, f)], t.pending, p.seen + 1)
  }

  function Feed(p: Parser, stream: bytes): Parser {
    if stream == [] then p else Step(Feed(p, stream[..|stream| - 1]), stream[|stream| - 1])
  }

  /** Chunk after chunk, as the radio delivers them. */
  function FeedChunks(p: Parser, chunks: seq<bytes>): Parser
    decreases |chunks|
  {
    if chunks == [] then p else FeedChunks(Feed(p, chunks[0]), chunks[1..])
  }

  lemma {:induction false} FeedLast(p: Parser, f: bytes, b: uint8)
    ensures Feed(p, f + [b]) == Step(Feed(p, f), b)
  {
    assert (f + [b])[..|f|] == f;
  }

  lemma {:induction false} FeedConcat(p: Parser, a: bytes, b: bytes)
    ensures Feed(p, a + b) == Feed(Feed(p, a), b)
    decreases |b|
  {
    if b == [] {
      assert a + b == a;
    } else {
      var n := |b| - 1;
      FeedConcat(p, a, b[..n]);
      assert (a + b)[..|a + b| - 1] == a + b[..n];
    }
  }

  /** How the stream is cut into chunks makes no difference. */
  lemma {:induction false} ChunkingIsIrrelevant(p: Parser, chunks: seq<bytes>)
    ensures FeedChunks(p, chunks) == Feed(p, Flatten(chunks))
    decreases |chunks|
  {
    if chunks != [] {
      ChunkingIsIrrelevant(Feed(p, chunks[0]), chunks[1..]);
      FeedConcat(p, chunks[0], Flatten(chunks[1..]));
    }
  }

  lemma {:induction false} StepDatas(p: Parser, b: uint8)
    ensures var t := Take(p.pending, b);
            Step(p, b).Datas() == p.Datas() + (if t.frame.Some? then [t.frame.value] else [])
            && Step(p, b).pending == t.pending
  {
  }

  /** The parser can be picked up from its pending bytes alone. */
  lemma {:induction false} FeedResumes(p: Parser, stream: bytes)
    ensures var q := Feed(Start(p.pending), stream);
            Feed(p, stream).Datas() == p.Datas() + q.Datas() && Feed(p, stream).pending == q.pending
  {
    if stream == [] {
      assert p.Datas() + Start(p.pending).Datas() == p.Datas();
    } else {
      var front, b := stream[..|stream| - 1], stream[|stream| - 1];
      FeedResumes(p, front);
      StepDatas(Feed(p, front), b);
      StepDatas(Feed(Start(p.pending), front), b);
    }
  }

  // ---- What the parser can be collecting -----------------------------------

  /** No proper prefix is a finished frame. */
  ghost predicate Unfinished(buf: bytes) {
    forall k | 2 <= k < |buf| :: !Complete(buf[..k])
  }

  ghost predicate PendingOk(p: bytes) {
    p == [] || (|p| <= MAX_FRAME_BYTES && p[0] == FRAME_START && Unfinished(p) && (|p| >= 2 ==> !Complete(p)))
  }

  /** A byte string the parser takes as one frame from idle. */
  ghost predicate Whole(f: bytes) {
    2 <= |f| <= 512 && f[0] == 0x53 && Unfinished(f) && Complete(f)
  }

  lemma {:induction false} TakeOk(p: bytes, b: uint8)
    requires PendingOk(p)
    ensures PendingOk(Take(p, b).pending)
    ensures Take(p, b).frame.Some? ==> Take(p, b).frame.value == p + [b] && Whole(p + [b]) && Take(p, b).pending == []
  {
    var buf := p + [b];
    if p != [] {
      forall k | 2 <= k < |buf|
        ensures !Complete(buf[..k])
      {
        if k < |p| {
          assert buf[..k] == p[..k];
        } else {
          assert buf[..k] == p;
        }
      }
    }
  }

  /** From the third byte on, the expected size is fixed. */
  lemma {:induction false} PrefixExpected(buf: bytes, k: nat)
    requires 3 <= k <= |buf|
    ensures Expected(buf[..k]) == Expected(buf)
  {
    assert buf[..k][1] == buf[1] && buf[..k][2] == buf[2];
  }

  lemma {:induction false} PendingShort(p: bytes)
    requires PendingOk(p)
    ensures Expected(p) > 0 ==> |p| < Expected(p)
  {
    if 0 < Expected(p) <= |p| {
      PrefixExpected(p, Expected(p));
    }
  }

  /** From any state the parser can be in, it stays in bounds: idle, or 1 to 512
      bytes from 0x53 on, and short of the size expected where one is. */
  lemma {:induction false} StaysInBounds(p: Parser, stream: bytes)
    requires PendingOk(p.pending)
    ensures PendingOk(Feed(p, stream).pending)
    ensures var q := Feed(p, stream).pending;
            q != [] ==> |q| <= 512 && q[0] == 0x53 && (Expected(q) > 0 ==> |q| < Expected(q))
  {
    if stream != [] {
      var n := |stream| - 1;
      StaysInBounds(p, stream[..n]);
      TakeOk(Feed(p, stream[..n]).pending, stream[n]);
    }
    PendingShort(Feed(p, stream).pending);
  }

  // ---- Where the frames lie in the stream ----------------------------------

  ghost predicate LiesIn(f: Located, all: bytes) {
    0 <= f.at && f.at + |f.data| <= |all| && all[f.at..f.at + |f.data|] == f.data
  }

  /** The frames are whole, stand in the stream in order, and do not overlap; the
      pending bytes end the stream and come after the last frame. */
  ghost predicate CutFrom(all: bytes, p: Parser) {
    && p.seen == |all|
    && (forall i | 0 <= i < |p.frames| :: LiesIn(p.frames[i], all) && Whole(p.frames[i].data))
    && (forall i, j | 0 <= i < j < |p.frames| :: p.frames[i].at + |p.frames[i].data| <= p.frames[j].at)
    && |p.pending| <= |all| && all[|all| - |p.pending|..] == p.pending
    && (forall i | 0 <= i < |p.frames| :: p.frames[i].at + |p.frames[i].data| <= |all| - |p.pending|)
  }

  lemma {:induction false} StillLiesIn(f: Located, all: bytes, b: uint8)
    requires LiesIn(f, all)
    ensures LiesIn(f, all + [b])
  {
    assert (all + [b])[f.at..f.at + |f.data|] == all[f.at..f.at + |f.data|];
  }

  /** The frames stay where they are, and the byte can be collected. */
  lemma {:induction false} GrownCut(all: bytes, p: Parser, b: uint8)
    requires CutFrom(all, p)
    ensures CutFrom(all + [b], Parser(p.frames, p.pending + [b], p.seen + 1))
  {
    var longer, grown := all + [b], p.pending + [b];
    assert longer[|longer| - |grown|..] == grown;
    forall f | f in p.frames
      ensures LiesIn(f, longer)
    {
      StillLiesIn(f, all, b);
    }
  }

  lemma {:induction false} DroppedCut(all: bytes, p: Parser)
    requires CutFrom(all, p)
    ensures CutFrom(all, Parser(p.frames, [], p.seen))
  {
    assert all[|all|..] == [];
  }

  lemma {:induction false} DoneCut(all: bytes, p: Parser)
    requires CutFrom(all, p) && Whole(p.pending)
    ensures CutFrom(all, Parser(p.frames + [Located(p.seen - |p.pending|, p.pending)], [], p.seen))
  {
    assert all[|all| - |p.pending|..|all|] == p.pending;
    assert all[|all|..] == [];
  }

  lemma {:induction false} CutOneMore(all: bytes, p: Parser, b: uint8)
    requires CutFrom(all, p) && PendingOk(p.pending)
    ensures CutFrom(all + [b], Step(p, b))
  {
    var t := Take(p.pending, b);
    GrownCut(all, p, b);
    var q := Parser(p.frames, p.pending + [b], p.seen + 1);
    if t.frame.Some? {
      TakeOk(p.pending, b);
      DoneCut(all + [b], q);
    } else if t.pending == [] {
      DroppedCut(all + [b], q);
    }
  }

  lemma {:induction false} FramesAreStretches(all: bytes, p: Parser, stream: bytes)
    requires PendingOk(p.pending) && CutFrom(all, p)
    ensures CutFrom(all + stream, Feed(p, stream))
  {
    if stream == [] {
      assert all + stream == all;
    } else {
      var front, last := stream[..|stream| - 1], stream[|stream| - 1];
      assert all + stream == all + front + [last] && stream == front + [last];
      FramesAreStretches(all, p, front);
      StaysInBounds(p, front);
      CutOneMore(all + front, Feed(p, front), last);
      FeedLast(p, front, last);
    }
  }

  // ---- Whole frames come through -------------------------------------------

  lemma {:induction false} InnerByte(f: bytes, k: nat)
    requires Whole(f) && k + 1 < |f|
    ensures Take(f[..k], f[k]) == Taken(f[..k + 1], None)
  {
    assert f[..k] + [f[k]] == f[..k + 1];
    if k > 0 {
      assert !Complete(f[..k + 1]);
    }
  }

  lemma {:induction false} FeedInside(p: Parser, f: bytes, k: nat)
    requires p.pending == [] && Whole(f) && k < |f|
    ensures Feed(p, f[..k]) == Parser(p.frames, f[..k], p.seen + k)
    decreases k
  {
    if k > 0 {
      FeedInside(p, f, k - 1);
      InnerByte(f, k - 1);
      assert f[..k - 1] + [f[k - 1]] == f[..k];
      FeedLast(p, f[..k - 1], f[k - 1]);
    }
  }

  lemma {:induction false} LastByte(f: bytes)
    requires Whole(f)
    ensures Take(f[..|f| - 1], f[|f| - 1]) == Taken([], Some(f))
  {
    assert f[..|f| - 1] + [f[|f| - 1]] == f;
  }

  lemma {:induction false} FeedEnds(p: Parser, f: bytes, b: uint8)
    requires Feed(p, f) == Parser(p.frames, f, p.seen + |f|) && Take(f, b) == Taken([], Some(f + [b]))
    ensures Feed(p, f + [b]) == Parser(p.frames + [Located(p.seen, f + [b])], [], p.seen + |f| + 1)
  {
    FeedLast(p, f, b);
  }

  lemma {:induction false} FeedWhole(p: Parser, f: bytes)
    requires p.pending == [] && Whole(f)
    ensures Feed(p, f) == Parser(p.frames + [Located(p.seen, f)], [], p.seen + |f|)
  {
    var n := |f| - 1;
    assert f[..n] + [f[n]] == f;
    LastByte(f);
    FeedInside(p, f, n);
    FeedEnds(p, f[..n], f[n]);
  }

  lemma {:induction false} FramesWhole(all: bytes, p: Parser, i: nat)
    requires CutFrom(all, p) && i < |p.frames|
    ensures Whole(p.frames[i].data)
  {
  }

  lemma {:induction false} TakenIsWhole(f: bytes)
    requires Feed(Start([]), f).frames == [Located(0, f)]
    ensures Whole(f)
  {
    FramesAreStretches([], Start([]), f);
    FramesWhole([] + f, Feed(Start([]), f), 0);
  }

  lemma {:induction false} WholeIsTaken(f: bytes)
    requires Whole(f)
    ensures Feed(Start([]), f).frames == [Located(0, f)]
  {
    FeedWhole(Start([]), f);
    assert [] + [Located(0, f)] == [Located(0, f)];
  }

  /** A byte string is taken as one frame, all of it, exactly when it is whole. */
  lemma {:induction false} TakenWholeIff(f: bytes)
    ensures Feed(Start([]), f).frames == [Located(0, f)] <==> Whole(f)
  {
    if Whole(f) {
      WholeIsTaken(f);
    } else if Feed(Start([]), f).frames == [Located(0, f)] {
      TakenIsWhole(f);
    }
  }

  lemma {:induction false} DatasSnoc(p: Parser, q: Parser, f: Located)
    requires q.frames == p.frames + [f]
    ensures q.Datas() == p.Datas() + [f.data]
  {
  }

  /** Any run of whole frames, one after another, comes out as those frames. */
  lemma {:induction false} FeedRun(p: Parser, fs: seq<bytes>)
    requires p.pending == [] && forall f | f in fs :: Whole(f)
    ensures Feed(p, Flatten(fs)).Datas() == p.Datas() + fs
    ensures Feed(p, Flatten(fs)).pending == []
    decreases |fs|
  {
    if fs == [] {
      assert p.Datas() + [] == p.Datas();
    } else {
      assert p.Datas() + fs == p.Datas() + [fs[0]] + fs[1..];
      FeedConcat(p, fs[0], Flatten(fs[1..]));
      FeedWhole(p, fs[0]);
      var q := Feed(p, fs[0]);
      DatasSnoc(p, q, Located(p.seen, fs[0]));
      FeedRun(q, fs[1..]);
    }
  }

  /** When an `H` frame is taken whole: at its declared size, or, for a command
      without one, when the first 0x45 after the command is the last byte. */
  lemma {:induction false} WholeIff(f: bytes)
    requires 4 <= |f| && f[0] == FRAME_START && f[1] == H && f[|f| - 1] == FRAME_END
    ensures Whole(f) <==>
            if ExpectedRequestSize(f[2]) > 0 then |f| == ExpectedRequestSize(f[2])
            else |f| <= MAX_FRAME_BYTES && FRAME_END !in f[3..|f| - 1]
  {
    var e := ExpectedRequestSize(f[2]);
    assert Expected(f) == e;
    assert !Complete(f[..2]);
    forall k | 3 <= k < |f|
      ensures Complete(f[..k]) <==> if e > 0 then k == e else f[k - 1] == FRAME_END
    {
      PrefixExpected(f, k);
    }
    if e == 0 {
      if FRAME_END in f[3..|f| - 1] {
        var i :| 0 <= i < |f| - 4 && f[3..|f| - 1][i] == FRAME_END;
        assert Complete(f[..i + 4]);
      }
      forall k | 4 <= k < |f| && FRAME_END !in f[3..|f| - 1]
        ensures !Complete(f[..k])
      {
        assert f[k - 1] == f[3..|f| - 1][k - 4];
      }
    } else if e < |f| {
      assert Complete(f[..e]);
    }
  }

  /** When any other frame is: when its first 0x45 is the last byte. */
  lemma {:induction false} PlainWholeIff(f: bytes)
    requires 3 <= |f| && f[1] != 0x48
    ensures Whole(f) <==> |f| <= 512 && f[0] == 0x53 && f[|f| - 1] == 0x45 && 0x45 !in f[1..|f| - 1]
  {
    forall k | 2 <= k <= |f|
      ensures Complete(f[..k]) <==> f[k - 1] == 0x45
    {
      assert f[..k][1] == f[1];
    }
    assert f[..|f|] == f;
    if 0x45 in f[1..|f| - 1] {
      var i :| 0 <= i < |f| - 2 && f[1..|f| - 1][i] == 0x45;
      assert Complete(f[..i + 2]);
    }
    forall k | 2 <= k < |f| && 0x45 !in f[1..|f| - 1]
      ensures !Complete(f[..k])
    {
      assert f[k - 1] == f[1..|f| - 1][k - 2];
    }
  }

  // ---- Recovery --------------------------------------------------------------

  lemma {:induction false} WithoutStart(p: Parser, stream: bytes)
    requires PendingOk(p.pending) && FRAME_START !in stream
    ensures var q := Feed(p, stream).pending;
            q == [] || (p.pending != [] && |q| == |p.pending| + |stream|)
  {
    if stream != [] {
      var n := |stream| - 1;
      assert stream[n] != FRAME_START;
      WithoutStart(p, stream[..n]);
    }
  }

  /** Whatever the parser was collecting, 512 bytes none of which is 0x53 leave it idle. */
  lemma {:induction false} Recovers(p: Parser, stream: bytes)
    requires PendingOk(p.pending) && 0x53 !in stream && |stream| >= 512
    ensures Feed(p, stream).pending == []
  {
    WithoutStart(p, stream);
    StaysInBounds(p, stream);
  }

  /** A frame that has grown to 512 bytes unfinished is dropped, and the next byte with it. */
  lemma {:induction false} OverflowDrops(p: Parser, b: uint8)
    requires |p.pending| == 512
    ensures Feed(p, [b]) == Parser(p.frames, [], p.seen + 1)
  {
    assert [b][..0] == [];
  }

  /** ... and fewer need not: after one 0x53, up to 511 zeros are all collected. */
  lemma {:induction false} RecoveryIsTight(p: Parser, n: nat)
    requires p.pending == [0x53] && n < 512
    ensures Feed(p, seq(n, _ => 0)).pending == [0x53] + seq(n, _ => 0)
    decreases n
  {
    var zeros: bytes := seq(n, _ => 0);
    if n == 0 {
      assert [FRAME_START] + zeros == [FRAME_START];
    } else {
      RecoveryIsTight(p, n - 1);
      var fewer: bytes := seq(n - 1, _ => 0);
      assert zeros[..n - 1] == fewer && zeros == fewer + [0];
      assert [FRAME_START] + fewer + [0] == [FRAME_START] + zeros;
    }
  }
}
