/** A client's visit as the radio lives through it: chunk after chunk, on the parser's
    own buffer, the store's own tables, the handshake's own variables, and the machine's
    own tanks, panel and task flags. */
module Session {
  import opened Bytes
  import opened Consumables
  import opened Device
  import opened Dispatch
  import opened Emulator
  import opened EndToEnd
  import opened EveryRun
  import opened Families
  import opened Framing
  import opened Front
  import opened Protocol
  import opened Store
  import Boot
  import Client
  import Registers
  import Stream

  // ---- Visits, served frame by frame ------------------------------------------------------

  lemma {:induction false} ReceivedOneMore(key: Key, env: Env, created: nat -> bool, x: System, chunks: seq<bytes>,
                                           last: bytes)
    ensures ReceivedAll(key, env, created, x, chunks + [last])
            == Received(key, env, created, ReceivedAll(key, env, created, x, chunks), last)
    decreases |chunks|
  {
    var all := chunks + [last];
    if chunks == [] {
      assert all[0] == last && all[1..] == [];
    } else {
      assert all[0] == chunks[0] && all[1..] == chunks[1..] + [last];
      ReceivedOneMore(key, env, created, Received(key, env, created, x, chunks[0]), chunks[1..], last);
    }
  }

  lemma {:induction false} OneMoreChunk(key: Key, env: Env, created: nat -> bool, x: System, chunks: seq<bytes>, i: nat)
    requires i < |chunks|
    ensures ReceivedAll(key, env, created, x, chunks[..i + 1])
            == Received(key, env, created, ReceivedAll(key, env, created, x, chunks[..i]), chunks[i])
  {
    assert chunks[..i + 1] == chunks[..i] + [chunks[i]];
    ReceivedOneMore(key, env, created, x, chunks[..i], chunks[i]);
  }

  lemma {:induction false} NoChunks(key: Key, env: Env, created: nat -> bool, x: System)
    ensures ReceivedAll(key, env, created, x, []) == x
  {
  }

  /** Whole frames that arrive at an idle parser, in any chunks, are served as those frames. */
  lemma {:induction false} FramesAreServed(key: Key, env: Env, created: nat -> bool, x: System, fs: seq<bytes>,
                                           chunks: seq<bytes>)
    requires x.pending == [] && Stream.FeedChunks(Stream.Start([]), chunks).pending == []
    requires Stream.FeedChunks(Stream.Start([]), chunks).Datas() == fs
    ensures ReceivedAll(key, env, created, x, chunks) == ServedAll(key, env, created, x, fs)
    ensures ReceivedAll(key, env, created, x, chunks).pending == []
  {
    Stream.ChunkingIsIrrelevant(Stream.Start([]), chunks);
    AllChunksMerge(key, env, created, x, chunks);
    ServedAllPending(key, env, created, x, fs, []);
  }

  /** Serving a frame that asks the machine for nothing leaves the machine alone, but for the
      registers it may write. */
  lemma {:induction false} UnasksIsServed(key: Key, env: Env, created: nat -> bool, x: System, f: bytes)
    requires Handle(EnvIn(key, env, x.m, created), x.w, f).actions == x.w.actions
    ensures var w := Handle(EnvIn(key, env, x.m, created), x.w, f);
            Served(key, env, created, x, f) == System(w, x.pending, x.m.(nums := w.regs.num))
  {
    NoAction(key, x.m, |x.w.actions|, created);
  }

  /** A handshake, in any chunks, on a fresh connection. */
  lemma {:induction false} HandshakeIsServed(key: Key, env: Env, created: nat -> bool, x: System, seed: bytes,
                                             check: bytes, chunks: seq<bytes>)
    requires x.w.link == NO_LINK && x.pending == [] && x.m.nums == x.w.regs.num && |seed| == 4 && |check| == 2
    requires Flatten(chunks) == HandshakeFrame(env, seed, check)
    ensures var y, n := ReceivedAll(key, env, created, x, chunks), |x.w.sent|;
            && y.pending == [] && y.m == x.m && y.w.regs == x.w.regs && y.w.link == Link(true, env.Key(n))
            && |y.w.sent| == n + 1 && y.w.sent[..n] == x.w.sent && Answers(env, y.w.sent[n], seed, env.Key(n))
  {
    var f, e := HandshakeFrame(env, seed, check), EnvIn(key, env, x.m, created);
    HandshakeFrameIs(env, seed, check);
    OneFrame(e, x.w, f, chunks);
    HandshakeFromReset(e, x.w, seed, check, chunks);
    Stream.ChunkingIsIrrelevant(Stream.Start([]), chunks);
    Stream.FeedWhole(Stream.Start([]), f);
    assert Stream.Feed(Stream.Start([]), f).Datas() == [f];
    FramesAreServed(key, env, created, x, [f], chunks);
    OneServed(key, env, created, x, f);
    UnasksIsServed(key, env, created, x, f);
  }

  lemma {:induction false} LastServed(key: Key, env: Env, created: nat -> bool, x: System, prefix: SessionKey,
                                      ms: seq<Client.Message>, n: nat)
    requires |ms| == n + 1
    ensures ServedAll(key, env, created, x, RequestFrames(env, prefix, ms))
            == Served(key, env, created, ServedAll(key, env, created, x, RequestFrames(env, prefix, ms[..n])),
                      RequestFrame(env, prefix, ms[n]))
  {
    var fs := RequestFrames(env, prefix, ms);
    assert fs[..n] == RequestFrames(env, prefix, ms[..n]) && fs[n] == RequestFrame(env, prefix, ms[n]);
  }

  lemma {:induction false} OneMoreSized(key: Key, env: Env, created: nat -> bool, y: System, m: Client.Message)
    requires y.w.link.done && IsSized(m)
    ensures var z := Served(key, env, created, y, RequestFrame(env, y.w.link.key, m));
            z.w.link == y.w.link && z.w.dispatched == y.w.dispatched + [Parsed(m.cmd, m.payload, true)]
  {
    SizedRequestDispatched(EnvIn(key, env, y.m, created), y.w, m);
  }

  lemma {:induction false} SizedAreServed(key: Key, env: Env, created: nat -> bool, x: System,
                                          ms: seq<Client.Message>)
    requires x.w.link.done && forall m | m in ms :: IsSized(m)
    ensures var y := ServedAll(key, env, created, x, RequestFrames(env, x.w.link.key, ms));
            y.w.link == x.w.link && y.w.dispatched == x.w.dispatched + Stripped(ms)
  {
    if ms != [] {
      var n := |ms| - 1;
      assert Stripped(ms) == Stripped(ms[..n]) + [Parsed(ms[n].cmd, ms[n].payload, true)];
      assert ms[n] in ms;
      SizedAreServed(key, env, created, x, ms[..n]);
      var y := ServedAll(key, env, created, x, RequestFrames(env, x.w.link.key, ms[..n]));
      OneMoreSized(key, env, created, y, ms[n]);
      LastServed(key, env, created, x, x.w.link.key, ms, n);
    }
  }

  /** What queries leave behind, and what the client reads of it. */
  ghost predicate Conversed(env: Env, x: System, y: System, qs: seq<Query>) {
    && y.w.link == x.w.link && y.w.regs.num == After(x.w.regs.num, qs) && y.m == x.m.(nums := y.w.regs.num)
    && Conversation(env.cipher, x.w.sent, y.w.sent, AnswersTo(x.w.regs.num, qs))
  }

  lemma {:induction false} OneMoreQuery(key: Key, env: Env, created: nat -> bool, x: System, y: System,
                                        qs: seq<Query>, q: Query)
    requires y.w.link.done && Conversed(env, x, y, qs)
    ensures Conversed(env, x, Served(key, env, created, y, RequestFrame(env, y.w.link.key, Asked(q))), qs + [q])
  {
    var e, f := EnvIn(key, env, y.m, created), RequestFrame(env, y.w.link.key, Asked(q));
    QueryHandled(e, y.w, q);
    UnasksIsServed(key, env, created, y, f);
    assert (qs + [q])[..|qs|] == qs;
    OneMoreAnswer(env.cipher, x.w.sent, y.w.sent, Handle(e, y.w, f).sent, AnswersTo(x.w.regs.num, qs));
  }

  lemma {:induction false} NoQueries(env: Env, x: System)
    requires x.m.nums == x.w.regs.num
    ensures Conversed(env, x, x, [])
  {
    assert x.w.sent[|x.w.sent|..] == [];
  }

  lemma {:induction false} AskedBefore(qs: seq<Query>, n: nat)
    requires |qs| == n + 1
    ensures |AskedAll(qs)| == n + 1 && AskedAll(qs)[..n] == AskedAll(qs[..n]) && AskedAll(qs)[n] == Asked(qs[n])
    ensures qs[..n] + [qs[n]] == qs
  {
  }

  lemma {:induction false} QueriesAreServed(key: Key, env: Env, created: nat -> bool, x: System, qs: seq<Query>)
    requires x.w.link.done && x.m.nums == x.w.regs.num
    ensures Conversed(env, x, ServedAll(key, env, created, x, RequestFrames(env, x.w.link.key, AskedAll(qs))), qs)
  {
    if qs == [] {
      NoQueries(env, x);
    } else {
      var n := |qs| - 1;
      AskedBefore(qs, n);
      QueriesAreServed(key, env, created, x, qs[..n]);
      var y := ServedAll(key, env, created, x, RequestFrames(env, x.w.link.key, AskedAll(qs[..n])));
      LastServed(key, env, created, x, x.w.link.key, AskedAll(qs), n);
      OneMoreQuery(key, env, created, x, y, qs[..n], qs[n]);
    }
  }

  lemma {:induction false} QueriesAreSized(qs: seq<Query>)
    ensures forall m | m in AskedAll(qs) :: IsSized(m)
  {
    forall m | m in AskedAll(qs)
      ensures IsSized(m)
    {
      var i :| 0 <= i < |qs| && AskedAll(qs)[i] == m;
      assert m == Asked(qs[i]);
    }
  }

  lemma {:induction false} ReceivedAllHold(key: Key, env: Env, created: nat -> bool, x: System, chunks: seq<bytes>)
    requires Holds(key, x)
    ensures Holds(key, ReceivedAll(key, env, created, x, chunks))
    decreases |chunks|
  {
    if chunks != [] {
      NextHolds(key, env, created, x, Arrived(chunks[0]));
      ReceivedAllHold(key, env, created, Received(key, env, created, x, chunks[0]), chunks[1..]);
    }
  }

  // ---- On the objects ------------------------------------------------------------------------

  /** Power-up, over what flash holds, as the master key opens it. */
  method PowerUp(env: Env, key: Key, saved: Saved, flashNum: Registers.Nums, flashAlpha: map<int16, bytes>,
                 order: seq<int16>, alphaOrder: seq<int16>, created: nat -> bool, ghost tick: int32)
    returns (radio: Radio)
    requires IsMaster(env.cipher) && Restored(saved).Ok()
    requires Boot.Enumerates(order, flashNum) && Boot.Enumerates(alphaOrder, flashAlpha)
    ensures fresh(radio) && radio.Valid() && Sound(key, radio.front.m)
    ensures radio.System() == Emulator.PoweredUp(key, Restored(saved), radio.store.Model(), tick)
    ensures radio.store.Model()
            == Boot.Booted(Registers.Registers(map[], map[], flashNum, flashAlpha, None), order, alphaOrder,
                           StatsOf(key).filterDep)
  {
    var store := new RegisterStore(flashNum, flashAlpha, order, alphaOrder, StatsOf(key).filterDep);
    var front := new Front(key, saved, store.Model().num, tick);
    radio := new Radio(env, store, front, created);
    BootIsSound(key, Restored(saved), store.Model().num, tick);
  }

  /** Each chunk is one write to the characteristic. */
  method Receive(radio: Radio, chunks: seq<bytes>)
    requires radio.Valid()
    modifies radio, radio.buf, radio.store, radio.store.num, radio.store.alpha
    modifies radio.front, radio.front.panel, radio.front.brews
    ensures radio.Valid()
    ensures radio.System() == ReceivedAll(radio.front.key, radio.env, radio.created, old(radio.System()), chunks)
    ensures old(Sound(radio.front.key, radio.front.m)) ==> Sound(radio.front.key, radio.front.m)
  {
    ghost var key, x := radio.front.key, radio.System();
    NoChunks(key, radio.env, radio.created, x);
    for i := 0 to |chunks|
      invariant radio.Valid() && radio.System() == ReceivedAll(key, radio.env, radio.created, x, chunks[..i])
    {
      OneMoreChunk(key, radio.env, radio.created, x, chunks, i);
      radio.Feed(chunks[i]);
    }
    assert chunks[..|chunks|] == chunks;
    if Sound(key, x.m) {
      ReceivedAllHold(key, radio.env, radio.created, x, chunks);
    }
  }

  /** A fresh connection and a client's handshake, in any chunks: one reply, which the
      client can check, and a session under the key in it. */
  method Connect(radio: Radio, seed: bytes, check: bytes, chunks: seq<bytes>)
    requires radio.Valid() && |seed| == 4 && |check| == 2
    requires Flatten(chunks) == HandshakeFrame(radio.env, seed, check)
    modifies radio, radio.buf, radio.store, radio.store.num, radio.store.alpha
    modifies radio.front, radio.front.panel, radio.front.brews
    ensures radio.Valid() && radio.Pending() == []
    ensures var w, r, key := old(radio.State()), radio.State(), radio.env.Key(|old(radio.sent)|);
            && r.link == Link(true, key) && r.regs == w.regs && radio.front.m == old(radio.front.m)
            && |r.sent| == |w.sent| + 1 && r.sent[..|w.sent|] == w.sent
            && Answers(radio.env, r.sent[|w.sent|], seed, key)
  {
    radio.Reset();
    HandshakeIsServed(radio.front.key, radio.env, radio.created, radio.System(), seed, check, chunks);
    Receive(radio, chunks);
  }

  /** In session, any sized requests in any chunks are dispatched one for one. */
  method Serve(radio: Radio, ms: seq<Client.Message>, chunks: seq<bytes>)
    requires radio.Valid() && radio.Pending() == [] && radio.handshakeDone
    requires forall m | m in ms :: IsSized(m)
    requires Flatten(chunks) == Flatten(RequestFrames(radio.env, radio.keyPrefix, ms))
    modifies radio, radio.buf, radio.store, radio.store.num, radio.store.alpha
    modifies radio.front, radio.front.panel, radio.front.brews
    ensures radio.Valid() && radio.Pending() == []
    ensures radio.State().link == old(radio.State()).link
    ensures radio.dispatched == old(radio.dispatched) + Stripped(ms)
  {
    ghost var key, fs := radio.front.key, RequestFrames(radio.env, radio.keyPrefix, ms);
    SizedRequestsCut(radio.env, radio.keyPrefix, ms, chunks);
    FramesAreServed(key, radio.env, radio.created, radio.System(), fs, chunks);
    SizedAreServed(key, radio.env, radio.created, radio.System(), ms);
    Receive(radio, chunks);
  }

  /** In session, any reads, writes and resets in any chunks: the client reads the
      answers of a plain map, and the store's tables end as that map. */
  method Converse(radio: Radio, qs: seq<Query>, chunks: seq<bytes>)
    requires radio.Valid() && radio.Pending() == [] && radio.handshakeDone
    requires Flatten(chunks) == Flatten(RequestFrames(radio.env, radio.keyPrefix, AskedAll(qs)))
    modifies radio, radio.buf, radio.store, radio.store.num, radio.store.alpha
    modifies radio.front, radio.front.panel, radio.front.brews
    ensures radio.Valid() && radio.Pending() == []
    ensures radio.store.Model().num == After(old(radio.store.Model()).num, qs)
    ensures Conversation(radio.env.cipher, old(radio.sent), radio.sent, AnswersTo(old(radio.store.Model()).num, qs))
  {
    ghost var key, fs := radio.front.key, RequestFrames(radio.env, radio.keyPrefix, AskedAll(qs));
    QueriesAreSized(qs);
    SizedRequestsCut(radio.env, radio.keyPrefix, AskedAll(qs), chunks);
    FramesAreServed(key, radio.env, radio.created, radio.System(), fs, chunks);
    QueriesAreServed(key, radio.env, radio.created, radio.System(), qs);
    Receive(radio, chunks);
  }

  /** A whole visit: handshake, then queries under the key it gave. */
  method Visit(radio: Radio, seed: bytes, check: bytes, hello: seq<bytes>, qs: seq<Query>, chunks: seq<bytes>)
    requires radio.Valid() && |seed| == 4 && |check| == 2
    requires Flatten(hello) == HandshakeFrame(radio.env, seed, check)
    requires Flatten(chunks) == Flatten(RequestFrames(radio.env, radio.env.Key(|radio.sent|), AskedAll(qs)))
    modifies radio, radio.buf, radio.store, radio.store.num, radio.store.alpha
    modifies radio.front, radio.front.panel, radio.front.brews
    ensures radio.Valid() && radio.Pending() == []
    ensures radio.store.Model().num == After(old(radio.store.Model()).num, qs)
    ensures var n := |old(radio.sent)|;
            && n < |radio.sent| && radio.sent[..n] == old(radio.sent)
            && Answers(radio.env, radio.sent[n], seed, radio.env.Key(n))
            && DecodeAll(radio.env.cipher, radio.sent[n + 1..]) == AnswersTo(old(radio.store.Model()).num, qs)
  {
    Connect(radio, seed, check, hello);
    ghost var greeted := radio.sent;
    Converse(radio, qs, chunks);
    assert radio.sent[..|greeted|] == greeted;
    assert radio.sent[..|greeted| - 1] == greeted[..|greeted| - 1];
  }

  /** In session, a brew request in any chunks: it is acknowledged, and a brew begins,
      exactly when mode and flag are right, the machine is idle and fit, has the recipe and
      can make the task; else it is refused, and the machine stays as it is. */
  method OrderBrew(radio: Radio, payload: bytes, chunks: seq<bytes>)
    requires radio.Valid() && radio.Pending() == [] && radio.handshakeDone && |payload| == 18
    requires Sound(radio.front.key, radio.front.m)
    requires Flatten(chunks) == RequestFrame(radio.env, radio.keyPrefix, Client.Message(HE, payload))
    modifies radio, radio.buf, radio.store, radio.store.num, radio.store.alpha
    modifies radio.front, radio.front.panel, radio.front.brews
    ensures radio.Valid() && Sound(radio.front.key, radio.front.m)
    ensures var key, m, n := radio.front.key, old(radio.front.m), |old(radio.actions)|;
            var answered := Answered(key, m, payload[3], false, radio.created(n));
            && radio.front.m == (if RightRequest(key, payload) then answered else m)
            && Replied(radio.env, old(radio.State()), radio.State(),
                       if radio.front.m.brew != m.brew then Acked else Refused)
            && (radio.front.brews.active <==> radio.front.m.brew.Some?)
  {
    ghost var key, x := radio.front.key, radio.System();
    RequestIsServed(key, radio.env, radio.created, x, Client.Message(HE, payload), chunks);
    BrewIsServed(key, radio.env, radio.created, x, payload);
    Receive(radio, chunks);
  }
}
