/** The whole emulator: radio, register store and machine as one system.  The radio's
    answers are the machine's own, brews and cycles write the store the client reads,
    and what the tasks push goes out over the radio. */
module Emulator {
  import opened Bytes
  import opened Dispatch
  import opened EndToEnd
  import opened EveryRun
  import opened Families
  import opened Framing
  import opened Protocol
  import opened Registers
  import opened Status
  import opened Stream
  import Client
  import Consumables
  import Cycle
  import Machine
  import Maint
  import WearStore

  datatype System = System(w: World, pending: bytes, m: Machine.State)

  datatype Event = Arrived(chunk: bytes) | Disconnected | Moved(step: Machine.Step)

  // ---- Requests, answered by the machine ---------------------------------------------

  /** What the radio side sees of the machine in state `m`; `created` is the outcome of
      the task creation for each action. */
  function EnvIn(key: Key, env: Env, m: Machine.State, created: nat -> bool): Env {
    env.(brewMode := FamilyOf(key).mode,
         status := (n: nat) => Packed(m.panel),
         accepts := (n: nat, selector: uint8) => created(n) && Machine.Accepts(key, m, selector))
  }

  function StepOf(action: Action, created: bool): Machine.Step {
    match action
    case StartBrew(selector) => Machine.BrewOrdered(selector as int16, false, created)
    case CancelBrew => Machine.BrewCancelled
    case ConfirmPrompt => Machine.PromptConfirmed
  }

  /** The steps of actions numbered from `n`. */
  function StepsOf(actions: seq<Action>, n: nat, created: nat -> bool): seq<Machine.Step> {
    seq(|actions|, k requires 0 <= k < |actions| => StepOf(actions[k], created(n + k)))
  }

  /** The machine after the actions a request asked for, the first numbered `n`. */
  function Performed(key: Key, m: Machine.State, actions: seq<Action>, n: nat, created: nat -> bool): Machine.State {
    Machine.Run(key, m, StepsOf(actions, n, created))
  }

  /** One completed frame. */
  function Served(key: Key, env: Env, created: nat -> bool, x: System, f: bytes): System {
    var e := EnvIn(key, env, x.m, created);
    HandleKeepsActions(e, x.w, f);
    var w, n := Handle(e, x.w, f), |x.w.actions|;
    System(w, x.pending, Performed(key, x.m, w.actions[n..], n, created).(nums := w.regs.num))
  }

  lemma {:induction false} IgnoredIsServed(key: Key, env: Env, created: nat -> bool, x: System, f: bytes)
    requires ParseFrame(env.cipher, f, x.w.link).None? && x.m.nums == x.w.regs.num
    ensures Served(key, env, created, x, f) == x
  {
  }

  lemma {:induction false} ParsedIsServed(key: Key, env: Env, created: nat -> bool, x: System, f: bytes, p: Parsed)
    requires ParseFrame(env.cipher, f, x.w.link) == Some(p)
    ensures var v := x.w.(dispatched := x.w.dispatched + [p]);
            var w := Dispatch.Dispatch(EnvIn(key, env, x.m, created), v, p.cmd, p.payload);
            var n := |x.w.actions|;
            && x.w.actions <= w.actions
            && Served(key, env, created, x, f)
               == System(w, x.pending, Performed(key, x.m, w.actions[n..], n, created).(nums := w.regs.num))
  {
    HandleKeepsActions(EnvIn(key, env, x.m, created), x.w, f);
  }

  function ServedAll(key: Key, env: Env, created: nat -> bool, x: System, fs: seq<bytes>): System {
    if fs == [] then x else Served(key, env, created, ServedAll(key, env, created, x, fs[..|fs| - 1]), fs[|fs| - 1])
  }

  function Received(key: Key, env: Env, created: nat -> bool, x: System, chunk: bytes): System {
    var p := Feed(Start(x.pending), chunk);
    ServedAll(key, env, created, x, p.Datas()).(pending := p.pending)
  }

  // ---- Commands at the machine, and its tasks --------------------------------------------

  /** The registers after a step, and the local tick: only the completion of a brew or a
      cycle writes any. */
  function Recorded(key: Key, m: Machine.State, r: Registers, step: Machine.Step): (Registers, int32) {
    match step
    case BrewMoves(_, _) =>
      if m.brew.Some? && m.brew.value.phase == Machine.Ending && !m.brew.value.cancel
      then WearStore.AfterBrewIn(r, StatsOf(key), m.brew.value.arg.selector, m.localTick)
      else (r, m.localTick)
    case CycleMoves(_, _) =>
      if m.cycle.Some? && m.cycle.value.phase == Machine.Completing && !m.cycle.value.cancel
      then (Cycle.AfterCycleIn(r, StatsOf(key), m.cycle.value.plan), m.localTick)
      else (r, m.localTick)
    case _ => (r, m.localTick)
  }

  /** Whether a step pushes the status. */
  predicate Pushes(m: Machine.State, step: Machine.Step) {
    || (step.BrewMoves? && m.brew.Some?
        && (m.brew.value.phase == Machine.Announcing || m.brew.value.phase == Machine.Ticked
            || m.brew.value.phase == Machine.Closing))
    || (step.CycleMoves? && m.cycle.Some?
        && (m.cycle.value.phase == Machine.Prompting || m.cycle.value.phase == Machine.Started
            || m.cycle.value.phase == Machine.CycleTicked || m.cycle.value.phase == Machine.CycleClosing))
  }

  function Stepped(key: Key, env: Env, x: System, step: Machine.Step): System {
    var r := Recorded(key, x.m, x.w.regs, step);
    var m := Machine.Next(key, x.m, step).(nums := r.0.num, localTick := r.1);
    var w := x.w.(regs := r.0);
    System(if Pushes(x.m, step) then Respond(env, w, HX, Packed(m.panel)) else w, x.pending, m)
  }

  // ---- Runs -------------------------------------------------------------------------------

  function Next(key: Key, env: Env, created: nat -> bool, x: System, event: Event): System {
    match event
    case Arrived(chunk) => Received(key, env, created, x, chunk)
    case Disconnected => x.(w := x.w.(link := NO_LINK), pending := [])
    case Moved(step) => Stepped(key, env, x, step)
  }

  function Run(key: Key, env: Env, created: nat -> bool, x: System, events: seq<Event>): System {
    if events == [] then x
    else Next(key, env, created, Run(key, env, created, x, events[..|events| - 1]), events[|events| - 1])
  }

  /** Just after power-up, over registers `r`. */
  function PoweredUp(key: Key, stock: Consumables.Stock, r: Registers, tick: int32): System {
    System(World(NO_LINK, r, [], [], []), [], Machine.PoweredUp(key, stock, r.num, tick))
  }

  /** The machine is sound, and its registers are those the client reads. */
  ghost predicate Holds(key: Key, x: System) {
    Sound(key, x.m) && x.m.nums == x.w.regs.num && PendingOk(x.pending)
  }

  lemma {:induction false} SoundWithoutNums(key: Key, m: Machine.State, nums: Nums, tick: int32)
    requires Sound(key, m)
    ensures Sound(key, m.(nums := nums, localTick := tick))
  {
  }

  lemma {:induction false} ServedHolds(key: Key, env: Env, created: nat -> bool, x: System, f: bytes)
    requires Holds(key, x)
    ensures Holds(key, Served(key, env, created, x, f))
  {
    var e, n := EnvIn(key, env, x.m, created), |x.w.actions|;
    HandleKeepsActions(e, x.w, f);
    var w := Handle(e, x.w, f);
    RunKeepsSound(key, x.m, StepsOf(w.actions[n..], n, created));
    var m := Performed(key, x.m, w.actions[n..], n, created);
    SoundWithoutNums(key, m, w.regs.num, m.localTick);
  }

  lemma {:induction false} ServedAllHold(key: Key, env: Env, created: nat -> bool, x: System, fs: seq<bytes>)
    requires Holds(key, x)
    ensures Holds(key, ServedAll(key, env, created, x, fs))
  {
    if fs != [] {
      ServedAllHold(key, env, created, x, fs[..|fs| - 1]);
      ServedHolds(key, env, created, ServedAll(key, env, created, x, fs[..|fs| - 1]), fs[|fs| - 1]);
    }
  }

  lemma {:induction false} RespondKeepsRegs(env: Env, w: World, cmd: bytes, payload: bytes)
    ensures Respond(env, w, cmd, payload).regs == w.regs
  {
  }

  lemma {:induction false} SteppedHolds(key: Key, env: Env, x: System, step: Machine.Step)
    requires Holds(key, x)
    ensures Holds(key, Stepped(key, env, x, step))
  {
    StepKeepsSound(key, x.m, step);
    var r := Recorded(key, x.m, x.w.regs, step);
    SoundWithoutNums(key, Machine.Next(key, x.m, step), r.0.num, r.1);
    RespondKeepsRegs(env, x.w.(regs := r.0), HX, Packed(Stepped(key, env, x, step).m.panel));
  }

  lemma {:induction false} NextHolds(key: Key, env: Env, created: nat -> bool, x: System, event: Event)
    requires Holds(key, x)
    ensures Holds(key, Next(key, env, created, x, event))
  {
    match event
    case Arrived(chunk) =>
      StaysInBounds(Start(x.pending), chunk);
      ServedAllHold(key, env, created, x, Feed(Start(x.pending), chunk).Datas());
    case Disconnected =>
    case Moved(step) => SteppedHolds(key, env, x, step);
  }

  /** In every run of the whole, the machine is sound: whatever arrives over the radio
      and whatever is done at the machine, all that holds of its runs holds. */
  lemma {:induction false} AlwaysHolds(key: Key, env: Env, created: nat -> bool, stock: Consumables.Stock, r: Registers,
                                       tick: int32, events: seq<Event>)
    requires stock.Ok()
    ensures Holds(key, Run(key, env, created, PoweredUp(key, stock, r, tick), events))
  {
    if events == [] {
      BootIsSound(key, stock, r.num, tick);
    } else {
      var n := |events| - 1;
      AlwaysHolds(key, env, created, stock, r, tick, events[..n]);
      NextHolds(key, env, created, Run(key, env, created, PoweredUp(key, stock, r, tick), events[..n]), events[n]);
    }
  }

  // ---- Requests in any chunks --------------------------------------------------------------

  lemma {:induction false} ServedAllConcat(key: Key, env: Env, created: nat -> bool, x: System, a: seq<bytes>,
                                           b: seq<bytes>)
    ensures ServedAll(key, env, created, x, a + b)
            == ServedAll(key, env, created, ServedAll(key, env, created, x, a), b)
    decreases |b|
  {
    if b == [] {
      assert a + b == a;
    } else {
      var n := |b| - 1;
      assert (a + b)[..|a + b| - 1] == a + b[..n] && (a + b)[|a + b| - 1] == b[n];
      ServedAllConcat(key, env, created, x, a, b[..n]);
    }
  }

  lemma {:induction false} ServedAllPending(key: Key, env: Env, created: nat -> bool, x: System, fs: seq<bytes>,
                                            pending: bytes)
    ensures ServedAll(key, env, created, x.(pending := pending), fs)
            == ServedAll(key, env, created, x, fs).(pending := pending)
  {
    if fs != [] {
      ServedAllPending(key, env, created, x, fs[..|fs| - 1], pending);
    }
  }

  function ReceivedAll(key: Key, env: Env, created: nat -> bool, x: System, chunks: seq<bytes>): System
    decreases |chunks|
  {
    if chunks == [] then x else ReceivedAll(key, env, created, Received(key, env, created, x, chunks[0]), chunks[1..])
  }

  /** Two chunks are as one. */
  lemma {:induction false} ChunksMerge(key: Key, env: Env, created: nat -> bool, x: System, a: bytes, b: bytes)
    ensures Received(key, env, created, Received(key, env, created, x, a), b) == Received(key, env, created, x, a + b)
  {
    var p := Feed(Start(x.pending), a);
    var q := Feed(Start(p.pending), b);
    FeedConcat(Start(x.pending), a, b);
    FeedResumes(p, b);
    ServedAllConcat(key, env, created, x, p.Datas(), q.Datas());
    ServedAllPending(key, env, created, ServedAll(key, env, created, x, p.Datas()), q.Datas(), p.pending);
  }

  lemma {:induction false} NothingReceived(key: Key, env: Env, created: nat -> bool, x: System)
    ensures Received(key, env, created, x, []) == x
  {
  }

  lemma {:induction false} AllChunksMerge(key: Key, env: Env, created: nat -> bool, x: System, chunks: seq<bytes>)
    ensures ReceivedAll(key, env, created, x, chunks) == Received(key, env, created, x, Flatten(chunks))
    decreases |chunks|
  {
    if chunks == [] {
      NothingReceived(key, env, created, x);
    } else {
      AllChunksMerge(key, env, created, Received(key, env, created, x, chunks[0]), chunks[1..]);
      ChunksMerge(key, env, created, x, chunks[0], Flatten(chunks[1..]));
    }
  }

  lemma {:induction false} OneServed(key: Key, env: Env, created: nat -> bool, x: System, f: bytes)
    ensures ServedAll(key, env, created, x, [f]) == Served(key, env, created, x, f)
  {
    assert [f][..0] == [];
  }

  /** A sized request in any chunks, to an idle parser, is served as one frame. */
  lemma {:induction false} RequestIsServed(key: Key, env: Env, created: nat -> bool, x: System, m: Client.Message,
                                           chunks: seq<bytes>)
    requires x.w.link.done && x.pending == [] && IsSized(m)
    requires Flatten(chunks) == RequestFrame(env, x.w.link.key, m)
    ensures ReceivedAll(key, env, created, x, chunks)
            == Served(key, env, created, x, RequestFrame(env, x.w.link.key, m))
  {
    var f := RequestFrame(env, x.w.link.key, m);
    AllChunksMerge(key, env, created, x, chunks);
    SizedIsWhole(env, x.w.link.key, m);
    FeedWhole(Start([]), f);
    assert Feed(Start([]), f).Datas() == [f];
    OneServed(key, env, created, x, f);
  }

  // ---- What the client brings about --------------------------------------------------------

  lemma {:induction false} NoAction(key: Key, m: Machine.State, n: nat, created: nat -> bool)
    ensures Performed(key, m, [], n, created) == m
  {
  }

  lemma {:induction false} OneAction(key: Key, m: Machine.State, a: Action, n: nat, created: nat -> bool)
    ensures Performed(key, m, [a], n, created) == Machine.Next(key, m, StepOf(a, created(n)))
  {
    var step := StepOf(a, created(n));
    assert StepsOf([a], n, created) == [step];
    assert [step][..0] == [] && Machine.Run(key, m, [step][..0]) == m;
  }

  lemma {:induction false} AnswerShows(key: Key, m: Machine.State, selector: uint8, created: bool)
    requires Sound(key, m)
    ensures (Answered(key, m, selector, false, created).brew != m.brew)
            <==> created && Machine.Accepts(key, m, selector)
    ensures Answered(key, m, selector, false, created).nums == m.nums
    ensures Answered(key, m, selector, false, created).brew == m.brew
            ==> Answered(key, m, selector, false, created) == m
  {
    FitMeansAccepted(key, m, selector);
  }

  lemma {:induction false} OrderIsPerformed(key: Key, m: Machine.State, selector: uint8, n: nat, created: nat -> bool)
    requires Sound(key, m)
    ensures Performed(key, m, [StartBrew(selector)], n, created) == Answered(key, m, selector, false, created(n))
  {
    var step := Machine.BrewOrdered(selector as int16, false, created(n));
    assert StepOf(StartBrew(selector), created(n)) == step && AsUint8(step.processValue) == selector;
    OneAction(key, m, StartBrew(selector), n, created);
    OrderIsAnswered(key, m, step);
  }

  lemma {:induction false} BrewLeavesRegs(env: Env, w: World, payload: bytes)
    requires w.link.done
    ensures Handle(env, w, RequestFrame(env, w.link.key, Client.Message(HE, payload))).regs == w.regs
  {
    BrewIsHandled(env, w, payload);
  }

  /** A brew request as an app puts it: the mode byte is 4 for the 8000 and 11 for every
      other family, and the flag is 1, or 0 for a chilled brew. */
  predicate RightRequest(key: Key, payload: bytes)
    requires |payload| == 18
  {
    payload[1] == (if key == F8000 then 4 else 11) && (payload[5] == 0 || payload[5] == 1)
  }

  lemma {:induction false} RightRequestIs(key: Key, payload: bytes)
    requires |payload| == 18
    ensures RightBrew(FamilyOf(key).mode, payload) <==> RightRequest(key, payload)
  {
    FamilyIs(key);
  }

  lemma {:induction false} BrewIsServed(key: Key, env: Env, created: nat -> bool, x: System, payload: bytes)
    requires Holds(key, x) && x.w.link.done && |payload| == 18
    ensures var y := Served(key, env, created, x, RequestFrame(env, x.w.link.key, Client.Message(HE, payload)));
            var answered := Answered(key, x.m, payload[3], false, created(|x.w.actions|));
            && y.m == (if RightRequest(key, payload) then answered else x.m)
            && Replied(env, x.w, y.w, if y.m.brew != x.m.brew then Acked else Refused)
  {
    var e, n := EnvIn(key, env, x.m, created), |x.w.actions|;
    var f := RequestFrame(env, x.w.link.key, Client.Message(HE, payload));
    var w := Handle(e, x.w, f);
    RightRequestIs(key, payload);
    BrewAnswerIff(e, x.w, payload);
    BrewLeavesRegs(e, x.w, payload);
    AnswerShows(key, x.m, payload[3], created(n));
    if RightRequest(key, payload) {
      assert w.actions[n..] == [StartBrew(payload[3])];
      OrderIsPerformed(key, x.m, payload[3], n, created);
    } else {
      assert w.actions[n..] == [];
    }
  }

  /** A brew request is acknowledged, and a brew begins, exactly when its mode and flag
      are right and the machine is idle and fit and has the recipe; otherwise it is
      refused and the machine stays as it is.  In every run, in any chunks. */
  lemma {:induction false} BrewOnRequestIff(key: Key, env: Env, created: nat -> bool, stock: Consumables.Stock,
                                            r: Registers, tick: int32, events: seq<Event>,
                                            payload: bytes, chunks: seq<bytes>)
    requires stock.Ok() && |payload| == 18
    requires var x := Run(key, env, created, PoweredUp(key, stock, r, tick), events);
             x.w.link.done && x.pending == []
             && Flatten(chunks) == RequestFrame(env, x.w.link.key, Client.Message(HE, payload))
    ensures var x := Run(key, env, created, PoweredUp(key, stock, r, tick), events);
            var y := ReceivedAll(key, env, created, x, chunks);
            var answered := Answered(key, x.m, payload[3], false, created(|x.w.actions|));
            && y.m == (if RightRequest(key, payload) then answered else x.m)
            && Replied(env, x.w, y.w, if y.m.brew != x.m.brew then Acked else Refused)
  {
    var x := Run(key, env, created, PoweredUp(key, stock, r, tick), events);
    AlwaysHolds(key, env, created, stock, r, tick, events);
    RequestIsServed(key, env, created, x, Client.Message(HE, payload), chunks);
    BrewIsServed(key, env, created, x, payload);
  }

  // ---- Status, confirm and cancel -------------------------------------------------------------

  /** One more notification, which the client reads as the status block `b`. */
  ghost predicate ShowsStatus(env: Env, before: World, after: World, b: Block) {
    && |after.sent| == |before.sent| + 1 && after.sent[..|before.sent|] == before.sent
    && Client.ParseFrame(env.cipher, after.sent[|before.sent|]) == Some(Client.Message(HX, Packed(b)))
    && Unpacked(Packed(b)) == b
  }

  lemma {:induction false} StatusIsRead(env: Env, w: World, b: Block)
    ensures var r := Respond(env, w, HX, Packed(b)); r == w.(sent := r.sent) && ShowsStatus(env, w, r, b)
  {
    ResponseIsRead(env, w, HX, Packed(b));
    PackedIsRead(b);
  }

  lemma {:induction false} StatusIsDispatched(env: Env, w: World, payload: bytes)
    ensures Dispatch.Dispatch(env, w, HX, payload) == Respond(env, w, HX, env.status(|w.sent|))
  {
    assert HX[1] == 0x58 && HU[1] == 0x55;
  }

  lemma {:induction false} CancelIsDispatched(env: Env, w: World, payload: bytes)
    ensures Dispatch.Dispatch(env, w, HZ, payload) == Act(env, w, CancelBrew)
  {
    assert HZ != HU && HZ != HX && HZ != HV && HZ != HI && HZ != HL && HZ != HS && HZ != HP && HZ != HC
           && HZ != HR && HZ != HA && HZ != HW && HZ != HB && HZ != HE;
  }

  lemma {:induction false} ConfirmIsDispatched(env: Env, w: World, payload: bytes)
    ensures Dispatch.Dispatch(env, w, HY, payload) == Act(env, w, ConfirmPrompt)
  {
    assert HY != HU && HY != HX && HY != HV && HY != HI && HY != HL && HY != HS && HY != HP && HY != HC
           && HY != HR && HY != HA && HY != HW && HY != HB && HY != HE && HY != HZ;
  }

  /** Asked for the status, in any chunks, the machine shows its own, and stays as it is. */
  lemma {:induction false} StatusOnRequest(key: Key, env: Env, created: nat -> bool, x: System, chunks: seq<bytes>)
    requires Holds(key, x) && x.w.link.done && x.pending == []
    requires Flatten(chunks) == RequestFrame(env, x.w.link.key, Client.Message(HX, []))
    ensures var y := ReceivedAll(key, env, created, x, chunks); y.m == x.m && ShowsStatus(env, x.w, y.w, x.m.panel)
  {
    var m := Client.Message(HX, []);
    RequestIsServed(key, env, created, x, m, chunks);
    var e := EnvIn(key, env, x.m, created);
    RequestParses(e, x.w.link, m);
    var v := x.w.(dispatched := x.w.dispatched + [Parsed(HX, [], true)]);
    StatusIsDispatched(e, v, []);
    StatusIsRead(e, v, x.m.panel);
    var w := Handle(e, x.w, RequestFrame(env, x.w.link.key, m));
    assert w.actions[|x.w.actions|..] == [];
  }

  /** A request that does no more than ask the machine for an action. */
  ghost predicate AsksFor(env: Env, w: World, m: Client.Message, action: Action) {
    Handle(env, w, RequestFrame(env, w.link.key, m))
    == Act(env, w.(dispatched := w.dispatched + [Parsed(m.cmd, m.payload, true)]), action)
  }

  lemma {:induction false} CancelAsks(env: Env, w: World, payload: bytes)
    requires w.link.done
    ensures AsksFor(env, w, Client.Message(HZ, payload), CancelBrew)
  {
    RequestParses(env, w.link, Client.Message(HZ, payload));
    CancelIsDispatched(env, w.(dispatched := w.dispatched + [Parsed(HZ, payload, true)]), payload);
  }

  lemma {:induction false} ConfirmAsks(env: Env, w: World, payload: bytes)
    requires w.link.done
    ensures AsksFor(env, w, Client.Message(HY, payload), ConfirmPrompt)
  {
    RequestParses(env, w.link, Client.Message(HY, payload));
    ConfirmIsDispatched(env, w.(dispatched := w.dispatched + [Parsed(HY, payload, true)]), payload);
  }

  lemma {:induction false} ActIsServed(key: Key, env: Env, created: nat -> bool, x: System, m: Client.Message,
                                       action: Action)
    requires Holds(key, x) && AsksFor(EnvIn(key, env, x.m, created), x.w, m, action)
    ensures var y := Served(key, env, created, x, RequestFrame(env, x.w.link.key, m));
            && Replied(env, x.w, y.w, Acked)
            && y.m == Machine.Next(key, x.m, StepOf(action, created(|x.w.actions|))).(nums := x.m.nums)
  {
    var e, n := EnvIn(key, env, x.m, created), |x.w.actions|;
    var v := x.w.(dispatched := x.w.dispatched + [Parsed(m.cmd, m.payload, true)]);
    AckIsRead(e, v.(actions := v.actions + [action]));
    assert Act(e, v, action).actions[n..] == [action];
    OneAction(key, x.m, action, n, created);
  }

  /** The brew under way, if there is one, with a cancel pending. */
  function CancelPending(m: Machine.State): Machine.State {
    if m.brew.Some? then m.(brew := Some(m.brew.value.(cancel := true))) else m
  }

  lemma {:induction false} CancelStep(key: Key, m: Machine.State)
    ensures Machine.Next(key, m, Machine.BrewCancelled).(nums := m.nums) == CancelPending(m)
  {
  }

  /** Asked to cancel, the machine cancels the brew under way, if there is one. */
  lemma {:induction false} CancelOnRequest(key: Key, env: Env, created: nat -> bool, x: System, payload: bytes,
                                           chunks: seq<bytes>)
    requires Holds(key, x) && x.w.link.done && x.pending == [] && |payload| == 4
    requires Flatten(chunks) == RequestFrame(env, x.w.link.key, Client.Message(HZ, payload))
    ensures var y := ReceivedAll(key, env, created, x, chunks);
            && Replied(env, x.w, y.w, Acked)
            && y.m == CancelPending(x.m)
  {
    var m := Client.Message(HZ, payload);
    RequestIsServed(key, env, created, x, m, chunks);
    CancelAsks(EnvIn(key, env, x.m, created), x.w, payload);
    ActIsServed(key, env, created, x, m, CancelBrew);
    CancelStep(key, x.m);
  }

  /** The machine with its prompt, if there is one, brought up to date. */
  function Reprompted(key: Key, m: Machine.State): Machine.State {
    if m.panel.manip == NONE then m else m.(panel := m.panel.(manip := Maint.Prompt(key, m.stock)))
  }

  lemma {:induction false} ConfirmStep(key: Key, m: Machine.State)
    ensures Machine.Next(key, m, Machine.PromptConfirmed).(nums := m.nums) == Reprompted(key, m)
  {
  }

  lemma {:induction false} IdleConfirm(key: Key, m: Machine.State)
    requires Sound(key, m) && m.brew.None? && m.cycle.None?
    ensures Reprompted(key, m).panel.manip == Maint.Prompt(key, m.stock)
  {
    Maint.ConfirmSettles(key, m.stock, m.panel);
  }

  lemma {:induction false} ConfirmIsServed(key: Key, env: Env, created: nat -> bool, x: System, payload: bytes)
    requires Holds(key, x) && x.w.link.done
    ensures var y := Served(key, env, created, x, RequestFrame(env, x.w.link.key, Client.Message(HY, payload)));
            Replied(env, x.w, y.w, Acked) && y.m == Reprompted(key, x.m)
  {
    ConfirmAsks(EnvIn(key, env, x.m, created), x.w, payload);
    ActIsServed(key, env, created, x, Client.Message(HY, payload), ConfirmPrompt);
    ConfirmStep(key, x.m);
  }

  /** Asked to confirm a prompt, the machine shows the one its parts and tanks call for, if
      any, whether a task is under way or not; with no prompt up, nothing changes, and an idle
      machine then needs none. */
  lemma {:induction false} ConfirmOnRequest(key: Key, env: Env, created: nat -> bool, x: System, payload: bytes,
                                            chunks: seq<bytes>)
    requires Holds(key, x) && x.w.link.done && x.pending == [] && |payload| == 4
    requires Flatten(chunks) == RequestFrame(env, x.w.link.key, Client.Message(HY, payload))
    ensures var y := ReceivedAll(key, env, created, x, chunks);
            && Replied(env, x.w, y.w, Acked)
            && y.m == Reprompted(key, x.m)
            && (x.m.brew.None? && x.m.cycle.None? ==> y.m.panel.manip == Maint.Prompt(key, x.m.stock))
  {
    RequestIsServed(key, env, created, x, Client.Message(HY, payload), chunks);
    ConfirmIsServed(key, env, created, x, payload);
    if x.m.brew.None? && x.m.cycle.None? {
      IdleConfirm(key, x.m);
    }
  }

  lemma {:induction false} PushShowsPanel(key: Key, m: Machine.State, step: Machine.Step)
    requires Pushes(m, step)
    ensures Machine.Next(key, m, step).panel == m.panel
  {
  }

  /** What a task pushes reaches the client as the status of that moment. */
  lemma {:induction false} PushIsRead(key: Key, env: Env, x: System, step: Machine.Step)
    requires Pushes(x.m, step)
    ensures var y := Stepped(key, env, x, step); ShowsStatus(env, x.w, y.w, x.m.panel)
  {
    PushShowsPanel(key, x.m, step);
    StatusIsRead(env, x.w.(regs := Recorded(key, x.m, x.w.regs, step).0), x.m.panel);
  }
}
