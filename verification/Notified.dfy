/** What a client in range of a running machine is told: every status a task pushes, one
    notification each, in order, and nothing else. */
module Notified {
  import opened Bytes
  import opened Consumables
  import opened Cycle
  import opened Dispatch
  import opened Emulator
  import opened Families
  import opened Maint
  import opened Registers
  import opened Runs
  import opened Status
  import Alone
  import Client
  import Machine

  // ---- A step of a task ------------------------------------------------------------------

  /** What was added to a record of pushed statuses. */
  function Added(before: seq<Block>, after: seq<Block>): seq<Block> {
    if |before| <= |after| then after[|before|..] else []
  }

  /** The statuses that a step adds to what the task under way has pushed; and the prompt
      of a cycle, which is shown before its record begins. */
  function NewlyPushed(m: Machine.State, r: Machine.State): seq<Block> {
    if m.brew.Some? && r.brew.Some? && m.brew != r.brew then Added(m.brew.value.pushed, r.brew.value.pushed)
    else if m.cycle.Some? && r.cycle.Some? then
      if m.cycle.value.phase == Machine.Prompting && r.cycle.value.phase == Machine.Prompted then [m.panel]
      else Added(m.cycle.value.pushed, r.cycle.value.pushed)
    else []
  }

  /** The notifications since `before`, which a client reads as the given statuses. */
  ghost predicate ReadAs(env: Env, before: seq<bytes>, after: seq<bytes>, blocks: seq<Block>) {
    && |after| == |before| + |blocks| && after[..|before|] == before
    && forall k | 0 <= k < |blocks| ::
         && Client.ParseFrame(env.cipher, after[|before| + k]) == Some(Client.Message(HX, Packed(blocks[k])))
         && Unpacked(Packed(blocks[k])) == blocks[k]
  }

  lemma {:induction false} BrewMovePushes(key: Key, m: Machine.State, step: Machine.Step)
    requires m.brew.Some? && step.BrewMoves?
    ensures NewlyPushed(m, Machine.Next(key, m, step)) == if Pushes(m, step) then [m.panel] else []
  {
  }

  lemma {:induction false} CycleMovePushes(key: Key, m: Machine.State, step: Machine.Step)
    requires m.cycle.Some? && step.CycleMoves?
    ensures NewlyPushed(m, Machine.Next(key, m, step)) == if Pushes(m, step) then [m.panel] else []
  {
  }

  lemma {:induction false} CommandPushesNothing(key: Key, m: Machine.State, step: Machine.Step)
    requires IsCommand(step)
    ensures NewlyPushed(m, Machine.Next(key, m, step)) == []
  {
  }

  lemma {:induction false} StepPushes(key: Key, m: Machine.State, step: Machine.Step)
    ensures NewlyPushed(m, Machine.Next(key, m, step)) == if Pushes(m, step) then [m.panel] else []
  {
    if IsCommand(step) {
      CommandPushesNothing(key, m, step);
    } else if step.BrewMoves? && m.brew.Some? {
      BrewMovePushes(key, m, step);
    } else if step.CycleMoves? && m.cycle.Some? {
      CycleMovePushes(key, m, step);
    }
  }

  /** A step of the machine notifies the client of just what it adds to what was pushed. */
  lemma {:induction false} StepIsTold(key: Key, env: Env, x: System, step: Machine.Step)
    ensures var y := Stepped(key, env, x, step); ReadAs(env, x.w.sent, y.w.sent, NewlyPushed(x.m, y.m))
  {
    StepPushes(key, x.m, step);
    if Pushes(x.m, step) {
      PushIsRead(key, env, x, step);
    }
  }

  // ---- Any run of the machine --------------------------------------------------------------

  /** The machine at work while nothing arrives over the radio. */
  function Worked(key: Key, env: Env, x: System, steps: seq<Machine.Step>): System {
    if steps == [] then x else Stepped(key, env, Worked(key, env, x, steps[..|steps| - 1]), steps[|steps| - 1])
  }

  function Moves(steps: seq<Machine.Step>): seq<Event> {
    seq(|steps|, k requires 0 <= k < |steps| => Moved(steps[k]))
  }

  lemma {:induction false} WorkedIsRun(key: Key, env: Env, created: nat -> bool, x: System, steps: seq<Machine.Step>)
    ensures Worked(key, env, x, steps) == Run(key, env, created, x, Moves(steps))
  {
    if steps != [] {
      var n := |steps| - 1;
      assert Moves(steps)[..n] == Moves(steps[..n]);
      WorkedIsRun(key, env, created, x, steps[..n]);
    }
  }

  /** All that was pushed on the way. */
  function AllPushed(key: Key, env: Env, x: System, steps: seq<Machine.Step>): seq<Block> {
    if steps == [] then []
    else
      var before := steps[..|steps| - 1];
      AllPushed(key, env, x, before) + NewlyPushed(Worked(key, env, x, before).m, Worked(key, env, x, steps).m)
  }

  lemma {:induction false} ReadOn(env: Env, a: seq<bytes>, b: seq<bytes>, c: seq<bytes>, p: seq<Block>, q: seq<Block>)
    requires ReadAs(env, a, b, p) && ReadAs(env, b, c, q)
    ensures ReadAs(env, a, c, p + q)
  {
    forall k | 0 <= k < |p|
      ensures Client.ParseFrame(env.cipher, c[|a| + k]) == Some(Client.Message(HX, Packed(p[k])))
    {
      assert c[..|b|][|a| + k] == b[|a| + k];
    }
    assert c[..|a|] == c[..|b|][..|a|];
  }

  /** Over any run of the machine, with brews and cycles, commands and cancels, the client
      reads what was pushed, one notification for one status, in order. */
  lemma {:induction false} PushesAreRead(key: Key, env: Env, x: System, steps: seq<Machine.Step>)
    ensures ReadAs(env, x.w.sent, Worked(key, env, x, steps).w.sent, AllPushed(key, env, x, steps))
  {
    if steps == [] {
      assert x.w.sent[..|x.w.sent|] == x.w.sent;
    } else {
      var n := |steps| - 1;
      var y := Worked(key, env, x, steps[..n]);
      PushesAreRead(key, env, x, steps[..n]);
      StepIsTold(key, env, y, steps[n]);
      ReadOn(env, x.w.sent, y.w.sent, Worked(key, env, x, steps).w.sent, AllPushed(key, env, x, steps[..n]),
             NewlyPushed(y.m, Worked(key, env, x, steps).m));
    }
  }

  // ---- During a brew -------------------------------------------------------------------------

  /** The brew is under way all along. */
  ghost predicate BrewsOn(key: Key, env: Env, x: System, steps: seq<Machine.Step>) {
    forall n | 0 <= n <= |steps| :: Worked(key, env, x, steps[..n]).m.brew.Some?
  }

  lemma {:induction false} MoveRecords(key: Key, m: Machine.State, b: Machine.BrewRun, more: bool, pct: int16)
    requires m.brew == Some(b) && Machine.BrewNext(key, m, b, more, pct).brew.Some?
    ensures Machine.BrewNext(key, m, b, more, pct).brew.value.pushed
            == b.pushed + if Pushes(m, Machine.BrewMoves(more, pct)) then [m.panel] else []
  {
    assert b.pushed + [] == b.pushed;
  }

  lemma {:induction false} CommandRecordsNothing(key: Key, m: Machine.State, step: Machine.Step)
    requires IsCommand(step) && m.brew.Some? && Machine.Next(key, m, step).brew.Some?
    ensures Machine.Next(key, m, step).brew.value.pushed == m.brew.value.pushed
  {
  }

  lemma {:induction false} RecordGrows(key: Key, m: Machine.State, step: Machine.Step)
    requires m.brew.Some? && m.cycle.None? && Machine.Next(key, m, step).brew.Some?
    ensures var r := Machine.Next(key, m, step); r.brew.value.pushed == m.brew.value.pushed + NewlyPushed(m, r)
  {
    StepPushes(key, m, step);
    if step.BrewMoves? {
      MoveRecords(key, m, m.brew.value, step.more, step.pct);
    } else {
      assert !Pushes(m, step) && m.brew.value.pushed + [] == m.brew.value.pushed;
      if IsCommand(step) {
        CommandRecordsNothing(key, m, step);
      }
    }
  }

  lemma {:induction false} BrewsOnBefore(key: Key, env: Env, x: System, steps: seq<Machine.Step>)
    requires steps != [] && BrewsOn(key, env, x, steps)
    ensures BrewsOn(key, env, x, steps[..|steps| - 1])
    ensures Worked(key, env, x, steps).m.brew.Some? && Worked(key, env, x, steps[..|steps| - 1]).m.brew.Some?
  {
    var before := steps[..|steps| - 1];
    assert steps[..|steps|] == steps;
    forall n | 0 <= n <= |before|
      ensures before[..n] == steps[..n]
    {
    }
  }

  lemma {:induction false} WorkHolds(key: Key, env: Env, x: System, steps: seq<Machine.Step>)
    requires Holds(key, x)
    ensures Holds(key, Worked(key, env, x, steps))
  {
    if steps != [] {
      WorkHolds(key, env, x, steps[..|steps| - 1]);
      SteppedHolds(key, env, Worked(key, env, x, steps[..|steps| - 1]), steps[|steps| - 1]);
    }
  }

  /** As long as a brew is under way, whatever is done at the machine meanwhile, what the
      client has been told since it began is the brew's own record. */
  lemma {:induction false} BrewIsTold(key: Key, env: Env, x: System, steps: seq<Machine.Step>)
    requires Holds(key, x) && BrewsOn(key, env, x, steps) && x.m.brew.Some? && x.m.brew.value.pushed == []
    ensures var y := Worked(key, env, x, steps);
            && y.m.brew.Some? && AllPushed(key, env, x, steps) == y.m.brew.value.pushed
            && ReadAs(env, x.w.sent, y.w.sent, y.m.brew.value.pushed)
  {
    PushesAreRead(key, env, x, steps);
    if steps != [] {
      var n := |steps| - 1;
      BrewsOnBefore(key, env, x, steps);
      BrewIsTold(key, env, x, steps[..n]);
      WorkHolds(key, env, x, steps[..n]);
      RecordGrows(key, Worked(key, env, x, steps[..n]).m, steps[n]);
    }
  }

  // ---- A whole brew --------------------------------------------------------------------------

  /** The status that announces a brew. */
  function Announcement(key: Key, selector: uint8): Block {
    Block(BrewingCode(key), selector, 0, 0, 0)
  }

  /** The status of a machine back at rest: ready, with the prompt that is called for. */
  function AtRest(key: Key, s: Stock): Block {
    Block(ReadyCode(key), 0, 0, Prompt(key, s), 0)
  }

  /** What a tick is to show: the brewing code, that of the stage, and the progress. */
  function TickOf(key: Key, m: Machine.State, step: Machine.Step): seq<Block> {
    if m.brew.Some? && m.brew.value.phase == Machine.Waiting && step.BrewMoves?
       && 0 < m.brew.value.begun <= |m.brew.value.stages|
    then [Block(BrewingCode(key), m.brew.value.stages[m.brew.value.begun - 1].sub, 0, 0, step.pct)]
    else []
  }

  function TicksOf(key: Key, env: Env, x: System, steps: seq<Machine.Step>): seq<Block> {
    if steps == [] then []
    else
      var n := |steps| - 1;
      TicksOf(key, env, x, steps[..n]) + TickOf(key, Worked(key, env, x, steps[..n]).m, steps[n])
  }

  /** Where the panel of a brew left alone stands. */
  ghost predicate PanelShows(key: Key, m: Machine.State, b: Machine.BrewRun) {
    match b.phase
    case Spawned => true
    case Announcing => m.panel == Announcement(key, b.arg.selector)
    case NextStage => m.panel == Block(BrewingCode(key), m.panel.sub, 0, 0, m.panel.progress)
    case Ending => m.panel == Block(ReadyCode(key), 0, 0, m.panel.manip, 0)
    case Settling => m.panel == Block(ReadyCode(key), 0, 0, m.panel.manip, 0)
    case Closing => m.panel == AtRest(key, m.stock)
    case Exiting => m.panel == AtRest(key, m.stock)
    case _ =>
      && 0 < b.begun <= |b.stages|
      && m.panel == Block(BrewingCode(key), b.stages[b.begun - 1].sub, 0, 0, m.panel.progress)
  }

  /** What it has pushed: the announcement, a status for each tick, and the one at rest. */
  ghost predicate HasPushed(key: Key, m: Machine.State, b: Machine.BrewRun, ticks: seq<Block>) {
    var first := [Announcement(key, b.arg.selector)];
    match b.phase
    case Spawned => b.pushed == [] && ticks == []
    case Announcing => b.pushed == [] && ticks == []
    case Ticked => |ticks| > 0 && b.pushed == first + ticks[..|ticks| - 1] && m.panel == ticks[|ticks| - 1]
    case Exiting => b.pushed == first + ticks + [AtRest(key, m.stock)]
    case _ => b.pushed == first + ticks
  }

  ghost predicate Telling(key: Key, selector: uint8, m: Machine.State, ticks: seq<Block>) {
    m.brew.Some? ==>
      m.brew.value.arg.selector == selector && PanelShows(key, m, m.brew.value)
      && HasPushed(key, m, m.brew.value, ticks)
  }

  lemma {:induction false} StartTells(key: Key, selector: uint8, m: Machine.State, b: Machine.BrewRun,
                                      ticks: seq<Block>, more: bool, pct: int16)
    requires Telling(key, selector, m, ticks) && m.brew == Some(b)
    requires b.phase == Machine.Spawned || b.phase == Machine.Announcing
    ensures Telling(key, selector, Machine.BrewNext(key, m, b, more, pct), ticks)
  {
    FamilyIs(key);
    assert [Announcement(key, selector)] + [] == [Announcement(key, selector)];
  }

  lemma {:induction false} EntryTells(key: Key, selector: uint8, m: Machine.State, b: Machine.BrewRun,
                                      ticks: seq<Block>, more: bool, pct: int16)
    requires Telling(key, selector, m, ticks) && m.brew == Some(b)
    requires b.phase == Machine.NextStage || b.phase == Machine.InStage
    ensures Telling(key, selector, Machine.BrewNext(key, m, b, more, pct), ticks)
  {
    FamilyIs(key);
  }

  lemma {:induction false} WaitTells(key: Key, selector: uint8, m: Machine.State, b: Machine.BrewRun,
                                     ticks: seq<Block>, more: bool, pct: int16)
    requires Telling(key, selector, m, ticks) && m.brew == Some(b)
    requires b.phase == Machine.Waiting
    ensures Telling(key, selector, Machine.BrewNext(key, m, b, more, pct),
                    ticks + TickOf(key, m, Machine.BrewMoves(more, pct)))
  {
    FamilyIs(key);
  }

  lemma {:induction false} TickTells(key: Key, selector: uint8, m: Machine.State, b: Machine.BrewRun,
                                     ticks: seq<Block>, more: bool, pct: int16)
    requires Telling(key, selector, m, ticks) && m.brew == Some(b)
    requires b.phase == Machine.Ticked
    ensures Telling(key, selector, Machine.BrewNext(key, m, b, more, pct), ticks)
  {
    FamilyIs(key);
    assert ticks[..|ticks| - 1] + [ticks[|ticks| - 1]] == ticks;
    assert b.pushed + [m.panel] == [Announcement(key, selector)] + ticks;
  }

  lemma {:induction false} EndTells(key: Key, selector: uint8, m: Machine.State, b: Machine.BrewRun,
                                    ticks: seq<Block>, more: bool, pct: int16)
    requires Telling(key, selector, m, ticks) && m.brew == Some(b)
    requires AtEnd(b)
    ensures Telling(key, selector, Machine.BrewNext(key, m, b, more, pct), ticks)
  {
    FamilyIs(key);
  }

  lemma {:induction false} MoveTells(key: Key, selector: uint8, m: Machine.State, ticks: seq<Block>, more: bool,
                                     pct: int16)
    requires Telling(key, selector, m, ticks) && m.brew.Some?
    ensures var step := Machine.BrewMoves(more, pct);
            Telling(key, selector, Machine.Next(key, m, step), ticks + TickOf(key, m, step))
  {
    var b := m.brew.value;
    assert ticks + [] == ticks;
    if b.phase == Machine.Spawned || b.phase == Machine.Announcing {
      StartTells(key, selector, m, b, ticks, more, pct);
    } else if b.phase == Machine.NextStage || b.phase == Machine.InStage {
      EntryTells(key, selector, m, b, ticks, more, pct);
    } else if b.phase == Machine.Waiting {
      WaitTells(key, selector, m, b, ticks, more, pct);
    } else if b.phase == Machine.Ticked {
      TickTells(key, selector, m, b, ticks, more, pct);
    } else {
      EndTells(key, selector, m, b, ticks, more, pct);
    }
  }

  /** What a brew left alone has told, while it runs and after it. */
  ghost predicate Told(key: Key, selector: uint8, m: Machine.State, told: seq<Block>, ticks: seq<Block>) {
    && Telling(key, selector, m, ticks)
    && told == if m.brew.Some? then m.brew.value.pushed
               else [Announcement(key, selector)] + ticks + [AtRest(key, m.stock)]
  }

  lemma {:induction false} MoveIsTold(key: Key, selector: uint8, m: Machine.State, told: seq<Block>, ticks: seq<Block>,
                                      more: bool, pct: int16)
    requires Told(key, selector, m, told, ticks) && m.brew.Some?
    ensures var step := Machine.BrewMoves(more, pct);
            var r := Machine.Next(key, m, step);
            Told(key, selector, r, told + NewlyPushed(m, r), ticks + TickOf(key, m, step))
  {
    var step := Machine.BrewMoves(more, pct);
    MoveTells(key, selector, m, ticks, more, pct);
    StepPushes(key, m, step);
    assert told + [] == told && ticks + [] == ticks;
    if Machine.Next(key, m, step).brew.Some? {
      MoveRecords(key, m, m.brew.value, more, pct);
    }
  }

  lemma {:induction false} OtherIsTold(key: Key, selector: uint8, m: Machine.State, told: seq<Block>,
                                       ticks: seq<Block>, step: Machine.Step)
    requires Told(key, selector, m, told, ticks) && (step.BrewCancelled? || (step.BrewMoves? && m.brew.None?))
    ensures var r := Machine.Next(key, m, step);
            Told(key, selector, r, told + NewlyPushed(m, r), ticks + TickOf(key, m, step))
  {
    StepPushes(key, m, step);
    assert told + [] == told && ticks + [] == ticks;
  }

  lemma {:induction false} FirstTold(key: Key, m0: Machine.State, selector: uint8, twoCups: bool)
    requires RecipeFor(key, selector).Some?
    ensures Told(key, selector, Machine.Ordered(key, m0, selector, twoCups), [], [])
  {
  }

  lemma {:induction false} ToldWithoutNums(key: Key, selector: uint8, m: Machine.State, nums: Nums, tick: int32,
                                           told: seq<Block>, ticks: seq<Block>)
    requires Told(key, selector, m, told, ticks)
    ensures Told(key, selector, m.(nums := nums, localTick := tick), told, ticks)
  {
  }

  lemma {:induction false} OneMoreTold(key: Key, env: Env, selector: uint8, y: System, step: Machine.Step,
                                       told: seq<Block>, ticks: seq<Block>)
    requires Told(key, selector, y.m, told, ticks) && (step.BrewMoves? || step.BrewCancelled?)
    ensures var z := Stepped(key, env, y, step);
            Told(key, selector, z.m, told + NewlyPushed(y.m, z.m), ticks + TickOf(key, y.m, step))
  {
    var r, z := Machine.Next(key, y.m, step), Stepped(key, env, y, step);
    if step.BrewMoves? && y.m.brew.Some? {
      MoveIsTold(key, selector, y.m, told, ticks, step.more, step.pct);
    } else {
      OtherIsTold(key, selector, y.m, told, ticks, step);
    }
    assert NewlyPushed(y.m, z.m) == NewlyPushed(y.m, r);
    ToldWithoutNums(key, selector, r, z.m.nums, z.m.localTick, told + NewlyPushed(y.m, r),
                    ticks + TickOf(key, y.m, step));
  }

  lemma {:induction false} AlwaysTold(key: Key, env: Env, x: System, m0: Machine.State, selector: uint8, twoCups: bool,
                                      steps: seq<Machine.Step>)
    requires RecipeFor(key, selector).Some? && x.m == Machine.Ordered(key, m0, selector, twoCups)
    requires Alone.OnlyBrews(steps)
    ensures Told(key, selector, Worked(key, env, x, steps).m, AllPushed(key, env, x, steps),
                 TicksOf(key, env, x, steps))
  {
    if steps == [] {
      FirstTold(key, m0, selector, twoCups);
    } else {
      var n := |steps| - 1;
      assert steps[n] in steps;
      AlwaysTold(key, env, x, m0, selector, twoCups, steps[..n]);
      OneMoreTold(key, env, selector, Worked(key, env, x, steps[..n]), steps[n], AllPushed(key, env, x, steps[..n]),
                  TicksOf(key, env, x, steps[..n]));
    }
  }

  /** Once a brew left alone is over, the client has read its announcement, a status for
      each tick with the stage's code and the progress of that tick, and last the ready
      status with the prompt the tanks call for: those and no others, one by one. */
  lemma {:induction false} WholeBrewIsTold(key: Key, env: Env, x: System, m0: Machine.State, selector: uint8,
                                           twoCups: bool, steps: seq<Machine.Step>)
    requires RecipeFor(key, selector).Some? && x.m == Machine.Ordered(key, m0, selector, twoCups)
    requires Alone.OnlyBrews(steps) && Worked(key, env, x, steps).m.brew.None?
    ensures var y := Worked(key, env, x, steps);
            ReadAs(env, x.w.sent, y.w.sent,
                   [Block(BrewingCode(key), selector, 0, 0, 0)] + TicksOf(key, env, x, steps)
                   + [Block(ReadyCode(key), 0, 0, Prompt(key, y.m.stock), 0)])
  {
    AlwaysTold(key, env, x, m0, selector, twoCups, steps);
    PushesAreRead(key, env, x, steps);
  }

  // ---- A whole cycle -------------------------------------------------------------------------

  /** The code a cycle shows: that of its kind, or 99 where that is the brewing code. */
  function CycleCode(key: Key, kind: int16): int16 {
    if kind == 11 && key != F8000 then 99 else kind
  }

  /** The prompt a cycle begins with, if it has one, on a panel that shows `b`. */
  function Prompted(b: Block, kind: int16): seq<Block> {
    if FirstPrompt(kind) != 0 then [b.(manip := FirstPrompt(kind))] else []
  }

  /** The panel once that is past. */
  function PastPrompt(b: Block, kind: int16): Block {
    if FirstPrompt(kind) != 0 then b.(manip := 0) else b
  }

  function CycleShows(key: Key, b: Block, kind: int16): Block {
    PastPrompt(b, kind).(process := CycleCode(key, kind), sub := 0)
  }

  /** What a cycle's tick is to show: its code, and the progress. */
  function CycleTickOf(key: Key, b: Block, kind: int16, m: Machine.State, step: Machine.Step): seq<Block> {
    if m.cycle.Some? && m.cycle.value.phase == Machine.CycleWaiting && step.CycleMoves?
    then [CycleShows(key, b, kind).(progress := step.pct)] else []
  }

  function CycleTicksOf(key: Key, env: Env, b: Block, kind: int16, x: System, steps: seq<Machine.Step>): seq<Block> {
    if steps == [] then []
    else
      var n := |steps| - 1;
      CycleTicksOf(key, env, b, kind, x, steps[..n])
      + CycleTickOf(key, b, kind, Worked(key, env, x, steps[..n]).m, steps[n])
  }

  /** Where the panel of a cycle left alone stands. */
  ghost predicate CyclePanelShows(key: Key, b: Block, kind: int16, m: Machine.State, c: Machine.CycleRun) {
    match c.phase
    case CycleSpawned => m.panel == b
    case Prompting => FirstPrompt(kind) != 0 && m.panel == b.(manip := FirstPrompt(kind))
    case Prompted => FirstPrompt(kind) != 0 && m.panel == b.(manip := FirstPrompt(kind))
    case Starting => m.panel == PastPrompt(b, kind)
    case CycleSettling => m.panel == Block(ReadyCode(key), 0, b.info, m.panel.manip, 0)
    case CycleClosing => m.panel == AtRest(key, m.stock).(info := b.info)
    case CycleExiting => m.panel == AtRest(key, m.stock).(info := b.info)
    case _ => m.panel == CycleShows(key, b, kind).(progress := m.panel.progress)
  }

  /** What it has told: the prompt, its code, a status for each tick, and the one at rest. */
  ghost predicate CycleHasTold(key: Key, b: Block, kind: int16, m: Machine.State, c: Machine.CycleRun,
                               told: seq<Block>, ticks: seq<Block>) {
    var first, shown := Prompted(b, kind), Prompted(b, kind) + [CycleShows(key, b, kind)];
    match c.phase
    case CycleSpawned => told == [] && ticks == []
    case Prompting => told == [] && ticks == []
    case Prompted => told == first && ticks == []
    case Starting => told == first && ticks == []
    case Started => told == first && ticks == [] && m.panel == CycleShows(key, b, kind)
    case CycleTicked => |ticks| > 0 && told == shown + ticks[..|ticks| - 1] && m.panel == ticks[|ticks| - 1]
    case CycleExiting => told == shown + ticks + [AtRest(key, m.stock).(info := b.info)]
    case _ => told == shown + ticks
  }

  ghost predicate CycleTold(key: Key, b: Block, kind: int16, m: Machine.State, told: seq<Block>, ticks: seq<Block>) {
    if m.cycle.Some? then
      var c := m.cycle.value;
      c.kind == kind && c.plan.prep == FirstPrompt(kind) && CyclePanelShows(key, b, kind, m, c)
      && CycleHasTold(key, b, kind, m, c, told, ticks)
    else
      told == Prompted(b, kind) + [CycleShows(key, b, kind)] + ticks + [AtRest(key, m.stock).(info := b.info)]
  }

  lemma {:induction false} EmitCodeIs(key: Key, kind: int16)
    requires IsKind(kind)
    ensures EmitCode(key, kind) == CycleCode(key, kind)
  {
    PlansAre(kind);
    EmitCodeIsApart(key, kind);
  }

  lemma {:induction false} CycleStartIsTold(key: Key, b: Block, kind: int16, m: Machine.State, c: Machine.CycleRun,
                                            told: seq<Block>, ticks: seq<Block>, more: bool, pct: int16)
    requires IsKind(kind) && CycleTold(key, b, kind, m, told, ticks) && m.cycle == Some(c)
    requires c.phase == Machine.CycleSpawned || c.phase == Machine.Prompting || c.phase == Machine.Prompted
    ensures var step := Machine.CycleMoves(more, pct);
            CycleTold(key, b, kind, Machine.CycleNext(key, m, c, more, pct),
                      told + if Pushes(m, step) then [m.panel] else [], ticks + CycleTickOf(key, b, kind, m, step))
  {
    FamilyIs(key);
    assert told + [] == told && ticks + [] == ticks;
    assert [] + [m.panel] == [m.panel];
  }

  lemma {:induction false} CycleCodeIsTold(key: Key, b: Block, kind: int16, m: Machine.State, c: Machine.CycleRun,
                                           told: seq<Block>, ticks: seq<Block>, more: bool, pct: int16)
    requires IsKind(kind) && CycleTold(key, b, kind, m, told, ticks) && m.cycle == Some(c)
    requires c.phase == Machine.Starting || c.phase == Machine.Started
    ensures var step := Machine.CycleMoves(more, pct);
            CycleTold(key, b, kind, Machine.CycleNext(key, m, c, more, pct),
                      told + if Pushes(m, step) then [m.panel] else [], ticks + CycleTickOf(key, b, kind, m, step))
  {
    FamilyIs(key);
    assert told + [] == told && ticks + [] == ticks;
    EmitCodeIs(key, kind);
    assert told + [m.panel] == told + [m.panel] + [];
  }

  lemma {:induction false} CycleRunIsTold(key: Key, b: Block, kind: int16, m: Machine.State, c: Machine.CycleRun,
                                          told: seq<Block>, ticks: seq<Block>, more: bool, pct: int16)
    requires IsKind(kind) && CycleTold(key, b, kind, m, told, ticks) && m.cycle == Some(c)
    requires c.phase == Machine.Running || c.phase == Machine.CycleWaiting || c.phase == Machine.Completing
             || c.phase == Machine.CycleEnding
    ensures var step := Machine.CycleMoves(more, pct);
            CycleTold(key, b, kind, Machine.CycleNext(key, m, c, more, pct),
                      told + if Pushes(m, step) then [m.panel] else [], ticks + CycleTickOf(key, b, kind, m, step))
  {
    FamilyIs(key);
    assert told + [] == told && ticks + [] == ticks;
  }

  lemma {:induction false} CycleTickIsTold(key: Key, b: Block, kind: int16, m: Machine.State, c: Machine.CycleRun,
                                           told: seq<Block>, ticks: seq<Block>, more: bool, pct: int16)
    requires IsKind(kind) && CycleTold(key, b, kind, m, told, ticks) && m.cycle == Some(c)
    requires c.phase == Machine.CycleTicked
    ensures var step := Machine.CycleMoves(more, pct);
            CycleTold(key, b, kind, Machine.CycleNext(key, m, c, more, pct),
                      told + if Pushes(m, step) then [m.panel] else [], ticks + CycleTickOf(key, b, kind, m, step))
  {
    FamilyIs(key);
    assert told + [] == told && ticks + [] == ticks;
    assert ticks[..|ticks| - 1] + [ticks[|ticks| - 1]] == ticks;
    assert told + [m.panel] == Prompted(b, kind) + [CycleShows(key, b, kind)] + ticks;
  }

  lemma {:induction false} CycleRestIsTold(key: Key, b: Block, kind: int16, m: Machine.State, c: Machine.CycleRun,
                                           told: seq<Block>, ticks: seq<Block>, more: bool, pct: int16)
    requires IsKind(kind) && CycleTold(key, b, kind, m, told, ticks) && m.cycle == Some(c)
    requires c.phase == Machine.CycleSettling || c.phase == Machine.CycleExiting
    ensures var step := Machine.CycleMoves(more, pct);
            CycleTold(key, b, kind, Machine.CycleNext(key, m, c, more, pct),
                      told + if Pushes(m, step) then [m.panel] else [], ticks + CycleTickOf(key, b, kind, m, step))
  {
    FamilyIs(key);
    assert told + [] == told && ticks + [] == ticks;
  }

  lemma {:induction false} CycleCloseIsTold(key: Key, b: Block, kind: int16, m: Machine.State, c: Machine.CycleRun,
                                            told: seq<Block>, ticks: seq<Block>, more: bool, pct: int16)
    requires IsKind(kind) && CycleTold(key, b, kind, m, told, ticks) && m.cycle == Some(c)
    requires c.phase == Machine.CycleClosing
    ensures var step := Machine.CycleMoves(more, pct);
            CycleTold(key, b, kind, Machine.CycleNext(key, m, c, more, pct),
                      told + if Pushes(m, step) then [m.panel] else [], ticks + CycleTickOf(key, b, kind, m, step))
  {
    FamilyIs(key);
    assert told + [] == told && ticks + [] == ticks;
  }

  lemma {:induction false} CycleMoveIsTold(key: Key, b: Block, kind: int16, m: Machine.State, c: Machine.CycleRun,
                                           told: seq<Block>, ticks: seq<Block>, more: bool, pct: int16)
    requires IsKind(kind) && CycleTold(key, b, kind, m, told, ticks) && m.cycle == Some(c)
    ensures var step := Machine.CycleMoves(more, pct);
            CycleTold(key, b, kind, Machine.CycleNext(key, m, c, more, pct),
                      told + if Pushes(m, step) then [m.panel] else [], ticks + CycleTickOf(key, b, kind, m, step))
  {
    match c.phase
    case CycleSpawned => CycleStartIsTold(key, b, kind, m, c, told, ticks, more, pct);
    case Prompting => CycleStartIsTold(key, b, kind, m, c, told, ticks, more, pct);
    case Prompted => CycleStartIsTold(key, b, kind, m, c, told, ticks, more, pct);
    case Starting => CycleCodeIsTold(key, b, kind, m, c, told, ticks, more, pct);
    case Started => CycleCodeIsTold(key, b, kind, m, c, told, ticks, more, pct);
    case CycleTicked => CycleTickIsTold(key, b, kind, m, c, told, ticks, more, pct);
    case CycleSettling => CycleRestIsTold(key, b, kind, m, c, told, ticks, more, pct);
    case CycleClosing => CycleCloseIsTold(key, b, kind, m, c, told, ticks, more, pct);
    case CycleExiting => CycleRestIsTold(key, b, kind, m, c, told, ticks, more, pct);
    case _ => CycleRunIsTold(key, b, kind, m, c, told, ticks, more, pct);
  }

  lemma {:induction false} NoCycleMoveIsTold(key: Key, b: Block, kind: int16, m: Machine.State, told: seq<Block>,
                                             ticks: seq<Block>, step: Machine.Step)
    requires CycleTold(key, b, kind, m, told, ticks)
    requires step.CycleCancelled? || (step.CycleMoves? && m.cycle.None?)
    ensures CycleTold(key, b, kind, Machine.Next(key, m, step), told + if Pushes(m, step) then [m.panel] else [],
                      ticks + CycleTickOf(key, b, kind, m, step))
  {
    assert told + [] == told && ticks + [] == ticks;
  }

  lemma {:induction false} CycleToldWithoutNums(key: Key, b: Block, kind: int16, m: Machine.State, nums: Nums,
                                                tick: int32, told: seq<Block>, ticks: seq<Block>)
    requires CycleTold(key, b, kind, m, told, ticks)
    ensures CycleTold(key, b, kind, m.(nums := nums, localTick := tick), told, ticks)
  {
  }

  lemma {:induction false} OneMoreCycleTold(key: Key, env: Env, b: Block, kind: int16, y: System, step: Machine.Step,
                                            told: seq<Block>, ticks: seq<Block>)
    requires IsKind(kind) && CycleTold(key, b, kind, y.m, told, ticks) && (step.CycleMoves? || step.CycleCancelled?)
    ensures var z := Stepped(key, env, y, step);
            CycleTold(key, b, kind, z.m, told + NewlyPushed(y.m, z.m), ticks + CycleTickOf(key, b, kind, y.m, step))
  {
    var r, z := Machine.Next(key, y.m, step), Stepped(key, env, y, step);
    StepPushes(key, y.m, step);
    if step.CycleMoves? && y.m.cycle.Some? {
      CycleMoveIsTold(key, b, kind, y.m, y.m.cycle.value, told, ticks, step.more, step.pct);
    } else {
      NoCycleMoveIsTold(key, b, kind, y.m, told, ticks, step);
    }
    assert NewlyPushed(y.m, z.m) == NewlyPushed(y.m, r);
    CycleToldWithoutNums(key, b, kind, r, z.m.nums, z.m.localTick, told + NewlyPushed(y.m, r),
                         ticks + CycleTickOf(key, b, kind, y.m, step));
  }

  lemma {:induction false} FirstCycleTold(key: Key, m0: Machine.State, kind: int16)
    requires m0.brew.None? && m0.cycle.None? && IsKind(kind)
    ensures CycleTold(key, m0.panel, kind, Machine.CycleBegun(m0, kind), [], [])
  {
    PlansAre(kind);
  }

  lemma {:induction false} AlwaysCycleTold(key: Key, env: Env, x: System, m0: Machine.State, kind: int16,
                                           steps: seq<Machine.Step>)
    requires m0.brew.None? && m0.cycle.None? && IsKind(kind) && x.m == Machine.CycleBegun(m0, kind)
    requires Alone.OnlyCycles(steps)
    ensures CycleTold(key, m0.panel, kind, Worked(key, env, x, steps).m, AllPushed(key, env, x, steps),
                      CycleTicksOf(key, env, m0.panel, kind, x, steps))
  {
    if steps == [] {
      FirstCycleTold(key, m0, kind);
    } else {
      var n := |steps| - 1;
      assert steps[n] in steps;
      AlwaysCycleTold(key, env, x, m0, kind, steps[..n]);
      OneMoreCycleTold(key, env, m0.panel, kind, Worked(key, env, x, steps[..n]), steps[n],
                       AllPushed(key, env, x, steps[..n]), CycleTicksOf(key, env, m0.panel, kind, x, steps[..n]));
    }
  }

  /** Once a cycle left alone is over, the client has read the prompt it begins with, if it
      has one, its code, a status for each tick, and last the ready status with the prompt
      the tanks call for: those and no others, one by one. */
  lemma {:induction false} WholeCycleIsTold(key: Key, env: Env, x: System, m0: Machine.State, kind: int16,
                                            steps: seq<Machine.Step>)
    requires m0.brew.None? && m0.cycle.None? && IsKind(kind) && x.m == Machine.CycleBegun(m0, kind)
    requires Alone.OnlyCycles(steps) && Worked(key, env, x, steps).m.cycle.None?
    ensures var y := Worked(key, env, x, steps);
            ReadAs(env, x.w.sent, y.w.sent,
                   Prompted(m0.panel, kind) + [CycleShows(key, m0.panel, kind)]
                   + CycleTicksOf(key, env, m0.panel, kind, x, steps)
                   + [Block(ReadyCode(key), 0, m0.panel.info, Prompt(key, y.m.stock), 0)])
  {
    AlwaysCycleTold(key, env, x, m0, kind, steps);
    PushesAreRead(key, env, x, steps);
  }
}
