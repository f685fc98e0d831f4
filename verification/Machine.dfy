/** The whole machine: commands from its users, and the brew and cycle tasks, step by
    step in any order.  Each command is one step; a task makes one step for each
    group of writes, each push and each look at its cancel flag.  How long a stage
    lasts and what progress it shows is left open, so what holds of every run here
    holds for whatever the clock does. */
module Machine {
  import opened Brew
  import opened Bytes
  import opened Consumables
  import opened Cycle
  import opened Families
  import opened Maint
  import opened Ramp
  import opened Registers
  import opened Status
  import opened Wear

  datatype BrewPhase =
    | Spawned | Announcing | NextStage | InStage | Waiting | Ticked | Ending | Settling | Closing | Exiting

  /** A brew task.  The last four fields record what happened, for the statements
      about runs; nothing depends on them. */
  datatype BrewRun = BrewRun(
    arg: BrewArg,
    stages: seq<Stage>,  // those of its recipe
    cancel: bool,
    phase: BrewPhase,
    begun: nat,          // stages entered
    water0: int,         // the water level when the brew was accepted
    refilled: bool,      // whether that level was set by a user since
    pushed: seq<Block>,  // the statuses it pushed
    late: nat            // progress pushes since it was cancelled
  )

  datatype CyclePhase =
    | CycleSpawned | Prompting | Prompted | Starting | Started | Running | CycleWaiting | CycleTicked
    | Completing | CycleEnding | CycleSettling | CycleClosing | CycleExiting

  /** A cycle task; `pushed` records the statuses it pushed once past its prompt. */
  datatype CycleRun = CycleRun(kind: int16, plan: Plan, cancel: bool, phase: CyclePhase, pushed: seq<Block>)

  /** What happened so far. */
  datatype History = History(
    refill: int,            // the water level a user last set
    since: nat,             // brews begun and completed since then
    completed: seq<uint8>,  // the selectors of all completed brews
    cycled: nat             // completed cycles
  )

  datatype State = State(
    stock: Stock,
    panel: Block,
    nums: Nums,
    localTick: int32,
    brew: Option<BrewRun>,
    cycle: Option<CycleRun>,
    past: History
  )

  datatype Step =
    | LevelSet(tank: nat, value: int)
    | PartSet(part: nat, present: bool)
    | StockReset
    | PromptConfirmed
    | BrewOrdered(processValue: int16, twoCups: bool, created: bool)
    | BrewCancelled
    | CycleOrdered(kind: int16, created: bool)
    | CycleCancelled
    | BrewMoves(more: bool, pct: int16)   // `more`: the stage has time left
    | CycleMoves(more: bool, pct: int16)

  // ---- Commands --------------------------------------------------------------------

  function Restocked(key: Key, m: State, stock: Stock): State {
    m.(stock := stock, panel := Reevaluated(key, stock, m.panel))
  }

  function Refilled(m: State): State {
    m.(past := m.past.(refill := m.stock.Level(WATER) as int, since := 0),
       brew := if m.brew.Some? then Some(m.brew.value.(refilled := true)) else None)
  }

  predicate Accepts(key: Key, m: State, selector: uint8) {
    m.brew.None? && MayStart(key, selector, m.cycle.Some?, m.panel.manip)
  }

  function Ordered(key: Key, m: State, selector: uint8, twoCups: bool): State
    requires RecipeFor(key, selector).Some?
  {
    var arg := BrewArg(selector, RecipeFor(key, selector).value, twoCups);
    var stages := ShapeOf(arg.recipe.category).stages;
    m.(brew := Some(BrewRun(arg, stages, false, Spawned, 0, m.stock.Level(WATER) as int, false, [], 0)))
  }

  function CycleBegun(m: State, kind: int16): State {
    if m.brew.None? && m.cycle.None? && PlanFor(kind).Some?
    then m.(cycle := Some(CycleRun(kind, PlanFor(kind).value, false, CycleSpawned, [])))
    else m
  }

  // ---- The tasks -------------------------------------------------------------------

  function Push(m: State, b: BrewRun, phase: BrewPhase): State {
    m.(brew := Some(b.(pushed := b.pushed + [m.panel], phase := phase)))
  }

  function StageOrEnd(key: Key, m: State, b: BrewRun): State {
    if b.begun < |b.stages| && !b.cancel then
      var sub := b.stages[b.begun].sub;
      m.(stock := Used(m.stock, sub), panel := m.panel.(process := FamilyOf(key).brewing, sub := sub),
         brew := Some(b.(begun := b.begun + 1, phase := InStage)))
    else
      m.(panel := m.panel.(process := FamilyOf(key).ready, sub := 0, progress := 0), brew := Some(b.(phase := Ending)))
  }

  function TickPush(m: State, b: BrewRun): State {
    Push(m, b.(late := b.late + if b.cancel then 1 else 0), InStage)
  }

  function Completed(key: Key, m: State, b: BrewRun): State {
    var r := AfterBrew(m.nums, StatsOf(key), b.arg.selector, m.localTick);
    m.(nums := r.0, localTick := r.1,
       past := m.past.(since := m.past.since + if b.refilled then 0 else 1,
                       completed := m.past.completed + [b.arg.selector]))
  }

  function BrewNext(key: Key, m: State, b: BrewRun, more: bool, pct: int16): State {
    match b.phase
    case Spawned => m.(panel := Announced(key, b.arg.selector), brew := Some(b.(phase := Announcing)))
    case Announcing => Push(m, b, NextStage)
    case NextStage => StageOrEnd(key, m, b)
    case InStage => m.(brew := Some(b.(phase := if more && !b.cancel then Waiting else NextStage)))
    case Waiting => m.(panel := m.panel.(progress := pct), brew := Some(b.(phase := Ticked)))
    case Ticked => TickPush(m, b)
    case Ending => (if b.cancel then m else Completed(key, m, b)).(brew := Some(b.(phase := Settling)))
    case Settling => m.(panel := Reevaluated(key, m.stock, m.panel), brew := Some(b.(phase := Closing)))
    case Closing => Push(m, b, Exiting)
    case Exiting => m.(brew := None)
  }

  function CyclePush(m: State, c: CycleRun, phase: CyclePhase): State {
    m.(cycle := Some(c.(pushed := c.pushed + [m.panel], phase := phase)))
  }

  function To(m: State, c: CycleRun, phase: CyclePhase): State {
    m.(cycle := Some(c.(phase := phase)))
  }

  function CycleCompleted(key: Key, m: State, c: CycleRun): State {
    m.(nums := AfterCycle(m.nums, StatsOf(key), c.plan), stock := Refitted(m.stock, c.kind),
       past := m.past.(cycled := m.past.cycled + 1))
  }

  function CycleNext(key: Key, m: State, c: CycleRun, more: bool, pct: int16): State {
    match c.phase
    case CycleSpawned =>
      if c.plan.prep != NONE then To(m.(panel := m.panel.(manip := c.plan.prep)), c, Prompting) else To(m, c, Starting)
    case Prompting => To(m, c, Prompted)
    case Prompted => To(m.(panel := m.panel.(manip := NONE)), c, Starting)
    case Starting => To(m.(panel := m.panel.(process := EmitCode(key, c.kind), sub := 0)), c, Started)
    case Started => CyclePush(m, c, Running)
    case Running => To(m, c, if more && !c.cancel then CycleWaiting else Completing)
    case CycleWaiting => To(m.(panel := m.panel.(progress := pct)), c, CycleTicked)
    case CycleTicked => CyclePush(m, c, Running)
    case Completing => To(if c.cancel then m else CycleCompleted(key, m, c), c, CycleEnding)
    case CycleEnding =>
      To(m.(panel := m.panel.(process := FamilyOf(key).ready, sub := 0, progress := 0)), c, CycleSettling)
    case CycleSettling => To(m.(panel := Reevaluated(key, m.stock, m.panel)), c, CycleClosing)
    case CycleClosing => CyclePush(m, c, CycleExiting)
    case CycleExiting => m.(cycle := None)
  }

  // ---- Runs ------------------------------------------------------------------------

  function Next(key: Key, m: State, step: Step): State {
    match step
    case LevelSet(tank, value) =>
      var r := Restocked(key, m, m.stock.WithLevel(tank, value));
      if tank == WATER then Refilled(r) else r
    case PartSet(part, present) => Restocked(key, m, m.stock.WithPart(part, present))
    case StockReset => Refilled(Restocked(key, m, FACTORY))
    case PromptConfirmed => m.(panel := Confirmed(key, m.stock, m.panel))
    case BrewOrdered(processValue, twoCups, created) =>
      if Accepts(key, m, AsUint8(processValue)) && created then Ordered(key, m, AsUint8(processValue), twoCups) else m
    case BrewCancelled => if m.brew.Some? then m.(brew := Some(m.brew.value.(cancel := true))) else m
    case CycleOrdered(kind, created) => if created then CycleBegun(m, kind) else m
    case CycleCancelled => if m.cycle.Some? then m.(cycle := Some(m.cycle.value.(cancel := true))) else m
    case BrewMoves(more, pct) => if m.brew.Some? then BrewNext(key, m, m.brew.value, more, pct) else m
    case CycleMoves(more, pct) => if m.cycle.Some? then CycleNext(key, m, m.cycle.value, more, pct) else m
  }

  function Run(key: Key, m: State, steps: seq<Step>): State {
    if steps == [] then m else Next(key, Run(key, m, steps[..|steps| - 1]), steps[|steps| - 1])
  }

  lemma {:induction false} RunConcat(key: Key, m: State, a: seq<Step>, b: seq<Step>)
    ensures Run(key, m, a + b) == Run(key, Run(key, m, a), b)
    decreases |b|
  {
    if b == [] {
      assert a + b == a;
    } else {
      var n := |b| - 1;
      assert (a + b)[..|a + b| - 1] == a + b[..n];
      RunConcat(key, m, a, b[..n]);
    }
  }

  /** Just after power-up. */
  function PoweredUp(key: Key, stock: Stock, nums: Nums, localTick: int32): State {
    State(stock, ColdStarted(key, stock, ReadyBlock(FamilyOf(key).ready)), nums, localTick, None, None,
          History(stock.Level(WATER) as int, 0, [], 0))
  }
}
