/** What holds of every run of the machine. */
module Runs {
  import opened Brew
  import opened Bytes
  import opened Consumables
  import opened Cycle
  import opened Families
  import opened Machine
  import opened Maint
  import opened Ramp
  import opened Registers
  import opened Status
  import opened Wear

  // ---- Who shows which process code ------------------------------------------------

  predicate AtEnd(b: BrewRun) {
    b.phase == Ending || b.phase == Settling || b.phase == Closing || b.phase == Exiting
  }

  predicate ShowsItself(b: BrewRun) {
    b.phase != Spawned && !AtEnd(b)
  }

  predicate CycleShowsItself(c: CycleRun) {
    c.phase == Started || c.phase == Running || c.phase == CycleWaiting || c.phase == CycleTicked
    || c.phase == Completing || c.phase == CycleEnding
  }

  predicate CycleAtEnd(c: CycleRun) {
    c.phase == CycleSettling || c.phase == CycleClosing || c.phase == CycleExiting
  }

  /** Never a brew and a cycle at once; the process shown is that of the task, if one is
      past its announcement, or else ready. */
  ghost predicate InTurn(key: Key, m: State) {
    && m.stock.Ok()
    && !(m.brew.Some? && m.cycle.Some?)
    && (m.brew.Some? ==>
          var b := m.brew.value;
          && Brews(key, b.arg.selector) && b.begun <= |b.stages|
          && (AtEnd(b) && !b.cancel ==> b.begun == |b.stages|)
          && m.panel.process == (if ShowsItself(b) then FamilyOf(key).brewing else FamilyOf(key).ready)
          && (AtEnd(b) ==> m.panel.sub == 0 && m.panel.progress == 0))
    && (m.cycle.Some? ==>
          var c := m.cycle.value;
          && m.panel.process == (if CycleShowsItself(c) then EmitCode(key, c.kind) else FamilyOf(key).ready)
          && (CycleAtEnd(c) ==> m.panel.sub == 0 && m.panel.progress == 0))
    && (m.brew.None? && m.cycle.None? ==> m.panel.process == FamilyOf(key).ready)
  }

  lemma {:induction false} EntryKeepsInTurn(key: Key, m: State, b: BrewRun)
    requires InTurn(key, m) && m.brew == Some(b) && b.phase == NextStage
    ensures InTurn(key, StageOrEnd(key, m, b))
  {
    if b.begun < |b.stages| && !b.cancel {
      UsedLevels(m.stock, b.stages[b.begun].sub);
    }
  }

  lemma {:induction false} BrewKeepsInTurn(key: Key, m: State, b: BrewRun, more: bool, pct: int16)
    requires InTurn(key, m) && m.brew == Some(b)
    ensures InTurn(key, BrewNext(key, m, b, more, pct))
  {
    if b.phase == NextStage {
      EntryKeepsInTurn(key, m, b);
    }
  }

  lemma {:induction false} CycleEndKeepsInTurn(key: Key, m: State, c: CycleRun, more: bool, pct: int16)
    requires InTurn(key, m) && m.cycle == Some(c) && (CycleAtEnd(c) || c.phase == CycleEnding)
    ensures InTurn(key, CycleNext(key, m, c, more, pct))
  {
  }

  lemma {:induction false} CycleStartKeepsInTurn(key: Key, m: State, c: CycleRun, more: bool, pct: int16)
    requires InTurn(key, m) && m.cycle == Some(c) && !CycleAtEnd(c) && c.phase != CycleEnding && c.phase != Completing
    ensures InTurn(key, CycleNext(key, m, c, more, pct))
  {
  }

  lemma {:induction false} CompletingKeepsInTurn(key: Key, m: State, c: CycleRun, more: bool, pct: int16)
    requires InTurn(key, m) && m.cycle == Some(c) && c.phase == Completing
    ensures InTurn(key, CycleNext(key, m, c, more, pct))
  {
    StaysOk(m.stock, FILTER, 100, 0, true);
    StaysOk(m.stock, FILTER, 0, 0, true);
  }

  lemma {:induction false} CycleKeepsInTurn(key: Key, m: State, c: CycleRun, more: bool, pct: int16)
    requires InTurn(key, m) && m.cycle == Some(c)
    ensures InTurn(key, CycleNext(key, m, c, more, pct))
  {
    if c.phase == Completing {
      CompletingKeepsInTurn(key, m, c, more, pct);
    } else if CycleAtEnd(c) || c.phase == CycleEnding {
      CycleEndKeepsInTurn(key, m, c, more, pct);
    } else {
      CycleStartKeepsInTurn(key, m, c, more, pct);
    }
  }

  lemma {:induction false} OrderKeepsInTurn(key: Key, m: State, selector: uint8, twoCups: bool)
    requires InTurn(key, m) && Accepts(key, m, selector)
    ensures InTurn(key, Ordered(key, m, selector, twoCups))
  {
    BrewsIff(key, selector);
  }

  lemma {:induction false} RestockKeepsInTurn(key: Key, m: State, stock: Stock)
    requires InTurn(key, m) && stock.Ok()
    ensures InTurn(key, Restocked(key, m, stock)) && InTurn(key, Refilled(Restocked(key, m, stock)))
  {
  }

  lemma {:induction false} BeginKeepsInTurn(key: Key, m: State, kind: int16)
    requires InTurn(key, m)
    ensures InTurn(key, CycleBegun(m, kind))
  {
  }

  predicate IsCommand(step: Step) {
    !step.BrewMoves? && !step.CycleMoves?
  }

  lemma {:induction false} CommandKeepsInTurn(key: Key, m: State, step: Step)
    requires InTurn(key, m) && IsCommand(step)
    ensures InTurn(key, Next(key, m, step))
  {
    match step
    case LevelSet(tank, value) =>
      StaysOk(m.stock, tank, value, 0, true);
      RestockKeepsInTurn(key, m, m.stock.WithLevel(tank, value));
    case PartSet(part, present) =>
      StaysOk(m.stock, 0, 0, part, present);
      RestockKeepsInTurn(key, m, m.stock.WithPart(part, present));
    case StockReset => RestockKeepsInTurn(key, m, FACTORY);
    case BrewOrdered(processValue, twoCups, _) =>
      if Accepts(key, m, AsUint8(processValue)) {
        OrderKeepsInTurn(key, m, AsUint8(processValue), twoCups);
      }
    case CycleOrdered(kind, _) => BeginKeepsInTurn(key, m, kind);
    case _ =>
  }

  lemma {:induction false} StepKeepsInTurn(key: Key, m: State, step: Step)
    requires InTurn(key, m)
    ensures InTurn(key, Next(key, m, step))
  {
    match step
    case BrewMoves(more, pct) => if m.brew.Some? { BrewKeepsInTurn(key, m, m.brew.value, more, pct); }
    case CycleMoves(more, pct) => if m.cycle.Some? { CycleKeepsInTurn(key, m, m.cycle.value, more, pct); }
    case _ => CommandKeepsInTurn(key, m, step);
  }

  // ---- The prompt --------------------------------------------------------------------

  /** The prompt is settled whenever no task is between its first step and its last
      look at the tanks. */
  ghost predicate PromptSettled(key: Key, m: State) {
    (m.brew.Some? ==> m.brew.value.phase == Closing || m.brew.value.phase == Exiting)
    && (m.cycle.Some? ==> m.cycle.value.phase == CycleClosing || m.cycle.value.phase == CycleExiting)
    ==> Settled(key, m.stock, m.panel)
  }

  lemma {:induction false} BrewKeepsPrompt(key: Key, m: State, b: BrewRun, more: bool, pct: int16)
    requires InTurn(key, m) && PromptSettled(key, m) && m.brew == Some(b)
    ensures PromptSettled(key, BrewNext(key, m, b, more, pct))
  {
  }

  lemma {:induction false} CycleKeepsPrompt(key: Key, m: State, c: CycleRun, more: bool, pct: int16)
    requires InTurn(key, m) && PromptSettled(key, m) && m.cycle == Some(c)
    ensures PromptSettled(key, CycleNext(key, m, c, more, pct))
  {
  }

  lemma {:induction false} CommandKeepsPrompt(key: Key, m: State, step: Step)
    requires InTurn(key, m) && PromptSettled(key, m) && IsCommand(step)
    ensures PromptSettled(key, Next(key, m, step))
  {
  }

  lemma {:induction false} StepKeepsPrompt(key: Key, m: State, step: Step)
    requires InTurn(key, m) && PromptSettled(key, m)
    ensures PromptSettled(key, Next(key, m, step))
  {
    match step
    case BrewMoves(more, pct) => if m.brew.Some? { BrewKeepsPrompt(key, m, m.brew.value, more, pct); }
    case CycleMoves(more, pct) => if m.cycle.Some? { CycleKeepsPrompt(key, m, m.cycle.value, more, pct); }
    case _ => CommandKeepsPrompt(key, m, step);
  }

  // ---- Water -------------------------------------------------------------------------

  function Water(m: State): int {
    m.stock.Level(WATER) as int
  }

  /** A brew accepted with 10 or more spends exactly what its stages cost, unless a
      user sets the level meanwhile; and each completed brew takes at least 3 from
      what was last filled in. */
  ghost predicate WaterKept(m: State) {
    && 0 <= m.past.refill <= 100
    && Water(m) <= m.past.refill - 3 * m.past.since
    && (m.past.since > 0 ==> 3 * (m.past.since - 1) + WATER_LOW <= m.past.refill)
    && (m.brew.Some? && !m.brew.value.refilled ==>
          var b := m.brew.value;
          && WATER_LOW <= b.water0 && 3 <= WaterUse(b.stages, |b.stages|) <= 8
          && b.begun <= |b.stages| && Water(m) == b.water0 - WaterUse(b.stages, b.begun)
          && (b.phase.Settling? || b.phase.Closing? || b.phase.Exiting?
              || b.water0 <= m.past.refill - 3 * m.past.since))
  }

  lemma {:induction false} AcceptedIsFit(key: Key, m: State, selector: uint8)
    requires InTurn(key, m) && PromptSettled(key, m) && Accepts(key, m, selector)
    ensures Prompt(key, m.stock) == NONE && Water(m) >= WATER_LOW
  {
    PromptIsTrue(key, m.stock);
    PromptNoneIff(key, m.stock);
  }

  lemma {:induction false} WaterUseGrows(stages: seq<Stage>, m: nat, n: nat)
    requires m <= n <= |stages|
    ensures WaterUse(stages, m) <= WaterUse(stages, n)
    decreases n
  {
    if m < n {
      WaterUseGrows(stages, m, n - 1);
    }
  }

  lemma {:induction false} UsedNoMore(s: Stock, sub: int16)
    requires s.Ok()
    ensures Used(s, sub).Level(WATER) <= s.Level(WATER)
  {
  }

  lemma {:induction false} EntryKeepsWater(key: Key, m: State, b: BrewRun)
    requires InTurn(key, m) && WaterKept(m) && m.brew == Some(b) && b.phase == NextStage
    ensures WaterKept(StageOrEnd(key, m, b))
  {
    if b.begun < |b.stages| && !b.cancel {
      UsedLevels(m.stock, b.stages[b.begun].sub);
      WaterUseGrows(b.stages, b.begun + 1, |b.stages|);
      UsedNoMore(m.stock, b.stages[b.begun].sub);
    }
  }

  lemma {:induction false} CompletionKeepsWater(key: Key, m: State, b: BrewRun)
    requires InTurn(key, m) && WaterKept(m) && m.brew == Some(b) && b.phase == Ending
    ensures WaterKept(BrewNext(key, m, b, false, 0))
  {
  }

  lemma {:induction false} OrderKeepsWater(key: Key, m: State, selector: uint8, twoCups: bool)
    requires InTurn(key, m) && PromptSettled(key, m) && WaterKept(m) && Accepts(key, m, selector)
    ensures WaterKept(Ordered(key, m, selector, twoCups))
  {
    AcceptedIsFit(key, m, selector);
    WaterUseRange(RecipeFor(key, selector).value.category);
  }

  lemma {:induction false} BrewKeepsWater(key: Key, m: State, b: BrewRun, more: bool, pct: int16)
    requires InTurn(key, m) && WaterKept(m) && m.brew == Some(b)
    ensures WaterKept(BrewNext(key, m, b, more, pct))
  {
    if b.phase == NextStage {
      EntryKeepsWater(key, m, b);
    } else if b.phase == Ending {
      CompletionKeepsWater(key, m, b);
    }
  }

  lemma {:induction false} CycleKeepsWater(key: Key, m: State, c: CycleRun, more: bool, pct: int16)
    requires InTurn(key, m) && WaterKept(m) && m.cycle == Some(c)
    ensures WaterKept(CycleNext(key, m, c, more, pct))
  {
  }

  lemma {:induction false} RestockKeepsWater(key: Key, m: State, stock: Stock)
    requires WaterKept(m) && stock.Ok()
    ensures stock.Level(WATER) == m.stock.Level(WATER) ==> WaterKept(Restocked(key, m, stock))
    ensures WaterKept(Refilled(Restocked(key, m, stock)))
  {
  }

  lemma {:induction false} CommandKeepsWater(key: Key, m: State, step: Step)
    requires InTurn(key, m) && PromptSettled(key, m) && WaterKept(m) && IsCommand(step)
    ensures WaterKept(Next(key, m, step))
  {
    match step
    case LevelSet(tank, value) =>
      StaysOk(m.stock, tank, value, 0, true);
      RestockKeepsWater(key, m, m.stock.WithLevel(tank, value));
    case PartSet(part, present) =>
      StaysOk(m.stock, 0, 0, part, present);
      RestockKeepsWater(key, m, m.stock.WithPart(part, present));
    case StockReset => RestockKeepsWater(key, m, FACTORY);
    case BrewOrdered(processValue, twoCups, _) =>
      if Accepts(key, m, AsUint8(processValue)) {
        OrderKeepsWater(key, m, AsUint8(processValue), twoCups);
      }
    case _ =>
  }

  lemma {:induction false} StepKeepsWater(key: Key, m: State, step: Step)
    requires InTurn(key, m) && PromptSettled(key, m) && WaterKept(m)
    ensures WaterKept(Next(key, m, step))
  {
    match step
    case BrewMoves(more, pct) => if m.brew.Some? { BrewKeepsWater(key, m, m.brew.value, more, pct); }
    case CycleMoves(more, pct) => if m.cycle.Some? { CycleKeepsWater(key, m, m.cycle.value, more, pct); }
    case _ => CommandKeepsWater(key, m, step);
  }

  // ---- What is pushed ------------------------------------------------------------------

  ghost predicate AllShow(pushed: seq<Block>, code: int16) {
    forall k | 0 <= k < |pushed| :: pushed[k].process == code
  }

  /** A task's own code throughout, then one ready status at the end. */
  ghost predicate EndsReady(key: Key, pushed: seq<Block>, code: int16) {
    && |pushed| > 0 && AllShow(pushed[..|pushed| - 1], code)
    && var last := pushed[|pushed| - 1];
       last.process == ReadyCode(key) && last.sub == 0 && last.progress == 0
  }

  ghost predicate PushesInOrder(key: Key, m: State) {
    && (m.brew.Some? ==>
          var b := m.brew.value;
          && (if b.phase == Exiting then EndsReady(key, b.pushed, BrewingCode(key))
              else AllShow(b.pushed, BrewingCode(key)))
          && (!b.cancel || b.phase == Waiting || b.phase == Ticked ==> b.late == 0)
          && b.late <= 1)
    && (m.cycle.Some? ==>
          var c := m.cycle.value;
          if c.phase == CycleExiting then EndsReady(key, c.pushed, EmitCode(key, c.kind))
          else AllShow(c.pushed, EmitCode(key, c.kind)))
  }

  lemma {:induction false} ReadyEnds(key: Key, pushed: seq<Block>, code: int16, last: Block)
    requires AllShow(pushed, code) && last.process == ReadyCode(key) && last.sub == 0 && last.progress == 0
    ensures EndsReady(key, pushed + [last], code)
  {
    assert (pushed + [last])[..|pushed|] == pushed;
  }

  lemma {:induction false} EndKeepsPushes(key: Key, m: State, b: BrewRun, more: bool, pct: int16)
    requires InTurn(key, m) && PushesInOrder(key, m) && m.brew == Some(b) && (b.phase == Closing || b.phase == Exiting)
    ensures PushesInOrder(key, BrewNext(key, m, b, more, pct))
  {
    FamilyIs(key);
    if b.phase == Closing {
      ReadyEnds(key, b.pushed, BrewingCode(key), m.panel);
    }
  }

  lemma {:induction false} BrewKeepsPushes(key: Key, m: State, b: BrewRun, more: bool, pct: int16)
    requires InTurn(key, m) && PushesInOrder(key, m) && m.brew == Some(b)
    ensures PushesInOrder(key, BrewNext(key, m, b, more, pct))
  {
    if b.phase == Closing || b.phase == Exiting {
      EndKeepsPushes(key, m, b, more, pct);
    } else if b.phase == Announcing || b.phase == Ticked {
      FamilyIs(key);
      assert m.panel.process == BrewingCode(key);
    }
  }

  lemma {:induction false} CycleKeepsPushes(key: Key, m: State, c: CycleRun, more: bool, pct: int16)
    requires InTurn(key, m) && PushesInOrder(key, m) && m.cycle == Some(c)
    ensures PushesInOrder(key, CycleNext(key, m, c, more, pct))
  {
    FamilyIs(key);
    if c.phase == CycleClosing {
      ReadyEnds(key, c.pushed, EmitCode(key, c.kind), m.panel);
    }
  }

  lemma {:induction false} CommandKeepsPushes(key: Key, m: State, step: Step)
    requires InTurn(key, m) && PushesInOrder(key, m) && IsCommand(step)
    ensures PushesInOrder(key, Next(key, m, step))
  {
  }

  lemma {:induction false} StepKeepsPushes(key: Key, m: State, step: Step)
    requires InTurn(key, m) && PushesInOrder(key, m)
    ensures PushesInOrder(key, Next(key, m, step))
  {
    match step
    case BrewMoves(more, pct) => if m.brew.Some? { BrewKeepsPushes(key, m, m.brew.value, more, pct); }
    case CycleMoves(more, pct) => if m.cycle.Some? { CycleKeepsPushes(key, m, m.cycle.value, more, pct); }
    case _ => CommandKeepsPushes(key, m, step);
  }

  // ---- Registers -------------------------------------------------------------------

  /** How many of the brews had no counter of their own. */
  function Uncounted(s: Stats, completed: seq<uint8>): nat {
    if completed == [] then 0
    else Uncounted(s, completed[..|completed| - 1]) + if HasRecipeCounter(s, completed[|completed| - 1]) then 0 else 1
  }

  /** The total has run ahead of the cup counters by the brews that have no counter. */
  ghost predicate Tallies(key: Key, nums0: Nums, room: nat, nums: Nums, completed: seq<uint8>) {
    var s := StatsOf(key);
    HasRoom(nums0, s, room) && |completed| <= room ==>
      && HasRoom(nums, s, room - |completed|)
      && (s.total != 0 ==> OutOfStep(nums, s, key) == OutOfStep(nums0, s, key) + Uncounted(s, completed))
  }

  /** How the registers stand to what they were at power-up: flags track; without
      cycles the registers are what the completed brews make of them; counters tally. */
  ghost predicate Books(key: Key, nums0: Nums, tick0: int32, room: nat, nums: Nums, tick: int32, past: History) {
    && (forall x | x in past.completed :: Brews(key, x))
    && (FlagsTrack(nums0) ==> FlagsTrack(nums))
    && (past.cycled == 0 ==> (nums, tick) == AfterBrews(nums0, StatsOf(key), past.completed, tick0))
    && Tallies(key, nums0, room, nums, past.completed)
  }

  ghost predicate BooksKept(key: Key, nums0: Nums, tick0: int32, room: nat, m: State) {
    && Books(key, nums0, tick0, room, m.nums, m.localTick, m.past)
    && (m.cycle.Some? ==> PlanApart(StatsOf(key), m.cycle.value.plan))
  }

  lemma {:induction false} StatsTotals(key: Key)
    ensures StatsOf(key).total < 600
  {
  }

  lemma {:induction false} BrewTallies(key: Key, nums0: Nums, room: nat, nums: Nums, r: Nums, completed: seq<uint8>,
                                       selector: uint8, tick: int32)
    requires Tallies(key, nums0, room, nums, completed) && Brews(key, selector)
    requires BrewBy(nums, r, StatsOf(key), selector, tick)
    ensures Tallies(key, nums0, room, r, completed + [selector])
  {
    var s := StatsOf(key);
    assert (completed + [selector])[..|completed|] == completed;
    CounterIds(key, selector);
    if HasRoom(nums0, s, room) && |completed| + 1 <= room {
      var left := room - |completed|;
      RoomBy(nums, r, s, selector, tick, left);
      if s.total != 0 {
        RoomShrinks(nums, s, left, 1);
        BrewByMoves(key, s, nums, r, selector, tick);
      }
    }
  }

  lemma {:induction false} OneMoreBrew(s: Stats, m: Nums, selectors: seq<uint8>, selector: uint8, tick: int32)
    ensures var b := AfterBrews(m, s, selectors, tick);
            AfterBrews(m, s, selectors + [selector], tick) == AfterBrew(b.0, s, selector, b.1)
  {
    assert (selectors + [selector])[..|selectors|] == selectors;
  }

  lemma {:induction false} BrewKeepsBooks(key: Key, nums0: Nums, tick0: int32, room: nat, nums: Nums, tick: int32,
                                          past: History, selector: uint8, r: (Nums, int32), now: History)
    requires Books(key, nums0, tick0, room, nums, tick, past) && Brews(key, selector)
    requires r == AfterBrew(nums, StatsOf(key), selector, tick)
    requires now.completed == past.completed + [selector] && now.cycled == past.cycled
    ensures Books(key, nums0, tick0, room, r.0, r.1, now)
  {
    var s := StatsOf(key);
    CounterIds(key, selector);
    if FlagsTrack(nums) {
      BrewKeepsFlags(s, nums, selector, tick);
    }
    AfterBrewIs(s, nums, selector, tick);
    BrewTallies(key, nums0, room, nums, r.0, past.completed, selector, r.1);
    if past.cycled == 0 {
      OneMoreBrew(s, nums0, past.completed, selector, tick0);
    }
  }

  lemma {:induction false} CupSumSame(m: Nums, r: Nums, key: Key, n: nat)
    requires n <= 11 && forall k: int16 | 200 <= k <= 210 :: Num(r, k) == Num(m, k)
    ensures CupSum(r, key, n) == CupSum(m, key, n)
    decreases n
  {
    if n > 0 {
      CupSumSame(m, r, key, n - 1);
    }
  }

  lemma {:induction false} CycleKeepsBooks(key: Key, nums0: Nums, tick0: int32, room: nat, nums: Nums, tick: int32,
                                           past: History, plan: Plan)
    requires Books(key, nums0, tick0, room, nums, tick, past) && PlanApart(StatsOf(key), plan)
    ensures Books(key, nums0, tick0, room, AfterCycle(nums, StatsOf(key), plan), tick,
                  past.(cycled := past.cycled + 1))
  {
    var s := StatsOf(key);
    StatsTotals(key);
    CycleLeavesCups(s, nums, plan);
    CupSumSame(nums, AfterCycle(nums, s, plan), key, 11);
    if FlagsTrack(nums) {
      CycleKeepsFlags(s, nums, plan);
    }
  }

  /** A step touches the registers only to complete a brew or a cycle. */
  lemma {:induction false} CommandKeepsBooks(key: Key, nums0: Nums, tick0: int32, room: nat, m: State, step: Step)
    requires BooksKept(key, nums0, tick0, room, m) && IsCommand(step)
    ensures BooksKept(key, nums0, tick0, room, Next(key, m, step))
  {
    var r := Next(key, m, step);
    assert (r.nums, r.localTick) == (m.nums, m.localTick);
    assert (r.past.completed, r.past.cycled) == (m.past.completed, m.past.cycled);
    if step.CycleOrdered? && PlanFor(step.kind).Some? {
      PlansApart(key, step.kind);
    }
  }

  lemma {:induction false} BrewMoveKeepsBooks(key: Key, nums0: Nums, tick0: int32, room: nat, m: State,
                                              b: BrewRun, more: bool, pct: int16)
    requires InTurn(key, m) && BooksKept(key, nums0, tick0, room, m) && m.brew == Some(b)
    ensures BooksKept(key, nums0, tick0, room, BrewNext(key, m, b, more, pct))
  {
    var r := BrewNext(key, m, b, more, pct);
    if b.phase == Ending && !b.cancel {
      BrewKeepsBooks(key, nums0, tick0, room, m.nums, m.localTick, m.past, b.arg.selector, (r.nums, r.localTick),
          r.past);
    } else {
      assert (r.nums, r.localTick, r.past) == (m.nums, m.localTick, m.past);
    }
  }

  lemma {:induction false} CycleMoveKeepsBooks(key: Key, nums0: Nums, tick0: int32, room: nat, m: State,
                                               c: CycleRun, more: bool, pct: int16)
    requires BooksKept(key, nums0, tick0, room, m) && m.cycle == Some(c)
    ensures BooksKept(key, nums0, tick0, room, CycleNext(key, m, c, more, pct))
  {
    var r := CycleNext(key, m, c, more, pct);
    if c.phase == Completing && !c.cancel {
      CycleKeepsBooks(key, nums0, tick0, room, m.nums, m.localTick, m.past, c.plan);
    } else {
      assert (r.nums, r.localTick, r.past) == (m.nums, m.localTick, m.past);
    }
  }

  lemma {:induction false} StepKeepsBooks(key: Key, nums0: Nums, tick0: int32, room: nat, m: State, step: Step)
    requires InTurn(key, m) && BooksKept(key, nums0, tick0, room, m)
    ensures BooksKept(key, nums0, tick0, room, Next(key, m, step))
  {
    match step
    case BrewMoves(more, pct) =>
      if m.brew.Some? { BrewMoveKeepsBooks(key, nums0, tick0, room, m, m.brew.value, more, pct); }
    case CycleMoves(more, pct) =>
      if m.cycle.Some? { CycleMoveKeepsBooks(key, nums0, tick0, room, m, m.cycle.value, more, pct); }
    case _ => CommandKeepsBooks(key, nums0, tick0, room, m, step);
  }
}
