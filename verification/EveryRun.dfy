/** The machine's promises, for every run from power-up: any commands, any number of
    brews and cycles, completed or cancelled, interleaved in any order. */
module EveryRun {
  import opened Brew
  import opened Boot
  import opened Bytes
  import opened Consumables
  import opened Cycle
  import opened Families
  import opened Machine
  import opened Maint
  import opened Registers
  import opened Runs
  import opened Wear

  ghost predicate Sound(key: Key, m: State) {
    InTurn(key, m) && PromptSettled(key, m) && WaterKept(m) && PushesInOrder(key, m)
  }

  lemma {:induction false} BootIsSound(key: Key, stock: Stock, nums: Nums, tick: int32)
    requires stock.Ok()
    ensures Sound(key, PoweredUp(key, stock, nums, tick))
  {
  }

  lemma {:induction false} StepKeepsSound(key: Key, m: State, step: Step)
    requires Sound(key, m)
    ensures Sound(key, Next(key, m, step))
  {
    StepKeepsInTurn(key, m, step);
    StepKeepsPrompt(key, m, step);
    StepKeepsWater(key, m, step);
    StepKeepsPushes(key, m, step);
  }

  lemma {:induction false} RunKeepsSound(key: Key, m: State, steps: seq<Step>)
    requires Sound(key, m)
    ensures Sound(key, Run(key, m, steps))
  {
    if steps != [] {
      var n := |steps| - 1;
      RunKeepsSound(key, m, steps[..n]);
      StepKeepsSound(key, Run(key, m, steps[..n]), steps[n]);
    }
  }

  lemma {:induction false} AlwaysSound(key: Key, stock: Stock, nums: Nums, tick: int32, steps: seq<Step>)
    requires stock.Ok()
    ensures Sound(key, Run(key, PoweredUp(key, stock, nums, tick), steps))
  {
    BootIsSound(key, stock, nums, tick);
    RunKeepsSound(key, PoweredUp(key, stock, nums, tick), steps);
  }

  /** Whenever no task runs, the machine shows ready, and its prompt is what parts and
      tanks call for, or the flush after power-up if they call for nothing. */
  lemma {:induction false} IdleIsSettled(key: Key, stock: Stock, nums: Nums, tick: int32, steps: seq<Step>)
    requires stock.Ok()
    ensures var m := Run(key, PoweredUp(key, stock, nums, tick), steps);
            m.brew.None? && m.cycle.None? ==> m.panel.process == ReadyCode(key) && Settled(key, m.stock, m.panel)
  {
    FamilyIs(key);
    AlwaysSound(key, stock, nums, tick, steps);
  }

  /** A machine fit to brew: the brew unit and the trays are in, and the lid if it has one;
      the water is at 10 percent or more, and the tray at 90 or less. */
  predicate Fit(key: Key, s: Stock) {
    s.Part(0) && s.Part(1) && (HasPowderLid(key) ==> s.Part(2)) && s.Level(0) >= 10 && s.Level(2) <= 90
  }

  /** The machine with a brew order taken, if it is idle and fit, the family has the
      recipe and the task can be made, and as it was otherwise. */
  function Answered(key: Key, m: State, selector: uint8, twoCups: bool, created: bool): State {
    if m.brew.None? && m.cycle.None? && Fit(key, m.stock) && Brews(key, selector) && created then
      (BrewsIff(key, selector); Ordered(key, m, selector, twoCups))
    else m
  }

  lemma {:induction false} FitMeansAccepted(key: Key, m: State, selector: uint8)
    requires PromptSettled(key, m)
    ensures Accepts(key, m, selector)
            <==> m.brew.None? && m.cycle.None? && Fit(key, m.stock) && Brews(key, selector)
  {
    BrewsIff(key, selector);
    PromptNoneIff(key, m.stock);
    PromptIsTrue(key, m.stock);
  }

  lemma {:induction false} OrderIsAnswered(key: Key, m: State, step: Step)
    requires Sound(key, m) && step.BrewOrdered?
    ensures Next(key, m, step) == Answered(key, m, AsUint8(step.processValue), step.twoCups, step.created)
  {
    FitMeansAccepted(key, m, AsUint8(step.processValue));
  }

  /** In every run, a brew order is accepted exactly when the machine is idle and fit,
      the family has the recipe, and the task can be made; else nothing changes. */
  lemma {:induction false} AcceptedIff(key: Key, stock: Stock, nums: Nums, tick: int32, steps: seq<Step>, step: Step)
    requires stock.Ok() && step.BrewOrdered?
    ensures var m := Run(key, PoweredUp(key, stock, nums, tick), steps);
            Next(key, m, step) == Answered(key, m, AsUint8(step.processValue), step.twoCups, step.created)
  {
    AlwaysSound(key, stock, nums, tick, steps);
    OrderIsAnswered(key, Run(key, PoweredUp(key, stock, nums, tick), steps), step);
  }

  /** What is set is set, within 0 and 100, and nothing else of the tanks and parts is. */
  lemma {:induction false} SettingsHold(key: Key, m: State, step: Step)
    requires m.stock.Ok()
    ensures var s, r := m.stock, Next(key, m, step).stock;
            match step
            case LevelSet(tank, value) =>
              var level := if value < 0 then 0 else if value > 100 then 100 else value;
              tank < 4 ==> r == s.(levels := s.levels[tank := level])
            case PartSet(part, present) => part < 3 ==> r == s.(parts := s.parts[part := present])
            case StockReset => r == Stock([100, 100, 0, 100], [true, true, true])
            case _ => true
  {
  }

  lemma {:induction false} OneMoreStep(key: Key, m: State, steps: seq<Step>, step: Step)
    ensures Run(key, m, steps + [step]) == Next(key, Run(key, m, steps), step)
  {
    assert (steps + [step])[..|steps|] == steps;
  }

  /** With the brew unit or the trays taken out, or the lid of a machine that has one, no
      order is taken, in whatever state that happens; put back, orders are taken as before. */
  lemma {:induction false} PartsAreNeeded(key: Key, stock: Stock, nums: Nums, tick: int32, steps: seq<Step>, part: nat,
                                          order: Step)
    requires stock.Ok() && order.BrewOrdered? && (part < 2 || (part == 2 && HasPowderLid(key)))
    ensures var m := Run(key, PoweredUp(key, stock, nums, tick), steps);
            && Next(key, Next(key, m, PartSet(part, false)), order) == Next(key, m, PartSet(part, false))
            && (m.stock.Part(part) ==>
                  var back := Next(key, Next(key, m, PartSet(part, false)), PartSet(part, true));
                  back.stock == m.stock
                  && (Next(key, back, order).brew != back.brew <==> Next(key, m, order).brew != m.brew))
  {
    var start := PoweredUp(key, stock, nums, tick);
    var m, out, back := Run(key, start, steps), [PartSet(part, false)], [PartSet(part, true)];
    OneMoreStep(key, start, steps, PartSet(part, false));
    OneMoreStep(key, start, steps + out, PartSet(part, true));
    AcceptedIff(key, stock, nums, tick, steps, order);
    AcceptedIff(key, stock, nums, tick, steps + out, order);
    AcceptedIff(key, stock, nums, tick, steps + out + back, order);
    AlwaysSound(key, stock, nums, tick, steps);
    SettingsHold(key, m, PartSet(part, false));
    SettingsHold(key, Next(key, m, PartSet(part, false)), PartSet(part, true));
  }

  /** A brew and a cycle never run together, and a running brew was accepted with
      enough water and has spent exactly what the stages it entered cost: the clamp
      at 0 never acted, unless a user set the level meanwhile. */
  lemma {:induction false} WaterIsSpentExactly(key: Key, stock: Stock, nums: Nums, tick: int32, steps: seq<Step>)
    requires stock.Ok()
    ensures var m := Run(key, PoweredUp(key, stock, nums, tick), steps);
            && !(m.brew.Some? && m.cycle.Some?)
            && (m.brew.Some? && !m.brew.value.refilled ==>
                  var b := m.brew.value;
                  b.water0 >= 10 && b.begun <= |b.stages| && Water(m) == b.water0 - WaterUse(b.stages, b.begun))
  {
    AlwaysSound(key, stock, nums, tick, steps);
  }

  /** From one filling to the next, whatever else happens, at most 31 brews can begin
      and complete; in general, no more than the water filled in allows. */
  lemma {:induction false} BrewsPerFilling(key: Key, stock: Stock, nums: Nums, tick: int32, steps: seq<Step>)
    requires stock.Ok()
    ensures var m := Run(key, PoweredUp(key, stock, nums, tick), steps);
            && m.past.since <= 31 && (m.past.since > 0 ==> 3 * m.past.since <= m.past.refill - 7)
            && Water(m) + 3 * m.past.since <= m.past.refill
  {
    AlwaysSound(key, stock, nums, tick, steps);
  }

  /** A brew about to end has pushed the brewing code throughout and ready once, at the
      end; and at most one progress status after a cancel. */
  lemma {:induction false} BrewStatuses(key: Key, stock: Stock, nums: Nums, tick: int32, steps: seq<Step>)
    requires stock.Ok()
    ensures var m := Run(key, PoweredUp(key, stock, nums, tick), steps);
            m.brew.Some? ==>
              var b := m.brew.value;
              && b.late <= 1
              && if b.phase == Exiting then EndsReady(key, b.pushed, BrewingCode(key))
                 else AllShow(b.pushed, BrewingCode(key))
  {
    AlwaysSound(key, stock, nums, tick, steps);
  }

  lemma {:induction false} ShownApart(key: Key, c: CycleRun)
    requires var code := EmitCode(key, c.kind);
             && code != ReadyCode(key) && code != BrewingCode(key)
             && if c.phase == CycleExiting then EndsReady(key, c.pushed, code) else AllShow(c.pushed, code)
    ensures var n := |c.pushed| - if c.phase == CycleExiting then 1 else 0;
            && n >= 0
            && (forall k | 0 <= k < n :: c.pushed[k].process != ReadyCode(key)
                                         && c.pushed[k].process != BrewingCode(key))
            && (n < |c.pushed| ==> c.pushed[n].process == ReadyCode(key) && c.pushed[n].progress == 0)
  {
    if c.phase == CycleExiting {
      var n := |c.pushed| - 1;
      assert forall k | 0 <= k < n :: c.pushed[..n][k] == c.pushed[k];
    }
  }

  /** A cycle runs by the plan of its kind. */
  predicate Planned(m: State) {
    m.cycle.Some? ==> PlanFor(m.cycle.value.kind) == Some(m.cycle.value.plan)
  }

  lemma {:induction false} MoveKeepsPlan(key: Key, m: State, c: CycleRun, more: bool, pct: int16)
    ensures var r := CycleNext(key, m, c, more, pct);
            r.cycle.Some? ==> r.cycle.value.kind == c.kind && r.cycle.value.plan == c.plan
  {
  }

  lemma {:induction false} BrewLeavesCycle(key: Key, m: State, b: BrewRun, more: bool, pct: int16)
    ensures BrewNext(key, m, b, more, pct).cycle == m.cycle
  {
  }

  lemma {:induction false} StepKeepsPlan(key: Key, m: State, step: Step)
    requires Planned(m)
    ensures Planned(Next(key, m, step))
  {
    match step
    case CycleMoves(more, pct) =>
      if m.cycle.Some? {
        MoveKeepsPlan(key, m, m.cycle.value, more, pct);
      }
    case BrewMoves(more, pct) =>
      if m.brew.Some? {
        BrewLeavesCycle(key, m, m.brew.value, more, pct);
      }
    case _ =>
  }

  lemma {:induction false} AlwaysPlanned(key: Key, stock: Stock, nums: Nums, tick: int32, steps: seq<Step>)
    ensures Planned(Run(key, PoweredUp(key, stock, nums, tick), steps))
  {
    if steps != [] {
      var n := |steps| - 1;
      AlwaysPlanned(key, stock, nums, tick, steps[..n]);
      StepKeepsPlan(key, Run(key, PoweredUp(key, stock, nums, tick), steps[..n]), steps[n]);
    }
  }

  /** Past its prompt, a cycle shows neither the ready nor the brewing code until it is
      over. */
  lemma {:induction false} CycleStatuses(key: Key, stock: Stock, nums: Nums, tick: int32, steps: seq<Step>)
    requires stock.Ok()
    ensures var m := Run(key, PoweredUp(key, stock, nums, tick), steps);
            m.cycle.Some? ==>
              var c, n := m.cycle.value, |m.cycle.value.pushed| - if m.cycle.value.phase == CycleExiting then 1 else 0;
              && n >= 0
              && (forall k | 0 <= k < n :: c.pushed[k].process != ReadyCode(key)
                                           && c.pushed[k].process != BrewingCode(key))
              && (n < |c.pushed| ==> c.pushed[n].process == ReadyCode(key) && c.pushed[n].progress == 0)
  {
    AlwaysSound(key, stock, nums, tick, steps);
    var m := Run(key, PoweredUp(key, stock, nums, tick), steps);
    if m.cycle.Some? {
      AlwaysPlanned(key, stock, nums, tick, steps);
      EmitCodeIsApart(key, m.cycle.value.kind);
      ShownApart(key, m.cycle.value);
    }
  }

  // ---- Registers -------------------------------------------------------------------

  lemma {:induction false} AlwaysBooked(key: Key, stock: Stock, nums: Nums, tick: int32, room: nat, steps: seq<Step>)
    requires stock.Ok()
    ensures BooksKept(key, nums, tick, room, Run(key, PoweredUp(key, stock, nums, tick), steps))
  {
    if steps != [] {
      var n := |steps| - 1;
      AlwaysBooked(key, stock, nums, tick, room, steps[..n]);
      AlwaysSound(key, stock, nums, tick, steps[..n]);
      StepKeepsBooks(key, nums, tick, room, Run(key, PoweredUp(key, stock, nums, tick), steps[..n]), steps[n]);
    }
  }

  /** Each flag is up exactly while its gauge is low, in every run that starts so. */
  lemma {:induction false} FlagsAlwaysTrack(key: Key, stock: Stock, nums: Nums, tick: int32, steps: seq<Step>)
    requires stock.Ok() && FlagsTrack(nums)
    ensures FlagsTrack(Run(key, PoweredUp(key, stock, nums, tick), steps).nums)
  {
    AlwaysBooked(key, stock, nums, tick, 0, steps);
  }

  lemma {:induction false} FilterDepApart(key: Key)
    ensures var dep := StatsOf(key).filterDep; dep == 101 || dep == 105 || dep == 642
  {
  }

  /** In particular, in every run from factory registers. */
  lemma {:induction false} FlagsTrackFromFactory(key: Key, stock: Stock, tick: int32, steps: seq<Step>)
    requires stock.Ok()
    ensures FlagsTrack(Run(key, PoweredUp(key, stock, BootedNum(map[], StatsOf(key).filterDep), tick), steps).nums)
  {
    FilterDepApart(key);
    SeededTracks(StatsOf(key).filterDep);
    FlagsAlwaysTrack(key, stock, BootedNum(map[], StatsOf(key).filterDep), tick, steps);
  }

  lemma {:induction false} MoveCompletesOne(key: Key, m: State, b: BrewRun, more: bool, pct: int16)
    ensures |BrewNext(key, m, b, more, pct).past.completed| <= |m.past.completed| + 1
  {
  }

  lemma {:induction false} CycleCompletesNoBrew(key: Key, m: State, c: CycleRun, more: bool, pct: int16)
    ensures CycleNext(key, m, c, more, pct).past.completed == m.past.completed
  {
  }

  lemma {:induction false} StepCompletesOne(key: Key, m: State, step: Step)
    ensures |Next(key, m, step).past.completed| <= |m.past.completed| + 1
  {
    match step
    case BrewMoves(more, pct) =>
      if m.brew.Some? {
        MoveCompletesOne(key, m, m.brew.value, more, pct);
      }
    case CycleMoves(more, pct) =>
      if m.cycle.Some? {
        CycleCompletesNoBrew(key, m, m.cycle.value, more, pct);
      }
    case _ =>
  }

  lemma {:induction false} CompletedAtMost(key: Key, m: State, steps: seq<Step>)
    ensures |Run(key, m, steps).past.completed| <= |m.past.completed| + |steps|
  {
    if steps != [] {
      CompletedAtMost(key, m, steps[..|steps| - 1]);
      StepCompletesOne(key, Run(key, m, steps[..|steps| - 1]), steps[|steps| - 1]);
    }
  }

  /** As long as no cycle completes, the gauges depend on nothing but how many brews
      completed, whatever was ordered, cancelled or refilled in between. */
  lemma {:induction false} WearOfRun(key: Key, stock: Stock, nums: Nums, tick: int32, steps: seq<Step>)
    requires stock.Ok() && 0 <= WearTick(nums, StatsOf(key), tick)
    requires WearTick(nums, StatsOf(key), tick) as int + |steps| <= 0x7FFF_FFFF
    requires Num(nums, FILTER_PCT) >= 0 && Num(nums, BREW_UNIT_PCT) >= 0 && Num(nums, DESCALE_PCT) >= 0
    ensures var m := Run(key, PoweredUp(key, stock, nums, tick), steps);
            m.past.cycled == 0
            ==> WornFrom(nums, m.nums, WearTick(nums, StatsOf(key), tick), |m.past.completed|)
  {
    var m := Run(key, PoweredUp(key, stock, nums, tick), steps);
    AlwaysBooked(key, stock, nums, tick, 0, steps);
    CompletedAtMost(key, PoweredUp(key, stock, nums, tick), steps);
    if m.past.cycled == 0 {
      FamilyWearClosedForm(key, nums, m.past.completed, tick);
    }
  }

  lemma {:induction false} UncountedIff(key: Key, completed: seq<uint8>)
    requires StatsOf(key).total != 0 && forall x | x in completed :: Brews(key, x)
    ensures Uncounted(StatsOf(key), completed) == 0 <==> !(key == F1040 && 7 in completed)
  {
    if completed != [] {
      var n := |completed| - 1;
      assert completed == completed[..n] + [completed[n]];
      assert completed[n] in completed;
      UncountedIff(key, completed[..n]);
      RecipeCountedIff(key, completed[n]);
    }
  }

  /** On a family with a total, the total stays as far ahead of the sum of the cup
      counters as it was, in every run, unless a 1040 completes a warm milk. */
  lemma {:induction false} TotalOfRunIff(key: Key, stock: Stock, nums: Nums, tick: int32, steps: seq<Step>)
    requires stock.Ok() && StatsOf(key).total != 0 && HasRoom(nums, StatsOf(key), |steps|)
    ensures var m, s := Run(key, PoweredUp(key, stock, nums, tick), steps), StatsOf(key);
            OutOfStep(m.nums, s, key) == OutOfStep(nums, s, key) <==> !(key == F1040 && 7 in m.past.completed)
  {
    var m := Run(key, PoweredUp(key, stock, nums, tick), steps);
    AlwaysBooked(key, stock, nums, tick, |steps|, steps);
    CompletedAtMost(key, PoweredUp(key, stock, nums, tick), steps);
    UncountedIff(key, m.past.completed);
  }
}
