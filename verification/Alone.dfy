/** Tasks that nothing interferes with: what they leave behind, that they come to an
    end, and a run in which as many brews complete as one filling allows. */
module Alone {
  import opened Brew
  import opened Bytes
  import opened Consumables
  import opened Cycle
  import opened EveryRun
  import opened Families
  import opened Machine
  import opened Maint
  import opened Ramp
  import opened Registers
  import opened Runs
  import opened Status
  import opened Wear

  // ---- A brew left alone ---------------------------------------------------------------

  predicate OnlyBrews(steps: seq<Step>) {
    forall s | s in steps :: s.BrewMoves? || s.BrewCancelled?
  }

  /** The registers are those after one brew if it is done, and as they were if not. */
  predicate Written(key: Key, selector: uint8, done: bool, nums0: Nums, tick0: int32, nums: Nums, tick: int32) {
    (nums, tick) == if done then AfterBrew(nums0, StatsOf(key), selector, tick0) else (nums0, tick0)
  }

  /** How a brew that nothing interferes with stands to the state `m0` it was ordered in. */
  ghost predicate Alone(key: Key, m0: State, m: State) {
    m.brew.Some? ==>
      var b, done := m.brew.value, m.past.completed != m0.past.completed;
      && b.begun <= |b.stages| && m.stock == UsedBy(m0.stock, b.stages, b.begun)
      && (b.phase == Spawned || m.panel.info == 0)
      && (AtEnd(b) ==> m.panel == Block(FamilyOf(key).ready, 0, 0, m.panel.manip, 0))
      && (b.phase == Closing || b.phase == Exiting ==> m.panel == FinalBlock(key, m.stock))
      && (done ==> AtEnd(b) && b.phase != Ending && b.begun == |b.stages|)
      && (AtEnd(b) && b.phase != Ending && !b.cancel ==> done)
      && (AtEnd(b) && !b.cancel ==> b.begun == |b.stages|)
      && m.past.completed == m0.past.completed + (if done then [b.arg.selector] else [])
      && Written(key, b.arg.selector, done, m0.nums, m0.localTick, m.nums, m.localTick)
  }

  lemma {:induction false} EntryKeepsAlone(key: Key, m0: State, m: State, b: BrewRun)
    requires Alone(key, m0, m) && m.brew == Some(b) && b.phase == NextStage
    ensures Alone(key, m0, StageOrEnd(key, m, b))
  {
  }

  lemma {:induction false} EndKeepsAlone(key: Key, m0: State, m: State, b: BrewRun)
    requires Alone(key, m0, m) && m.brew == Some(b) && b.phase == Ending
    ensures Alone(key, m0, BrewNext(key, m, b, false, 0))
  {
    var one := m0.past.completed + [b.arg.selector];
    assert |one| == |m0.past.completed| + 1;
  }

  lemma {:induction false} StageKeepsAlone(key: Key, m0: State, m: State, b: BrewRun, more: bool, pct: int16)
    requires Alone(key, m0, m) && m.brew == Some(b) && !AtEnd(b) && b.phase != NextStage
    ensures Alone(key, m0, BrewNext(key, m, b, more, pct))
  {
  }

  lemma {:induction false} SettlesIs(key: Key, s: Stock, b: Block)
    requires b == Block(FamilyOf(key).ready, 0, 0, b.manip, 0)
    ensures Reevaluated(key, s, b) == FinalBlock(key, s)
  {
  }

  lemma {:induction false} SettlingKeepsAlone(key: Key, m0: State, m: State, b: BrewRun, more: bool, pct: int16)
    requires Alone(key, m0, m) && m.brew == Some(b) && b.phase == Settling
    ensures Alone(key, m0, BrewNext(key, m, b, more, pct))
  {
    SettlesIs(key, m.stock, m.panel);
  }

  lemma {:induction false} LeavingKeepsAlone(key: Key, m0: State, m: State, b: BrewRun, more: bool, pct: int16)
    requires Alone(key, m0, m) && m.brew == Some(b) && (b.phase == Closing || b.phase == Exiting)
    ensures Alone(key, m0, BrewNext(key, m, b, more, pct))
  {
  }

  lemma {:induction false} StepKeepsAlone(key: Key, m0: State, m: State, step: Step)
    requires Alone(key, m0, m) && (step.BrewMoves? || step.BrewCancelled?)
    ensures Alone(key, m0, Next(key, m, step))
  {
    if m.brew.Some? && step.BrewMoves? {
      var b := m.brew.value;
      if b.phase == NextStage {
        EntryKeepsAlone(key, m0, m, b);
      } else if b.phase == Ending {
        EndKeepsAlone(key, m0, m, b);
      } else if b.phase == Settling {
        SettlingKeepsAlone(key, m0, m, b, step.more, step.pct);
      } else if AtEnd(b) {
        LeavingKeepsAlone(key, m0, m, b, step.more, step.pct);
      } else {
        StageKeepsAlone(key, m0, m, b, step.more, step.pct);
      }
    }
  }

  /** Left alone, a brew ends as RunBrew says: its stages have used up what they use
      up, the last status is the final one, and the registers are those after one brew
      if it was completed, and as they were if it was cancelled. */
  lemma {:induction false} BrewAlone(key: Key, m0: State, selector: uint8, twoCups: bool, steps: seq<Step>)
    requires RecipeFor(key, selector).Some? && OnlyBrews(steps)
    ensures Alone(key, m0, Run(key, Ordered(key, m0, selector, twoCups), steps))
  {
    if steps != [] {
      var n := |steps| - 1;
      assert steps[n] in steps;
      BrewAlone(key, m0, selector, twoCups, steps[..n]);
      StepKeepsAlone(key, m0, Run(key, Ordered(key, m0, selector, twoCups), steps[..n]), steps[n]);
    }
  }

  // ---- A cycle left alone ----------------------------------------------------------------

  predicate OnlyCycles(steps: seq<Step>) {
    forall s | s in steps :: s.CycleMoves? || s.CycleCancelled?
  }

  /** Past the point where a cycle writes what it writes, if it was not cancelled. */
  predicate CycleWritten(c: CycleRun) {
    c.phase == CycleEnding || CycleAtEnd(c)
  }

  /** How a cycle that nothing interferes with stands to the state `m0` it began in. */
  ghost predicate CycleAloneAs(key: Key, m0: State, m: State) {
    m.cycle.Some? ==>
      var c, done := m.cycle.value, m.past.cycled != m0.past.cycled;
      && m.brew.None? && m.panel.info == m0.panel.info
      && (done ==> CycleWritten(c)) && (CycleWritten(c) && !c.cancel ==> done)
      && (CycleAtEnd(c) ==> m.panel == Block(FamilyOf(key).ready, 0, m0.panel.info, m.panel.manip, 0))
      && (c.phase == CycleClosing || c.phase == CycleExiting ==> m.panel.manip == Prompt(key, m.stock))
      && m.past.cycled == m0.past.cycled + (if done then 1 else 0)
      && m.stock == (if done then Refitted(m0.stock, c.kind) else m0.stock)
      && m.localTick == m0.localTick
      && m.nums == if done then AfterCycle(m0.nums, StatsOf(key), c.plan) else m0.nums
  }

  lemma {:induction false} CycleStartKeepsAlone(key: Key, m0: State, m: State, c: CycleRun, more: bool, pct: int16)
    requires CycleAloneAs(key, m0, m) && m.cycle == Some(c) && !CycleWritten(c) && c.phase != Completing
    ensures CycleAloneAs(key, m0, CycleNext(key, m, c, more, pct))
  {
  }

  lemma {:induction false} CompletingKeepsAlone(key: Key, m0: State, m: State, c: CycleRun, more: bool, pct: int16)
    requires CycleAloneAs(key, m0, m) && m.cycle == Some(c) && c.phase == Completing
    ensures CycleAloneAs(key, m0, CycleNext(key, m, c, more, pct))
  {
  }

  lemma {:induction false} CycleEndKeepsAlone(key: Key, m0: State, m: State, c: CycleRun, more: bool, pct: int16)
    requires CycleAloneAs(key, m0, m) && m.cycle == Some(c) && CycleWritten(c)
    ensures CycleAloneAs(key, m0, CycleNext(key, m, c, more, pct))
  {
  }

  lemma {:induction false} StepKeepsCycleAlone(key: Key, m0: State, m: State, step: Step)
    requires CycleAloneAs(key, m0, m) && (step.CycleMoves? || step.CycleCancelled?)
    ensures CycleAloneAs(key, m0, Next(key, m, step))
  {
    if m.cycle.Some? && step.CycleMoves? {
      var c := m.cycle.value;
      if c.phase == Completing {
        CompletingKeepsAlone(key, m0, m, c, step.more, step.pct);
      } else if CycleWritten(c) {
        CycleEndKeepsAlone(key, m0, m, c, step.more, step.pct);
      } else {
        CycleStartKeepsAlone(key, m0, m, c, step.more, step.pct);
      }
    }
  }

  /** Left alone, a cycle ends as RunCycle says: ready, with the prompt that is called
      for, and counter, gauge, flag and filter changed if it was completed and not if it
      was cancelled. */
  lemma {:induction false} CycleAlone(key: Key, m0: State, kind: int16, steps: seq<Step>)
    requires m0.brew.None? && m0.cycle.None? && PlanFor(kind).Some? && OnlyCycles(steps)
    ensures CycleAloneAs(key, m0, Run(key, CycleBegun(m0, kind), steps))
  {
    if steps != [] {
      var n := |steps| - 1;
      assert steps[n] in steps;
      CycleAlone(key, m0, kind, steps[..n]);
      StepKeepsCycleAlone(key, m0, Run(key, CycleBegun(m0, kind), steps[..n]), steps[n]);
    }
  }

  lemma {:induction false} KindStays(key: Key, m0: State, kind: int16, steps: seq<Step>)
    requires m0.brew.None? && m0.cycle.None? && PlanFor(kind).Some? && OnlyCycles(steps)
    ensures var m := Run(key, CycleBegun(m0, kind), steps);
            m.cycle.Some? ==> m.cycle.value.kind == kind && m.cycle.value.plan == PlanFor(kind).value
  {
    if steps != [] {
      var n := |steps| - 1;
      assert steps[n] in steps;
      KindStays(key, m0, kind, steps[..n]);
      var m := Run(key, CycleBegun(m0, kind), steps[..n]);
      if m.cycle.Some? && steps[n].CycleMoves? {
        MoveKeepsPlan(key, m, m.cycle.value, steps[n].more, steps[n].pct);
      }
    }
  }

  /** ... kind by kind and family by family: which registers it has changed, and to what. */
  lemma {:induction false} CycleChangesAlone(key: Key, m0: State, kind: int16, steps: seq<Step>)
    requires m0.brew.None? && m0.cycle.None? && IsKind(kind) && OnlyCycles(steps)
    ensures var m := Run(key, CycleBegun(m0, kind), steps);
            m.cycle.Some? && CycleWritten(m.cycle.value) && !m.cycle.value.cancel ==>
              CycleChanges(key, kind, m0.nums, m.nums) && m.stock == Refitted(m0.stock, kind)
  {
    CycleWrites(key, m0.nums, kind);
    CycleAlone(key, m0, kind, steps);
    KindStays(key, m0, kind, steps);
  }

  // ---- A brew comes to its end ---------------------------------------------------------------

  /** The steps an uncancelled brew has left when no more ticks come. */
  function Left(b: BrewRun): nat
    requires b.begun <= |b.stages|
  {
    var stages := 2 * (|b.stages| - b.begun);
    match b.phase
    case Spawned => 7 + stages
    case Announcing => 6 + stages
    case NextStage => 5 + stages
    case InStage => 6 + stages
    case Waiting => 8 + stages
    case Ticked => 7 + stages
    case Ending => 4
    case Settling => 3
    case Closing => 2
    case Exiting => 1
  }

  /** An uncancelled brew on its way, on tanks nobody refills, ordered in state `m0`. */
  ghost predicate OnItsWay(m0: State, m: State) {
    m.brew.Some? &&
    var b := m.brew.value;
    && !b.cancel && !b.refilled && b.begun <= |b.stages| && (AtEnd(b) ==> b.begun == |b.stages|)
    && m.cycle == m0.cycle && m.stock == UsedBy(m0.stock, b.stages, b.begun)
    && m.past == m0.past.(since := m.past.since, completed := m.past.completed)
    && m.past.since == m0.past.since + if AtEnd(b) && b.phase != Ending then 1 else 0
  }

  /** The step's effect on the account of what is left. */
  ghost predicate MovedOn(m0: State, m: State, r: State) {
    m.brew.Some? && m.brew.value.begun <= |m.brew.value.stages| &&
    var b := m.brew.value;
    if Left(b) > 1 then OnItsWay(m0, r) && Left(r.brew.value) == Left(b) - 1 && r.brew.value.stages == b.stages
    else r == m.(brew := None) && b.begun == |b.stages| && m.past.since == m0.past.since + 1
  }

  lemma {:induction false} NextStageMovesOn(key: Key, m0: State, m: State)
    requires OnItsWay(m0, m) && m.brew.value.phase == NextStage
    ensures MovedOn(m0, m, BrewNext(key, m, m.brew.value, false, 0))
  {
  }

  lemma {:induction false} StageMovesOn(key: Key, m0: State, m: State)
    requires OnItsWay(m0, m) && !AtEnd(m.brew.value) && m.brew.value.phase != NextStage
    ensures MovedOn(m0, m, BrewNext(key, m, m.brew.value, false, 0))
  {
  }

  lemma {:induction false} EndMovesOn(key: Key, m0: State, m: State)
    requires OnItsWay(m0, m) && AtEnd(m.brew.value)
    ensures MovedOn(m0, m, BrewNext(key, m, m.brew.value, false, 0))
  {
  }

  function Moves(n: nat): seq<Step> {
    seq(n, _ => BrewMoves(false, 0))
  }

  lemma {:induction false} RunFirst(key: Key, m: State, first: Step, rest: seq<Step>)
    ensures Run(key, m, [first] + rest) == Run(key, Next(key, m, first), rest)
    decreases |rest|
  {
    var steps := [first] + rest;
    if rest == [] {
      assert steps[..0] == [];
      assert Run(key, m, steps[..0]) == m;
    } else {
      var n := |rest| - 1;
      assert steps[..|steps| - 1] == [first] + rest[..n];
      RunFirst(key, m, first, rest[..n]);
    }
  }

  lemma {:induction false} MoveIs(key: Key, m: State, b: BrewRun)
    requires m.brew == Some(b)
    ensures Next(key, m, BrewMoves(false, 0)) == BrewNext(key, m, b, false, 0)
  {
  }

  /** An uncancelled brew completes: after just so many steps of its task the machine is
      idle, and one more brew has been made since the last filling. */
  lemma {:induction false} BrewEnds(key: Key, m0: State, m: State)
    requires OnItsWay(m0, m)
    ensures var b := m.brew.value;
            var r := Run(key, m, Moves(Left(b)));
            && r.brew.None? && r.cycle == m0.cycle && r.stock == UsedBy(m0.stock, b.stages, |b.stages|)
            && r.past.since == m0.past.since + 1 && r.past.refill == m0.past.refill
    decreases Left(m.brew.value)
  {
    var b := m.brew.value;
    var next := BrewNext(key, m, b, false, 0);
    if AtEnd(b) {
      EndMovesOn(key, m0, m);
    } else if b.phase == NextStage {
      NextStageMovesOn(key, m0, m);
    } else {
      StageMovesOn(key, m0, m);
    }
    assert Moves(Left(b)) == [BrewMoves(false, 0)] + Moves(Left(b) - 1);
    RunFirst(key, m, BrewMoves(false, 0), Moves(Left(b) - 1));
    MoveIs(key, m, b);
    if Left(b) > 1 {
      BrewEnds(key, m0, next);
    } else {
      assert Moves(0) == [];
    }
  }

  // ---- A task that is cancelled comes to its end ---------------------------------------

  /** The steps a cancelled brew has left at most, whatever time its stage has. */
  function CancelLeft(phase: BrewPhase): nat {
    match phase
    case Spawned => 7
    case Announcing => 6
    case NextStage => 5
    case InStage => 6
    case Waiting => 8
    case Ticked => 7
    case Ending => 4
    case Settling => 3
    case Closing => 2
    case Exiting => 1
  }

  ghost predicate CancelledOn(m: State, b: BrewRun, r: State) {
    && (r.brew.Some? ==> r.brew.value.cancel && CancelLeft(r.brew.value.phase) < CancelLeft(b.phase))
    && r.past == m.past && r.nums == m.nums
  }

  lemma {:induction false} StageCancelMovesOn(key: Key, m: State, b: BrewRun, more: bool, pct: int16)
    requires m.brew == Some(b) && b.cancel && !AtEnd(b)
    ensures CancelledOn(m, b, BrewNext(key, m, b, more, pct))
  {
  }

  lemma {:induction false} EndCancelMovesOn(key: Key, m: State, b: BrewRun, more: bool, pct: int16)
    requires m.brew == Some(b) && b.cancel && AtEnd(b)
    ensures CancelledOn(m, b, BrewNext(key, m, b, more, pct))
  {
  }

  /** A cancelled brew is over after at most eight of its steps, and does not count. */
  lemma {:induction false} CancelledBrewEnds(key: Key, m: State, steps: seq<Step>)
    requires m.brew.Some? ==> m.brew.value.cancel && CancelLeft(m.brew.value.phase) <= |steps|
    requires forall s | s in steps :: s.BrewMoves?
    ensures var r := Run(key, m, steps); r.brew.None? && r.past == m.past && r.nums == m.nums
    decreases |steps|
  {
    if steps != [] {
      assert steps == [steps[0]] + steps[1..] && steps[0] in steps;
      RunFirst(key, m, steps[0], steps[1..]);
      if m.brew.Some? {
        if AtEnd(m.brew.value) {
          EndCancelMovesOn(key, m, m.brew.value, steps[0].more, steps[0].pct);
        } else {
          StageCancelMovesOn(key, m, m.brew.value, steps[0].more, steps[0].pct);
        }
      }
      CancelledBrewEnds(key, Next(key, m, steps[0]), steps[1..]);
    }
  }

  function CycleCancelLeft(phase: CyclePhase): nat {
    match phase
    case CycleSpawned => 11
    case Prompting => 10
    case Prompted => 9
    case Starting => 8
    case Started => 7
    case Running => 6
    case CycleWaiting => 8
    case CycleTicked => 7
    case Completing => 5
    case CycleEnding => 4
    case CycleSettling => 3
    case CycleClosing => 2
    case CycleExiting => 1
  }

  lemma {:induction false} CycleCancelMovesOn(key: Key, m: State, c: CycleRun, more: bool, pct: int16)
    requires m.cycle == Some(c) && c.cancel
    ensures var r := CycleNext(key, m, c, more, pct);
            && (r.cycle.Some? ==>
                  r.cycle.value.cancel && CycleCancelLeft(r.cycle.value.phase) < CycleCancelLeft(c.phase))
            && r.past == m.past && r.nums == m.nums && r.stock == m.stock
  {
  }

  /** A cancelled cycle is over after at most eleven of its steps, and changes nothing. */
  lemma {:induction false} CancelledCycleEnds(key: Key, m: State, steps: seq<Step>)
    requires m.cycle.Some? ==> m.cycle.value.cancel && CycleCancelLeft(m.cycle.value.phase) <= |steps|
    requires forall s | s in steps :: s.CycleMoves?
    ensures var r := Run(key, m, steps); r.cycle.None? && r.past == m.past && r.nums == m.nums && r.stock == m.stock
    decreases |steps|
  {
    if steps != [] {
      assert steps == [steps[0]] + steps[1..] && steps[0] in steps;
      RunFirst(key, m, steps[0], steps[1..]);
      if m.cycle.Some? {
        CycleCancelMovesOn(key, m, m.cycle.value, steps[0].more, steps[0].pct);
      }
      CancelledCycleEnds(key, Next(key, m, steps[0]), steps[1..]);
    }
  }

  // ---- The bound on brews is reached -------------------------------------------------

  /** The tanks after a row of espressos on a machine fresh from the factory. */
  function Espressos(n: nat): Stock {
    if n == 0 then FACTORY else UsedBy(Espressos(n - 1), ShapeOf(Espresso).stages, 2)
  }

  lemma {:induction false} OneEspresso(s: Stock)
    requires s.Ok() && s.Level(WATER) >= 3 && s.Level(TRAY) <= 98
    ensures var r := UsedBy(s, ShapeOf(Espresso).stages, 2);
            && r.Ok() && r.parts == s.parts
            && r.Level(WATER) as int == s.Level(WATER) as int - 3 && r.Level(TRAY) as int == s.Level(TRAY) as int + 2
  {
    var stages := ShapeOf(Espresso).stages;
    assert UsedBy(s, stages, 1) == Used(s, GRINDING);
    assert UsedBy(s, stages, 2) == Used(Used(s, GRINDING), COFFEE);
  }

  lemma {:induction false} EspressoLevels(n: nat)
    requires n <= 31
    ensures var s := Espressos(n);
            s.Ok() && s.parts == FACTORY.parts && s.Level(WATER) as int == 100 - 3 * n && s.Level(TRAY) as int == 2 * n
  {
    if n > 0 {
      EspressoLevels(n - 1);
      OneEspresso(Espressos(n - 1));
    }
  }

  lemma {:induction false} LowOnWater(key: Key, s: Stock)
    requires s.Ok() && s.parts == FACTORY.parts && s.Level(TRAY) <= TRAY_FULL
    ensures Fit(key, s) <==> s.Level(WATER) >= 10
    ensures s.Level(WATER) < 10 ==> Prompt(key, s) == 4
  {
  }

  /** The 31st espresso is accepted, and the 32nd is not: the machine asks for water. */
  lemma {:induction false} EspressosInARow(key: Key, n: nat)
    requires n <= 31
    ensures Fit(key, Espressos(n)) <==> n <= 30
    ensures n == 31 ==> Prompt(key, Espressos(n)) == 4
  {
    EspressoLevels(n);
    LowOnWater(key, Espressos(n));
  }

  /** An order for an espresso, and its task run to its end; again and again. */
  function Rounds(n: nat): seq<Step> {
    if n == 0 then [] else Rounds(n - 1) + ([BrewOrdered(0, false, true)] + Moves(11))
  }

  lemma {:induction false} EspressoIsBrewed(key: Key)
    ensures Brews(key, 0) && RecipeFor(key, 0) == Some(Recipe(0, Espresso))
  {
    assert RecipesOf(key)[0] == Recipe(0, Espresso);
  }

  lemma {:induction false} OrderIs(key: Key, m: State)
    requires Accepts(key, m, 0) && RecipeFor(key, 0) == Some(Recipe(0, Espresso))
    ensures var r := Ordered(key, m, 0, false);
            && Next(key, m, BrewOrdered(0, false, true)) == r && r.brew.Some?
            && r.brew.value.stages == ShapeOf(Espresso).stages && OnItsWay(m, r) && Left(r.brew.value) == 11
  {
  }

  lemma {:induction false} OneRound(key: Key, m: State)
    requires m.brew.None? && m.cycle.None? && Accepts(key, m, 0)
    ensures var r := Run(key, m, [BrewOrdered(0, false, true)] + Moves(11));
            && r.brew.None? && r.cycle.None? && r.stock == UsedBy(m.stock, ShapeOf(Espresso).stages, 2)
            && r.past.since == m.past.since + 1 && r.past.refill == m.past.refill
  {
    EspressoIsBrewed(key);
    var ordered := Ordered(key, m, 0, false);
    RunFirst(key, m, BrewOrdered(0, false, true), Moves(11));
    OrderIs(key, m);
    BrewEnds(key, m, ordered);
  }

  lemma {:induction false} OrderShows(key: Key, m: State)
    requires Sound(key, m) && m.brew.None? && m.cycle.None?
    ensures Next(key, m, BrewOrdered(0, false, true)) == m <==> !Fit(key, m.stock)
  {
    EspressoIsBrewed(key);
    OrderIsAnswered(key, m, BrewOrdered(0, false, true));
  }

  /** Idle again, after `n` espressos on a full tank. */
  ghost predicate Rested(m: State, n: nat) {
    m.brew.None? && m.cycle.None? && m.stock == Espressos(n) && m.past.since == n && m.past.refill == 100
  }

  lemma {:induction false} RestedAtFirst(key: Key, nums: Nums, tick: int32)
    ensures Rested(PoweredUp(key, FACTORY, nums, tick), 0)
  {
  }

  lemma {:induction false} OneMoreRound(key: Key, m: State, n: nat)
    requires 0 < n <= 31 && Sound(key, m) && Rested(m, n - 1)
    ensures var r := Run(key, m, [BrewOrdered(0, false, true)] + Moves(11)); Sound(key, r) && Rested(r, n)
  {
    EspressosInARow(key, n - 1);
    EspressoIsBrewed(key);
    FitMeansAccepted(key, m, 0);
    OneRound(key, m);
    RunKeepsSound(key, m, [BrewOrdered(0, false, true)] + Moves(11));
  }

  lemma {:induction false} LastRound(key: Key, m: State, n: nat)
    requires n > 0
    ensures Run(key, m, Rounds(n)) == Run(key, Run(key, m, Rounds(n - 1)), [BrewOrdered(0, false, true)] + Moves(11))
  {
    RunConcat(key, m, Rounds(n - 1), [BrewOrdered(0, false, true)] + Moves(11));
  }

  lemma {:induction false} RoundsRest(key: Key, start: State, n: nat)
    requires n <= 31 && Sound(key, start) && Rested(start, 0)
    ensures Sound(key, Run(key, start, Rounds(n))) && Rested(Run(key, start, Rounds(n)), n)
  {
    if n == 0 {
      assert Run(key, start, Rounds(0)) == start;
    } else {
      RoundsRest(key, start, n - 1);
      LastRound(key, start, n);
      OneMoreRound(key, Run(key, start, Rounds(n - 1)), n);
    }
  }

  /** On the machine itself: from a full tank, 31 espressos are ordered and completed one
      after another, as many as the bound allows, and the order for a 32nd is refused. */
  lemma {:induction false} BoundIsReached(key: Key, nums: Nums, tick: int32, n: nat)
    requires n <= 31
    ensures var m := Run(key, PoweredUp(key, FACTORY, nums, tick), Rounds(n));
            Rested(m, n) && (Next(key, m, BrewOrdered(0, false, true)) == m <==> n == 31)
  {
    var start := PoweredUp(key, FACTORY, nums, tick);
    BootIsSound(key, FACTORY, nums, tick);
    RestedAtFirst(key, nums, tick);
    RoundsRest(key, start, n);
    EspressosInARow(key, n);
    OrderShows(key, Run(key, start, Rounds(n)));
  }
}
