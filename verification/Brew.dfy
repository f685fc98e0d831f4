/** Starting and running a brew: nivona_brew_start and brew_task. */
module Brew {
  import opened Bytes
  import opened Clock
  import opened Consumables
  import opened Control
  import opened Families
  import opened Maint
  import opened Ramp
  import opened Registers
  import opened Status
  import opened Store
  import WearStore

  datatype BrewArg = BrewArg(selector: uint8, recipe: Recipe, twoCups: bool)

  // ---- What a brew uses up -------------------------------------------------------

  function Used(s: Stock, sub: int16): Stock {
    if sub == GRINDING then s.Adjusted(BEANS, -3).Adjusted(TRAY, 2)
    else if sub == COFFEE then s.Adjusted(WATER, -3)
    else if sub == WATERING then s.Adjusted(WATER, -5)
    else if sub == STEAM then s.Adjusted(WATER, -3)
    else s
  }

  function UsedBy(s: Stock, stages: seq<Stage>, n: nat): Stock
    requires n <= |stages|
  {
    if n == 0 then s else Used(UsedBy(s, stages, n - 1), stages[n - 1].sub)
  }

  function WaterCost(sub: int16): nat {
    if sub == COFFEE || sub == STEAM then 3 else if sub == WATERING then 5 else 0
  }

  function WaterUse(stages: seq<Stage>, n: nat): nat
    requires n <= |stages|
  {
    if n == 0 then 0 else WaterUse(stages, n - 1) + WaterCost(stages[n - 1].sub)
  }

  lemma {:induction false} UsedLevels(s: Stock, sub: int16)
    requires s.Ok()
    ensures var r := Used(s, sub);
            && r.Ok() && r.parts == s.parts && r.Level(FILTER) == s.Level(FILTER)
            && (s.Level(WATER) as int >= WaterCost(sub) ==>
                  r.Level(WATER) as int == s.Level(WATER) as int - WaterCost(sub))
            && s.Level(TRAY) <= r.Level(TRAY) as int <= s.Level(TRAY) as int + 2
  {
  }

  /** With enough water to begin with, the water clamp never acts: the level is the
      starting level less what the stages entered cost. */
  lemma {:induction false} WaterIsExact(s: Stock, stages: seq<Stage>, n: nat)
    requires s.Ok() && n <= |stages| && s.Level(WATER) as int >= WaterUse(stages, n)
    ensures UsedBy(s, stages, n).Ok() && UsedBy(s, stages, n).parts == s.parts
    ensures UsedBy(s, stages, n).Level(WATER) as int == s.Level(WATER) as int - WaterUse(stages, n)
    decreases n
  {
    if n > 0 {
      WaterIsExact(s, stages, n - 1);
      UsedLevels(UsedBy(s, stages, n - 1), stages[n - 1].sub);
    }
  }

  /** Every brew costs 3 to 8 percent of water. */
  lemma {:induction false} WaterUseRange(category: Category)
    ensures var stages := ShapeOf(category).stages; 3 <= WaterUse(stages, |stages|) <= 8
  {
    var stages := ShapeOf(category).stages;
    assert WaterUse(stages, 1) == WaterCost(stages[0].sub);
    if |stages| >= 2 {
      assert WaterUse(stages, 2) == WaterUse(stages, 1) + WaterCost(stages[1].sub);
    }
  }

  /** What a brew takes of water and beans, and adds to the tray, in percent. */
  function Takes(category: Category): (nat, nat, nat) {
    match category
    case Espresso => (3, 3, 2)
    case Coffee => (3, 3, 2)
    case Americano => (8, 3, 2)
    case MilkDrink => (6, 3, 2)
    case MilkOnly => (3, 0, 0)
    case HotWater => (5, 0, 0)
    case Unknown => (3, 3, 2)
  }

  function Less(level: uint8, part: nat): int {
    if level as int < part then 0 else level as int - part
  }

  function More(level: uint8, part: nat): int {
    if level as int + part > 100 then 100 else level as int + part
  }

  /** A whole brew takes just that, as far as the tanks have it, and leaves the filter and
      the parts alone. */
  lemma {:induction false} BrewTakes(category: Category, s: Stock)
    requires s.Ok()
    ensures var stages, t := ShapeOf(category).stages, Takes(category);
            var r := UsedBy(s, stages, |stages|);
            && r.parts == s.parts && |r.levels| == 4 && r.levels[3] == s.levels[3]
            && r.levels[0] as int == Less(s.levels[0], t.0)
            && r.levels[1] as int == Less(s.levels[1], t.1)
            && r.levels[2] as int == More(s.levels[2], t.2)
  {
    var stages := ShapeOf(category).stages;
    assert UsedBy(s, stages, 1) == Used(s, stages[0].sub);
    if |stages| > 1 {
      assert UsedBy(s, stages, 2) == Used(UsedBy(s, stages, 1), stages[1].sub);
    }
  }

  method UseUp(tanks: Tanks, sub: int16)
    requires tanks.Valid() && tanks.IsSaved()
    modifies tanks, tanks.levels
    ensures tanks.Valid() && tanks.IsSaved() && tanks.Model() == Used(old(tanks.Model()), sub)
  {
    if sub == GRINDING {
      tanks.Adjust(BEANS, -3);
      tanks.Adjust(TRAY, 2);
    } else if sub == COFFEE {
      tanks.Adjust(WATER, -3);
    } else if sub == WATERING {
      tanks.Adjust(WATER, -5);
    } else if sub == STEAM {
      tanks.Adjust(WATER, -3);
    }
  }

  // ---- Starting ------------------------------------------------------------------

  /** Whether a start call gets as far as claiming. */
  predicate MayStart(key: Key, selector: uint8, cycleActive: bool, manip: uint8) {
    RecipeFor(key, selector).Some? && !cycleActive && (manip == NONE || IsSoft(manip))
  }

  /** Only the low byte of the process value selects the recipe. */
  method StartBrew<K(!new)>(control: TaskControl<BrewArg>, cycles: TaskControl<K>, panel: Panel, key: Key,
                      processValue: int16, twoCups: bool, created: bool) returns (ok: bool)
    modifies control
    ensures var selector := AsUint8(processValue);
            if old(MayStart(key, selector, cycles.active, panel.manip))
            then (control.Model(), ok)
                 == Claim(old(control.Model()), BrewArg(selector, RecipeFor(key, selector).value, twoCups), created)
            else control.Model() == old(control.Model()) && !ok
  {
    var selector := AsUint8(processValue);
    var recipe := FindRecipe(RecipesOf(key), selector);
    if recipe.None? {
      return false;
    }
    var busy := cycles.IsActive();
    if busy {
      return false;
    }
    var status := panel.GetStatus();
    var soft := CurrentIsSoft(panel);
    if status.manip != NONE && !soft {
      return false;
    }
    ok := control.Start(BrewArg(selector, recipe.value, twoCups), created);
  }

  // ---- Running -------------------------------------------------------------------

  function Announced(key: Key, selector: uint8): Block {
    Block(FamilyOf(key).brewing, selector, 0, NONE, 0)
  }

  function FinalBlock(key: Key, s: Stock): Block {
    Block(FamilyOf(key).ready, 0, 0, Prompt(key, s), 0)
  }

  /** A status pushed while the brew runs. */
  predicate ShowsBrewing(b: Block, code: int16) {
    b.process == code && b.info == 0 && b.manip == NONE && b.progress <= 100
  }

  ghost predicate AllBrewing(pushed: seq<Block>, code: int16) {
    forall b | b in pushed :: ShowsBrewing(b, code)
  }

  lemma {:induction false} LayoutsOk(key: Key)
    ensures LayoutOk(FamilyOf(key).layout)
  {
  }

  method ReadTempField(store: RegisterStore, offset: int) returns (v: int32)
    requires store.Valid() && -1 <= offset < 100
    ensures v == TempField(store.Model(), offset)
  {
    if offset < 0 {
      return -1;
    }
    var has := store.HasNum(TEMP_RECIPE_BASE + offset);
    if !has {
      return -1;
    }
    v := store.GetNum(TEMP_RECIPE_BASE + offset);
  }

  method LoadOverrides(store: RegisterStore, l: Layout) returns (ov: Overrides)
    requires store.Valid() && LayoutOk(l)
    ensures ov == ReadOverrides(store.Model(), l)
  {
    var strength := ReadTempField(store, l.strength);
    var twoCups := ReadTempField(store, l.twoCups);
    var coffee := ReadTempField(store, l.coffee);
    var water := ReadTempField(store, l.water);
    var milk := ReadTempField(store, l.milk);
    var foam := ReadTempField(store, l.foam);
    ov := Overrides(strength, twoCups, coffee, water, milk, foam);
  }

  /** The clock is `spent` into stage `i`, which begins at `from` and takes `stageMs`. */
  ghost predicate Ticking(shown: seq<Block>, marks: seq<nat>, at: seq<nat>, elapsed: nat, total: uint32,
                          stages: seq<Stage>, i: nat, from: nat, spent: nat, stageMs: nat) {
    && 0 < total && i < |stages| && from == ClockAt(total, stages, i)
    && from + stageMs == ClockAt(total, stages, i + 1) < 0x1_0000_0000
    && Clocked(shown, marks, at, elapsed, total, stages) && elapsed == from + spent && spent <= stageMs
    && OnBeat(spent, 0, stageMs)
  }

  lemma {:induction false} TickingOn(shown0: seq<Block>, marks0: seq<nat>, at0: seq<nat>, elapsed0: nat,
                                     total: uint32, stages: seq<Stage>, i: nat, from: nat, spent0: nat, stageMs: nat,
                                     step: nat, b: Block, shown: seq<Block>, elapsed: uint32)
    requires Ticking(shown0, marks0, at0, elapsed0, total, stages, i, from, spent0, stageMs)
    requires spent0 < stageMs && step == if stageMs - spent0 > 500 then 500 else stageMs - spent0
    requires elapsed == AsUint32(elapsed0 + step) && b.sub == stages[i].sub
    requires shown == shown0 + [b.(progress := Shown(elapsed, total))]
    ensures Ticking(shown, marks0 + [elapsed as int], at0 + [i], elapsed, total, stages, i, from, spent0 + step,
                    stageMs)
  {
    NextBeat(spent0, step, stageMs);
    Fits32(elapsed0 + step);
    ShiftedBeat(spent0 + step, stageMs, from);
    OneMoreClocked(shown0, marks0, at0, elapsed0, total, stages, b, step, i);
  }

  lemma {:induction false} OneMoreBrewing(pushed: seq<Block>, b: Block, code: int16)
    requires AllBrewing(pushed, code) && ShowsBrewing(b, code)
    ensures AllBrewing(pushed + [b], code)
  {
  }

  /** One tick: the clock moves on, and the new progress is shown. */
  method Tick(panel: Panel, code: int16, total: uint32, shown0: seq<Block>, elapsed0: uint32, step: uint32)
    returns (shown: seq<Block>, elapsed: uint32)
    requires total > 0 && AllBrewing(shown0, code) && ShowsBrewing(panel.Model(), code)
    modifies panel
    ensures elapsed == AsUint32(elapsed0 as int + step as int)
    ensures panel.Model() == old(panel.Model()).(progress := Shown(elapsed, total))
    ensures shown == shown0 + [panel.Model()]
    ensures AllBrewing(shown, code) && ShowsBrewing(panel.Model(), code)
  {
    elapsed := AsUint32(elapsed0 as int + step as int);
    var pct := Percent(elapsed, total);
    if pct > 100 {
      pct := 100;
    }
    panel.SetProgress(pct);
    var status := panel.GetStatus();
    OneMoreBrewing(shown0, status, code);
    shown := shown0 + [status];
  }

  /** The next tick of a stage, `spent` after its start. */
  method NextTick(panel: Panel, code: int16, total: uint32, stageMs: uint32, spent0: uint32, shown0: seq<Block>,
                  elapsed0: uint32, ghost stages: seq<Stage>, ghost i: nat, ghost from: nat,
                  ghost marks0: seq<nat>, ghost at0: seq<nat>)
    returns (shown: seq<Block>, elapsed: uint32, spent: uint32, ghost marks: seq<nat>, ghost at: seq<nat>)
    requires total > 0 && AllBrewing(shown0, code) && ShowsBrewing(panel.Model(), code)
    requires spent0 < stageMs && i < |stages| && panel.sub == stages[i].sub
    modifies panel
    ensures AllBrewing(shown, code) && ShowsBrewing(panel.Model(), code) && panel.sub == stages[i].sub
    ensures spent0 < spent <= stageMs
    ensures Ticking(shown0, marks0, at0, elapsed0, total, stages, i, from, spent0, stageMs)
            ==> Ticking(shown, marks, at, elapsed, total, stages, i, from, spent, stageMs)
  {
    var step := stageMs - spent0;
    if step > TICK_MS {
      step := TICK_MS;
    }
    ghost var b := panel.Model();
    spent := spent0 + step;
    shown, elapsed := Tick(panel, code, total, shown0, elapsed0, step);
    marks, at := marks0 + [elapsed as int], at0 + [i];
    if Ticking(shown0, marks0, at0, elapsed0, total, stages, i, from, spent0, stageMs) {
      TickingOn(shown0, marks0, at0, elapsed0, total, stages, i, from, spent0, stageMs, step, b, shown, elapsed);
    }
  }

  /** The ticks of one stage, from where the clock stands at its start. */
  method RunTicks(panel: Panel, code: int16, total: uint32, stageMs: uint32, shown0: seq<Block>, elapsed0: uint32,
                  cancelAt: Option<nat>, looks0: nat, ghost stages: seq<Stage>, ghost i: nat,
                  ghost marks0: seq<nat>, ghost at0: seq<nat>)
    returns (shown: seq<Block>, elapsed: uint32, looks: nat, ghost marks: seq<nat>, ghost at: seq<nat>,
             ghost spent: nat)
    requires AllBrewing(shown0, code) && ShowsBrewing(panel.Model(), code) && (stageMs > 0 ==> total > 0)
    requires i < |stages| && panel.sub == stages[i].sub
    modifies panel
    ensures AllBrewing(shown, code) && ShowsBrewing(panel.Model(), code) && looks >= looks0
    ensures !SeesCancel(cancelAt, looks) ==> spent == stageMs as int
    ensures Ticking(shown0, marks0, at0, elapsed0, total, stages, i, elapsed0, 0, stageMs)
            ==> Ticking(shown, marks, at, elapsed, total, stages, i, elapsed0, spent, stageMs)
  {
    shown, elapsed, looks, marks, at := shown0, elapsed0, looks0, marks0, at0;
    ghost var fits := Ticking(shown0, marks0, at0, elapsed0, total, stages, i, elapsed0, 0, stageMs);
    var stageElapsed: uint32 := 0;
    while stageElapsed < stageMs && !SeesCancel(cancelAt, looks)
      invariant stageElapsed <= stageMs && looks >= looks0
      invariant AllBrewing(shown, code) && ShowsBrewing(panel.Model(), code) && panel.sub == stages[i].sub
      invariant fits ==> Ticking(shown, marks, at, elapsed, total, stages, i, elapsed0, stageElapsed, stageMs)
    {
      looks := looks + 1;
      shown, elapsed, stageElapsed, marks, at :=
        NextTick(panel, code, total, stageMs, stageElapsed, shown, elapsed, stages, i, elapsed0, marks, at);
    }
    spent := stageElapsed;
  }

  lemma {:induction false} NoTotalNoTime(weight: uint8, weightSum: uint32)
    requires weightSum > 0
    ensures StageTime(0, weight, weightSum) == 0
  {
    assert 0 * weight as int == 0;
  }

  /** One stage: what it uses up, its sub-process code, its ticks. */
  method RunStage(tanks: Tanks, panel: Panel, code: int16, total: uint32, stages: seq<Stage>, i: nat, weightSum: uint32,
                  shown0: seq<Block>, elapsed0: uint32, cancelAt: Option<nat>, looks0: nat,
                  ghost marks0: seq<nat>, ghost at0: seq<nat>)
    returns (shown: seq<Block>, elapsed: uint32, looks: nat, ghost marks: seq<nat>, ghost at: seq<nat>)
    requires tanks.Valid() && tanks.IsSaved() && i < |stages|
    requires AllBrewing(shown0, code) && ShowsBrewing(panel.Model(), code)
    requires weightSum == WeightSum(stages)
    modifies tanks, tanks.levels, panel
    ensures tanks.Valid() && tanks.IsSaved() && tanks.Model() == Used(old(tanks.Model()), stages[i].sub)
    ensures AllBrewing(shown, code) && ShowsBrewing(panel.Model(), code) && looks >= looks0
    ensures ClockKeeps(total, stages) && RanFor(shown0, marks0, at0, elapsed0, total, stages, i, false)
            ==> RanFor(shown, marks, at, elapsed, total, stages, i + 1, SeesCancel(cancelAt, looks))
  {
    var stageMs := StageTime(total, stages[i].weight, weightSum);
    if total == 0 {
      NoTotalNoTime(stages[i].weight, weightSum);
    } else {
      ClockGrows(total, stages, i + 1, |stages|);
    }
    UseUp(tanks, stages[i].sub);
    panel.SetProcess(code, stages[i].sub);
    ghost var spent;
    shown, elapsed, looks, marks, at, spent :=
      RunTicks(panel, code, total, stageMs, shown0, elapsed0, cancelAt, looks0, stages, i, marks0, at0);
  }

  /** What a brew in range showed is the true share of its time. */
  lemma {:induction false} RanOnTime(shown: seq<Block>, marks: seq<nat>, at: seq<nat>, elapsed: nat, total: uint32,
                                     stages: seq<Stage>, begun: nat, cancelled: bool)
    requires InRange(total, stages) && RanFor(shown, marks, at, elapsed, total, stages, begun, cancelled)
    ensures OnTime(shown, marks, elapsed, total) && TrueTimes(total, stages) && Climbs(shown)
    ensures begun == |stages| && !cancelled && total as int >= 100 * (|stages| - 1) ==> EndsNear100(shown)
  {
    InRangeFits(total, stages);
    ClockIsTrue(total, stages);
    ClockGrows(total, stages, begun, |stages|);
    ClockIsOnTime(shown, marks, elapsed, total);
    ProgressClimbs(shown, marks, total, elapsed, stages);
  }

  lemma {:induction false} WithinTotal(total: uint32, stages: seq<Stage>, begun: nat)
    requires IsShape(stages) && begun <= |stages| && total as int < SPAN
    ensures ClockAt(total, stages, begun) <= total
  {
    ShapeFits(total, stages);
    ClockIsTrue(total, stages);
    ClockGrows(total, stages, begun, |stages|);
  }

  /** What a brew showed, by its total and by how long it ran: in range, the true share,
      and 99 or more at the end; and for the tables' shapes, in range or not, when its
      progress fell and when it did not end near 100. */
  ghost predicate ShowedTime(shown: seq<Block>, marks: seq<nat>, elapsed: nat, total: uint32, stages: seq<Stage>,
                             cancelled: bool) {
    && (InRange(total, stages) ==> OnTime(shown, marks, elapsed, total) && TrueTimes(total, stages) && Climbs(shown))
    && (InRange(total, stages) && total as int >= 100 * (|stages| - 1) && !cancelled ==> EndsNear100(shown))
    && (IsShape(stages) && 0 < total as int <= LONGEST ==> (Climbs(shown) <==> elapsed < SPAN))
    && (IsShape(stages) && total as int >= 200 && !cancelled ==>
          (EndsNear100(shown) <==> elapsed < SPAN && total as int < NO_END))
  }

  lemma {:induction false} RanAsShown(shown: seq<Block>, marks: seq<nat>, at: seq<nat>, elapsed: nat, total: uint32,
                                      stages: seq<Stage>, begun: nat, cancelled: bool)
    requires ClockKeeps(total, stages) && RanFor(shown, marks, at, elapsed, total, stages, begun, cancelled)
    requires cancelled || begun == |stages|
    ensures ShowedTime(shown, marks, elapsed, total, stages, cancelled)
  {
    if InRange(total, stages) {
      RanOnTime(shown, marks, at, elapsed, total, stages, begun, cancelled);
    }
    if IsShape(stages) {
      if total as int < SPAN {
        WithinTotal(total, stages, begun);
      }
      if total as int <= LONGEST {
        ClimbsIff(shown, marks, elapsed, total);
      }
      if total as int >= 200 && !cancelled {
        EndsIff(shown, marks, total, stages);
      }
    }
  }

  /** No clock in range, and no shape's clock, passes 32 bits. */
  lemma {:induction false} ClockOfRange(total: uint32, stages: seq<Stage>)
    ensures InRange(total, stages) || (IsShape(stages) && 0 < total) ==> ClockKeeps(total, stages)
  {
    if InRange(total, stages) {
      InRangeFits(total, stages);
      ClockIsTrue(total, stages);
    } else if IsShape(stages) {
      ShapeKeeps(total, stages, |stages|);
    }
  }

  lemma {:induction false} StagesAsShown(shown: seq<Block>, marks: seq<nat>, at: seq<nat>, elapsed: nat, total: uint32,
                                         stages: seq<Stage>, begun: nat, cancelled: bool)
    requires ClockKeeps(total, stages) ==> RanFor(shown, marks, at, elapsed, total, stages, begun, cancelled)
    requires cancelled || begun == |stages|
    ensures InRange(total, stages) || (IsShape(stages) && 0 < total) ==>
              ClockKeeps(total, stages) && ShowedTime(shown, marks, elapsed, total, stages, cancelled)
  {
    ClockOfRange(total, stages);
    if ClockKeeps(total, stages) {
      RanAsShown(shown, marks, at, elapsed, total, stages, begun, cancelled);
    }
  }

  /** The stages in turn, until done or cancelled. */
  method RunStages(tanks: Tanks, panel: Panel, code: int16, total: uint32, stages: seq<Stage>, cancelAt: Option<nat>)
    returns (shown: seq<Block>, begun: nat, looks: nat, ghost marks: seq<nat>, ghost at: seq<nat>,
             ghost elapsed: uint32)
    requires tanks.Valid() && tanks.IsSaved() && ShowsBrewing(panel.Model(), code)
    modifies tanks, tanks.levels, panel
    ensures tanks.Valid() && tanks.IsSaved()
    ensures begun <= |stages| && tanks.Model() == UsedBy(old(tanks.Model()), stages, begun)
    ensures AllBrewing(shown, code) && ShowsBrewing(panel.Model(), code)
    ensures !SeesCancel(cancelAt, looks) ==> begun == |stages|
    ensures ClockKeeps(total, stages) ==>
              RanFor(shown, marks, at, elapsed, total, stages, begun, SeesCancel(cancelAt, looks))
    ensures InRange(total, stages) || (IsShape(stages) && 0 < total) ==>
              ClockKeeps(total, stages) && ShowedTime(shown, marks, elapsed, total, stages, SeesCancel(cancelAt, looks))
  {
    var weightSum := SumWeights(stages);
    var elapsedMs: uint32 := 0;
    marks, at := [], [];
    shown, begun, looks := [], 0, 0;
    while begun < |stages| && !SeesCancel(cancelAt, looks)
      invariant begun <= |stages| && tanks.Valid() && tanks.IsSaved()
      invariant tanks.Model() == UsedBy(old(tanks.Model()), stages, begun)
      invariant AllBrewing(shown, code) && ShowsBrewing(panel.Model(), code)
      invariant ClockKeeps(total, stages)
                ==> RanFor(shown, marks, at, elapsedMs, total, stages, begun, SeesCancel(cancelAt, looks))
      decreases |stages| - begun
    {
      looks := looks + 1;
      shown, elapsedMs, looks, marks, at :=
        RunStage(tanks, panel, code, total, stages, begun, weightSum, shown, elapsedMs, cancelAt, looks, marks, at);
      begun := begun + 1;
    }
    elapsed := elapsedMs;
    StagesAsShown(shown, marks, at, elapsed, total, stages, begun, SeesCancel(cancelAt, looks));
  }

  /** The time the brew is to take, by what the client asked for. */
  ghost function AskedMs(key: Key, arg: BrewArg, r: Registers): nat {
    LayoutsOk(key);
    NoBrewIsShort(arg.recipe.category, arg.twoCups, ReadOverrides(r, FamilyOf(key).layout));
    TotalMs(arg.recipe.category, arg.twoCups, ReadOverrides(r, FamilyOf(key).layout))
  }

  /** Whether that fits the brew's clock. */
  ghost predicate AskedFits(key: Key, arg: BrewArg, r: Registers) {
    LayoutsOk(key);
    ClockFits(arg.recipe.category, arg.twoCups, ReadOverrides(r, FamilyOf(key).layout))
  }

  /** What a client wrote to a register, or 0 if that is not positive. */
  function Wrote(r: Registers, id: int16): int {
    Positive(Num(r.num, id))
  }

  /** The sum of the volumes asked for, where the family's recipe has them. */
  function VolumeAsked(key: Key, r: Registers): int32 {
    if key == F600 then AsInt32(Wrote(r, 9006) + Wrote(r, 9007) + Wrote(r, 9009))
    else if key == F700 || key == F79x || key == F8000 then
      AsInt32(Wrote(r, 9006) + Wrote(r, 9007) + Wrote(r, 9008) + Wrote(r, 9009))
    else AsInt32(Wrote(r, 9010) + Wrote(r, 9011) + Wrote(r, 9012) + Wrote(r, 9013))
  }

  lemma {:induction false} FieldWrote(r: Registers, offset: int)
    requires 0 <= offset < 100
    ensures Positive(TempField(r, offset)) == Wrote(r, 9001 + offset)
  {
  }

  lemma {:induction false} SmallAskedFor(key: Key, r: Registers)
    requires key == F600 || key == F700 || key == F79x || key == F8000
    ensures LayoutOk(FamilyOf(key).layout) && ReadOverrides(r, FamilyOf(key).layout).Fluid() == VolumeAsked(key, r)
  {
    FieldWrote(r, 5);
    FieldWrote(r, 6);
    FieldWrote(r, 7);
    FieldWrote(r, 8);
  }

  lemma {:induction false} LargeAskedFor(key: Key, r: Registers)
    requires key == F900 || key == F900Light || key == F1030 || key == F1040
    ensures LayoutOk(FamilyOf(key).layout) && ReadOverrides(r, FamilyOf(key).layout).Fluid() == VolumeAsked(key, r)
  {
    FieldWrote(r, 9);
    FieldWrote(r, 10);
    FieldWrote(r, 11);
    FieldWrote(r, 12);
  }

  lemma {:induction false} AskedFor(key: Key, r: Registers)
    ensures LayoutOk(FamilyOf(key).layout)
    ensures var ov := ReadOverrides(r, FamilyOf(key).layout);
            Positive(ov.strength) == Wrote(r, 9002) && ov.Fluid() == VolumeAsked(key, r)
  {
    FieldWrote(r, 1);
    if key == F600 || key == F700 || key == F79x || key == F8000 {
      SmallAskedFor(key, r);
    } else {
      LargeAskedFor(key, r);
    }
  }

  /** The plain time of one cup. */
  function CupMs(category: Category): int {
    match category
    case Espresso => 20000
    case Coffee => 28000
    case Americano => 35000
    case MilkDrink => 45000
    case MilkOnly => 20000
    case HotWater => 15000
    case Unknown => 28000
  }

  /** How long a brew takes, by what a client wrote before it: 15 percent more for each unit
      of strength, and in proportion to the volume, with 80 ml the plain recipe. */
  lemma {:induction false} TimeAskedIs(key: Key, arg: BrewArg, r: Registers)
    ensures var cups, volume := if arg.twoCups then 2 else 1, VolumeAsked(key, r);
            var ml := if volume <= 0 then 80 else if volume < 40 then 40 else if volume > 320 then 320 else volume;
            AskedMs(key, arg, r) == CupMs(arg.recipe.category) * cups * ((20 + 3 * Wrote(r, 9002)) * ml) / 1600
  {
    AskedFor(key, r);
    TotalIs(arg.recipe.category, arg.twoCups, ReadOverrides(r, FamilyOf(key).layout));
  }

  /** A float converted to 32 bits: C leaves open what comes of one that does not fit. */
  function Converted(x: int, other: uint32): uint32 {
    if 0 <= x < 0x1_0000_0000 then x else other
  }

  /** The time the brew is to take, in 32 bits. */
  method PlanBrew(key: Key, arg: BrewArg, store: RegisterStore, other: uint32) returns (total: uint32)
    requires store.Valid()
    ensures total == Converted(AskedMs(key, arg, store.Model()), other)
  {
    LayoutsOk(key);
    var ov := LoadOverrides(store, FamilyOf(key).layout);
    total := Converted(TotalMs(arg.recipe.category, arg.twoCups, ov), other);
  }

  /** The clock of a brew whose time a 32-bit word holds: how it ran; that its progress
      fell exactly if the clock reached the span; and that, not cancelled, it ended near
      100 exactly if what was asked for fits the clock. */
  ghost predicate KeptTime(key: Key, arg: BrewArg, r: Registers, shown: seq<Block>, marks: seq<nat>, at: seq<nat>,
                           elapsed: nat, begun: nat, cancelled: bool) {
    var total, stages, fits := AskedMs(key, arg, r), ShapeOf(arg.recipe.category).stages, AskedFits(key, arg, r);
    total < 0x1_0000_0000 ==>
      && RanFor(shown, marks, at, elapsed, total, stages, begun, cancelled)
      && (total <= LONGEST ==> (Climbs(shown) <==> elapsed < SPAN))
      && (!cancelled ==> (EndsNear100(shown) <==> fits))
      && (!cancelled && 10 * total < 0x1_0000_0000 ==> (Climbs(shown) <==> fits))
      && (fits ==> OnTime(shown, marks, elapsed, total) && TrueTimes(total, stages) && Climbs(shown))
  }

  lemma {:induction false} LongEnough(key: Key, arg: BrewArg, r: Registers)
    ensures AskedMs(key, arg, r) >= 7500
  {
    NoBrewIsShort(arg.recipe.category, arg.twoCups, ReadOverrides(r, FamilyOf(key).layout));
  }

  lemma {:induction false} TimeIsKept(key: Key, arg: BrewArg, r: Registers, shown: seq<Block>, marks: seq<nat>,
                                      at: seq<nat>, elapsed: nat, begun: nat, cancelled: bool)
    requires var total, stages := AskedMs(key, arg, r), ShapeOf(arg.recipe.category).stages;
             total < 0x1_0000_0000 ==>
               RanFor(shown, marks, at, elapsed, total, stages, begun, cancelled) && (cancelled || begun == |stages|)
    ensures KeptTime(key, arg, r, shown, marks, at, elapsed, begun, cancelled)
  {
    var total, stages := AskedMs(key, arg, r), ShapeOf(arg.recipe.category).stages;
    LayoutsOk(key);
    var ov := ReadOverrides(r, FamilyOf(key).layout);
    if total < 0x1_0000_0000 {
      EveryShape(arg.recipe.category);
      NoBrewIsShort(arg.recipe.category, arg.twoCups, ov);
      ShapeKeeps(total, stages, |stages|);
      InRangeIff(arg.recipe.category, arg.twoCups, ov);
      RanAsShown(shown, marks, at, elapsed, total, stages, begun, cancelled);
      if !cancelled {
        EndsNear100Iff(arg.recipe.category, arg.twoCups, ov, shown, marks, elapsed);
      }
    }
  }

  /** The stages of a brew, with what its clock showed. */
  method Pour(key: Key, arg: BrewArg, tanks: Tanks, panel: Panel, total: uint32, cancelAt: Option<nat>,
              ghost r: Registers, ghost other: uint32)
    returns (shown: seq<Block>, begun: nat, looks: nat, ghost marks: seq<nat>, ghost at: seq<nat>,
             ghost elapsed: uint32)
    requires tanks.Valid() && tanks.IsSaved() && ShowsBrewing(panel.Model(), FamilyOf(key).brewing)
    requires total == Converted(AskedMs(key, arg, r), other)
    modifies tanks, tanks.levels, panel
    ensures tanks.Valid() && tanks.IsSaved()
    ensures var stages := ShapeOf(arg.recipe.category).stages;
            && begun <= |stages| && tanks.Model() == UsedBy(old(tanks.Model()), stages, begun)
            && (!SeesCancel(cancelAt, looks) ==> begun == |stages|)
    ensures AllBrewing(shown, FamilyOf(key).brewing) && ShowsBrewing(panel.Model(), FamilyOf(key).brewing)
    ensures KeptTime(key, arg, r, shown, marks, at, elapsed, begun, SeesCancel(cancelAt, looks))
  {
    var stages := ShapeOf(arg.recipe.category).stages;
    shown, begun, looks, marks, at, elapsed :=
      RunStages(tanks, panel, FamilyOf(key).brewing, total, stages, cancelAt);
    EveryShape(arg.recipe.category);
    LongEnough(key, arg, r);
    TimeIsKept(key, arg, r, shown, marks, at, elapsed, begun, SeesCancel(cancelAt, looks));
  }

  method Announce(panel: Panel, code: int16, selector: uint8) returns (status: Block)
    modifies panel
    ensures status == panel.Model() == Block(code, selector, 0, NONE, 0)
  {
    panel.SetProcess(code, selector);
    panel.SetProgress(0);
    panel.SetInfo(0);
    panel.SetManipulation(NONE);
    status := panel.GetStatus();
  }

  /** The way back to ready. */
  method WindUp(key: Key, selector: uint8, tanks: Tanks, panel: Panel, store: RegisterStore,
                localTick0: int32, cancelled: bool)
    returns (status: Block, localTick: int32)
    requires tanks.Valid() && store.Valid() && panel.info == 0
    modifies panel, store, store.num
    ensures store.Valid() && status == panel.Model() == FinalBlock(key, tanks.Model())
    ensures (store.Model(), localTick)
            == if cancelled then (old(store.Model()), localTick0)
               else WearStore.AfterBrewIn(old(store.Model()), StatsOf(key), selector, localTick0)
  {
    panel.SetProcess(FamilyOf(key).ready, 0);
    panel.SetProgress(0);
    localTick := localTick0;
    if !cancelled {
      localTick := WearStore.ApplyWear(store, StatsOf(key), selector, localTick0);
    }
    Reevaluate(key, tanks, panel);
    status := panel.GetStatus();
  }

  /** One brew, on tanks and a panel that nothing else touches meanwhile: `begun` of
      its stages are entered, and their ticks shown between the announcement and the
      final status.  The registers change only if no cancel was seen.  `other` is the time
      it takes if what is asked for does not fit 32 bits. */
  method RunBrew(key: Key, arg: BrewArg, tanks: Tanks, panel: Panel, store: RegisterStore,
                 localTick0: int32, cancelAt: Option<nat>, other: uint32)
    returns (pushed: seq<Block>, localTick: int32, ghost shown: seq<Block>, ghost begun: nat, ghost cancelled: bool,
             ghost marks: seq<nat>, ghost at: seq<nat>, ghost elapsed: nat)
    requires tanks.Valid() && tanks.IsSaved() && store.Valid()
    modifies tanks, tanks.levels, panel, store, store.num
    ensures tanks.Valid() && tanks.IsSaved() && store.Valid()
    ensures var stages := ShapeOf(arg.recipe.category).stages;
            && begun <= |stages| && (cancelAt.None? ==> !cancelled) && (!cancelled ==> begun == |stages|)
            && tanks.Model() == UsedBy(old(tanks.Model()), stages, begun)
    ensures pushed == [Announced(key, arg.selector)] + shown + [panel.Model()]
    ensures AllBrewing(shown, FamilyOf(key).brewing) && panel.Model() == FinalBlock(key, tanks.Model())
    ensures (store.Model(), localTick)
            == if cancelled then (old(store.Model()), localTick0)
               else WearStore.AfterBrewIn(old(store.Model()), StatsOf(key), arg.selector, localTick0)
    ensures KeptTime(key, arg, old(store.Model()), shown, marks, at, elapsed, begun, cancelled)
  {
    var code := FamilyOf(key).brewing;
    ghost var r := store.Model();
    var total := PlanBrew(key, arg, store, other);
    var announced := Announce(panel, code, arg.selector);
    var ticks, entered, looks;
    ghost var clock;
    ticks, entered, looks, marks, at, clock := Pour(key, arg, tanks, panel, total, cancelAt, r, other);
    shown, begun, cancelled, elapsed := ticks, entered, SeesCancel(cancelAt, looks), clock;
    var last;
    last, localTick := WindUp(key, arg.selector, tanks, panel, store, localTick0, SeesCancel(cancelAt, looks));
    pushed := [announced] + ticks + [last];
  }
}
