/** Maintenance cycles: nivona_maint_cycle.c. */
module Cycle {
  import opened Brew
  import opened Bytes
  import opened Clock
  import opened Consumables
  import opened Control
  import opened Families
  import opened Maint
  import opened Registers
  import opened Status
  import opened Store
  import opened Wear
  import opened WearStore

  // Kinds, as the process codes they are shown with.
  const RINSE: int16 := 9
  const DESCALE: int16 := 10
  const FILTER_INSERT: int16 := 11
  const FILTER_REPLACE: int16 := 12
  const FILTER_REMOVE: int16 := 13
  const EASY_CLEAN: int16 := 17
  const INTENSIVE_CLEAN: int16 := 19
  const EVAPORATING: int16 := 20
  const BUSY: int16 := 99

  datatype Counter = NoCounter | CleanCoffee | Rinse | FilterChange | Descale

  /** `prep` is the prompt raised first, `pct` and `warn` the gauge and flag reset on
      completion; 0 for none. */
  datatype Plan = Plan(kind: int16, totalMs: uint32, prep: uint8, counter: Counter, pct: int16, warn: int16)

  const PLANS: seq<Plan> :=
    [Plan(DESCALE, 180000, FILL_WATER, Descale, DESCALE_PCT, DESCALE_WARN),
     Plan(EASY_CLEAN, 45000, FLUSH_REQUIRED, Rinse, 0, 0),
     Plan(INTENSIVE_CLEAN, 90000, FILL_POWDER, CleanCoffee, BREW_UNIT_PCT, BREW_UNIT_WARN),
     Plan(FILTER_INSERT, 30000, FLUSH_REQUIRED, FilterChange, FILTER_PCT, FILTER_WARN),
     Plan(FILTER_REPLACE, 30000, FLUSH_REQUIRED, FilterChange, FILTER_PCT, FILTER_WARN),
     Plan(FILTER_REMOVE, 20000, NONE, NoCounter, FILTER_PCT, FILTER_WARN),
     Plan(EVAPORATING, 60000, NONE, Rinse, 0, 0),
     Plan(RINSE, 20000, NONE, Rinse, 0, 0)]

  function PlanIn(plans: seq<Plan>, kind: int16): Option<Plan> {
    if plans == [] then None
    else if plans[0].kind == kind then Some(plans[0])
    else PlanIn(plans[1..], kind)
  }

  function PlanFor(kind: int16): Option<Plan> {
    PlanIn(PLANS, kind)
  }

  method FindPlan(kind: int16) returns (p: Option<Plan>)
    ensures p == PlanFor(kind)
  {
    for i := 0 to |PLANS|
      invariant PlanFor(kind) == PlanIn(PLANS[i..], kind)
    {
      if PLANS[i].kind == kind {
        return Some(PLANS[i]);
      }
    }
    return None;
  }

  lemma {:induction false} PlanInIs(plans: seq<Plan>, kind: int16)
    ensures var p := PlanIn(plans, kind); p.Some? ==> p.value in plans && p.value.kind == kind
    ensures PlanIn(plans, kind).Some? <==> exists p | p in plans :: p.kind == kind
  {
    if plans != [] {
      PlanInIs(plans[1..], kind);
      assert forall p :: p in plans <==> p == plans[0] || p in plans[1..];
    }
  }

  /** The kinds there are, by their codes. */
  predicate IsKind(kind: int16) {
    kind == 9 || kind == 10 || kind == 11 || kind == 12 || kind == 13 || kind == 17 || kind == 19 || kind == 20
  }

  /** How long a cycle of a kind takes. */
  function CycleMs(kind: int16): int {
    if kind == 10 then 180000
    else if kind == 19 then 90000
    else if kind == 20 then 60000
    else if kind == 17 then 45000
    else if kind == 11 || kind == 12 then 30000
    else 20000
  }

  /** What it asks for first: water to descale, powder to clean, a flush for a filter; 0
      for nothing. */
  function FirstPrompt(kind: int16): uint8 {
    if kind == 10 then 4 else if kind == 19 then 6 else if kind == 11 || kind == 12 || kind == 17 then 20 else 0
  }

  lemma {:induction false} PlanHas(kind: int16)
    requires IsKind(kind)
    ensures PlanFor(kind).Some?
  {
    PlanInIs(PLANS, kind);
    assert PLANS[0].kind == 10 && PLANS[1].kind == 17 && PLANS[2].kind == 19 && PLANS[3].kind == 11;
    assert PLANS[4].kind == 12 && PLANS[5].kind == 13 && PLANS[6].kind == 20 && PLANS[7].kind == 9;
  }

  /** There is a plan for just these kinds, and it takes as long and asks for what it should. */
  lemma {:induction false} PlansAre(kind: int16)
    ensures PlanFor(kind).Some? <==> IsKind(kind)
    ensures IsKind(kind) ==>
              var p := PlanFor(kind).value; p.totalMs as int == CycleMs(kind) && p.prep == FirstPrompt(kind)
  {
    PlanInIs(PLANS, kind);
    if IsKind(kind) {
      PlanHas(kind);
    }
  }

  lemma {:induction false} PlansFit(kind: int16)
    requires PlanFor(kind).Some?
    ensures var p := PlanFor(kind).value; p.kind == kind && 0 < p.totalMs && 100 * p.totalMs as int < 0x1_0000_0000
  {
    PlanInIs(PLANS, kind);
  }

  function CounterId(s: Stats, counter: Counter): int16 {
    match counter
    case NoCounter => 0
    case CleanCoffee => s.cleanCoffee
    case Rinse => s.rinse
    case FilterChange => s.filterChange
    case Descale => s.descale
  }

  /** The process code shown while the cycle runs. */
  function EmitCode(key: Key, kind: int16): int16 {
    if kind == FamilyOf(key).brewing || kind == FamilyOf(key).ready then BUSY else kind
  }

  /** A running cycle never looks like a brew or like an idle machine; the busy code
      stands in for one kind only. */
  lemma {:induction false} EmitCodeIsApart(key: Key, kind: int16)
    requires PlanFor(kind).Some?
    ensures EmitCode(key, kind) != BrewingCode(key) && EmitCode(key, kind) != ReadyCode(key)
    ensures EmitCode(key, kind) == if kind == 11 && key != F8000 then 99 else kind
  {
    FamilyIs(key);
    PlansAre(kind);
  }

  // ---- What a completed cycle changes ------------------------------------------------

  function SetIf(m: Nums, id: int16, value: int32): Nums {
    if id != 0 then m[id := value] else m
  }

  function PutIf(r: Registers, id: int16, value: int32): Registers {
    if id != 0 then r.PutNum(id, value) else r
  }

  function ResetOn(m: Nums, plan: Plan): Nums {
    SetIf(SetIf(m, plan.pct, 100), plan.warn, 0)
  }

  /** The registers, on a plain map. */
  function AfterCycle(m: Nums, s: Stats, plan: Plan): Nums {
    var id := CounterId(s, plan.counter);
    ResetOn(SetIf(m, id, AsInt32(Num(m, id) as int + 1)), plan)
  }

  function BumpedIf(r: Registers, id: int16): Registers {
    PutIf(r, id, AsInt32(Num(r.num, id) as int + 1))
  }

  function ResetIn(r: Registers, plan: Plan): Registers {
    PutIf(PutIf(r, plan.pct, 100), plan.warn, 0)
  }

  /** The registers, in the store. */
  function AfterCycleIn(r: Registers, s: Stats, plan: Plan): Registers {
    var id := CounterId(s, plan.counter);
    ResetIn(BumpedIf(r, id), plan)
  }

  function Refitted(s: Stock, kind: int16): Stock {
    if kind == FILTER_INSERT || kind == FILTER_REPLACE then s.WithLevel(FILTER, 100)
    else if kind == FILTER_REMOVE then s.WithLevel(FILTER, 0)
    else s
  }

  /** A cycle's counter is no gauge, no cup counter and not the total; the gauge it
      resets goes with the flag it clears. */
  ghost predicate PlanApart(s: Stats, plan: Plan) {
    var id := CounterId(s, plan.counter);
    && (id != 0 ==> 211 <= id < 600 && id != s.total)
    && ((plan.pct, plan.warn) == (0, 0) || (plan.pct, plan.warn) == (FILTER_PCT, FILTER_WARN)
        || (plan.pct, plan.warn) == (BREW_UNIT_PCT, BREW_UNIT_WARN)
        || (plan.pct, plan.warn) == (DESCALE_PCT, DESCALE_WARN))
  }

  lemma {:induction false} PlansApart(key: Key, kind: int16)
    requires PlanFor(kind).Some?
    ensures PlanApart(StatsOf(key), PlanFor(kind).value)
  {
    PlanInIs(PLANS, kind);
  }

  lemma {:induction false} PlanWrites(s: Stats, m: Nums, p: Plan)
    requires PlanApart(s, p)
    ensures forall id: int16 | id != 0 ::
              Num(AfterCycle(m, s, p), id)
              == (if id == p.warn then 0
                  else if id == p.pct then 100
                  else if id == CounterId(s, p.counter) then AsInt32(Num(m, id) as int + 1)
                  else Num(m, id))
  {
  }

  /** The gauge a cycle of a kind fills, whose flag has the id after it; 0 for none. */
  function GaugeOf(kind: int16): int16 {
    if kind == 10 then 600 else if kind == 19 then 610 else if 11 <= kind <= 13 then 640 else 0
  }

  /** The counter it raises; 0 for none. */
  function CounterOf(key: Key, kind: int16): int16 {
    if !HasCounters(key) || kind == 13 then 0
    else if kind == 10 then 220 + Shift(key)
    else if kind == 19 then 214 + Shift(key)
    else if kind == 11 || kind == 12 then 219 + Shift(key)
    else 216 + Shift(key)
  }

  lemma {:induction false} PlanFills(kind: int16)
    requires IsKind(kind)
    ensures PlanFor(kind).Some?
    ensures var p, gauge := PlanFor(kind).value, GaugeOf(kind);
            p.pct == gauge && p.warn == if gauge == 0 then 0 else gauge + 1
  {
    PlansAre(kind);
    PlanInIs(PLANS, kind);
  }

  lemma {:induction false} PlanRaises(kind: int16)
    requires IsKind(kind)
    ensures PlanFor(kind).Some?
    ensures PlanFor(kind).value.counter
            == if kind == 13 then NoCounter else if kind == 10 then Descale else if kind == 19 then CleanCoffee
               else if kind == 11 || kind == 12 then FilterChange else Rinse
  {
    PlansAre(kind);
    PlanInIs(PLANS, kind);
  }

  /** What a completed cycle does to every register: its counter goes up by one, its
      gauge is full again with the flag down, and all others stay. */
  ghost predicate CycleChanges(key: Key, kind: int16, m: Nums, r: Nums) {
    var gauge := GaugeOf(kind);
    forall id: int16 | id != 0 ::
      Num(r, id)
      == if gauge != 0 && id == gauge then 100
         else if gauge != 0 && id == gauge + 1 then 0
         else if id == CounterOf(key, kind) then AsInt32(Num(m, id) as int + 1)
         else Num(m, id)
  }

  lemma {:induction false} CycleWrites(key: Key, m: Nums, kind: int16)
    requires IsKind(kind)
    ensures PlanFor(kind).Some?
    ensures CycleChanges(key, kind, m, AfterCycle(m, StatsOf(key), PlanFor(kind).value))
  {
    PlanFills(kind);
    PlanRaises(kind);
    StatsAre(key);
    PlansApart(key, kind);
    PlanWrites(StatsOf(key), m, PlanFor(kind).value);
  }

  /** What it does to the filter: full after one is put in, empty after it is taken out. */
  lemma {:induction false} FilterIs(s: Stock, kind: int16)
    requires s.Ok()
    ensures Refitted(s, kind)
            == if kind == 11 || kind == 12 then s.(levels := s.levels[3 := 100])
               else if kind == 13 then s.(levels := s.levels[3 := 0]) else s
  {
  }

  /** A cycle leaves the flags tracking their gauges, and the cup counters and the
      total alone. */
  lemma {:induction false} CycleKeepsFlags(s: Stats, m: Nums, plan: Plan)
    requires PlanApart(s, plan) && FlagsTrack(m)
    ensures FlagsTrack(AfterCycle(m, s, plan))
  {
  }

  lemma {:induction false} CycleLeavesCups(s: Stats, m: Nums, plan: Plan)
    requires PlanApart(s, plan) && s.total < 600
    ensures var r := AfterCycle(m, s, plan);
            (s.total != 0 ==> Num(r, s.total) == Num(m, s.total))
            && forall id: int16 | 200 <= id <= 210 :: Num(r, id) == Num(m, id)
  {
  }

  lemma {:induction false} PutFits(r: Registers, m: Nums, ids: set<int16>, id: int16, value: int32)
    requires Plain(r, m, ids) && id in ids
    ensures Plain(PutIf(r, id, value), SetIf(m, id, value), ids)
  {
    if id != 0 {
      if id !in m {
        SubsetSize(m.Keys, ids);
      }
      PutNumSyncs(r, id, value);
    }
  }

  lemma {:induction false} ResetFits(r: Registers, m: Nums, ids: set<int16>, plan: Plan)
    requires Plain(r, m, ids) && plan.pct in ids && plan.warn in ids
    ensures Plain(ResetIn(r, plan), ResetOn(m, plan), ids)
  {
    PutFits(r, m, ids, plan.pct, 100);
    PutFits(PutIf(r, plan.pct, 100), SetIf(m, plan.pct, 100), ids, plan.warn, 0);
  }

  lemma {:induction false} CountFits(r: Registers, m: Nums, ids: set<int16>, id: int16)
    requires Plain(r, m, ids) && id in ids
    ensures Plain(BumpedIf(r, id), SetIf(m, id, AsInt32(Num(m, id) as int + 1)), ids)
  {
    PutFits(r, m, ids, id, AsInt32(Num(m, id) as int + 1));
  }

  /** With room in the table for what it writes, a cycle leaves memory as the plain map
      has it, and flash the same. */
  lemma {:induction false} CycleIsPlain(r: Registers, m: Nums, ids: set<int16>, s: Stats, plan: Plan)
    requires Plain(r, m, ids) && CounterId(s, plan.counter) in ids && plan.pct in ids && plan.warn in ids
    ensures Plain(AfterCycleIn(r, s, plan), AfterCycle(m, s, plan), ids)
  {
    var id := CounterId(s, plan.counter);
    CountFits(r, m, ids, id);
    ResetFits(BumpedIf(r, id), SetIf(m, id, AsInt32(Num(m, id) as int + 1)), ids, plan);
  }

  // ---- Starting and running ------------------------------------------------------------

  method StartCycle(control: TaskControl<int16>, brews: TaskControl<BrewArg>, kind: int16, created: bool)
    returns (ok: bool)
    modifies control
    ensures if !brews.active && PlanFor(kind).Some?
            then (control.Model(), ok) == Claim(old(control.Model()), kind, created)
            else control.Model() == old(control.Model()) && !ok
  {
    var busy := brews.IsActive();
    if busy {
      return false;
    }
    var plan := FindPlan(kind);
    if plan.None? {
      return false;
    }
    ok := control.Start(kind, created);
  }

  /** Statuses that differ from `b` in nothing but the progress. */
  ghost predicate OnlyProgress(pushed: seq<Block>, b: Block) {
    forall k | 0 <= k < |pushed| :: pushed[k] == b.(progress := pushed[k].progress)
  }

  lemma {:induction false} OneMoreProgress(pushed: seq<Block>, b: Block, status: Block)
    requires OnlyProgress(pushed, b) && status == b.(progress := status.progress)
    ensures OnlyProgress(pushed + [status], b)
  {
  }

  ghost predicate Paced(marks: seq<nat>, total: nat) {
    forall k | 0 <= k < |marks| :: OnBeat(marks[k], 0, total)
  }

  lemma {:induction false} OneMorePaced(marks: seq<nat>, elapsed: nat, step: nat, total: nat)
    requires Paced(marks, total) && OnBeat(elapsed, 0, total) && elapsed < total
    requires step == if total - elapsed > 500 then 500 else total - elapsed
    ensures 0 < step <= 500 && elapsed + step <= total
    ensures Paced(marks + [elapsed + step], total) && OnBeat(elapsed + step, 0, total)
  {
    NextBeat(elapsed, step, total);
  }

  method RunCycleTicks(panel: Panel, total: uint32, cancelAt: Option<nat>)
    returns (shown: seq<Block>, looks: nat, ghost marks: seq<nat>, ghost elapsedMs: nat)
    requires 0 < total && 100 * total as int < 0x1_0000_0000
    modifies panel
    ensures OnlyProgress(shown, old(panel.Model())) && panel.Model() == old(panel.Model()).(progress := panel.progress)
    ensures OnTime(shown, marks, elapsedMs, total) && Paced(marks, total) && Climbs(shown)
    ensures !SeesCancel(cancelAt, looks) ==>
              elapsedMs == total as int && shown != [] && shown[|shown| - 1].progress == 100
  {
    shown, looks, marks := [], 0, [];
    var elapsed: uint32 := 0;
    while elapsed < total && !SeesCancel(cancelAt, looks)
      invariant elapsed <= total && OnTime(shown, marks, elapsed, total)
      invariant OnBeat(elapsed, 0, total) && Paced(marks, total)
      invariant OnlyProgress(shown, old(panel.Model()))
      invariant panel.Model() == old(panel.Model()).(progress := panel.progress)
    {
      looks := looks + 1;
      var step := total - elapsed;
      if step > TICK_MS {
        step := TICK_MS;
      }
      ghost var before, b := elapsed, panel.Model();
      OneMorePaced(marks, elapsed, step, total);
      elapsed := elapsed + step;
      var pct := Percent(elapsed, total);
      if pct > 100 {
        pct := 100;
      }
      OneMoreTick(shown, marks, before, step, total, b);
      panel.SetProgress(pct);
      var status := panel.GetStatus();
      OneMoreProgress(shown, old(panel.Model()), status);
      shown := shown + [status];
      marks := marks + [elapsed as int];
    }
    elapsedMs := elapsed;
    ShowsClimb(shown, marks, elapsed, total);
  }

  method SetNumIf(store: RegisterStore, id: int16, value: int32)
    requires store.Valid()
    modifies store, store.num
    ensures store.Valid() && store.Model() == PutIf(old(store.Model()), id, value)
  {
    if id != 0 {
      store.SetNum(id, value);
    }
  }

  method BumpIf(store: RegisterStore, id: int16)
    requires store.Valid()
    modifies store, store.num
    ensures store.Valid()
    ensures store.Model() == BumpedIf(old(store.Model()), id)
  {
    var v := store.GetNum(id);
    SetNumIf(store, id, AsInt32(v as int + 1));
  }

  method ResetGauge(store: RegisterStore, plan: Plan)
    requires store.Valid()
    modifies store, store.num
    ensures store.Valid() && store.Model() == ResetIn(old(store.Model()), plan)
  {
    SetNumIf(store, plan.pct, 100);
    SetNumIf(store, plan.warn, 0);
  }

  method CountAndReset(store: RegisterStore, s: Stats, plan: Plan)
    requires store.Valid()
    modifies store, store.num
    ensures store.Valid() && store.Model() == AfterCycleIn(old(store.Model()), s, plan)
  {
    BumpIf(store, CounterId(s, plan.counter));
    ResetGauge(store, plan);
  }

  method Complete(key: Key, plan: Plan, tanks: Tanks, store: RegisterStore)
    requires tanks.Valid() && tanks.IsSaved() && store.Valid()
    modifies tanks, tanks.levels, store, store.num
    ensures tanks.Valid() && tanks.IsSaved() && store.Valid()
    ensures tanks.Model() == Refitted(old(tanks.Model()), plan.kind)
    ensures store.Model() == AfterCycleIn(old(store.Model()), StatsOf(key), plan)
  {
    CountAndReset(store, StatsOf(key), plan);
    if plan.kind == FILTER_INSERT || plan.kind == FILTER_REPLACE {
      tanks.Set(FILTER, 100);
    }
    if plan.kind == FILTER_REMOVE {
      tanks.Set(FILTER, 0);
    }
  }

  function Prepared(b: Block, plan: Plan): Block {
    if plan.prep != NONE then b.(manip := NONE) else b
  }

  function PrepPush(b: Block, plan: Plan): seq<Block> {
    if plan.prep != NONE then [b.(manip := plan.prep)] else []
  }

  /** The prompt that comes first, if the plan has one. */
  method Prepare(panel: Panel, plan: Plan) returns (pushed: seq<Block>)
    modifies panel
    ensures pushed == PrepPush(old(panel.Model()), plan) && panel.Model() == Prepared(old(panel.Model()), plan)
  {
    pushed := [];
    if plan.prep != NONE {
      panel.SetManipulation(plan.prep);
      var prompt := panel.GetStatus();
      pushed := [prompt];
      panel.SetManipulation(NONE);
    }
  }

  method BackToReady(key: Key, tanks: Tanks, panel: Panel) returns (status: Block)
    requires tanks.Valid()
    modifies panel
    ensures status == panel.Model()
                   == Block(FamilyOf(key).ready, 0, old(panel.info), Prompt(key, tanks.Model()), 0)
  {
    panel.SetProcess(FamilyOf(key).ready, 0);
    panel.SetProgress(0);
    Reevaluate(key, tanks, panel);
    status := panel.GetStatus();
  }

  /** One cycle, on tanks and a panel that nothing else touches meanwhile. */
  method RunCycle(key: Key, kind: int16, tanks: Tanks, panel: Panel, store: RegisterStore, cancelAt: Option<nat>)
    returns (pushed: seq<Block>, ghost shown: seq<Block>, ghost cancelled: bool, ghost marks: seq<nat>,
             ghost elapsed: nat)
    requires tanks.Valid() && tanks.IsSaved() && store.Valid() && PlanFor(kind).Some?
    modifies tanks, tanks.levels, panel, store, store.num
    ensures tanks.Valid() && tanks.IsSaved() && store.Valid() && (cancelAt.None? ==> !cancelled)
    ensures var plan, b := PlanFor(kind).value, old(panel.Model());
            var started := Prepared(b, plan).(process := EmitCode(key, kind), sub := 0);
            && pushed == PrepPush(b, plan) + [started] + shown + [panel.Model()]
            && OnlyProgress(shown, started) && OnTime(shown, marks, elapsed, plan.totalMs)
            && Paced(marks, plan.totalMs) && Climbs(shown)
            && (!cancelled ==> elapsed == plan.totalMs as int && shown != [] && shown[|shown| - 1].progress == 100)
            && panel.Model() == Block(FamilyOf(key).ready, 0, b.info, Prompt(key, tanks.Model()), 0)
            && tanks.Model() == (if cancelled then old(tanks.Model()) else Refitted(old(tanks.Model()), kind))
            && store.Model()
               == if cancelled then old(store.Model()) else AfterCycleIn(old(store.Model()), StatsOf(key), plan)
  {
    var found := FindPlan(kind);
    var plan := found.value;
    PlansFit(kind);
    var first := Prepare(panel, plan);
    panel.SetProcess(EmitCode(key, kind), 0);
    var started := panel.GetStatus();
    var ticks, looks;
    ticks, looks, marks, elapsed := RunCycleTicks(panel, plan.totalMs, cancelAt);
    shown, cancelled := ticks, SeesCancel(cancelAt, looks);
    if !SeesCancel(cancelAt, looks) {
      Complete(key, plan, tanks, store);
    }
    var last := BackToReady(key, tanks, panel);
    pushed := first + [started] + ticks + [last];
  }
}
