/** The machine's registers in the store: over every run from factory registers, the
    tables have room for all that brews and cycles write, so that memory, flash and the
    plain map of the machine's model are one and the same. */
module Durable {
  import opened Boot
  import opened Bytes
  import opened Consumables
  import opened Cycle
  import opened Emulator
  import opened EveryRun
  import opened Families
  import opened Registers
  import opened Wear
  import opened WearStore
  import Machine
  import Runs

  /** The registers after a run of the machine alone. */
  function RecordedRun(key: Key, m: Machine.State, r: Registers, steps: seq<Machine.Step>): Registers {
    if steps == [] then r
    else
      var n := |steps| - 1;
      Recorded(key, Machine.Run(key, m, steps[..n]), RecordedRun(key, m, r, steps[..n]), steps[n]).0
  }

  // ---- Room for everything -----------------------------------------------------------

  function Ids(from: int16, n: nat): set<int16>
    requires from as int + n <= 0x7FFF
  {
    if n == 0 then {} else Ids(from, n - 1) + {from + (n - 1)}
  }

  lemma {:induction false} IdsAre(from: int16, n: nat)
    requires from as int + n <= 0x7FFF
    ensures |Ids(from, n)| <= n
    ensures forall id: int16 :: id in Ids(from, n) <==> from as int <= id as int < from as int + n
  {
    if n > 0 {
      IdsAre(from, n - 1);
    }
  }

  /** Whatever a family's machine writes: counters, gauges, and the factory values. */
  function WrittenIds(key: Key): set<int16> {
    Ids(200, 24) + {0, 600, 601, 610, 611, 620, 621, 640, 641} + {StatsOf(key).filterDep}
  }

  lemma {:induction false} UnionSize(a: set<int16>, b: set<int16>)
    ensures |a + b| <= |a| + |b|
  {
    assert a + b == a + (b - a);
    assert |b| == |b - a| + |b * a|;
  }

  lemma {:induction false} WrittenIdsFit(key: Key)
    ensures |WrittenIds(key)| <= 34
  {
    IdsAre(200, 24);
    var gauges: set<int16> := {0, 600, 601, 610, 611, 620, 621, 640, 641};
    assert |gauges| <= 9;
    UnionSize(Ids(200, 24), gauges);
    UnionSize(Ids(200, 24) + gauges, {StatsOf(key).filterDep});
  }

  lemma {:induction false} WornAreWritten(key: Key, selector: uint8)
    requires Brews(key, selector)
    ensures WornIds(StatsOf(key), selector) <= WrittenIds(key)
  {
    CounterIds(key, selector);
    IdsAre(200, 24);
  }

  lemma {:induction false} CountersAre(key: Key, counter: Counter)
    ensures var id := CounterId(StatsOf(key), counter); id == 0 || 214 <= id <= 222
  {
  }

  lemma {:induction false} ResetAreWritten(key: Key, kind: int16)
    requires PlanFor(kind).Some?
    ensures var p := PlanFor(kind).value;
            CounterId(StatsOf(key), p.counter) in WrittenIds(key) && p.pct in WrittenIds(key)
                && p.warn in WrittenIds(key)
  {
    PlansApart(key, kind);
    CountersAre(key, PlanFor(kind).value.counter);
    IdsAre(200, 24);
  }

  // ---- A step, in the store and on the plain map -----------------------------------------

  /** The store holds the machine's registers, and they still have their factory ids. */
  ghost predicate Kept(key: Key, m: Nums, r: Registers) {
    && Plain(r, m, WrittenIds(key))
    && Defaults(StatsOf(key).filterDep).Keys <= m.Keys
    && r.alpha == r.flashAlpha == Profiles(4)
  }

  lemma {:induction false} WearKeepsIds(m: Nums, s: Stats, selector: uint8, tick: int32)
    ensures m.Keys <= AfterBrew(m, s, selector, tick).0.Keys
  {
  }

  lemma {:induction false} CycleKeepsIds(m: Nums, s: Stats, plan: Plan)
    ensures m.Keys <= AfterCycle(m, s, plan).Keys
  {
  }

  predicate SameTexts(r: Registers, q: Registers) {
    q.alpha == r.alpha && q.flashAlpha == r.flashAlpha
  }

  lemma {:induction false} BumpKeepsTexts(r: Registers, id: int16)
    ensures SameTexts(r, BumpedIn(r, id))
  {
  }

  lemma {:induction false} CountingKeepsTexts(r: Registers, s: Stats, selector: uint8)
    ensures SameTexts(r, CountedIn(r, s, selector))
  {
    var a := if HasRecipeCounter(s, selector) then BumpedIn(r, 200 + selector) else r;
    var b := if s.total != 0 then BumpedIn(a, s.total) else a;
    BumpKeepsTexts(r, 200 + selector);
    BumpKeepsTexts(a, s.total);
    BumpKeepsTexts(b, s.viaApp);
  }

  lemma {:induction false} GaugeKeepsTexts(r: Registers, gauge: int16, flag: int16, low: int)
    ensures SameTexts(r, Worn1In(r, gauge, flag, low))
  {
  }

  lemma {:induction false} GaugesKeepTexts(r: Registers, tick: int32)
    ensures SameTexts(r, WornOutIn(r, tick))
  {
    GaugeKeepsTexts(r, FILTER_PCT, FILTER_WARN, 10);
    var a := Worn1In(r, FILTER_PCT, FILTER_WARN, 10);
    GaugeKeepsTexts(a, BREW_UNIT_PCT, BREW_UNIT_WARN, 20);
    var b := if tick % 2 == 0 then Worn1In(a, BREW_UNIT_PCT, BREW_UNIT_WARN, 20) else a;
    GaugeKeepsTexts(b, DESCALE_PCT, DESCALE_WARN, 20);
  }

  lemma {:induction false} WearKeepsTexts(r: Registers, s: Stats, selector: uint8, tick: int32)
    ensures SameTexts(r, AfterBrewIn(r, s, selector, tick).0)
  {
    CountingKeepsTexts(r.BatchBegin(), s, selector);
    var c := CountedIn(r.BatchBegin(), s, selector);
    GaugesKeepTexts(c, TickOf(c.num, s, tick));
  }

  lemma {:induction false} PutKeepsTexts(r: Registers, id: int16, value: int32)
    ensures SameTexts(r, PutIf(r, id, value))
  {
  }

  lemma {:induction false} CycleKeepsTexts(r: Registers, s: Stats, plan: Plan)
    ensures SameTexts(r, AfterCycleIn(r, s, plan))
  {
    var id := CounterId(s, plan.counter);
    var v := AsInt32(Num(r.num, id) as int + 1);
    PutKeepsTexts(r, id, v);
    PutKeepsTexts(PutIf(r, id, v), plan.pct, 100);
    PutKeepsTexts(PutIf(PutIf(r, id, v), plan.pct, 100), plan.warn, 0);
  }

  lemma {:induction false} BrewStaysKept(key: Key, m: Nums, r: Registers, selector: uint8, tick: int32)
    requires Kept(key, m, r) && Brews(key, selector)
    ensures var q, p := AfterBrewIn(r, StatsOf(key), selector, tick), AfterBrew(m, StatsOf(key), selector, tick);
            q.1 == p.1 && Kept(key, p.0, q.0)
  {
    WornAreWritten(key, selector);
    BatchIsPlain(r, m, WrittenIds(key), StatsOf(key), selector, tick);
    WearKeepsIds(m, StatsOf(key), selector, tick);
    WearKeepsTexts(r, StatsOf(key), selector, tick);
  }

  lemma {:induction false} CycleStaysKept(key: Key, m: Nums, r: Registers, kind: int16)
    requires Kept(key, m, r) && PlanFor(kind).Some?
    ensures var p := PlanFor(kind).value;
            Kept(key, AfterCycle(m, StatsOf(key), p), AfterCycleIn(r, StatsOf(key), p))
  {
    ResetAreWritten(key, kind);
    CycleIsPlain(r, m, WrittenIds(key), StatsOf(key), PlanFor(kind).value);
    CycleKeepsIds(m, StatsOf(key), PlanFor(kind).value);
    CycleKeepsTexts(r, StatsOf(key), PlanFor(kind).value);
  }

  predicate Completes(b: Machine.BrewRun) {
    b.phase == Machine.Ending && !b.cancel
  }

  predicate CycleCompletes(c: Machine.CycleRun) {
    c.phase == Machine.Completing && !c.cancel
  }

  /** What a task's step does to the plain map of the machine's model. */
  lemma {:induction false} BrewNums(key: Key, m: Machine.State, b: Machine.BrewRun, more: bool, pct: int16)
    ensures Machine.BrewNext(key, m, b, more, pct).nums
            == if Completes(b) then AfterBrew(m.nums, StatsOf(key), b.arg.selector, m.localTick).0 else m.nums
  {
  }

  lemma {:induction false} CycleNums(key: Key, m: Machine.State, c: Machine.CycleRun, more: bool, pct: int16)
    ensures Machine.CycleNext(key, m, c, more, pct).nums
            == if CycleCompletes(c) then AfterCycle(m.nums, StatsOf(key), c.plan) else m.nums
  {
  }

  /** What it does to the store. */
  lemma {:induction false} BrewRecords(key: Key, m: Machine.State, r: Registers, b: Machine.BrewRun,
                                       more: bool, pct: int16)
    requires m.brew == Some(b)
    ensures Recorded(key, m, r, Machine.BrewMoves(more, pct)).0
            == if Completes(b) then AfterBrewIn(r, StatsOf(key), b.arg.selector, m.localTick).0 else r
  {
  }

  lemma {:induction false} CycleRecords(key: Key, m: Machine.State, r: Registers, c: Machine.CycleRun,
                                        more: bool, pct: int16)
    requires m.cycle == Some(c)
    ensures Recorded(key, m, r, Machine.CycleMoves(more, pct)).0
            == if CycleCompletes(c) then AfterCycleIn(r, StatsOf(key), c.plan) else r
  {
  }

  lemma {:induction false} CommandNums(key: Key, m: Machine.State, step: Machine.Step)
    requires Runs.IsCommand(step)
    ensures Machine.Next(key, m, step).nums == m.nums
  {
  }

  lemma {:induction false} BrewMoveStaysKept(key: Key, m: Machine.State, r: Registers, b: Machine.BrewRun, more: bool,
                                             pct: int16)
    requires Brews(key, b.arg.selector) && Kept(key, m.nums, r) && m.brew == Some(b)
    ensures Kept(key, Machine.BrewNext(key, m, b, more, pct).nums, Recorded(key, m, r, Machine.BrewMoves(more, pct)).0)
  {
    BrewNums(key, m, b, more, pct);
    BrewRecords(key, m, r, b, more, pct);
    if Completes(b) {
      BrewStaysKept(key, m.nums, r, b.arg.selector, m.localTick);
    }
  }

  lemma {:induction false} CycleMoveStaysKept(key: Key, m: Machine.State, r: Registers, c: Machine.CycleRun,
                                              more: bool, pct: int16)
    requires Planned(m) && Kept(key, m.nums, r) && m.cycle == Some(c)
    ensures Kept(key, Machine.CycleNext(key, m, c, more, pct).nums,
                 Recorded(key, m, r, Machine.CycleMoves(more, pct)).0)
  {
    CycleNums(key, m, c, more, pct);
    CycleRecords(key, m, r, c, more, pct);
    if CycleCompletes(c) {
      CycleStaysKept(key, m.nums, r, c.kind);
    }
  }

  lemma {:induction false} StepStaysKept(key: Key, m: Machine.State, r: Registers, step: Machine.Step)
    requires Planned(m) && Kept(key, m.nums, r) && (m.brew.Some? ==> Brews(key, m.brew.value.arg.selector))
    ensures Kept(key, Machine.Next(key, m, step).nums, Recorded(key, m, r, step).0)
  {
    match step
    case BrewMoves(more, pct) =>
      if m.brew.Some? {
        BrewMoveStaysKept(key, m, r, m.brew.value, more, pct);
      }
    case CycleMoves(more, pct) =>
      if m.cycle.Some? {
        CycleMoveStaysKept(key, m, r, m.cycle.value, more, pct);
      }
    case _ => CommandNums(key, m, step);
  }

  // ---- Every run from factory registers ----------------------------------------------------

  const EMPTY := Registers(map[], map[], map[], map[], None)

  lemma {:induction false} FactoryBoots()
    ensures CanBoot(EMPTY, [], [])
  {
  }

  function Factory(key: Key): Registers {
    FactoryBoots();
    Booted(EMPTY, [], [], StatsOf(key).filterDep)
  }

  function FactoryMachine(key: Key, stock: Stock, tick: int32): Machine.State {
    Machine.PoweredUp(key, stock, BootedNum(map[], StatsOf(key).filterDep), tick)
  }

  lemma {:induction false} FactoryFits(dep: int16)
    ensures Fits(EMPTY, dep)
  {
    var gauges: set<int16> := {600, 601, 610, 611, 620, 621, 640, 641};
    var own: set<int16> := if dep != 0 then {dep} else {};
    var profiles: set<int16> := {0x0100, 0x0101, 0x0102, 0x0103};
    assert |gauges| <= 8 && |own| <= 1 && |profiles| <= 4;
    UnionSize(gauges, own);
    assert EMPTY.flashNum.Keys + gauges + own == gauges + own;
    assert EMPTY.flashAlpha.Keys + profiles == profiles;
  }

  lemma {:induction false} ProfilesReload()
    ensures Readable(map[]) == map[] && BootedAlpha(map[]) == Profiles(4)
    ensures Readable(Profiles(4)) == Profiles(4) && BootedAlpha(Profiles(4)) == Profiles(4)
  {
    ProfileKeys(4);
  }

  lemma {:induction false} DefaultsReload(dep: int16, m: Nums)
    requires Defaults(dep).Keys <= m.Keys
    ensures BootedNum(m, dep) == m && BootedNum(map[], dep) == Defaults(dep)
  {
  }

  lemma {:induction false} DefaultsAreWritten(key: Key)
    ensures Defaults(StatsOf(key).filterDep).Keys <= WrittenIds(key)
  {
    DefaultKeys(StatsOf(key).filterDep);
  }

  lemma {:induction false} FactoryIs(key: Key)
    ensures var d := Defaults(StatsOf(key).filterDep); Factory(key) == Registers(d, Profiles(4), d, Profiles(4), None)
  {
    var dep := StatsOf(key).filterDep;
    FactoryBoots();
    FactoryFits(dep);
    RebootRestores(EMPTY, [], [], dep);
    ProfilesReload();
    DefaultsReload(dep, Defaults(dep));
  }

  lemma {:induction false} IsKept(key: Key, d: Nums, r: Registers)
    requires d == Defaults(StatsOf(key).filterDep) && r == Registers(d, Profiles(4), d, Profiles(4), None)
    requires d.Keys <= WrittenIds(key) && |WrittenIds(key)| <= 34
    ensures Kept(key, d, r)
  {
  }

  lemma {:induction false} FactoryIsKept(key: Key, stock: Stock, tick: int32)
    ensures Kept(key, FactoryMachine(key, stock, tick).nums, Factory(key))
  {
    var d := Defaults(StatsOf(key).filterDep);
    FactoryIs(key);
    DefaultsReload(StatsOf(key).filterDep, d);
    DefaultsAreWritten(key);
    WrittenIdsFit(key);
    IsKept(key, d, Registers(d, Profiles(4), d, Profiles(4), None));
  }

  lemma {:induction false} AlwaysKept(key: Key, stock: Stock, tick: int32, steps: seq<Machine.Step>)
    requires stock.Ok()
    ensures var m := FactoryMachine(key, stock, tick);
            Kept(key, Machine.Run(key, m, steps).nums, RecordedRun(key, m, Factory(key), steps))
  {
    if steps == [] {
      FactoryIsKept(key, stock, tick);
    } else {
      var n, nums, m := |steps| - 1, BootedNum(map[], StatsOf(key).filterDep), FactoryMachine(key, stock, tick);
      AlwaysKept(key, stock, tick, steps[..n]);
      AlwaysSound(key, stock, nums, tick, steps[..n]);
      AlwaysPlanned(key, stock, nums, tick, steps[..n]);
      StepStaysKept(key, Machine.Run(key, m, steps[..n]), RecordedRun(key, m, Factory(key), steps[..n]), steps[n]);
    }
  }

  lemma {:induction false} SubsetOrEqual(a: set<int16>, b: set<int16>)
    requires a <= b
    ensures |a| <= |b|
  {
    if a != b {
      SubsetSize(a, b);
    }
  }

  lemma {:induction false} KeptFits(key: Key, m: Nums, r: Registers)
    requires Kept(key, m, r)
    ensures Fits(r, StatsOf(key).filterDep)
  {
    var dep := StatsOf(key).filterDep;
    FitsBoots(r, dep);
    DefaultsReload(dep, m);
    KeyCount(m);
    SubsetOrEqual(m.Keys, WrittenIds(key));
    ProfilesReload();
    FactoryFits(dep);
    FitsBoots(EMPTY, dep);
  }

  lemma {:induction false} KeptReboots(key: Key, m: Nums, r: Registers, order: seq<int16>, alphaOrder: seq<int16>)
    requires Kept(key, m, r) && CanBoot(r, order, alphaOrder)
    ensures Booted(r, order, alphaOrder, StatsOf(key).filterDep) == r
  {
    var dep := StatsOf(key).filterDep;
    KeptFits(key, m, r);
    RebootRestores(r, order, alphaOrder, dep);
    DefaultsReload(dep, m);
    ProfilesReload();
  }

  /** After any run of brews, cycles and commands from factory registers, memory is the
      machine's own account, flash is memory, flags track gauges, and a power cycle at that
      moment, in any iterator order, brings back the very same registers. */
  lemma {:induction false} PowerMayFail(key: Key, stock: Stock, tick: int32, steps: seq<Machine.Step>,
                                        order: seq<int16>, alphaOrder: seq<int16>)
    requires stock.Ok()
    ensures var m := FactoryMachine(key, stock, tick);
            var r := RecordedRun(key, m, Factory(key), steps);
            && r.num == Machine.Run(key, m, steps).nums && r.flashNum == r.num && FlagsTrack(r.num)
            && (CanBoot(r, order, alphaOrder) ==> Booted(r, order, alphaOrder, StatsOf(key).filterDep) == r)
  {
    var m := FactoryMachine(key, stock, tick);
    var r := RecordedRun(key, m, Factory(key), steps);
    AlwaysKept(key, stock, tick, steps);
    FlagsTrackFromFactory(key, stock, tick, steps);
    if CanBoot(r, order, alphaOrder) {
      KeptReboots(key, Machine.Run(key, m, steps).nums, r, order, alphaOrder);
    }
  }
}
