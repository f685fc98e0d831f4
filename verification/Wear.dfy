/** What a completed brew writes to the registers: cup counters, wear gauges and
    their warning flags (apply_wear_after_brew in nivona_brew.c). */
module Wear {
  import opened Boot
  import opened Bytes
  import opened Families
  import opened Registers

  const DESCALE_PCT: int16 := 600
  const DESCALE_WARN: int16 := 601
  const BREW_UNIT_PCT: int16 := 610
  const BREW_UNIT_WARN: int16 := 611
  const FILTER_PCT: int16 := 640
  const FILTER_WARN: int16 := 641

  // ---- On a plain map ------------------------------------------------------------

  function Bumped(m: Nums, id: int16): Nums {
    m[id := AsInt32(Num(m, id) as int + 1)]
  }

  function Counted(m: Nums, s: Stats, selector: uint8): Nums {
    var a := if HasRecipeCounter(s, selector) then Bumped(m, 200 + selector) else m;
    var b := if s.total != 0 then Bumped(a, s.total) else a;
    if s.viaApp != 0 then Bumped(b, s.viaApp) else b
  }

  /** One percent off a gauge, down to 0, and its flag raised below `low`. */
  function Worn1(m: Nums, gauge: int16, flag: int16, low: int): Nums {
    var a := if Num(m, gauge) > 0 then m[gauge := Num(m, gauge) - 1] else m;
    if Num(a, gauge) < low then a[flag := 1] else a
  }

  function TickOf(m: Nums, s: Stats, localTick: int32): int32 {
    if s.total != 0 then Num(m, s.total) else AsInt32(localTick as int + 1)
  }

  function WornOut(m: Nums, tick: int32): Nums {
    var a := Worn1(m, FILTER_PCT, FILTER_WARN, 10);
    var b := if tick % 2 == 0 then Worn1(a, BREW_UNIT_PCT, BREW_UNIT_WARN, 20) else a;
    if tick % 5 == 0 then Worn1(b, DESCALE_PCT, DESCALE_WARN, 20) else b
  }

  /** The registers and the local tick after one brew. */
  function AfterBrew(m: Nums, s: Stats, selector: uint8, localTick: int32): (Nums, int32) {
    var c := Counted(m, s, selector);
    var tick := TickOf(c, s, localTick);
    (WornOut(c, tick), tick)
  }

  function LessOne(v: int32, worn: bool): int32 {
    if worn && v > 0 then v - 1 else v
  }

  lemma {:induction false} Worn1Is(m: Nums, gauge: int16, flag: int16, low: int)
    requires gauge != flag
    ensures var r, v := Worn1(m, gauge, flag, low), LessOne(Num(m, gauge), true);
            && Num(r, gauge) == v
            && Num(r, flag) == (if v < low then 1 else Num(m, flag))
            && forall id: int16 | id != gauge && id != flag :: Num(r, id) == Num(m, id)
  {
  }

  predicate IsGauge(id: int16) {
    id == 600 || id == 601 || id == 610 || id == 611 || id == 640 || id == 641
  }

  /** What wearing does to each gauge and each flag, and that it does nothing else. */
  ghost predicate WearsBy(m: Nums, r: Nums, tick: int32) {
    var f, b, d := LessOne(Num(m, FILTER_PCT), true), LessOne(Num(m, BREW_UNIT_PCT), tick % 2 == 0),
                   LessOne(Num(m, DESCALE_PCT), tick % 5 == 0);
    && Num(r, FILTER_PCT) == f && Num(r, FILTER_WARN) == (if f < 10 then 1 else Num(m, FILTER_WARN))
    && Num(r, BREW_UNIT_PCT) == b
    && Num(r, BREW_UNIT_WARN) == (if tick % 2 == 0 && b < 20 then 1 else Num(m, BREW_UNIT_WARN))
    && Num(r, DESCALE_PCT) == d
    && Num(r, DESCALE_WARN) == (if tick % 5 == 0 && d < 20 then 1 else Num(m, DESCALE_WARN))
    && forall id: int16 | !IsGauge(id) :: Num(r, id) == Num(m, id)
  }

  lemma {:induction false} WornOutIs(m: Nums, tick: int32)
    ensures WearsBy(m, WornOut(m, tick), tick)
  {
    var a := Worn1(m, FILTER_PCT, FILTER_WARN, 10);
    var b := if tick % 2 == 0 then Worn1(a, BREW_UNIT_PCT, BREW_UNIT_WARN, 20) else a;
    Worn1Is(m, FILTER_PCT, FILTER_WARN, 10);
    Worn1Is(a, BREW_UNIT_PCT, BREW_UNIT_WARN, 20);
    Worn1Is(b, DESCALE_PCT, DESCALE_WARN, 20);
  }

  // ---- Gauges over many brews ------------------------------------------------------

  /** A family's counters have ids of their own, and none is a gauge. */
  ghost predicate IdsApart(s: Stats, selector: uint8) {
    selector <= 10 && (s.total != 0 ==> 213 <= s.total <= 215) && (s.viaApp != 0 ==> 221 <= s.viaApp <= 223)
  }

  lemma {:induction false} CounterIds(key: Key, selector: uint8)
    requires Brews(key, selector)
    ensures IdsApart(StatsOf(key), selector)
  {
  }

  /** The counters a brew raises. */
  predicate Raises(s: Stats, selector: uint8, id: int16) {
    (HasRecipeCounter(s, selector) && id == 200 + selector) || (s.total != 0 && id == s.total)
    || (s.viaApp != 0 && id == s.viaApp)
  }

  /** Counting raises those by one, and leaves every other register alone. */
  ghost predicate CountsBy(m: Nums, c: Nums, s: Stats, selector: uint8) {
    forall id: int16 :: Num(c, id) == if Raises(s, selector, id) then AsInt32(Num(m, id) as int + 1) else Num(m, id)
  }

  lemma {:induction false} CountedIs(s: Stats, m: Nums, selector: uint8)
    requires IdsApart(s, selector)
    ensures CountsBy(m, Counted(m, s, selector), s, selector)
  {
  }

  /** One brew: counting, then wearing by the tick reached. */
  ghost predicate BrewBy(m: Nums, r: Nums, s: Stats, selector: uint8, tick: int32) {
    exists c: Nums :: CountsBy(m, c, s, selector) && WearsBy(c, r, tick) && (s.total != 0 ==> tick == Num(c, s.total))
  }

  lemma {:induction false} AfterBrewIs(s: Stats, m: Nums, selector: uint8, localTick: int32)
    requires IdsApart(s, selector)
    ensures var r := AfterBrew(m, s, selector, localTick);
            BrewBy(m, r.0, s, selector, r.1) && (s.total == 0 ==> r.1 == AsInt32(localTick as int + 1))
  {
    CountedIs(s, m, selector);
    var c := Counted(m, s, selector);
    WornOutIs(c, TickOf(c, s, localTick));
  }

  /** Repeated brews of the given recipes. */
  function AfterBrews(m: Nums, s: Stats, selectors: seq<uint8>, localTick: int32): (Nums, int32) {
    if selectors == [] then (m, localTick)
    else
      var n := |selectors| - 1;
      var before := AfterBrews(m, s, selectors[..n], localTick);
      AfterBrew(before.0, s, selectors[n], before.1)
  }

  /** The tick wear goes by: the total counter, or the local tick where there is none. */
  function WearTick(m: Nums, s: Stats, localTick: int32): int32 {
    if s.total != 0 then Num(m, s.total) else localTick
  }

  function AtLeast0(v: int): int {
    if v > 0 then v else 0
  }

  /** One brew, in terms of the tick: every brew wears the filter, every second the
      brew unit, every fifth the descaling gauge. */
  ghost predicate TickWears(m: Nums, r: Nums, t: int32) {
    && Num(r, 640) == LessOne(Num(m, 640), true)
    && Num(r, 610) == LessOne(Num(m, 610), t % 2 == 0)
    && Num(r, 600) == LessOne(Num(m, 600), t % 5 == 0)
  }

  /** The tick has reached `t`, and wear went by it. */
  ghost predicate WearsAt(s: Stats, m: Nums, r: (Nums, int32), t: int32) {
    WearTick(r.0, s, r.1) == t && TickWears(m, r.0, t)
  }

  lemma {:induction false} BrewByWrites(m: Nums, r: Nums, s: Stats, selector: uint8, tick: int32)
    requires IdsApart(s, selector) && BrewBy(m, r, s, selector, tick)
    ensures TickWears(m, r, tick)
    ensures forall id: int16 | !IsGauge(id) ::
              Num(r, id) == if Raises(s, selector, id) then AsInt32(Num(m, id) as int + 1) else Num(m, id)
  {
  }

  lemma {:induction false} BrewByWears(m: Nums, r: (Nums, int32), s: Stats, selector: uint8, t: int32)
    requires IdsApart(s, selector) && BrewBy(m, r.0, s, selector, r.1)
    requires if s.total != 0 then 0 <= Num(m, s.total) as int == t as int - 1 else r.1 == t
    ensures WearsAt(s, m, r, t)
  {
    BrewByWrites(m, r.0, s, selector, r.1);
    if s.total != 0 {
      assert Raises(s, selector, s.total) && !IsGauge(s.total);
    }
  }

  lemma {:induction false} BrewWears(s: Stats, m: Nums, selector: uint8, localTick: int32, t: int32)
    requires IdsApart(s, selector) && 0 <= WearTick(m, s, localTick) < 0x7FFF_FFFF
    requires t == WearTick(m, s, localTick) + 1
    ensures WearsAt(s, m, AfterBrew(m, s, selector, localTick), t)
  {
    AfterBrewIs(s, m, selector, localTick);
    var r := AfterBrew(m, s, selector, localTick);
    assert s.total == 0 ==> r.1 == t;
    BrewByWears(m, r, s, selector, t);
  }

  /** The counters of a brew: the recipe's own, unless the family has none for it, and on
      a family with counters the total and the one for brews asked for by an app. */
  predicate Counts(key: Key, selector: uint8, id: int16) {
    || (id == 200 + selector && !(key == F600 && (selector == 2 || selector == 5)) && !(key == F1040 && selector == 7))
    || (HasCounters(key) && (id == 213 + Shift(key) || id == 221 + Shift(key)))
  }

  lemma {:induction false} CountsAre(key: Key, selector: uint8, id: int16)
    requires Brews(key, selector)
    ensures Raises(StatsOf(key), selector, id) <==> Counts(key, selector, id)
  {
    StatsAre(key);
    RecipeCountedIff(key, selector);
  }

  lemma {:induction false} TickIs(key: Key, m: Nums, selector: uint8, localTick: int32)
    requires Brews(key, selector)
    ensures var r := AfterBrew(m, StatsOf(key), selector, localTick);
            r.1 == if HasCounters(key) then Num(r.0, 213 + Shift(key)) else AsInt32(localTick as int + 1)
  {
    var s := StatsOf(key);
    CounterIds(key, selector);
    StatsAre(key);
    AfterBrewIs(s, m, selector, localTick);
    assert !IsGauge(213 + Shift(key));
  }

  /** What a brew does to every register: it raises its counters by one, wears the gauges
      by the tick reached, and leaves all others alone. */
  lemma {:induction false} BrewWrites(key: Key, m: Nums, selector: uint8, localTick: int32)
    requires Brews(key, selector)
    ensures var r := AfterBrew(m, StatsOf(key), selector, localTick);
            && TickWears(m, r.0, r.1)
            && r.1 == (if HasCounters(key) then Num(r.0, 213 + Shift(key)) else AsInt32(localTick as int + 1))
            && forall id: int16 | !IsGauge(id) ::
                 Num(r.0, id) == if Counts(key, selector, id) then AsInt32(Num(m, id) as int + 1) else Num(m, id)
  {
    var s, r := StatsOf(key), AfterBrew(m, StatsOf(key), selector, localTick);
    CounterIds(key, selector);
    AfterBrewIs(s, m, selector, localTick);
    BrewByWrites(m, r.0, s, selector, r.1);
    TickIs(key, m, selector, localTick);
    forall id: int16 | !IsGauge(id)
      ensures Num(r.0, id) == if Counts(key, selector, id) then AsInt32(Num(m, id) as int + 1) else Num(m, id)
    {
      CountsAre(key, selector, id);
    }
  }

  /** After n brews from tick t: the filter has lost one percent a brew, the brew
      unit one for each even tick passed, the descaling gauge one for each tick
      divisible by five, none below 0. */
  ghost predicate WornFrom(m: Nums, r: Nums, t: int, n: nat) {
    && Num(r, 640) == AtLeast0(Num(m, 640) as int - n)
    && Num(r, 610) == AtLeast0(Num(m, 610) as int - ((t + n) / 2 - t / 2))
    && Num(r, 600) == AtLeast0(Num(m, 600) as int - ((t + n) / 5 - t / 5))
  }

  /** The tick and the gauges after n brews. */
  ghost predicate WornTo(s: Stats, m: Nums, r: (Nums, int32), t: int, n: nat) {
    WearTick(r.0, s, r.1) as int == t + n && WornFrom(m, r.0, t, n)
  }

  lemma {:induction false} WornOneMore(s: Stats, m: Nums, r: (Nums, int32), q: (Nums, int32), t: nat, n: nat,
                                       tick: int32)
    requires WornTo(s, m, r, t, n) && tick == t + n + 1
    requires WearsAt(s, r.0, q, tick)
    requires Num(m, FILTER_PCT) >= 0 && Num(m, BREW_UNIT_PCT) >= 0 && Num(m, DESCALE_PCT) >= 0
    ensures WornTo(s, m, q, t, n + 1)
  {
  }

  lemma {:induction false} OneBrewMore(s: Stats, m: Nums, selector: uint8, r: (Nums, int32), t: nat, n: nat)
    requires IdsApart(s, selector) && WornTo(s, m, r, t, n) && t + n < 0x7FFF_FFFF
    requires Num(m, FILTER_PCT) >= 0 && Num(m, BREW_UNIT_PCT) >= 0 && Num(m, DESCALE_PCT) >= 0
    ensures WornTo(s, m, AfterBrew(r.0, s, selector, r.1), t, n + 1)
  {
    var tick := WearTick(r.0, s, r.1) + 1;
    BrewWears(s, r.0, selector, r.1, tick);
    WornOneMore(s, m, r, AfterBrew(r.0, s, selector, r.1), t, n, tick);
  }

  /** Whatever is brewed, wear depends only on how many brews complete. */
  lemma {:induction false} WearClosedForm(s: Stats, m: Nums, selectors: seq<uint8>, localTick: int32)
    requires forall x | x in selectors :: IdsApart(s, x)
    requires 0 <= WearTick(m, s, localTick) && WearTick(m, s, localTick) as int + |selectors| <= 0x7FFF_FFFF
    requires Num(m, FILTER_PCT) >= 0 && Num(m, BREW_UNIT_PCT) >= 0 && Num(m, DESCALE_PCT) >= 0
    ensures WornTo(s, m, AfterBrews(m, s, selectors, localTick), WearTick(m, s, localTick), |selectors|)
  {
    if selectors != [] {
      var n := |selectors| - 1;
      assert selectors[n] in selectors;
      WearClosedForm(s, m, selectors[..n], localTick);
      var before := AfterBrews(m, s, selectors[..n], localTick);
      OneBrewMore(s, m, selectors[n], before, WearTick(m, s, localTick), n);
    }
  }

  /** Every family's recipes qualify. */
  lemma {:induction false} FamilyWearClosedForm(key: Key, m: Nums, selectors: seq<uint8>, localTick: int32)
    requires forall x | x in selectors :: Brews(key, x)
    requires 0 <= WearTick(m, StatsOf(key), localTick)
    requires WearTick(m, StatsOf(key), localTick) as int + |selectors| <= 0x7FFF_FFFF
    requires Num(m, FILTER_PCT) >= 0 && Num(m, BREW_UNIT_PCT) >= 0 && Num(m, DESCALE_PCT) >= 0
    ensures var t := WearTick(m, StatsOf(key), localTick);
            WornFrom(m, AfterBrews(m, StatsOf(key), selectors, localTick).0, t, |selectors|)
  {
    forall x | x in selectors
      ensures IdsApart(StatsOf(key), x)
    {
      CounterIds(key, x);
    }
    WearClosedForm(StatsOf(key), m, selectors, localTick);
  }

  // ---- Warning flags -----------------------------------------------------------------

  /** A flag is up exactly while its gauge is low. */
  predicate FlagsTrack(m: Nums) {
    && (Num(m, 641) == 1 <==> Num(m, 640) < 10)
    && (Num(m, 611) == 1 <==> Num(m, 610) < 20)
    && (Num(m, 601) == 1 <==> Num(m, 600) < 20)
  }

  lemma {:induction false} BrewKeepsFlags(s: Stats, m: Nums, selector: uint8, localTick: int32)
    requires IdsApart(s, selector) && FlagsTrack(m)
    ensures FlagsTrack(AfterBrew(m, s, selector, localTick).0)
  {
    AfterBrewIs(s, m, selector, localTick);
  }

  // ---- Cup counters ------------------------------------------------------------------

  /** The sum of the counters of the recipes `0..n` that the family brews. */
  function CupSum(m: Nums, key: Key, n: nat): int
    requires n <= 11
  {
    if n == 0 then 0 else CupSum(m, key, n - 1) + if Brews(key, n - 1) then Num(m, 200 + (n - 1)) as int else 0
  }

  lemma {:induction false} CupSumMoves(m: Nums, r: Nums, key: Key, selector: uint8, counted: bool, n: nat)
    requires n <= 11 && Brews(key, selector) && selector <= 10
    requires forall k: int16 | 200 <= k <= 210 ::
               Num(r, k) as int == Num(m, k) as int + if counted && k == 200 + selector then 1 else 0
    ensures CupSum(r, key, n) == CupSum(m, key, n) + if counted && selector < n then 1 else 0
    decreases n
  {
    if n > 0 {
      CupSumMoves(m, r, key, selector, counted, n - 1);
    }
  }

  /** By how much the total runs ahead of the cup counters. */
  function OutOfStep(m: Nums, s: Stats, key: Key): int {
    Num(m, s.total) as int - CupSum(m, key, 11)
  }

  /** The cup counters and the total can go up `n` more times without wrapping. */
  ghost predicate HasRoom(m: Nums, s: Stats, n: nat) {
    && (forall id: int16 | 200 <= id <= 210 :: Num(m, id) as int + n <= 0x7FFF_FFFF)
    && (s.total != 0 ==> Num(m, s.total) as int + n <= 0x7FFF_FFFF)
  }

  lemma {:induction false} WearLeavesCounters(c: Nums, r: Nums, tick: int32)
    requires WearsBy(c, r, tick)
    ensures forall k: int16 | k < 600 :: Num(r, k) == Num(c, k)
  {
  }

  lemma {:induction false} CountsByOne(m: Nums, c: Nums, s: Stats, selector: uint8)
    requires IdsApart(s, selector) && HasRoom(m, s, 1) && CountsBy(m, c, s, selector)
    ensures s.total != 0 ==> Num(c, s.total) as int == Num(m, s.total) as int + 1
    ensures forall k: int16 | 200 <= k <= 210 ::
              Num(c, k) as int
              == Num(m, k) as int + if HasRecipeCounter(s, selector) && k == 200 + selector then 1 else 0
  {
  }

  lemma {:induction false} BrewByCounts(m: Nums, r: Nums, s: Stats, selector: uint8, tick: int32)
    requires IdsApart(s, selector) && HasRoom(m, s, 1) && BrewBy(m, r, s, selector, tick)
    ensures s.total != 0 ==> Num(r, s.total) as int == Num(m, s.total) as int + 1
    ensures forall k: int16 | 200 <= k <= 210 ::
              Num(r, k) as int
              == Num(m, k) as int + if HasRecipeCounter(s, selector) && k == 200 + selector then 1 else 0
  {
    var c: Nums :| CountsBy(m, c, s, selector) && WearsBy(c, r, tick);
    WearLeavesCounters(c, r, tick);
    CountsByOne(m, c, s, selector);
    forall k: int16 | 200 <= k <= 210
      ensures Num(r, k) == Num(c, k)
    {
    }
  }

  lemma {:induction false} BrewByMoves(key: Key, s: Stats, m: Nums, r: Nums, selector: uint8, tick: int32)
    requires Brews(key, selector) && s.total != 0 && IdsApart(s, selector) && HasRoom(m, s, 1)
    requires BrewBy(m, r, s, selector, tick)
    ensures OutOfStep(r, s, key) == OutOfStep(m, s, key) + if HasRecipeCounter(s, selector) then 0 else 1
  {
    BrewByCounts(m, r, s, selector, tick);
    CupSumMoves(m, r, key, selector, HasRecipeCounter(s, selector), 11);
  }

  /** Brews keep the total and the cup counters in step exactly when the recipe has a
      counter of its own; on a family with a total, only the 1040's warm milk has none. */
  lemma {:induction false} TotalInStepIff(key: Key, m: Nums, selector: uint8, localTick: int32)
    requires Brews(key, selector) && StatsOf(key).total != 0 && HasRoom(m, StatsOf(key), 1)
    ensures var s := StatsOf(key);
            OutOfStep(AfterBrew(m, s, selector, localTick).0, s, key) == OutOfStep(m, s, key)
            <==> !(key == F1040 && selector == 7)
  {
    CounterIds(key, selector);
    RecipeCountedIff(key, selector);
    var r := AfterBrew(m, StatsOf(key), selector, localTick);
    AfterBrewIs(StatsOf(key), m, selector, localTick);
    BrewByMoves(key, StatsOf(key), m, r.0, selector, r.1);
  }

  lemma {:induction false} RoomShrinks(m: Nums, s: Stats, n: nat, k: nat)
    requires HasRoom(m, s, n) && k <= n
    ensures HasRoom(m, s, k)
  {
  }

  lemma {:induction false} RoomBy(m: Nums, r: Nums, s: Stats, selector: uint8, tick: int32, n: nat)
    requires IdsApart(s, selector) && 0 < n && HasRoom(m, s, n) && BrewBy(m, r, s, selector, tick)
    ensures HasRoom(r, s, n - 1)
  {
    RoomShrinks(m, s, n, 1);
    BrewByCounts(m, r, s, selector, tick);
  }

  lemma {:induction false} SeededNum(dep: int16, id: int16)
    requires id != dep
    ensures Num(BootedNum(map[], dep), id) == if id in PCT_IDS then 100 else 0
  {
  }

  /** Power-up from empty registers leaves every flag tracking its gauge. */
  lemma {:induction false} SeededTracks(dep: int16)
    requires dep < 600 || dep > 641
    ensures FlagsTrack(BootedNum(map[], dep))
  {
    assert PCT_IDS[0] == DESCALE_PCT && PCT_IDS[1] == BREW_UNIT_PCT && PCT_IDS[3] == FILTER_PCT;
    SeededNum(dep, DESCALE_PCT);
    SeededNum(dep, BREW_UNIT_PCT);
    SeededNum(dep, FILTER_PCT);
    SeededNum(dep, DESCALE_WARN);
    SeededNum(dep, BREW_UNIT_WARN);
    SeededNum(dep, FILTER_WARN);
  }
}
