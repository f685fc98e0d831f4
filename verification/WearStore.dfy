/** The same wear, written through the register store as one batch. */
module WearStore {
  import opened Bytes
  import opened Families
  import opened Registers
  import opened Store
  import opened Wear

  function BumpedIn(r: Registers, id: int16): Registers {
    r.BatchPut(id, AsInt32(Num(r.num, id) as int + 1))
  }

  function CountedIn(r: Registers, s: Stats, selector: uint8): Registers {
    var a := if HasRecipeCounter(s, selector) then BumpedIn(r, 200 + selector) else r;
    var b := if s.total != 0 then BumpedIn(a, s.total) else a;
    if s.viaApp != 0 then BumpedIn(b, s.viaApp) else b
  }

  function Worn1In(r: Registers, gauge: int16, flag: int16, low: int): Registers {
    var a := if Num(r.num, gauge) > 0 then r.BatchPut(gauge, Num(r.num, gauge) - 1) else r;
    if Num(a.num, gauge) < low then a.BatchPut(flag, 1) else a
  }

  function WornOutIn(r: Registers, tick: int32): Registers {
    var a := Worn1In(r, FILTER_PCT, FILTER_WARN, 10);
    var b := if tick % 2 == 0 then Worn1In(a, BREW_UNIT_PCT, BREW_UNIT_WARN, 20) else a;
    if tick % 5 == 0 then Worn1In(b, DESCALE_PCT, DESCALE_WARN, 20) else b
  }

  /** The registers after a brew, and the local tick. */
  function AfterBrewIn(r: Registers, s: Stats, selector: uint8, localTick: int32): (Registers, int32) {
    var c := CountedIn(r.BatchBegin(), s, selector);
    var tick := TickOf(c.num, s, localTick);
    (WornOutIn(c, tick).BatchEnd(), tick)
  }

  method BatchBump(store: RegisterStore, id: int16)
    requires store.Valid()
    modifies store, store.num
    ensures store.Valid() && store.Model() == BumpedIn(old(store.Model()), id)
  {
    var v := store.GetNum(id);
    store.BatchSetNum(id, AsInt32(v as int + 1));
  }

  method WearOne(store: RegisterStore, gauge: int16, flag: int16, low: int)
    requires store.Valid()
    modifies store, store.num
    ensures store.Valid() && store.Model() == Worn1In(old(store.Model()), gauge, flag, low)
  {
    var v := store.GetNum(gauge);
    if v > 0 {
      store.BatchSetNum(gauge, v - 1);
    }
    v := store.GetNum(gauge);
    if v < low {
      store.BatchSetNum(flag, 1);
    }
  }

  /** apply_wear_after_brew.  `localTick` stands for the counter kept by families
      without a total; it follows the total on the others. */
  method ApplyWear(store: RegisterStore, s: Stats, selector: uint8, localTick0: int32) returns (localTick: int32)
    requires store.Valid()
    modifies store, store.num
    ensures store.Valid()
    ensures (store.Model(), localTick) == AfterBrewIn(old(store.Model()), s, selector, localTick0)
  {
    store.BatchBegin();
    ghost var r := store.Model();
    if HasRecipeCounter(s, selector) {
      BatchBump(store, 200 + selector);
    }
    if s.total != 0 {
      BatchBump(store, s.total);
    }
    if s.viaApp != 0 {
      BatchBump(store, s.viaApp);
    }
    ghost var c := store.Model();
    assert c == CountedIn(r, s, selector);

    var wearTicks: int32;
    if s.total != 0 {
      wearTicks := store.GetNum(s.total);
    } else {
      wearTicks := AsInt32(localTick0 as int + 1);
    }
    localTick := wearTicks;

    WearOne(store, FILTER_PCT, FILTER_WARN, 10);
    if wearTicks % 2 == 0 {
      WearOne(store, BREW_UNIT_PCT, BREW_UNIT_WARN, 20);
    }
    if wearTicks % 5 == 0 {
      WearOne(store, DESCALE_PCT, DESCALE_WARN, 20);
    }
    assert store.Model() == WornOutIn(c, wearTicks);
    store.BatchEnd();
  }

  // ---- With room in the table, the store does what the plain map does ------------

  const GAUGE_IDS: set<int16> :=
    {FILTER_PCT, FILTER_WARN, BREW_UNIT_PCT, BREW_UNIT_WARN, DESCALE_PCT, DESCALE_WARN}

  /** The ids one brew may write. */
  function WornIds(s: Stats, selector: uint8): set<int16> {
    {200 + selector, s.total, s.viaApp} + GAUGE_IDS
  }

  /** `r` holds the plain map `m`, and flash agrees, with all ids within `ids`. */
  ghost predicate Holds(r: Registers, m: Nums, ids: set<int16>) {
    r.num == m && r.batch.Some? && Synced(r) && m.Keys <= ids && |ids| <= NUM_CAP
  }

  lemma {:induction false} PutHolds(r: Registers, m: Nums, ids: set<int16>, id: int16, value: int32)
    requires Holds(r, m, ids) && id in ids
    ensures Holds(r.BatchPut(id, value), m[id := value], ids)
  {
    if id !in m {
      SubsetSize(m.Keys, ids);
    }
    BatchPutSyncs(r, id, value);
  }

  lemma {:induction false} BumpHolds(r: Registers, m: Nums, ids: set<int16>, id: int16)
    requires Holds(r, m, ids) && id in ids
    ensures Holds(BumpedIn(r, id), Bumped(m, id), ids)
  {
    var v := AsInt32(Num(m, id) as int + 1);
    assert BumpedIn(r, id) == r.BatchPut(id, v) && Bumped(m, id) == m[id := v];
    PutHolds(r, m, ids, id, v);
  }

  lemma {:induction false} CountedHolds(r: Registers, m: Nums, ids: set<int16>, s: Stats, selector: uint8)
    requires Holds(r, m, ids) && 200 + selector in ids && s.total in ids && s.viaApp in ids
    ensures Holds(CountedIn(r, s, selector), Counted(m, s, selector), ids)
  {
    var a, x := r, m;
    if HasRecipeCounter(s, selector) {
      BumpHolds(a, x, ids, 200 + selector);
      a, x := BumpedIn(a, 200 + selector), Bumped(x, 200 + selector);
    }
    if s.total != 0 {
      BumpHolds(a, x, ids, s.total);
      a, x := BumpedIn(a, s.total), Bumped(x, s.total);
    }
    if s.viaApp != 0 {
      BumpHolds(a, x, ids, s.viaApp);
    }
  }

  lemma {:induction false} Worn1Holds(r: Registers, m: Nums, ids: set<int16>, gauge: int16, flag: int16, low: int)
    requires Holds(r, m, ids) && gauge in ids && flag in ids
    ensures Holds(Worn1In(r, gauge, flag, low), Worn1(m, gauge, flag, low), ids)
  {
    var a, x := r, m;
    if Num(m, gauge) > 0 {
      PutHolds(r, m, ids, gauge, Num(m, gauge) - 1);
      a, x := r.BatchPut(gauge, Num(m, gauge) - 1), m[gauge := Num(m, gauge) - 1];
    }
    if Num(x, gauge) < low {
      PutHolds(a, x, ids, flag, 1);
    }
  }

  lemma {:induction false} WornOutHolds(r: Registers, m: Nums, ids: set<int16>, tick: int32)
    requires Holds(r, m, ids) && GAUGE_IDS <= ids
    ensures Holds(WornOutIn(r, tick), WornOut(m, tick), ids)
  {
    Worn1Holds(r, m, ids, FILTER_PCT, FILTER_WARN, 10);
    var a, x := Worn1In(r, FILTER_PCT, FILTER_WARN, 10), Worn1(m, FILTER_PCT, FILTER_WARN, 10);
    if tick % 2 == 0 {
      Worn1Holds(a, x, ids, BREW_UNIT_PCT, BREW_UNIT_WARN, 20);
      a, x := Worn1In(a, BREW_UNIT_PCT, BREW_UNIT_WARN, 20), Worn1(x, BREW_UNIT_PCT, BREW_UNIT_WARN, 20);
    }
    if tick % 5 == 0 {
      Worn1Holds(a, x, ids, DESCALE_PCT, DESCALE_WARN, 20);
    }
  }

  /** Memory is `m`, flash the same, and `ids`, which holds all keys, fits the table. */
  ghost predicate Plain(r: Registers, m: Nums, ids: set<int16>) {
    r.num == m && Synced(r) && r.batch.None? && m.Keys <= ids && |ids| <= NUM_CAP
  }

  lemma {:induction false} BeginHolds(r: Registers, m: Nums, ids: set<int16>)
    requires Plain(r, m, ids)
    ensures Holds(r.BatchBegin(), m, ids)
  {
    assert r.flashNum + map[] == r.flashNum;
  }

  lemma {:induction false} EndHolds(r: Registers, m: Nums, ids: set<int16>)
    requires Holds(r, m, ids)
    ensures Plain(r.BatchEnd(), m, ids)
  {
  }

  lemma {:induction false} IdsWithin(s: Stats, selector: uint8, ids: set<int16>)
    requires WornIds(s, selector) <= ids
    ensures 200 + selector in ids && s.total in ids && s.viaApp in ids && GAUGE_IDS <= ids
  {
    assert 200 + selector in WornIds(s, selector);
    assert s.total in WornIds(s, selector);
    assert s.viaApp in WornIds(s, selector);
  }

  /** While what is held and what the brew writes fit the table, the batch leaves
      memory as the plain map has it, and flash the same as memory. */
  lemma {:induction false} BatchIsPlain(r: Registers, m: Nums, ids: set<int16>, s: Stats, selector: uint8,
                                        localTick: int32)
    requires Plain(r, m, ids) && WornIds(s, selector) <= ids
    ensures var q, p := AfterBrewIn(r, s, selector, localTick), AfterBrew(m, s, selector, localTick);
            Plain(q.0, p.0, ids) && q.1 == p.1
  {
    var b := r.BatchBegin();
    BeginHolds(r, m, ids);
    IdsWithin(s, selector, ids);
    CountedHolds(b, m, ids, s, selector);
    var c, x := CountedIn(b, s, selector), Counted(m, s, selector);
    var tick := TickOf(x, s, localTick);
    WornOutHolds(c, x, ids, tick);
    EndHolds(WornOutIn(c, tick), WornOut(x, tick), ids);
  }
}
