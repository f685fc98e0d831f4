/** The timing of a brew: the stage tables, the scaling by what the client asked
    for, and the clock of brew_task in nivona_brew.c. */
module Ramp {
  import opened Bytes
  import opened Families
  import opened Registers

  // Sub-process codes.
  const GRINDING: int16 := 1
  const COFFEE: int16 := 2
  const STEAM: int16 := 3
  const WATERING: int16 := 4

  datatype Stage = Stage(sub: int16, weight: uint8)

  datatype Shape = Shape(totalMs: uint32, stages: seq<Stage>)

  const COFFEE_SHAPE := Shape(28000, [Stage(GRINDING, 3), Stage(COFFEE, 7)])

  function ShapeOf(category: Category): Shape {
    match category
    case Espresso => Shape(20000, [Stage(GRINDING, 3), Stage(COFFEE, 7)])
    case Coffee => COFFEE_SHAPE
    case Americano => Shape(35000, [Stage(GRINDING, 2), Stage(COFFEE, 5), Stage(WATERING, 3)])
    case MilkDrink => Shape(45000, [Stage(GRINDING, 2), Stage(COFFEE, 4), Stage(STEAM, 4)])
    case MilkOnly => Shape(20000, [Stage(STEAM, 10)])
    case HotWater => Shape(15000, [Stage(WATERING, 10)])
    case Unknown => COFFEE_SHAPE
  }

  function Stretch(s: Stage): seq<int16> {
    seq(s.weight, _ => s.sub)
  }

  /** The codes shown, a share of the time for each unit of weight. */
  function Timeline(stages: seq<Stage>): seq<int16> {
    if stages == [] then []
    else Timeline(stages[..|stages| - 1]) + Stretch(stages[|stages| - 1])
  }

  /** A brew tenth by tenth: grinding is 1, coffee 2, steam 3, water 4. */
  function Tenths(category: Category): seq<int16> {
    match category
    case Espresso => [1, 1, 1, 2, 2, 2, 2, 2, 2, 2]
    case Coffee => [1, 1, 1, 2, 2, 2, 2, 2, 2, 2]
    case Americano => [1, 1, 2, 2, 2, 2, 2, 4, 4, 4]
    case MilkDrink => [1, 1, 2, 2, 2, 2, 3, 3, 3, 3]
    case MilkOnly => [3, 3, 3, 3, 3, 3, 3, 3, 3, 3]
    case HotWater => [4, 4, 4, 4, 4, 4, 4, 4, 4, 4]
    case Unknown => [1, 1, 1, 2, 2, 2, 2, 2, 2, 2]
  }

  lemma {:induction false} OneStretch(a: Stage)
    ensures Timeline([a]) == Stretch(a)
  {
    assert [a][..0] == [];
  }

  lemma {:induction false} TwoStretches(a: Stage, b: Stage)
    ensures Timeline([a, b]) == Stretch(a) + Stretch(b)
  {
    assert [a, b][..1] == [a];
    OneStretch(a);
  }

  lemma {:induction false} ThreeStretches(a: Stage, b: Stage, c: Stage)
    ensures Timeline([a, b, c]) == Stretch(a) + Stretch(b) + Stretch(c)
  {
    assert [a, b, c][..2] == [a, b];
    TwoStretches(a, b);
  }

  lemma {:induction false} TimelineIs(category: Category)
    ensures Timeline(ShapeOf(category).stages) == Tenths(category)
  {
    var stages := ShapeOf(category).stages;
    if |stages| == 1 {
      OneStretch(stages[0]);
    } else if |stages| == 2 {
      TwoStretches(stages[0], stages[1]);
    } else {
      ThreeStretches(stages[0], stages[1], stages[2]);
    }
  }

  // ---- Stage times -----------------------------------------------------------------

  function Weights(stages: seq<Stage>, n: nat): nat
    requires n <= |stages|
  {
    if n == 0 then 0 else Weights(stages, n - 1) + stages[n - 1].weight
  }

  /** The sum of the weights in 32 bits; 1 stands in for 0. */
  function WeightSum(stages: seq<Stage>): (sum: uint32)
    ensures sum > 0
  {
    var sum := AsUint32(Weights(stages, |stages|));
    if sum == 0 then 1 else sum
  }

  /** The time of stage `i`, rounded down. */
  function StageMs(total: nat, stages: seq<Stage>, i: nat): nat
    requires i < |stages|
  {
    var share: nat := total * stages[i].weight;
    share / WeightSum(stages)
  }

  function Elapsed(total: nat, stages: seq<Stage>, n: nat): nat
    requires n <= |stages|
  {
    if n == 0 then 0 else Elapsed(total, stages, n - 1) + StageMs(total, stages, n - 1)
  }

  /** `e` is the share `sum` of `w` has in the total, less at most `w - 1` for each of
      `n` roundings. */
  predicate Shares(w: nat, total: nat, sum: nat, e: nat, n: nat) {
    total * sum - n * (w - 1) <= w * e <= total * sum
  }

  lemma {:induction false} NoStage(w: nat, total: nat)
    ensures Shares(w, total, 0, 0, 0)
  {
  }

  lemma {:induction false} Distribute(a: int, b: int, c: int)
    ensures a * (b + c) == a * b + a * c
  {
  }

  lemma {:induction false} Commutes(a: int, b: int)
    ensures a * b == b * a
  {
  }

  lemma {:induction false} Divided(p: nat, w: nat)
    requires w > 0
    ensures p - (w - 1) <= w * (p / w) <= p
  {
  }

  lemma {:induction false} OneMoreStage(w: nat, total: nat, sum: nat, weight: nat, e: nat, n: nat)
    requires Shares(w, total, sum, e, n) && w > 0
    ensures Shares(w, total, sum + weight, e + total * weight / w, n + 1)
  {
    var q := total * weight / w;
    Divided(total * weight, w);
    Distribute(w, e, q);
    Distribute(total, sum, weight);
    Distribute(w - 1, n, 1);
    Commutes(w - 1, n);
    Commutes(w - 1, n + 1);
  }

  lemma {:induction false} ElapsedShares(total: nat, stages: seq<Stage>, n: nat)
    requires n <= |stages|
    ensures Shares(WeightSum(stages), total, Weights(stages, n), Elapsed(total, stages, n), n)
    decreases n
  {
    if n == 0 {
      NoStage(WeightSum(stages), total);
    } else {
      ElapsedShares(total, stages, n - 1);
      OneMoreStage(WeightSum(stages), total, Weights(stages, n - 1), stages[n - 1].weight,
                   Elapsed(total, stages, n - 1), n - 1);
    }
  }

  lemma {:induction false} Monotone(a: nat, b: int, c: int)
    requires b <= c
    ensures a * b <= a * c
  {
  }

  lemma {:induction false} CancelLess(a: nat, b: int, c: int)
    requires a * b < a * c
    ensures b < c
  {
    if b >= c {
      Monotone(a, c, b);
    }
  }

  lemma {:induction false} AtMostTotal(w: nat, e: int, total: int)
    requires w * e <= total * w
    ensures w > 0 ==> e <= total
  {
    Commutes(total, w);
    Distribute(w, total, 1);
    if w > 0 {
      CancelLess(w, e, total + 1);
    }
  }

  lemma {:induction false} AtLeastNearly(w: nat, e: int, total: int, n: int)
    requires 0 < n && 0 < w && total * w - n * (w - 1) <= w * e
    ensures total - n < e
  {
    Commutes(total, w);
    Distribute(w, total, -n);
    Distribute(n, w, -1);
    Commutes(n, w);
    CancelLess(w, total - n, e);
  }

  /** An uncancelled brew takes its total time, less at most one millisecond for
      each stage after the first. */
  lemma {:induction false} ElapsedBounds(total: nat, stages: seq<Stage>)
    requires 0 < Weights(stages, |stages|) < 0x1_0000_0000
    ensures total - (|stages| - 1) <= Elapsed(total, stages, |stages|) <= total
  {
    var w, n, e := WeightSum(stages), |stages|, Elapsed(total, stages, |stages|);
    ElapsedShares(total, stages, n);
    AtMostTotal(w, e, total);
    AtLeastNearly(w, e, total, n);
  }

  lemma {:induction false} ElapsedGrows(total: nat, stages: seq<Stage>, m: nat, n: nat)
    requires m <= n <= |stages|
    ensures Elapsed(total, stages, m) <= Elapsed(total, stages, n)
    decreases n
  {
    if m < n {
      ElapsedGrows(total, stages, m, n - 1);
    }
  }

  // ---- Overrides -------------------------------------------------------------------

  function Positive(v: int32): int {
    if v > 0 then v else 0
  }

  datatype Overrides = Overrides(
    strength: int32, twoCups: int32, coffee: int32, water: int32, milk: int32, foam: int32
  ) {
    predicate Active() {
      strength >= 0 || twoCups > 0 || coffee > 0 || water > 0 || milk > 0 || foam > 0
    }

    function Fluid(): int32 {
      AsInt32(Positive(coffee) + Positive(water) + Positive(milk) + Positive(foam))
    }
  }

  const TEMP_RECIPE_BASE := 9001

  /** A field of the temp-recipe slot; -1 if the family lacks it or nobody wrote it. */
  function TempField(r: Registers, offset: int): int32
    requires -1 <= offset < 100
  {
    if offset < 0 then -1
    else if TEMP_RECIPE_BASE + offset in r.num then r.num[TEMP_RECIPE_BASE + offset]
    else -1
  }

  predicate LayoutOk(l: Layout) {
    -1 <= l.strength < 100 && -1 <= l.twoCups < 100 && -1 <= l.coffee < 100
    && -1 <= l.water < 100 && -1 <= l.milk < 100 && -1 <= l.foam < 100
  }

  function ReadOverrides(r: Registers, l: Layout): Overrides
    requires LayoutOk(l)
  {
    Overrides(TempField(r, l.strength), TempField(r, l.twoCups), TempField(r, l.coffee),
              TempField(r, l.water), TempField(r, l.milk), TempField(r, l.foam))
  }

  function StrengthFactor(strength: int32): real {
    if strength > 0 then 1.0 + 0.15 * (strength as real) else 1.0
  }

  function VolumeFactor(fluid: int32): real {
    if fluid <= 0 then 1.0
    else
      var ratio := fluid as real / 80.0;
      if ratio < 0.5 then 0.5 else if ratio > 4.0 then 4.0 else ratio
  }

  /** The factor on the brew time, in exact arithmetic. */
  function Scale(ov: Overrides): real {
    StrengthFactor(ov.strength) * VolumeFactor(ov.Fluid())
  }

  /** The volume the clamps leave, in millilitres. */
  function EffectiveVolume(fluid: int32): int {
    if fluid <= 0 then 80 else if fluid < 40 then 40 else if fluid > 320 then 320 else fluid
  }

  /** What is asked for, in 1600ths: 1600 is the plain recipe. */
  function Demand(ov: Overrides): (d: int)
    ensures d >= 800
  {
    var s, v := Positive(ov.strength), EffectiveVolume(ov.Fluid());
    Monotone(v, 20, 20 + 3 * s);
    Commutes(v, 20 + 3 * s);
    (20 + 3 * s) * v
  }

  lemma {:induction false} ScaleIs(ov: Overrides)
    ensures Scale(ov) == Demand(ov) as real / 1600.0
  {
    var s, v := Positive(ov.strength), EffectiveVolume(ov.Fluid());
    assert StrengthFactor(ov.strength) == (20 + 3 * s) as real / 20.0;
    assert VolumeFactor(ov.Fluid()) == v as real / 80.0;
    var a, b := (20 + 3 * s) as real, v as real;
    assert (a / 20.0) * (b / 80.0) == a * b / 1600.0;
    assert ((20 + 3 * s) * v) as real == a * b;
  }

  /** The factor is at least 0.5.  The bound of 4 that the comment on the scale
      promises holds exactly when strength and volume stay within one budget. */
  lemma {:induction false} ScaleAtMostFourIff(ov: Overrides)
    ensures Scale(ov) >= 0.5
    ensures Scale(ov) <= 4.0 <==> (20 + 3 * Positive(ov.strength)) * EffectiveVolume(ov.Fluid()) <= 6400
  {
    ScaleIs(ov);
  }

  /** The bound fails at full strength and 320 ml. */
  lemma {:induction false} ScaleExceedsFour(ov: Overrides)
    requires ov == Overrides(4, 0, 320, 0, 0, 0)
    ensures Scale(ov) == 6.4
  {
    ScaleIs(ov);
    assert Demand(ov) == 32 * 320;
  }

  lemma {:induction false} ProductRange(a: int, v: int)
    requires 20 <= a <= 32 && 40 <= v <= 320
    ensures 800 <= a * v <= 10240
  {
    assert 20 * 40 <= a * 40 <= a * v <= a * 320 <= 32 * 320;
  }

  /** Up to strength 4 the factor stays within 0.5 and 6.4. */
  lemma {:induction false} ScaleRange(ov: Overrides)
    requires ov.strength <= 4
    ensures 0.5 <= Scale(ov) <= 6.4
  {
    ScaleIs(ov);
    ProductRange(20 + 3 * Positive(ov.strength), EffectiveVolume(ov.Fluid()));
  }

  /** The time of a brew before it is scaled. */
  function BaseMs(category: Category, twoCups: bool): (ms: int)
    ensures 15000 <= ms <= 90000
  {
    ShapeOf(category).totalMs as int * if twoCups then 2 else 1
  }

  /** The total time of a brew, as brew_task computes it. */
  function TotalMs(category: Category, twoCups: bool, ov: Overrides): int {
    if ov.Active() then (BaseMs(category, twoCups) as real * Scale(ov)).Floor else BaseMs(category, twoCups)
  }

  lemma {:induction false} FloorOfShare(a: int, scale: real, d: int)
    requires scale == d as real / 1600.0
    ensures (a as real * scale).Floor == a * d / 1600
  {
    assert a as real * scale == (a * d) as real / 1600.0;
    var q := a * d / 1600;
    assert 1600 * q <= a * d < 1600 * q + 1600;
    assert q as real <= (a * d) as real / 1600.0 < q as real + 1.0;
  }

  lemma {:induction false} PlainDemand(ov: Overrides)
    requires !ov.Active()
    ensures Demand(ov) == 1600
  {
  }

  /** The total is the plain time's share of what is asked for, rounded down. */
  lemma {:induction false} TotalIs(category: Category, twoCups: bool, ov: Overrides)
    ensures TotalMs(category, twoCups, ov) == BaseMs(category, twoCups) * Demand(ov) / 1600
  {
    if ov.Active() {
      ScaleIs(ov);
      FloorOfShare(BaseMs(category, twoCups), Scale(ov), Demand(ov));
    } else {
      PlainDemand(ov);
    }
  }

  /** What makes the brew's arithmetic fit its 32-bit words. */
  predicate InRange(total: int, stages: seq<Stage>) {
    0 < total && 100 * total < 0x1_0000_0000
    && 0 < Weights(stages, |stages|) < 0x1_0000_0000 && forall s | s in stages :: s.weight <= 100
  }

  /** What a client can ask for without the brew's clock wrapping. */
  predicate ClockFits(category: Category, twoCups: bool, ov: Overrides) {
    BaseMs(category, twoCups) * Demand(ov) < 42949673 * 1600
  }

  lemma {:induction false} ShareBelow(p: int, bound: int)
    ensures p / 1600 < bound <==> p < bound * 1600
  {
  }

  lemma {:induction false} NoBrewIsShort(category: Category, twoCups: bool, ov: Overrides)
    ensures TotalMs(category, twoCups, ov) >= 7500
  {
    TotalIs(category, twoCups, ov);
    Monotone(BaseMs(category, twoCups), 800, Demand(ov));
    ShareBelow(BaseMs(category, twoCups) * Demand(ov), 7500);
  }

  lemma {:induction false} ShapeWeights(category: Category)
    ensures var stages := ShapeOf(category).stages;
            1 <= |stages| <= 3 && Weights(stages, |stages|) == 10 && forall s | s in stages :: s.weight <= 10
  {
    var stages := ShapeOf(category).stages;
    assert Weights(stages, 1) == stages[0].weight;
    if |stages| >= 2 {
      assert Weights(stages, 2) == stages[0].weight + stages[1].weight;
    }
  }

  /** A brew's arithmetic fits its 32-bit words exactly when that is so; and every brew
      is long enough for its progress to reach 99. */
  lemma {:induction false} InRangeIff(category: Category, twoCups: bool, ov: Overrides)
    ensures var total, stages := TotalMs(category, twoCups, ov), ShapeOf(category).stages;
            && (InRange(total, stages) <==> ClockFits(category, twoCups, ov))
            && total >= 100 * (|stages| - 1)
  {
    TotalIs(category, twoCups, ov);
    ShareBelow(BaseMs(category, twoCups) * Demand(ov), 42949673);
    NoBrewIsShort(category, twoCups, ov);
    ShapeWeights(category);
  }

  /** Up to strength 4, every recipe and every volume fits. */
  lemma {:induction false} MildBrewsFit(category: Category, twoCups: bool, ov: Overrides)
    requires ov.strength <= 4
    ensures ClockFits(category, twoCups, ov)
  {
    var base := BaseMs(category, twoCups);
    ProductRange(20 + 3 * Positive(ov.strength), EffectiveVolume(ov.Fluid()));
    Monotone(base, Demand(ov), 10240);
  }
}
