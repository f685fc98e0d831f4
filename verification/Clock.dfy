/** The clock of brew_task in nivona_brew.c and of cycle_task in nivona_maint_cycle.c:
    ticks, stage times and progress as 32-bit words compute them, and when what is
    shown is the true share of the time. */
module Clock {
  import opened Bytes
  import opened Families
  import opened Ramp
  import opened Status

  const TICK_MS: uint32 := 500

  /** The first clock value whose hundredfold passes 32 bits. */
  const SPAN: nat := 42949673

  /** The first total of which no percentage in 32 bits reaches 99. */
  const NO_END: nat := 43383509

  /** The last total of which the clock can show 1 percent before it passes the span. */
  const LONGEST: nat := 4294917300

  /** The progress value as computed in 32 bits, before the clamp. */
  function Percent(elapsed: uint32, total: uint32): int16
    requires total > 0
  {
    AsInt16(AsUint32(elapsed as int * 100) / total)
  }

  /** The progress shown. */
  function Shown(elapsed: uint32, total: uint32): int16
    requires total > 0
  {
    if Percent(elapsed, total) > 100 then 100 else Percent(elapsed, total)
  }

  /** The time of a stage as computed in 32 bits. */
  function StageTime(total: uint32, weight: uint8, weightSum: uint32): uint32
    requires weightSum > 0
  {
    AsUint32(total as int * weight as int) / weightSum
  }

  /** Where the clock stands when `n` stages are over, if it does not pass 32 bits. */
  function ClockAt(total: uint32, stages: seq<Stage>, n: nat): nat
    requires n <= |stages|
  {
    if n == 0 then 0
    else ClockAt(total, stages, n - 1) + StageTime(total, stages[n - 1].weight, WeightSum(stages))
  }

  /** The clock itself does not pass 32 bits. */
  predicate ClockKeeps(total: uint32, stages: seq<Stage>) {
    0 < total && ClockAt(total, stages, |stages|) < 0x1_0000_0000
  }

  method SumWeights(stages: seq<Stage>) returns (sum: uint32)
    ensures sum == WeightSum(stages)
  {
    sum := 0;
    for i := 0 to |stages|
      invariant sum == AsUint32(Weights(stages, i))
    {
      sum := AsUint32(sum as int + stages[i].weight);
    }
    if sum == 0 {
      sum := 1;
    }
  }

  // ---- The ticks -------------------------------------------------------------------

  /** The cancel flag as the task looks at it: once set it stays set, so all that
      matters is the first look that sees it, if any. */
  predicate SeesCancel(cancelAt: Option<nat>, looks: nat) {
    cancelAt.Some? && cancelAt.value <= looks
  }

  /** One tick after another: each moves the clock on by 1 to 500 ms. */
  ghost predicate Ticks(marks: seq<nat>, elapsed: nat) {
    && (forall k | 0 <= k < |marks| :: 0 < marks[k] <= elapsed)
    && (forall k | 0 < k < |marks| :: marks[k - 1] < marks[k] <= marks[k - 1] + 500)
    && (if marks == [] then elapsed == 0 else marks[0] <= 500 && marks[|marks| - 1] == elapsed)
  }

  /** The statuses pushed show what 32 bits make of the share of the total elapsed. */
  ghost predicate ShowsClock(pushed: seq<Block>, marks: seq<nat>, total: uint32) {
    && |pushed| == |marks|
    && forall k | 0 <= k < |marks| ::
         total > 0 && marks[k] < 0x1_0000_0000 && pushed[k].progress == Shown(marks[k], total)
  }

  /** The multiples of 500. */
  predicate IsBeat(ms: int)
    decreases ms
  {
    ms == 0 || (500 <= ms && IsBeat(ms - 500))
  }

  /** A tick comes every 500 ms after the start of what is timed, and one at its end. */
  predicate OnBeat(mark: int, start: int, end: int) {
    IsBeat(mark - start) || mark == end
  }

  lemma {:induction false} NextBeat(spent: nat, step: nat, end: nat)
    requires OnBeat(spent, 0, end) && spent < end && step == if end - spent > 500 then 500 else end - spent
    ensures 0 < step <= 500 && spent + step <= end && OnBeat(spent + step, 0, end)
  {
  }

  lemma {:induction false} ShiftedBeat(mark: int, end: int, start: int)
    requires OnBeat(mark, 0, end)
    ensures OnBeat(start + mark, start, start + end)
  {
    assert start + mark - start == mark - 0;
  }

  /** At every tick the sub-process shown is that of the stage the clock is in: `at` has
      the stage of each tick. */
  ghost predicate InStages(pushed: seq<Block>, marks: seq<nat>, at: seq<nat>, total: uint32, stages: seq<Stage>) {
    && |pushed| == |marks| == |at|
    && forall k | 0 <= k < |pushed| ::
         && at[k] < |stages| && pushed[k].sub == stages[at[k]].sub
         && ClockAt(total, stages, at[k]) < marks[k] <= ClockAt(total, stages, at[k] + 1)
  }

  /** Every tick is on its stage's beat. */
  ghost predicate InBeat(marks: seq<nat>, at: seq<nat>, total: uint32, stages: seq<Stage>) {
    |marks| == |at| &&
    (marks != [] ==>
       var n := |marks| - 1;
       && at[n] < |stages|
       && OnBeat(marks[n], ClockAt(total, stages, at[n]), ClockAt(total, stages, at[n] + 1))
       && InBeat(marks[..n], at[..n], total, stages))
  }

  ghost predicate Clocked(pushed: seq<Block>, marks: seq<nat>, at: seq<nat>, elapsed: nat, total: uint32,
                          stages: seq<Stage>) {
    && Ticks(marks, elapsed) && ShowsClock(pushed, marks, total) && InStages(pushed, marks, at, total, stages)
    && InBeat(marks, at, total, stages)
  }

  /** What a brew showed at its ticks, and for how long it ran, when its stages are over. */
  ghost predicate RanFor(shown: seq<Block>, marks: seq<nat>, at: seq<nat>, elapsed: nat, total: uint32,
                         stages: seq<Stage>, begun: nat, cancelled: bool) {
    && begun <= |stages| && elapsed < 0x1_0000_0000 && Clocked(shown, marks, at, elapsed, total, stages)
    && elapsed <= ClockAt(total, stages, begun) && (!cancelled ==> elapsed == ClockAt(total, stages, begun))
  }

  lemma {:induction false} OneMoreMark(marks: seq<nat>, elapsed: nat, step: nat)
    requires Ticks(marks, elapsed) && 0 < step <= 500
    ensures Ticks(marks + [elapsed + step], elapsed + step)
  {
  }

  lemma {:induction false} OneMoreClock(pushed: seq<Block>, marks: seq<nat>, now: uint32, total: uint32, b: Block)
    requires ShowsClock(pushed, marks, total) && 0 < total && b.progress == Shown(now, total)
    ensures ShowsClock(pushed + [b], marks + [now], total)
  {
  }

  lemma {:induction false} OneMoreInStage(pushed: seq<Block>, marks: seq<nat>, at: seq<nat>, total: uint32,
                                          stages: seq<Stage>, b: Block, now: nat, i: nat)
    requires InStages(pushed, marks, at, total, stages)
    requires i < |stages| && b.sub == stages[i].sub
    requires ClockAt(total, stages, i) < now <= ClockAt(total, stages, i + 1)
    ensures InStages(pushed + [b], marks + [now], at + [i], total, stages)
  {
  }

  lemma {:induction false} OneMoreInBeat(marks: seq<nat>, at: seq<nat>, total: uint32, stages: seq<Stage>, now: nat,
                                         i: nat)
    requires InBeat(marks, at, total, stages) && i < |stages|
    requires OnBeat(now, ClockAt(total, stages, i), ClockAt(total, stages, i + 1))
    ensures InBeat(marks + [now], at + [i], total, stages)
  {
    assert (marks + [now])[..|marks|] == marks && (at + [i])[..|at|] == at;
  }

  lemma {:induction false} OneMoreClocked(pushed: seq<Block>, marks: seq<nat>, at: seq<nat>, elapsed: nat,
                                          total: uint32, stages: seq<Stage>, b: Block, step: nat, i: nat)
    requires Clocked(pushed, marks, at, elapsed, total, stages) && 0 < total && 0 < step <= 500
    requires i < |stages| && b.sub == stages[i].sub
    requires ClockAt(total, stages, i) <= elapsed && elapsed + step <= ClockAt(total, stages, i + 1) < 0x1_0000_0000
    requires OnBeat(elapsed + step, ClockAt(total, stages, i), ClockAt(total, stages, i + 1))
    ensures Clocked(pushed + [b.(progress := Shown(elapsed + step, total))], marks + [elapsed + step], at + [i],
                    elapsed + step, total, stages)
  {
    var b := b.(progress := Shown(elapsed + step, total));
    OneMoreMark(marks, elapsed, step);
    OneMoreClock(pushed, marks, elapsed + step, total, b);
    OneMoreInStage(pushed, marks, at, total, stages, b, elapsed + step, i);
    OneMoreInBeat(marks, at, total, stages, elapsed + step, i);
  }

  lemma {:induction false} ClockGrows(total: uint32, stages: seq<Stage>, m: nat, n: nat)
    requires m <= n <= |stages|
    ensures ClockAt(total, stages, m) <= ClockAt(total, stages, n)
    decreases n
  {
    if m < n {
      ClockGrows(total, stages, m, n - 1);
    }
  }

  // ---- The true share ----------------------------------------------------------------

  /** The statuses pushed show the elapsed share of the whole brew, in percent. */
  ghost predicate Shows(pushed: seq<Block>, marks: seq<nat>, total: nat) {
    |pushed| == |marks| && forall k | 0 <= k < |marks| :: total > 0 && pushed[k].progress == marks[k] * 100 / total
  }

  /** The clock and the statuses pushed so far, with no product over 32 bits. */
  ghost predicate OnTime(pushed: seq<Block>, marks: seq<nat>, elapsed: nat, total: nat) {
    100 * total < 0x1_0000_0000 && elapsed <= total && Ticks(marks, elapsed) && Shows(pushed, marks, total)
  }

  /** Progress is a percentage and never falls. */
  ghost predicate Climbs(pushed: seq<Block>) {
    forall i, j | 0 <= i <= j < |pushed| :: 0 <= pushed[i].progress <= pushed[j].progress <= 100
  }

  /** The last tick shows 99 or 100. */
  predicate EndsNear100(pushed: seq<Block>) {
    pushed != [] && pushed[|pushed| - 1].progress >= 99
  }

  lemma {:induction false} Fits32(x: int)
    requires 0 <= x < 0x1_0000_0000
    ensures AsUint32(x) == x
  {
  }

  lemma {:induction false} Fits16(x: int)
    requires 0 <= x < 0x8000
    ensures AsInt16(x) == x
  {
  }

  lemma {:induction false} DividesTo(a: nat, b: nat, c: nat)
    requires 0 < b && a <= b * c
    ensures a / b <= c
  {
    Divided(a, b);
    CancelLess(b, a / b, c + 1);
  }

  lemma {:induction false} DividesFrom(a: nat, b: nat, c: nat)
    requires 0 < b && b * c <= a
    ensures c <= a / b
  {
    Divided(a, b);
    Distribute(b, a / b, 1);
    CancelLess(b, c, a / b + 1);
  }

  /** Before the span, and within the total, the share shown is the true one. */
  lemma {:induction false} ShownIs(now: uint32, total: uint32)
    requires now < SPAN && now <= total && 0 < total
    ensures Percent(now, total) == Shown(now, total)
    ensures 0 <= Shown(now, total) as int == now as int * 100 / total as int <= 100
  {
    DividesTo(now as int * 100, total, 100);
    Fits32(now as int * 100);
    Fits16(now as int * 100 / total as int);
  }

  lemma {:induction false} OneMoreShown(pushed: seq<Block>, marks: seq<nat>, now: nat, total: nat, b: Block)
    requires Shows(pushed, marks, total) && 0 < total && b.progress as int == now * 100 / total
    ensures Shows(pushed + [b], marks + [now], total)
  {
  }

  lemma {:induction false} OneMoreTick(pushed: seq<Block>, marks: seq<nat>, elapsed: nat, step: nat, total: nat,
                                       b: Block)
    requires OnTime(pushed, marks, elapsed, total) && 0 < step <= TICK_MS && elapsed + step <= total
    ensures var now := elapsed + step;
            AsUint32(now) == now && Percent(now, total) <= 100
            && OnTime(pushed + [b.(progress := Percent(now, total))], marks + [now], now, total)
  {
    var now := elapsed + step;
    Fits32(now);
    ShownIs(now, total);
    OneMoreMark(marks, elapsed, step);
    OneMoreShown(pushed, marks, now, total, b.(progress := Percent(now, total)));
  }

  lemma {:induction false} ClockIsOnTime(pushed: seq<Block>, marks: seq<nat>, elapsed: nat, total: uint32)
    requires Ticks(marks, elapsed) && ShowsClock(pushed, marks, total)
    requires elapsed <= total && 100 * total as int < 0x1_0000_0000
    ensures OnTime(pushed, marks, elapsed, total)
  {
    forall k | 0 <= k < |marks|
      ensures pushed[k].progress == marks[k] * 100 / total as int
    {
      ShownIs(marks[k], total);
    }
  }

  lemma {:induction false} Whole(total: nat)
    requires 0 < total
    ensures total * 100 / total == 100
  {
    DividesTo(total * 100, total, 100);
    DividesFrom(total * 100, total, 100);
  }

  lemma {:induction false} MarksClimb(marks: seq<nat>, elapsed: nat, i: nat, j: nat)
    requires Ticks(marks, elapsed) && i <= j < |marks|
    ensures marks[i] <= marks[j] <= elapsed
    decreases j
  {
    if i < j {
      MarksClimb(marks, elapsed, i, j - 1);
    }
  }

  lemma {:induction false} ShareClimbs(a: nat, b: nat, total: nat)
    requires 0 < total && a <= b
    ensures 0 <= a * 100 / total <= b * 100 / total
  {
    Divided(a * 100, total);
    DividesFrom(b * 100, total, a * 100 / total);
  }

  lemma {:induction false} ClockClimbs(pushed: seq<Block>, marks: seq<nat>, elapsed: nat, total: uint32)
    requires Ticks(marks, elapsed) && ShowsClock(pushed, marks, total) && elapsed < SPAN && elapsed <= total
    ensures Climbs(pushed)
  {
    forall i, j | 0 <= i <= j < |pushed|
      ensures 0 <= pushed[i].progress <= pushed[j].progress <= 100
    {
      MarksClimb(marks, elapsed, i, j);
      ShownIs(marks[i], total);
      ShownIs(marks[j], total);
      ShareClimbs(marks[i], marks[j], total);
    }
  }

  /** On time, progress climbs, and shows 100 once all the time is up. */
  lemma {:induction false} ShowsClimb(pushed: seq<Block>, marks: seq<nat>, elapsed: nat, total: nat)
    requires OnTime(pushed, marks, elapsed, total) && 0 < total
    ensures Climbs(pushed)
    ensures elapsed == total ==> pushed != [] && pushed[|pushed| - 1].progress == 100
  {
    forall k | 0 <= k < |marks|
      ensures pushed[k].progress == Shown(marks[k], total)
    {
      ShownIs(marks[k], total);
    }
    ClockClimbs(pushed, marks, elapsed, total);
    if elapsed == total {
      Whole(total);
    }
  }

  // ---- Stage times ---------------------------------------------------------------------

  /** No stage's product passes 32 bits. */
  ghost predicate ProductsFit(total: uint32, stages: seq<Stage>) {
    0 < Weights(stages, |stages|) < 0x1_0000_0000
    && forall s | s in stages :: total as int * s.weight as int < 0x1_0000_0000
  }

  /** The clock stands where exact arithmetic has it at the end of every stage. */
  ghost predicate TrueTimes(total: uint32, stages: seq<Stage>) {
    forall n | 0 <= n <= |stages| :: ClockAt(total, stages, n) == Elapsed(total, stages, n)
  }

  lemma {:induction false} TimesAreTrue(total: uint32, stages: seq<Stage>, n: nat)
    requires ProductsFit(total, stages) && n <= |stages|
    ensures ClockAt(total, stages, n) == Elapsed(total, stages, n)
    decreases n
  {
    if n > 0 {
      TimesAreTrue(total, stages, n - 1);
      assert stages[n - 1] in stages;
      Fits32(total as int * stages[n - 1].weight as int);
    }
  }

  /** While no stage's product passes 32 bits the clock stays within the total, and ends
      at most one millisecond short of it for each stage after the first. */
  lemma {:induction false} ClockIsTrue(total: uint32, stages: seq<Stage>)
    requires ProductsFit(total, stages)
    ensures TrueTimes(total, stages)
    ensures total as int - (|stages| - 1) <= ClockAt(total, stages, |stages|) <= total
  {
    forall n | 0 <= n <= |stages|
      ensures ClockAt(total, stages, n) == Elapsed(total, stages, n)
    {
      TimesAreTrue(total, stages, n);
    }
    ElapsedBounds(total, stages);
  }

  lemma {:induction false} InRangeFits(total: uint32, stages: seq<Stage>)
    requires InRange(total, stages)
    ensures ProductsFit(total, stages)
  {
    forall s | s in stages
      ensures total as int * s.weight as int < 0x1_0000_0000
    {
      Monotone(total, s.weight, 100);
    }
  }

  /** In range, a stage's product does not wrap and the clock stays within the total. */
  lemma {:induction false} StageFits(total: uint32, stages: seq<Stage>, i: nat)
    requires InRange(total, stages) && i < |stages|
    ensures total as int * stages[i].weight < 0x1_0000_0000
    ensures Elapsed(total, stages, i) + StageMs(total, stages, i) == Elapsed(total, stages, i + 1) <= total
  {
    InRangeFits(total, stages);
    assert stages[i] in stages;
    ElapsedGrows(total, stages, i + 1, |stages|);
    ElapsedBounds(total, stages);
  }

  lemma {:induction false} NearlyAll(elapsed: nat, total: nat, n: nat)
    requires 0 < total && 0 < n && total - (n - 1) <= elapsed && total >= 100 * (n - 1)
    ensures elapsed * 100 / total >= 99
  {
    DividesFrom(elapsed * 100, total, 99);
  }

  /** An uncancelled brew of at least 100 ms for each stage after the first ends at
      99 or more. */
  lemma {:induction false} ProgressClimbs(pushed: seq<Block>, marks: seq<nat>, total: nat, elapsed: nat,
                                          stages: seq<Stage>)
    requires InRange(total, stages) && OnTime(pushed, marks, elapsed, total)
    ensures Climbs(pushed)
    ensures elapsed == Elapsed(total, stages, |stages|) && total >= 100 * (|stages| - 1) ==> EndsNear100(pushed)
  {
    ShowsClimb(pushed, marks, elapsed, total);
    if elapsed == Elapsed(total, stages, |stages|) && total >= 100 * (|stages| - 1) {
      ElapsedBounds(total, stages);
      NearlyAll(elapsed, total, |stages|);
    }
  }

  // ---- Past the span ---------------------------------------------------------------------

  /** What the tables have for every category. */
  ghost predicate IsShape(stages: seq<Stage>) {
    1 <= |stages| <= 3 && Weights(stages, |stages|) == 10 && forall s | s in stages :: s.weight <= 10
  }

  lemma {:induction false} TenthOfAll(total: uint32, weight: uint8)
    ensures StageTime(total, weight, 10) <= 429496729
  {
  }

  /** No shape's clock passes 32 bits, whatever its stages' products do. */
  lemma {:induction false} ShapeKeeps(total: uint32, stages: seq<Stage>, n: nat)
    requires IsShape(stages) && n <= |stages|
    ensures ClockAt(total, stages, n) <= n * 429496729
    ensures 0 < total && n == |stages| ==> ClockKeeps(total, stages)
    decreases n
  {
    if n > 0 {
      ShapeKeeps(total, stages, n - 1);
      Fits32(10);
      TenthOfAll(total, stages[n - 1].weight);
    }
  }

  lemma {:induction false} ShapeFits(total: uint32, stages: seq<Stage>)
    requires IsShape(stages) && 10 * total as int < 0x1_0000_0000
    ensures ProductsFit(total, stages)
  {
    forall s | s in stages
      ensures total as int * s.weight as int < 0x1_0000_0000
    {
      Monotone(total, s.weight, 10);
    }
  }

  /** The first tick at or past the span. */
  lemma {:induction false} Crossing(marks: seq<nat>, elapsed: nat, n: nat) returns (k: nat)
    requires Ticks(marks, elapsed) && n < |marks| && SPAN <= marks[n]
    ensures 0 < k < |marks| && marks[k - 1] < SPAN <= marks[k]
    decreases n
  {
    if n > 0 && SPAN <= marks[n - 1] {
      k := Crossing(marks, elapsed, n - 1);
    } else {
      k := n;
    }
  }

  lemma {:induction false} Wraps(now: nat)
    requires SPAN <= now && now * 100 < 0x2_0000_0000
    ensures AsUint32(now * 100) == now * 100 - 0x1_0000_0000
  {
  }

  lemma {:induction false} PercentAs(now: uint32, total: uint32, low: nat)
    requires 0 < total && AsUint32(now as int * 100) == low && low / total as int < 0x8000
    ensures Percent(now, total) as int == low / total as int
  {
    Fits16(low / total as int);
  }

  lemma {:induction false} DividesBelow(a: nat, b: nat, c: nat)
    requires a < b * c
    ensures b > 0 && 0 <= a / b < c
  {
    Divided(a, b);
    CancelLess(b, a / b, c);
  }

  lemma {:induction false} ShowsOne(now: uint32, total: uint32)
    requires SPAN <= now as int + TICK_MS && now < SPAN <= total as int <= LONGEST
    ensures Shown(now, total) >= 1
  {
    ShownIs(now, total);
    DividesFrom(now as int * 100, total, 1);
  }

  lemma {:induction false} ShowsNone(now: uint32, total: uint32)
    requires SPAN <= now as int < SPAN + TICK_MS && SPAN <= total as int
    ensures Shown(now, total) == 0
  {
    var low := now as int * 100 - 0x1_0000_0000;
    Wraps(now);
    DividesBelow(low, total, 1);
    PercentAs(now, total, low);
  }

  /** At any point of a brew, cancelled or not, its progress has climbed exactly while its
      clock has not reached the span. */
  lemma {:induction false} ClimbsIff(pushed: seq<Block>, marks: seq<nat>, elapsed: nat, total: uint32)
    requires Ticks(marks, elapsed) && ShowsClock(pushed, marks, total)
    requires 0 < total as int <= LONGEST && (elapsed <= total || SPAN <= total as int)
    ensures Climbs(pushed) <==> elapsed < SPAN
  {
    if elapsed < SPAN {
      ClockClimbs(pushed, marks, elapsed, total);
    } else {
      var k := Crossing(marks, elapsed, |marks| - 1);
      ShowsOne(marks[k - 1], total);
      ShowsNone(marks[k], total);
      assert pushed[k - 1].progress > pushed[k].progress;
    }
  }

  lemma {:induction false} TooLong(now: uint32, total: uint32)
    requires NO_END <= total as int
    ensures Shown(now, total) < 99
  {
    var low := AsUint32(now as int * 100);
    Monotone(99, NO_END, total);
    DividesBelow(low, total, 99);
    PercentAs(now, total, low);
  }

  lemma {:induction false} JustTooLong(now: uint32, total: uint32)
    requires SPAN <= now <= total && total as int < NO_END
    ensures Shown(now, total) <= 1
  {
    var low := now as int * 100 - 0x1_0000_0000;
    Wraps(now);
    DividesBelow(low, total, 2);
    PercentAs(now, total, low);
  }

  /** An uncancelled brew's last tick shows 99 or more exactly if the clock it ends at is
      within the span and its total leaves room for 99 percent. */
  lemma {:induction false} EndsIff(pushed: seq<Block>, marks: seq<nat>, total: uint32, stages: seq<Stage>)
    requires IsShape(stages) && total as int >= 200
    requires Ticks(marks, ClockAt(total, stages, |stages|)) && ShowsClock(pushed, marks, total)
    ensures EndsNear100(pushed) <==> ClockAt(total, stages, |stages|) < SPAN && total as int < NO_END
  {
    var elapsed := ClockAt(total, stages, |stages|);
    if NO_END <= total as int {
      if pushed != [] {
        TooLong(elapsed, total);
      }
    } else {
      ShapeFits(total, stages);
      ClockIsTrue(total, stages);
      if elapsed < SPAN {
        ShownIs(elapsed, total);
        NearlyAll(elapsed, total, |stages|);
      } else {
        JustTooLong(elapsed, total);
      }
    }
  }

  // ---- For which brews ---------------------------------------------------------------------

  /** No brew of two or three stages takes one of the two times by which rounding would
      decide. */
  lemma {:induction false} NoSuchTotal(category: Category, twoCups: bool, ov: Overrides)
    requires |ShapeOf(category).stages| > 1
    ensures TotalMs(category, twoCups, ov) != SPAN && TotalMs(category, twoCups, ov) != SPAN + 1
  {
    TotalIs(category, twoCups, ov);
  }

  lemma {:induction false} EveryShape(category: Category)
    ensures IsShape(ShapeOf(category).stages)
  {
    ShapeWeights(category);
  }

  /** While no stage's product passes 32 bits, the clock ends within the span exactly if
      what is asked for fits it. */
  lemma {:induction false} SpanIff(category: Category, twoCups: bool, ov: Overrides)
    requires var total, stages := TotalMs(category, twoCups, ov), ShapeOf(category).stages;
             0 <= total < 0x1_0000_0000 && ProductsFit(total, stages)
    ensures var total, stages := TotalMs(category, twoCups, ov), ShapeOf(category).stages;
            ClockAt(total, stages, |stages|) < SPAN <==> ClockFits(category, twoCups, ov)
  {
    var total, stages := TotalMs(category, twoCups, ov), ShapeOf(category).stages;
    NoBrewIsShort(category, twoCups, ov);
    InRangeIff(category, twoCups, ov);
    EveryShape(category);
    ClockIsTrue(total, stages);
    if |stages| > 1 {
      NoSuchTotal(category, twoCups, ov);
    }
  }

  /** Over an uncancelled brew no product passes 32 bits, neither a stage's nor any tick's,
      exactly if what is asked for fits. */
  lemma {:induction false} NoProductPassesIff(category: Category, twoCups: bool, ov: Overrides)
    requires TotalMs(category, twoCups, ov) < 0x1_0000_0000
    ensures var total, stages := TotalMs(category, twoCups, ov), ShapeOf(category).stages;
            && 0 <= total
            && (ProductsFit(total, stages) && ClockAt(total, stages, |stages|) * 100 < 0x1_0000_0000
                <==> ClockFits(category, twoCups, ov))
  {
    var total, stages := TotalMs(category, twoCups, ov), ShapeOf(category).stages;
    NoBrewIsShort(category, twoCups, ov);
    if ClockFits(category, twoCups, ov) {
      InRangeIff(category, twoCups, ov);
      InRangeFits(total, stages);
    }
    if ProductsFit(total, stages) {
      SpanIff(category, twoCups, ov);
    }
  }

  /** The progress of an uncancelled brew reaches 99 exactly if what is asked for fits the
      clock, for every time that a 32-bit word holds. */
  lemma {:induction false} EndsNear100Iff(category: Category, twoCups: bool, ov: Overrides, pushed: seq<Block>,
                                          marks: seq<nat>, elapsed: nat)
    requires TotalMs(category, twoCups, ov) < 0x1_0000_0000
    requires var total, stages := TotalMs(category, twoCups, ov), ShapeOf(category).stages;
             0 <= total && Ticks(marks, elapsed) && ShowsClock(pushed, marks, total)
             && elapsed == ClockAt(total, stages, |stages|)
    ensures EndsNear100(pushed) <==> ClockFits(category, twoCups, ov)
    ensures 10 * TotalMs(category, twoCups, ov) < 0x1_0000_0000 ==>
              (Climbs(pushed) <==> ClockFits(category, twoCups, ov))
  {
    var total, stages := TotalMs(category, twoCups, ov), ShapeOf(category).stages;
    NoBrewIsShort(category, twoCups, ov);
    InRangeIff(category, twoCups, ov);
    EveryShape(category);
    EndsIff(pushed, marks, total, stages);
    if 10 * total < 0x1_0000_0000 {
      ShapeFits(total, stages);
      SpanIff(category, twoCups, ov);
      ClockIsTrue(total, stages);
      ClimbsIff(pushed, marks, elapsed, total);
    }
  }

  lemma {:induction false} StrongBrewIs(ov: Overrides)
    requires ov == Overrides(10000, 0, 320, 0, 0, 0)
    ensures TotalMs(Coffee, false, ov) == 168112000 && !ClockFits(Coffee, false, ov)
  {
    assert Demand(ov) == 30020 * 320;
    TotalIs(Coffee, false, ov);
  }

  /** One that does not fit: coffee at strength 10000 and 320 ml takes 168112 seconds.
      However its ticks fall, the progress of such a brew falls and does not end near 100. */
  lemma {:induction false} StrongBrewFalls(ov: Overrides, shown: seq<Block>, marks: seq<nat>, at: seq<nat>,
                                           elapsed: nat)
    requires ov == Overrides(10000, 0, 320, 0, 0, 0)
    requires var stages := ShapeOf(Coffee).stages;
             RanFor(shown, marks, at, elapsed, 168112000, stages, |stages|, false)
    ensures TotalMs(Coffee, false, ov) == 168112000 && !ClockFits(Coffee, false, ov)
    ensures !Climbs(shown) && !EndsNear100(shown)
  {
    StrongBrewIs(ov);
    EndsNear100Iff(Coffee, false, ov, shown, marks, elapsed);
  }
}
