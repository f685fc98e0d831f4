/** The machine at the granularity of its locks: a start call looks at the other task's
    flag, then at the prompt, and then claims, with anything in between; a task reads its
    argument and its cancel flag from the variables under its lock.  When that is the
    machine of `Machine`, whose start calls are one step. */
module Locked {
  import opened Brew
  import opened Bytes
  import opened Consumables
  import opened Control
  import opened Cycle
  import opened EveryRun
  import opened Families
  import opened Maint
  import opened Ramp
  import opened Registers
  import opened Status
  import Machine

  datatype State = State(locks: System<BrewArg, int16>, m: Machine.State)

  datatype Step =
    | BrewAsked(processValue: int16, twoCups: bool)  // a start call begins
    | CycleAsked(kind: int16)
    | Advanced(i: nat, created: bool)                // the next section of a start call
    | Moved(step: Machine.Step)                      // a task moves, or any other command

  // ---- Steps ---------------------------------------------------------------------------

  predicate PromptOk(m: Machine.State) {
    m.panel.manip == NONE || IsSoft(m.panel.manip)
  }

  /** The machine as its tasks see it, who read argument and cancel flag under their locks. */
  function Seen(x: State): Machine.State {
    x.m.(brew := if x.m.brew.None? then None
                 else Some(x.m.brew.value.(arg := x.locks.brew.arg, cancel := x.locks.brew.cancel)),
         cycle := if x.m.cycle.None? then None
                  else Some(x.m.cycle.value.(kind := x.locks.cycle.arg, cancel := x.locks.cycle.cancel)))
  }

  /** What a claim spawns. */
  function Spawned(m: Machine.State, call: Call<BrewArg, int16>): Machine.State {
    match call
    case BrewCall(arg, _, _) =>
      m.(brew := Some(Machine.BrewRun(arg, ShapeOf(arg.recipe.category).stages, false, Machine.Spawned, 0,
                                      m.stock.Level(WATER) as int, false, [], 0)))
    case CycleCall(kind, _) =>
      if PlanFor(kind).Some?
      then m.(cycle := Some(Machine.CycleRun(kind, PlanFor(kind).value, false, Machine.CycleSpawned, [])))
      else m
  }

  predicate IsStart(step: Machine.Step) {
    step.BrewOrdered? || step.CycleOrdered?
  }

  /** The locked section that a step of the machine goes through, if any. */
  function LockStep(m: Machine.State, step: Machine.Step): Option<Control.Step<BrewArg, int16>> {
    match step
    case BrewCancelled => Some(CancelBrew)
    case CycleCancelled => Some(CancelCycle)
    case BrewMoves(_, _) =>
      if m.brew.None? then None
      else if m.brew.value.phase == Machine.Spawned then Some(BrewSnapshot(0))
      else if m.brew.value.phase == Machine.Exiting then Some(BrewRelease(0))
      else None
    case CycleMoves(_, _) =>
      if m.cycle.None? then None
      else if m.cycle.value.phase == Machine.CycleSpawned then Some(CycleSnapshot(0))
      else if m.cycle.value.phase == Machine.CycleExiting then Some(CycleRelease(0))
      else None
    case _ => None
  }

  /** The locked section of any step. */
  function Section(key: Key, x: State, step: Step): Option<Control.Step<BrewArg, int16>> {
    match step
    case BrewAsked(processValue, twoCups) =>
      var selector := AsUint8(processValue);
      var recipe := RecipeFor(key, selector);
      if recipe.None? then None else Some(Enter(BrewCall(BrewArg(selector, recipe.value, twoCups), false, false)))
    case CycleAsked(kind) => if PlanFor(kind).None? then None else Some(Enter(CycleCall(kind, false)))
    case Advanced(i, created) => Some(Advance(i, created, PromptOk(x.m)))
    case Moved(s) => if IsStart(s) then None else LockStep(x.m, s)
  }

  function Sectioned(locks: System<BrewArg, int16>, section: Option<Control.Step<BrewArg, int16>>)
    : System<BrewArg, int16>
  {
    if section.None? then locks else Control.Next(locks, section.value)
  }

  /** The step is a claim that succeeds. */
  predicate ClaimsNow(x: State, step: Step) {
    step.Advanced? && Claims(x.locks, Advance(step.i, step.created, PromptOk(x.m)))
  }

  function Next(key: Key, x: State, step: Step): State {
    var locks := Sectioned(x.locks, Section(key, x, step));
    match step
    case Advanced(i, _) => State(locks, if ClaimsNow(x, step) then Spawned(x.m, x.locks.calls[i]) else x.m)
    case Moved(s) => State(locks, if IsStart(s) then x.m else Machine.Next(key, Seen(x), s))
    case _ => State(locks, x.m)
  }

  function Run(key: Key, x: State, steps: seq<Step>): State {
    if steps == [] then x else Next(key, Run(key, x, steps[..|steps| - 1]), steps[|steps| - 1])
  }

  function PoweredUp(key: Key, stock: Stock, nums: Nums, tick: int32, b: BrewArg, k: int16): State {
    State(Idle(b, k), Machine.PoweredUp(key, stock, nums, tick))
  }

  // ---- Flags and tasks ------------------------------------------------------------------

  predicate Known(key: Key, call: Call<BrewArg, int16>) {
    match call
    case BrewCall(arg, _, _) =>
      RecipeFor(key, arg.selector).Some? && arg.recipe == RecipeFor(key, arg.selector).value
    case CycleCall(kind, _) => PlanFor(kind).Some?
  }

  /** A flag is up exactly while its task is there, and the task is the one that the
      variables under the lock tell of. */
  ghost predicate Coupled(key: Key, x: State) {
    && Coherent(x.locks.brew) && Coherent(x.locks.cycle) && (forall c | c in x.locks.calls :: Known(key, c))
    && (x.locks.brew.active <==> x.m.brew.Some?) && (x.locks.cycle.active <==> x.m.cycle.Some?)
    && (x.m.brew.Some? ==>
          x.m.brew.value.arg == x.locks.brew.arg && x.m.brew.value.cancel == x.locks.brew.cancel)
    && (x.m.cycle.Some? ==>
          x.m.cycle.value.kind == x.locks.cycle.arg && x.m.cycle.value.cancel == x.locks.cycle.cancel)
  }

  lemma {:induction false} SeenIs(key: Key, x: State)
    requires Coupled(key, x)
    ensures Seen(x) == x.m
  {
  }

  lemma {:induction false} SectionsStayCoherent(x: State, section: Option<Control.Step<BrewArg, int16>>)
    requires Coherent(x.locks.brew) && Coherent(x.locks.cycle)
    ensures Coherent(Sectioned(x.locks, section).brew) && Coherent(Sectioned(x.locks, section).cycle)
  {
    if section.Some? {
      StepKeepsCoherent(x.locks, section.value);
    }
  }

  lemma {:induction false} KnownLike(key: Key, c: Call<BrewArg, int16>, d: Call<BrewArg, int16>)
    requires Known(key, d) && SameCall(c, d)
    ensures Known(key, c)
  {
  }

  lemma {:induction false} EnteredIsKnown(key: Key, x: State, step: Step)
    ensures var section := Section(key, x, step);
            section.Some? && section.value.Enter? ==> Known(key, section.value.call)
  {
  }

  lemma {:induction false} CallStaysKnown(key: Key, x: State, step: Step, c: Call<BrewArg, int16>)
    requires forall d | d in x.locks.calls :: Known(key, d)
    requires c in Sectioned(x.locks, Section(key, x, step)).calls
    ensures Known(key, c)
  {
    var section := Section(key, x, step);
    if c !in x.locks.calls {
      CallsAre(x.locks, section.value, c);
      EnteredIsKnown(key, x, step);
      var d := if section.value.Enter? then section.value.call else x.locks.calls[section.value.i];
      KnownLike(key, c, d);
    }
  }

  lemma {:induction false} CallsStayKnown(key: Key, x: State, step: Step)
    requires forall c | c in x.locks.calls :: Known(key, c)
    ensures forall c | c in Next(key, x, step).locks.calls :: Known(key, c)
  {
    forall c | c in Next(key, x, step).locks.calls
      ensures Known(key, c)
    {
      CallStaysKnown(key, x, step, c);
    }
  }

  lemma {:induction false} StageMoveIs(key: Key, m: Machine.State, b: Machine.BrewRun)
    ensures var r := Machine.StageOrEnd(key, m, b);
            r.cycle == m.cycle && r.brew.Some? && r.brew.value.arg == b.arg && r.brew.value.cancel == b.cancel
  {
  }

  lemma {:induction false} CompletionIs(key: Key, m: Machine.State, b: Machine.BrewRun)
    ensures Machine.Completed(key, m, b).cycle == m.cycle
  {
  }

  lemma {:induction false} BrewMoveIs(key: Key, m: Machine.State, b: Machine.BrewRun, more: bool, pct: int16)
    ensures var r := Machine.BrewNext(key, m, b, more, pct);
            && r.cycle == m.cycle
            && (r.brew.None? <==> b.phase == Machine.Exiting)
            && (r.brew.Some? ==> r.brew.value.arg == b.arg && r.brew.value.cancel == b.cancel)
  {
    match b.phase
    case NextStage => StageMoveIs(key, m, b);
    case Ending => CompletionIs(key, m, b);
    case _ =>
  }

  lemma {:induction false} CycleMoveIs(key: Key, m: Machine.State, c: Machine.CycleRun, more: bool, pct: int16)
    ensures var r := Machine.CycleNext(key, m, c, more, pct);
            && r.brew == m.brew
            && (r.cycle.None? <==> c.phase == Machine.CycleExiting)
            && (r.cycle.Some? ==> r.cycle.value.kind == c.kind && r.cycle.value.cancel == c.cancel)
  {
  }

  predicate IsMove(step: Machine.Step) {
    step.BrewMoves? || step.CycleMoves?
  }

  lemma {:induction false} CommandIs(key: Key, m: Machine.State, step: Machine.Step)
    requires !IsStart(step) && !IsMove(step)
    ensures var r := Machine.Next(key, m, step);
            && (r.brew.Some? <==> m.brew.Some?) && (r.cycle.Some? <==> m.cycle.Some?)
            && (r.brew.Some? ==>
                  && r.brew.value.arg == m.brew.value.arg
                  && r.brew.value.cancel == (m.brew.value.cancel || step.BrewCancelled?))
            && (r.cycle.Some? ==>
                  && r.cycle.value.kind == m.cycle.value.kind
                  && r.cycle.value.cancel == (m.cycle.value.cancel || step.CycleCancelled?))
  {
  }

  lemma {:induction false} AdvanceStaysCoupled(key: Key, x: State, i: nat, created: bool)
    requires Coupled(key, x)
    ensures Coupled(key, Next(key, x, Advanced(i, created)))
  {
    SectionsStayCoherent(x, Section(key, x, Advanced(i, created)));
    CallsStayKnown(key, x, Advanced(i, created));
    if i < |x.locks.calls| {
      assert Known(key, x.locks.calls[i]);
    }
  }

  /** What a step of the machine does to its tasks, by the section it goes through. */
  ghost predicate Follows(m: Machine.State, r: Machine.State, step: Machine.Step) {
    var section := LockStep(m, step);
    && (r.brew.Some? <==> m.brew.Some? && section != Some(BrewRelease(0)))
    && (r.cycle.Some? <==> m.cycle.Some? && section != Some(CycleRelease(0)))
    && (r.brew.Some? ==>
          && r.brew.value.arg == m.brew.value.arg
          && r.brew.value.cancel == (m.brew.value.cancel || section == Some(CancelBrew)))
    && (r.cycle.Some? ==>
          && r.cycle.value.kind == m.cycle.value.kind
          && r.cycle.value.cancel == (m.cycle.value.cancel || section == Some(CancelCycle)))
  }

  lemma {:induction false} MoveFollows(key: Key, m: Machine.State, step: Machine.Step)
    requires !IsStart(step)
    ensures Follows(m, Machine.Next(key, m, step), step)
  {
    if step.BrewMoves? && m.brew.Some? {
      BrewMoveIs(key, m, m.brew.value, step.more, step.pct);
    } else if step.CycleMoves? && m.cycle.Some? {
      CycleMoveIs(key, m, m.cycle.value, step.more, step.pct);
    } else if !IsMove(step) {
      CommandIs(key, m, step);
    }
  }

  lemma {:induction false} FollowingStaysCoupled(key: Key, x: State, step: Machine.Step, r: Machine.State)
    requires Coupled(key, x) && Follows(x.m, r, step)
    ensures var locks := Sectioned(x.locks, LockStep(x.m, step));
            Coherent(locks.brew) && Coherent(locks.cycle) && locks.calls == x.locks.calls
            && Coupled(key, State(locks, r))
  {
    SectionsStayCoherent(x, LockStep(x.m, step));
  }

  lemma {:induction false} MoveStaysCoupled(key: Key, x: State, step: Machine.Step)
    requires Coupled(key, x)
    ensures Coupled(key, Next(key, x, Moved(step)))
  {
    SeenIs(key, x);
    if !IsStart(step) {
      MoveFollows(key, x.m, step);
      FollowingStaysCoupled(key, x, step, Machine.Next(key, x.m, step));
    }
  }

  lemma {:induction false} StepStaysCoupled(key: Key, x: State, step: Step)
    requires Coupled(key, x)
    ensures Coupled(key, Next(key, x, step))
  {
    match step
    case Advanced(i, created) => AdvanceStaysCoupled(key, x, i, created);
    case Moved(s) => MoveStaysCoupled(key, x, s);
    case _ =>
      SectionsStayCoherent(x, Section(key, x, step));
      CallsStayKnown(key, x, step);
  }

  /** Under every interleaving, flags and tasks go together. */
  lemma {:induction false} AlwaysCoupled(key: Key, stock: Stock, nums: Nums, tick: int32, b: BrewArg, k: int16,
                                         steps: seq<Step>)
    ensures Coupled(key, Run(key, PoweredUp(key, stock, nums, tick, b, k), steps))
  {
    if steps != [] {
      var n := |steps| - 1;
      AlwaysCoupled(key, stock, nums, tick, b, k, steps[..n]);
      StepStaysCoupled(key, Run(key, PoweredUp(key, stock, nums, tick, b, k), steps[..n]), steps[n]);
    }
  }

  // ---- Start calls as one step -------------------------------------------------------------

  /** The order that a claim amounts to. */
  function OrderOf(call: Call<BrewArg, int16>): Machine.Step {
    match call
    case BrewCall(arg, _, _) => Machine.BrewOrdered(arg.selector as int16, arg.twoCups, true)
    case CycleCall(kind, _) => Machine.CycleOrdered(kind, true)
  }

  /** What a step is to the machine whose start calls are one step. */
  function Abstract(x: State, step: Step): seq<Machine.Step> {
    match step
    case Advanced(i, _) => if ClaimsNow(x, step) then [OrderOf(x.locks.calls[i])] else []
    case Moved(s) => if IsStart(s) then [] else [s]
    case _ => []
  }

  function AbstractRun(key: Key, x: State, steps: seq<Step>): seq<Machine.Step> {
    if steps == [] then []
    else
      var n := |steps| - 1;
      AbstractRun(key, x, steps[..n]) + Abstract(Run(key, x, steps[..n]), steps[n])
  }

  /** If the step claims, what the call looked at is still as it was: the other task's flag
      is down, and for a brew no hard prompt is up. */
  predicate Timely(x: State, step: Step) {
    ClaimsNow(x, step) ==>
      match x.locks.calls[step.i]
      case BrewCall(_, _, _) => !x.locks.cycle.active && PromptOk(x.m)
      case CycleCall(_, _) => !x.locks.brew.active
  }

  lemma {:induction false} OneStep(key: Key, m: Machine.State, s: Machine.Step)
    ensures Machine.Run(key, m, [s]) == Machine.Next(key, m, s)
  {
    assert [s][..0] == [];
  }

  lemma {:induction false} ClaimRefinesIff(key: Key, x: State, step: Step)
    requires Coupled(key, x) && ClaimsNow(x, step)
    ensures Machine.Next(key, x.m, OrderOf(x.locks.calls[step.i])) == Next(key, x, step).m <==> Timely(x, step)
  {
    assert Known(key, x.locks.calls[step.i]);
  }

  lemma {:induction false} StepRefinesIff(key: Key, x: State, step: Step)
    requires Coupled(key, x)
    ensures Machine.Run(key, x.m, Abstract(x, step)) == Next(key, x, step).m <==> Timely(x, step)
  {
    if ClaimsNow(x, step) {
      OneStep(key, x.m, OrderOf(x.locks.calls[step.i]));
      ClaimRefinesIff(key, x, step);
    } else if step.Moved? && !IsStart(step.step) {
      SeenIs(key, x);
      OneStep(key, x.m, step.step);
    }
  }

  lemma {:induction false} OneMoreRefines(key: Key, x: State, steps: seq<Step>, n: nat)
    requires n < |steps| && Coupled(key, Run(key, x, steps[..n]))
    requires Machine.Run(key, x.m, AbstractRun(key, x, steps[..n])) == Run(key, x, steps[..n]).m
    ensures Machine.Run(key, x.m, AbstractRun(key, x, steps[..n + 1])) == Run(key, x, steps[..n + 1]).m
            <==> Timely(Run(key, x, steps[..n]), steps[n])
  {
    assert steps[..n + 1][..n] == steps[..n];
    var y := Run(key, x, steps[..n]);
    Machine.RunConcat(key, x.m, AbstractRun(key, x, steps[..n]), Abstract(y, steps[n]));
    StepRefinesIff(key, y, steps[n]);
  }

  /** Up to step `n` the run is a run of the machine whose start calls are one step. */
  ghost predicate RefinesAt(key: Key, x: State, steps: seq<Step>, n: nat)
    requires n <= |steps|
  {
    Machine.Run(key, x.m, AbstractRun(key, x, steps[..n])) == Run(key, x, steps[..n]).m
  }

  lemma {:induction false} TimelyRefines(key: Key, stock: Stock, nums: Nums, tick: int32, b: BrewArg, k: int16,
                                         steps: seq<Step>, n: nat)
    requires n <= |steps|
    requires var x := PoweredUp(key, stock, nums, tick, b, k);
             forall i | 0 <= i < n :: Timely(Run(key, x, steps[..i]), steps[i])
    ensures RefinesAt(key, PoweredUp(key, stock, nums, tick, b, k), steps, n)
    decreases n
  {
    if n > 0 {
      TimelyRefines(key, stock, nums, tick, b, k, steps, n - 1);
      AlwaysCoupled(key, stock, nums, tick, b, k, steps[..n - 1]);
      OneMoreRefines(key, PoweredUp(key, stock, nums, tick, b, k), steps, n - 1);
    }
  }

  /** A run at the granularity of the locks is, all along, a run of the machine whose start
      calls are one step exactly if every claim in it is timely. */
  lemma {:induction false} RefinesIff(key: Key, stock: Stock, nums: Nums, tick: int32, b: BrewArg, k: int16,
                                      steps: seq<Step>)
    ensures var x := PoweredUp(key, stock, nums, tick, b, k);
            (forall n | 0 <= n <= |steps| :: RefinesAt(key, x, steps, n))
            <==> forall n | 0 <= n < |steps| :: Timely(Run(key, x, steps[..n]), steps[n])
  {
    var x := PoweredUp(key, stock, nums, tick, b, k);
    if forall n | 0 <= n <= |steps| :: RefinesAt(key, x, steps, n) {
      forall n | 0 <= n < |steps|
        ensures Timely(Run(key, x, steps[..n]), steps[n])
      {
        assert RefinesAt(key, x, steps, n) && RefinesAt(key, x, steps, n + 1);
        AlwaysCoupled(key, stock, nums, tick, b, k, steps[..n]);
        OneMoreRefines(key, x, steps, n);
      }
    }
    if forall n | 0 <= n < |steps| :: Timely(Run(key, x, steps[..n]), steps[n]) {
      forall n | 0 <= n <= |steps|
        ensures RefinesAt(key, x, steps, n)
      {
        TimelyRefines(key, stock, nums, tick, b, k, steps, n);
      }
    }
  }

  // ---- When every claim is timely ------------------------------------------------------------

  ghost predicate StepUndisturbed(key: Key, x: State, step: Step) {
    && (step.BrewAsked? || step.CycleAsked? ==> x.locks.calls == [])
    && ((exists c | c in x.locks.calls :: c.BrewCall? && c.sawNoPrompt) ==> PromptOk(Next(key, x, step).m))
  }

  /** No start call begins while another is in progress, and while a brew's has yet to
      claim after its look at the prompt, nothing raises a hard one. */
  ghost predicate Undisturbed(key: Key, x: State, steps: seq<Step>) {
    forall n | 0 <= n < |steps| :: StepUndisturbed(key, Run(key, x, steps[..n]), steps[n])
  }

  /** What the call in progress has seen still holds. */
  ghost predicate LooksHold(x: State) {
    Exclusive(x.locks) && forall c | c in x.locks.calls :: c.BrewCall? && c.sawNoPrompt ==> PromptOk(x.m)
  }

  lemma {:induction false} LooksStay(key: Key, x: State, step: Step)
    requires LooksHold(x) && StepUndisturbed(key, x, step)
    ensures LooksHold(Next(key, x, step)) && Timely(x, step)
  {
    var section := Section(key, x, step);
    if section.Some? {
      StepKeepsExclusive(x.locks, section.value);
    }
  }

  lemma {:induction false} AlwaysLookHold(key: Key, stock: Stock, nums: Nums, tick: int32, b: BrewArg, k: int16,
                                          steps: seq<Step>, n: nat)
    requires n <= |steps| && Undisturbed(key, PoweredUp(key, stock, nums, tick, b, k), steps)
    ensures LooksHold(Run(key, PoweredUp(key, stock, nums, tick, b, k), steps[..n]))
    decreases n
  {
    if n > 0 {
      AlwaysLookHold(key, stock, nums, tick, b, k, steps, n - 1);
      assert steps[..n][..n - 1] == steps[..n - 1];
      LooksStay(key, Run(key, PoweredUp(key, stock, nums, tick, b, k), steps[..n - 1]), steps[n - 1]);
    }
  }

  /** Undisturbed start calls are as good as one step: the run is a run of the machine, and
      all that holds of its runs holds. */
  lemma {:induction false} UndisturbedIsSound(key: Key, stock: Stock, nums: Nums, tick: int32, b: BrewArg, k: int16,
                                              steps: seq<Step>)
    requires stock.Ok() && Undisturbed(key, PoweredUp(key, stock, nums, tick, b, k), steps)
    ensures var x := PoweredUp(key, stock, nums, tick, b, k);
            && Run(key, x, steps).m == Machine.Run(key, x.m, AbstractRun(key, x, steps))
            && Sound(key, Run(key, x, steps).m)
  {
    var x := PoweredUp(key, stock, nums, tick, b, k);
    forall i | 0 <= i < |steps|
      ensures Timely(Run(key, x, steps[..i]), steps[i])
    {
      AlwaysLookHold(key, stock, nums, tick, b, k, steps, i);
      LooksStay(key, Run(key, x, steps[..i]), steps[i]);
    }
    TimelyRefines(key, stock, nums, tick, b, k, steps, |steps|);
    assert steps[..|steps|] == steps;
    AlwaysSound(key, stock, nums, tick, AbstractRun(key, x, steps));
  }

  // ---- A claim that is late --------------------------------------------------------------------

  lemma {:induction false} RunOn(key: Key, x: State, steps: seq<Step>, step: Step)
    ensures Run(key, x, steps + [step]) == Next(key, Run(key, x, steps), step)
  {
    assert (steps + [step])[..|steps|] == steps;
  }

  function EspressoCall(key: Key, sawCycleIdle: bool, sawNoPrompt: bool): Call<BrewArg, int16>
    requires RecipeFor(key, 0).Some?
  {
    BrewCall(BrewArg(0, RecipeFor(key, 0).value, false), sawCycleIdle, sawNoPrompt)
  }

  /** An espresso is asked for, and both looks pass. */
  const LOOKS: seq<Step> := [BrewAsked(0, false), Advanced(0, true), Advanced(0, true)]

  lemma {:induction false} LooksPassed(key: Key, x: State)
    requires x.locks.calls == [] && !x.locks.cycle.active && PromptOk(x.m)
    ensures RecipeFor(key, 0).Some?
    ensures Run(key, x, LOOKS) == x.(locks := x.locks.(calls := [EspressoCall(key, true, true)]))
  {
    BrewsIff(key, 0);
    var asked := Next(key, x, BrewAsked(0, false));
    assert LOOKS == [] + [BrewAsked(0, false)] + [Advanced(0, true)] + [Advanced(0, true)];
    RunOn(key, x, [], BrewAsked(0, false));
    RunOn(key, x, [] + [BrewAsked(0, false)], Advanced(0, true));
    RunOn(key, x, [] + [BrewAsked(0, false)] + [Advanced(0, true)], Advanced(0, true));
    assert asked.locks.calls == [EspressoCall(key, false, false)];
  }

  lemma {:induction false} RunsOutOfWater(key: Key, nums: Nums, tick: int32)
    ensures var m := Machine.Next(key, Machine.PoweredUp(key, FACTORY, nums, tick), Machine.LevelSet(WATER, 5));
            m.stock.Level(WATER) == 5 && m.panel.manip == FILL_WATER && m.brew.None? && m.cycle.None?
  {
  }

  /** Between a start call's look at the prompt and its claim the water runs out: the brew
      begins on a machine that is not fit for it, under a prompt to fill the tank. */
  lemma {:induction false} LateLookMisses(key: Key, nums: Nums, tick: int32, b: BrewArg, k: int16)
    ensures var x := PoweredUp(key, FACTORY, nums, tick, b, k);
            var m := Run(key, x, LOOKS + [Moved(Machine.LevelSet(WATER, 5))] + [Advanced(0, true)]).m;
            m.brew.Some? && !Fit(key, m.stock) && m.panel.manip == 4
  {
    var x := PoweredUp(key, FACTORY, nums, tick, b, k);
    LooksPassed(key, x);
    var dry := Moved(Machine.LevelSet(WATER, 5));
    RunOn(key, x, LOOKS, dry);
    RunOn(key, x, LOOKS + [dry], Advanced(0, true));
    RunsOutOfWater(key, nums, tick);
    var y := Run(key, x, LOOKS + [dry]);
    AlwaysCoupled(key, FACTORY, nums, tick, b, k, LOOKS);
    SeenIs(key, Run(key, x, LOOKS));
    assert y.locks.calls == [EspressoCall(key, true, true)] && ClaimsNow(y, Advanced(0, true));
  }
}
