/** The locking of nivona_brew.c and nivona_maint_cycle.c: what each critical
    section does, and what holds under every interleaving of them. */
module Control {
  import opened Bytes

  /** A running task: what its own start call asked for, and what it has read. */
  datatype Task<A> = Task(own: A, snapshot: Option<A>)

  /** The variables under one lock, and the tasks alive. */
  datatype Shared<A> = Shared(active: bool, cancel: bool, arg: A, live: seq<Task<A>>)

  // ---- The critical sections -------------------------------------------------

  /** A start call's check and claim; `created` is whether the task could be made. */
  function Claim<A>(c: Shared<A>, arg: A, created: bool): (Shared<A>, bool) {
    if c.active then (c, false)
    else if !created then (c.(arg := arg, active := false, cancel := false), false)
    else (Shared(true, false, arg, c.live + [Task(arg, None)]), true)
  }

  function RequestCancel<A>(c: Shared<A>): Shared<A> {
    if c.active then c.(cancel := true) else c
  }

  /** A task's first section: it copies the argument. */
  function Snapshot<A>(c: Shared<A>, i: nat): Shared<A>
    requires i < |c.live|
  {
    c.(live := c.live[i := c.live[i].(snapshot := Some(c.arg))])
  }

  /** A task's last section. */
  function Release<A>(c: Shared<A>, i: nat): Shared<A>
    requires i < |c.live|
  {
    Shared(false, false, c.arg, c.live[..i] + c.live[i + 1..])
  }

  /** At most one task is alive; the flag is up exactly while one is; a cancel is
      pending only then; and the task's argument is the one its own start gave. */
  ghost predicate Coherent<A(!new)>(c: Shared<A>) {
    && |c.live| <= 1
    && (c.active <==> |c.live| == 1)
    && (c.cancel ==> c.active)
    && (forall t | t in c.live :: t.own == c.arg && (t.snapshot.Some? ==> t.snapshot.value == t.own))
  }

  /** The state of one lock, changed as the code changes it. */
  class TaskControl<A(!new)> {
    var active: bool
    var cancel: bool
    var arg: A
    ghost var live: seq<Task<A>>

    ghost function Model(): Shared<A>
      reads this
    {
      Shared(active, cancel, arg, live)
    }

    constructor (arg: A)
      ensures Model() == Shared(false, false, arg, []) && Coherent(Model())
    {
      this.active, this.cancel, this.arg, this.live := false, false, arg, [];
    }

    /** The locked part of a start call; `created` is the outcome of xTaskCreate. */
    method Start(arg: A, created: bool) returns (ok: bool)
      modifies this
      ensures (Model(), ok) == Claim(old(Model()), arg, created)
      ensures old(Coherent(Model())) ==> Coherent(Model())
      ensures ok <==> !old(active) && created
    {
      if active {
        return false;
      }
      this.arg := arg;
      active := true;
      cancel := false;
      if !created {
        active := false;
        return false;
      }
      live := live + [Task(arg, None)];
      return true;
    }

    method Cancel()
      modifies this
      ensures Model() == RequestCancel(old(Model()))
    {
      if active {
        cancel := true;
      }
    }

    method IsActive() returns (a: bool)
      ensures a == active
    {
      a := active;
    }

    method TakeSnapshot(ghost i: nat) returns (snapshot: A)
      requires i < |live|
      modifies this
      ensures Model() == Snapshot(old(Model()), i) && snapshot == old(arg)
      ensures old(Coherent(Model())) ==> snapshot == old(live)[i].own
    {
      snapshot := arg;
      live := live[i := live[i].(snapshot := Some(arg))];
    }

    method Finish(ghost i: nat)
      requires i < |live|
      modifies this
      ensures Model() == Release(old(Model()), i)
    {
      active := false;
      cancel := false;
      live := live[..i] + live[i + 1..];
    }
  }

  // ---- Starts, cancels and tasks, interleaved ----------------------------------

  /** How far a start call has come: what it still has to do.  A brew start looks at
      the cycle's flag, then at the prompt, then claims; a cycle start looks at the
      brew's flag, then claims.  Each look is one locked section of its own. */
  datatype Call<B, K> =
    | BrewCall(brewArg: B, sawCycleIdle: bool, sawNoPrompt: bool)
    | CycleCall(kind: K, sawBrewIdle: bool)

  datatype System<B, K> = System(brew: Shared<B>, cycle: Shared<K>, calls: seq<Call<B, K>>)

  datatype Step<B, K> =
    | Enter(call: Call<B, K>)                            // a start call begins
    | Advance(i: nat, created: bool, promptOk: bool)     // a start call's next section
    | CancelBrew
    | CancelCycle
    | BrewSnapshot(i: nat)
    | BrewRelease(i: nat)
    | CycleSnapshot(i: nat)
    | CycleRelease(i: nat)

  function Without<T>(s: seq<T>, i: nat): seq<T>
    requires i < |s|
  {
    s[..i] + s[i + 1..]
  }

  function Advanced<B, K>(s: System<B, K>, i: nat, created: bool, promptOk: bool): System<B, K>
    requires i < |s.calls|
  {
    var leave := s.(calls := Without(s.calls, i));
    match s.calls[i]
    case BrewCall(arg, sawIdle, sawNoPrompt) =>
      if !sawIdle then
        if s.cycle.active then leave else s.(calls := s.calls[i := BrewCall(arg, true, false)])
      else if !sawNoPrompt then
        if !promptOk then leave else s.(calls := s.calls[i := BrewCall(arg, true, true)])
      else leave.(brew := Claim(s.brew, arg, created).0)
    case CycleCall(kind, sawIdle) =>
      if !sawIdle then
        if s.brew.active then leave else s.(calls := s.calls[i := CycleCall(kind, true)])
      else leave.(cycle := Claim(s.cycle, kind, created).0)
  }

  function Next<B, K>(s: System<B, K>, step: Step<B, K>): System<B, K> {
    match step
    case Enter(BrewCall(arg, _, _)) => s.(calls := s.calls + [BrewCall(arg, false, false)])
    case Enter(CycleCall(kind, _)) => s.(calls := s.calls + [CycleCall(kind, false)])
    case Advance(i, created, promptOk) => if i < |s.calls| then Advanced(s, i, created, promptOk) else s
    case CancelBrew => s.(brew := RequestCancel(s.brew))
    case CancelCycle => s.(cycle := RequestCancel(s.cycle))
    case BrewSnapshot(i) => if i < |s.brew.live| then s.(brew := Snapshot(s.brew, i)) else s
    case BrewRelease(i) => if i < |s.brew.live| then s.(brew := Release(s.brew, i)) else s
    case CycleSnapshot(i) => if i < |s.cycle.live| then s.(cycle := Snapshot(s.cycle, i)) else s
    case CycleRelease(i) => if i < |s.cycle.live| then s.(cycle := Release(s.cycle, i)) else s
  }

  function Run<B, K>(s: System<B, K>, steps: seq<Step<B, K>>): System<B, K> {
    if steps == [] then s else Next(Run(s, steps[..|steps| - 1]), steps[|steps| - 1])
  }

  function Idle<B, K>(b: B, k: K): System<B, K> {
    System(Shared(false, false, b, []), Shared(false, false, k, []), [])
  }

  lemma {:induction false} ClaimKeeps<A(!new)>(c: Shared<A>, arg: A, created: bool)
    requires Coherent(c)
    ensures Coherent(Claim(c, arg, created).0)
  {
  }

  lemma {:induction false} SnapshotKeeps<A(!new)>(c: Shared<A>, i: nat)
    requires Coherent(c) && i < |c.live|
    ensures Coherent(Snapshot(c, i))
  {
    assert c.live == [c.live[0]] && i == 0;
    assert Snapshot(c, i).live == [c.live[0].(snapshot := Some(c.arg))];
  }

  lemma {:induction false} ReleaseKeeps<A(!new)>(c: Shared<A>, i: nat)
    requires Coherent(c) && i < |c.live|
    ensures Coherent(Release(c, i)) && Release(c, i).live == []
  {
  }

  lemma {:induction false} StepKeepsCoherent<B(!new), K(!new)>(s: System<B, K>, step: Step<B, K>)
    requires Coherent(s.brew) && Coherent(s.cycle)
    ensures Coherent(Next(s, step).brew) && Coherent(Next(s, step).cycle)
  {
    match step
    case Advance(i, created, _) =>
      if i < |s.calls| {
        if s.calls[i].BrewCall? {
          ClaimKeeps(s.brew, s.calls[i].brewArg, created);
        } else {
          ClaimKeeps(s.cycle, s.calls[i].kind, created);
        }
      }
    case BrewSnapshot(i) => if i < |s.brew.live| { SnapshotKeeps(s.brew, i); }
    case BrewRelease(i) => if i < |s.brew.live| { ReleaseKeeps(s.brew, i); }
    case CycleSnapshot(i) => if i < |s.cycle.live| { SnapshotKeeps(s.cycle, i); }
    case CycleRelease(i) => if i < |s.cycle.live| { ReleaseKeeps(s.cycle, i); }
    case _ =>
  }

  /** Under every interleaving, each lock's state stays coherent. */
  lemma {:induction false} AlwaysCoherent<B(!new), K(!new)>(b: B, k: K, steps: seq<Step<B, K>>)
    ensures var s := Run(Idle(b, k), steps); Coherent(s.brew) && Coherent(s.cycle)
  {
    if steps != [] {
      AlwaysCoherent(b, k, steps[..|steps| - 1]);
      StepKeepsCoherent(Run(Idle(b, k), steps[..|steps| - 1]), steps[|steps| - 1]);
    }
  }

  /** A task begins with no cancel pending, and only a cancel made while it is alive
      makes one pending. */
  ghost predicate Fresh<A(!new)>(before: Shared<A>, after: Shared<A>, cancels: bool) {
    && (|before.live| == 0 && |after.live| == 1 ==> !after.cancel)
    && (after.cancel && !before.cancel ==> cancels && |before.live| == 1)
  }

  lemma {:induction false} StepIsFresh<B(!new), K(!new)>(s: System<B, K>, step: Step<B, K>)
    requires Coherent(s.brew) && Coherent(s.cycle)
    ensures Fresh(s.brew, Next(s, step).brew, step == CancelBrew)
    ensures Fresh(s.cycle, Next(s, step).cycle, step == CancelCycle)
  {
  }

  /** A cancel reaches only a task that is alive when it is made: a task starts with
      none pending, whatever was cancelled before. */
  lemma {:induction false} NoStaleCancel<B(!new), K(!new)>(b: B, k: K, steps: seq<Step<B, K>>, step: Step<B, K>)
    ensures var s, t := Run(Idle(b, k), steps), Run(Idle(b, k), steps + [step]);
            Fresh(s.brew, t.brew, step == CancelBrew) && Fresh(s.cycle, t.cycle, step == CancelCycle)
  {
    AlwaysCoherent(b, k, steps);
    StepIsFresh(Run(Idle(b, k), steps), step);
    assert (steps + [step])[..|steps|] == steps;
  }

  // ---- Brew and cycle exclude each other, if starts do not overlap -----------------

  /** No start call begins while another is in progress. */
  ghost predicate StartsApart<B(!new), K(!new)>(s: System<B, K>, steps: seq<Step<B, K>>) {
    forall n | 0 <= n < |steps| :: steps[n].Enter? ==> Run(s, steps[..n]).calls == []
  }

  /** At most one call; what it saw idle is still idle; not both are active. */
  ghost predicate Exclusive<B(!new), K(!new)>(s: System<B, K>) {
    && Coherent(s.brew) && Coherent(s.cycle)
    && |s.calls| <= 1
    && !(s.brew.active && s.cycle.active)
    && (forall c | c in s.calls ::
          (c.BrewCall? && c.sawCycleIdle ==> !s.cycle.active) && (c.CycleCall? && c.sawBrewIdle ==> !s.brew.active))
  }

  lemma {:induction false} AdvanceKeepsExclusive<B(!new), K(!new)>(s: System<B, K>, created: bool, promptOk: bool)
    requires Exclusive(s) && |s.calls| == 1
    ensures var r := Advanced(s, 0, created, promptOk);
            && |r.calls| <= 1 && !(r.brew.active && r.cycle.active)
            && (forall c | c in r.calls ::
                  && (c.BrewCall? && c.sawCycleIdle ==> !r.cycle.active)
                  && (c.CycleCall? && c.sawBrewIdle ==> !r.brew.active))
  {
    assert s.calls == [s.calls[0]] && s.calls[0] in s.calls;
    assert Without(s.calls, 0) == [];
  }

  lemma {:induction false} StepKeepsExclusive<B(!new), K(!new)>(s: System<B, K>, step: Step<B, K>)
    requires Exclusive(s) && (step.Enter? ==> s.calls == [])
    ensures Exclusive(Next(s, step))
  {
    StepKeepsCoherent(s, step);
    if step.Advance? && step.i < |s.calls| {
      AdvanceKeepsExclusive(s, step.created, step.promptOk);
    }
  }

  /** While start calls do not overlap, a brew and a cycle are never both active. */
  lemma {:induction false} BrewExcludesCycle<B(!new), K(!new)>(b: B, k: K, steps: seq<Step<B, K>>)
    requires StartsApart(Idle(b, k), steps)
    ensures Exclusive(Run(Idle(b, k), steps))
  {
    if steps != [] {
      var n := |steps| - 1;
      forall m | 0 <= m < n
        ensures steps[..n][..m] == steps[..m]
      {
      }
      BrewExcludesCycle(b, k, steps[..n]);
      StepKeepsExclusive(Run(Idle(b, k), steps[..n]), steps[n]);
    }
  }

  // ---- When both are active -----------------------------------------------------------

  /** The call has found the other task's flag down. */
  predicate HasLooked<B, K>(c: Call<B, K>) {
    match c
    case BrewCall(_, sawCycleIdle, _) => sawCycleIdle
    case CycleCall(_, sawBrewIdle) => sawBrewIdle
  }

  /** All that is left to the call is its claim. */
  predicate AtClaim<B, K>(c: Call<B, K>) {
    match c
    case BrewCall(_, sawCycleIdle, sawNoPrompt) => sawCycleIdle && sawNoPrompt
    case CycleCall(_, sawBrewIdle) => sawBrewIdle
  }

  /** Whether the flag that the call would raise is up. */
  predicate OwnActive<B, K>(s: System<B, K>, c: Call<B, K>) {
    if c.BrewCall? then s.brew.active else s.cycle.active
  }

  /** Whether the other one is. */
  predicate OtherActive<B, K>(s: System<B, K>, c: Call<B, K>) {
    if c.BrewCall? then s.cycle.active else s.brew.active
  }

  /** The step is a claim that succeeds. */
  predicate Claims<B, K>(s: System<B, K>, step: Step<B, K>) {
    step.Advance? && step.i < |s.calls| && AtClaim(s.calls[step.i]) && step.created && !OwnActive(s, s.calls[step.i])
  }

  /** It succeeds although what the call saw idle is active by now. */
  predicate ClaimsLate<B, K>(s: System<B, K>, step: Step<B, K>) {
    Claims(s, step) && OtherActive(s, s.calls[step.i])
  }

  predicate BothActive<B, K>(s: System<B, K>) {
    s.brew.active && s.cycle.active
  }

  lemma {:induction false} AdvanceBothIff<B(!new), K(!new)>(s: System<B, K>, i: nat, created: bool, promptOk: bool)
    requires i < |s.calls| && !BothActive(s)
    ensures BothActive(Advanced(s, i, created, promptOk)) <==> ClaimsLate(s, Advance(i, created, promptOk))
  {
  }

  lemma {:induction false} BothActiveIff<B(!new), K(!new)>(s: System<B, K>, step: Step<B, K>)
    requires !BothActive(s)
    ensures BothActive(Next(s, step)) <==> ClaimsLate(s, step)
  {
    if step.Advance? && step.i < |s.calls| {
      AdvanceBothIff(s, step.i, step.created, step.promptOk);
    }
  }

  lemma {:induction false} OneStepOn<B(!new), K(!new)>(s: System<B, K>, steps: seq<Step<B, K>>, n: nat)
    requires n < |steps|
    ensures Run(s, steps[..n + 1]) == Next(Run(s, steps[..n]), steps[n])
  {
    assert steps[..n + 1][..n] == steps[..n];
  }

  lemma {:induction false} NeverBoth<B(!new), K(!new)>(b: B, k: K, steps: seq<Step<B, K>>, n: nat)
    requires n <= |steps|
    requires forall m | 0 <= m < n :: !ClaimsLate(Run(Idle(b, k), steps[..m]), steps[m])
    ensures !BothActive(Run(Idle(b, k), steps[..n]))
    decreases n
  {
    if n > 0 {
      NeverBoth(b, k, steps, n - 1);
      BothActiveIff(Run(Idle(b, k), steps[..n - 1]), steps[n - 1]);
      OneStepOn(Idle(b, k), steps, n - 1);
    }
  }

  lemma {:induction false} LateClaimCollides<B(!new), K(!new)>(b: B, k: K, steps: seq<Step<B, K>>, n: nat)
    requires n < |steps| && ClaimsLate(Run(Idle(b, k), steps[..n]), steps[n])
    ensures BothActive(Run(Idle(b, k), steps[..n + 1]))
  {
    OneStepOn(Idle(b, k), steps, n);
  }

  /** One kind of call, with what it asks for. */
  predicate SameCall<B(==), K(==)>(c: Call<B, K>, d: Call<B, K>) {
    if c.BrewCall? then d.BrewCall? && c.brewArg == d.brewArg else d.CycleCall? && c.kind == d.kind
  }

  /** The call, or one like it, has looked by the time the run has come to `s`. */
  ghost predicate LookedIn<B(!new), K(!new)>(s: System<B, K>, c: Call<B, K>) {
    exists d | d in s.calls :: SameCall(c, d) && HasLooked(d)
  }

  /** Step `p` claims for the other task, after `c` has looked, and that task has been
      active ever since. */
  ghost predicate Overtaken<B(!new), K(!new)>(s: System<B, K>, steps: seq<Step<B, K>>, p: nat, c: Call<B, K>) {
    && p < |steps| && Claims(Run(s, steps[..p]), steps[p])
    && Run(s, steps[..p]).calls[steps[p].i].BrewCall? != c.BrewCall?
    && LookedIn(Run(s, steps[..p]), c)
    && forall m | p < m <= |steps| :: OtherActive(Run(s, steps[..m]), c)
  }

  lemma {:induction false} CallsAre<B(!new), K(!new)>(s: System<B, K>, step: Step<B, K>, c: Call<B, K>)
    requires c in Next(s, step).calls
    ensures || c in s.calls
            || (step.Enter? && SameCall(c, step.call))
            || (step.Advance? && step.i < |s.calls| && SameCall(c, s.calls[step.i]))
  {
  }

  lemma {:induction false} LookedBefore<B(!new), K(!new)>(s: System<B, K>, step: Step<B, K>, c: Call<B, K>)
    requires LookedIn(Next(s, step), c) && OtherActive(Next(s, step), c)
    ensures LookedIn(s, c)
    ensures !OtherActive(s, c) ==> Claims(s, step) && s.calls[step.i].BrewCall? != c.BrewCall?
  {
    var d :| d in Next(s, step).calls && SameCall(c, d) && HasLooked(d);
    if d !in s.calls {
      assert step.Advance? && step.i < |s.calls| && SameCall(c, s.calls[step.i]);
    }
  }

  /** If a call has looked, and what it saw idle is active, it was overtaken. */
  lemma {:induction false} StaleLook<B(!new), K(!new)>(b: B, k: K, steps: seq<Step<B, K>>, c: Call<B, K>)
    returns (p: nat)
    requires var s := Run(Idle(b, k), steps); LookedIn(s, c) && OtherActive(s, c)
    ensures Overtaken(Idle(b, k), steps, p, c)
    decreases |steps|
  {
    var n := |steps| - 1;
    var before := Run(Idle(b, k), steps[..n]);
    LookedBefore(before, steps[n], c);
    assert steps[..n + 1] == steps;
    if OtherActive(before, c) {
      p := StaleLook(b, k, steps[..n], c);
      forall m | 0 <= m <= n
        ensures steps[..n][..m] == steps[..m]
      {
      }
    } else {
      p := n;
    }
  }

  /** Steps `p` and `q` claim for the two tasks, `p` first; and the call that claims at
      `q` had looked before `p`. */
  ghost predicate Overlap<B(!new), K(!new)>(s: System<B, K>, steps: seq<Step<B, K>>, p: nat, q: nat) {
    && q < |steps| && Claims(Run(s, steps[..q]), steps[q])
    && Overtaken(s, steps[..q], p, Run(s, steps[..q]).calls[steps[q].i])
  }

  /** A brew and a cycle are both active at some point of a run exactly if a call claims
      successfully although the other task has been claimed for since it looked. */
  lemma {:induction false} CollideIff<B(!new), K(!new)>(b: B, k: K, steps: seq<Step<B, K>>)
    ensures (exists n | 0 <= n <= |steps| :: BothActive(Run(Idle(b, k), steps[..n])))
            <==> exists p: nat, q: nat :: Overlap(Idle(b, k), steps, p, q)
  {
    var s := Idle(b, k);
    if exists n | 0 <= n <= |steps| :: BothActive(Run(s, steps[..n])) {
      var n :| 0 <= n <= |steps| && BothActive(Run(s, steps[..n]));
      if forall m | 0 <= m < n :: !ClaimsLate(Run(s, steps[..m]), steps[m]) {
        NeverBoth(b, k, steps, n);
        assert false;
      }
      var q :| 0 <= q < n && ClaimsLate(Run(s, steps[..q]), steps[q]);
      var c := Run(s, steps[..q]).calls[steps[q].i];
      assert c in Run(s, steps[..q]).calls && SameCall(c, c);
      var p := StaleLook(b, k, steps[..q], c);
      assert Overlap(s, steps, p, q);
    }
    if exists p: nat, q: nat :: Overlap(s, steps, p, q) {
      var p: nat, q: nat :| Overlap(s, steps, p, q);
      assert steps[..q][..q] == steps[..q];
      LateClaimCollides(b, k, steps, q);
    }
  }

  /** Both calls begin, and both find nothing active. */
  function BothLook<B, K>(b: B, k: K): seq<Step<B, K>> {
    [Enter(BrewCall(b, false, false)), Enter(CycleCall(k, false)), Advance(0, true, true), Advance(1, true, true)]
  }

  /** The brew finds no prompt and claims; then the cycle claims. */
  function BothClaim<B, K>(): seq<Step<B, K>> {
    [Advance(0, true, true), Advance(0, true, true), Advance(0, true, true)]
  }

  function BothLooked<B, K>(b: B, k: K): System<B, K> {
    Idle(b, k).(calls := [BrewCall(b, true, false), CycleCall(k, true)])
  }

  lemma {:induction false} RunOne<B(!new), K(!new)>(s: System<B, K>, a: Step<B, K>)
    ensures Run(s, [a]) == Next(s, a)
  {
    assert [a][..0] == [];
  }

  lemma {:induction false} RunTwo<B(!new), K(!new)>(s: System<B, K>, a: Step<B, K>, b: Step<B, K>)
    ensures Run(s, [a, b]) == Next(Next(s, a), b)
  {
    assert [a, b][..1] == [a];
    RunOne(s, a);
  }

  lemma {:induction false} RunSplit<B(!new), K(!new)>(s: System<B, K>, steps: seq<Step<B, K>>, n: nat)
    requires n <= |steps|
    ensures Run(s, steps) == Run(Run(s, steps[..n]), steps[n..])
    decreases |steps|
  {
    if n == |steps| {
      assert steps[..n] == steps && steps[n..] == [];
    } else {
      var m := |steps| - 1;
      RunSplit(s, steps[..m], n);
      assert steps[..m][..n] == steps[..n] && steps[..m][n..] == steps[n..][..|steps[n..]| - 1];
    }
  }

  lemma {:induction false} LooksPass<B(!new), K(!new)>(b: B, k: K)
    ensures Run(Idle(b, k), BothLook(b, k)) == BothLooked(b, k)
  {
    var steps := BothLook(b, k);
    var entered := Idle(b, k).(calls := [BrewCall(b, false, false), CycleCall(k, false)]);
    RunSplit(Idle(b, k), steps, 2);
    assert steps[..2] == [steps[0], steps[1]] && steps[2..] == [steps[2], steps[3]];
    RunTwo(Idle(b, k), steps[0], steps[1]);
    assert Run(Idle(b, k), steps[..2]) == entered;
    RunTwo(entered, steps[2], steps[3]);
  }

  lemma {:induction false} ClaimsPass<B(!new), K(!new)>(b: B, k: K)
    ensures var s := Run(BothLooked(b, k), BothClaim()); s.brew.active && s.cycle.active
  {
    var steps: seq<Step<B, K>> := BothClaim();
    var s := BothLooked(b, k);
    RunSplit(s, steps, 2);
    assert steps[..2] == [steps[0], steps[1]] && steps[2..] == [steps[2]];
    RunTwo(s, steps[0], steps[1]);
    var claimed := Run(s, steps[..2]);
    assert claimed.brew.active && claimed.calls == [CycleCall(k, true)] && !claimed.cycle.active;
    RunOne(claimed, steps[2]);
  }

  /** Overlapping starts break it: each looks before the other claims. */
  lemma {:induction false} OverlappingStartsCollide<B(!new), K(!new)>(b: B, k: K)
    ensures var s := Run(Idle(b, k), BothLook(b, k) + BothClaim()); s.brew.active && s.cycle.active
  {
    LooksPass(b, k);
    var steps := BothLook(b, k) + BothClaim();
    assert steps[..4] == BothLook(b, k) && steps[4..] == BothClaim();
    RunSplit(Idle(b, k), steps, 4);
    ClaimsPass(b, k);
  }
}
