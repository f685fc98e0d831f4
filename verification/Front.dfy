/** The machine's commands, and its status, on the objects they work on: what the radio
    reaches of the machine, and what its other users do. */
module Front {
  import opened Brew
  import opened Bytes
  import opened Consumables
  import opened Control
  import opened Cycle
  import opened Families
  import opened Maint
  import opened Registers
  import opened Status
  import Machine

  lemma {:induction false} OrderIs(key: Key, m: Machine.State, selector: uint8)
    requires RecipeFor(key, selector).Some?
    ensures var r := Machine.Ordered(key, m, selector, false);
            && r.brew.Some? && r.(brew := m.brew) == m && !r.brew.value.cancel
            && r.brew.value.arg == BrewArg(selector, RecipeFor(key, selector).value, false)
  {
  }

  /** An order taken changes nothing but that there is a brew, with no cancel pending. */
  lemma {:induction false} OrderIsTaken(key: Key, m: Machine.State, selector: uint8, created: bool)
    requires Machine.Accepts(key, m, selector)
    ensures var r := Machine.Next(key, m, Machine.BrewOrdered(selector as int16, false, created));
            && (!created ==> r == m)
            && (created ==> r.brew.Some? && r.(brew := m.brew) == m && !r.brew.value.cancel
                            && r.brew.value.arg == BrewArg(selector, RecipeFor(key, selector).value, false))
  {
    assert AsUint8(selector as int) == selector;
    if created {
      OrderIs(key, m, selector);
    }
  }

  lemma {:induction false} OrderIsRefused(key: Key, m: Machine.State, selector: uint8, created: bool)
    requires !Machine.Accepts(key, m, selector)
    ensures Machine.Next(key, m, Machine.BrewOrdered(selector as int16, false, created)) == m
  {
  }

  class Front {
    const key: Key
    const tanks: Tanks
    const panel: Panel
    const brews: TaskControl<BrewArg>
    const cycles: TaskControl<int16>
    // The machine these objects hold, with its tasks.
    ghost var m: Machine.State

    ghost predicate Valid()
      reads this, tanks, tanks.levels, tanks.parts, panel, brews, cycles
    {
      && tanks.Valid() && tanks.IsSaved() && tanks.Model() == m.stock && panel.Model() == m.panel
      && (brews.active <==> m.brew.Some?) && (cycles.active <==> m.cycle.Some?)
      && (m.brew.Some? ==> m.brew.value.arg == brews.arg && m.brew.value.cancel == brews.cancel)
      && (m.cycle.Some? ==> m.cycle.value.kind == cycles.arg && m.cycle.value.cancel == cycles.cancel)
    }

    /** Power-up over what flash holds of the tanks. */
    constructor (key: Key, saved: Saved, ghost nums: Nums, ghost tick: int32)
      requires Restored(saved).Ok()
      ensures Valid() && fresh(tanks) && fresh(tanks.levels) && fresh(panel) && fresh(brews) && fresh(cycles)
      ensures this.key == key && m == Machine.PoweredUp(key, Restored(saved), nums, tick)
    {
      this.key := key;
      tanks := new Tanks(saved);
      panel := new Panel(FamilyOf(key).ready);
      brews := new TaskControl(BrewArg(0, Recipe(0, Espresso), false));
      cycles := new TaskControl(0);
      m := Machine.PoweredUp(key, Restored(saved), nums, tick);
      new;
      ColdStart(key, tanks, panel);
    }

    /** A brew asked for over the radio; `created` is the outcome of xTaskCreate. */
    method Start(selector: uint8, created: bool) returns (ok: bool)
      requires Valid()
      modifies this, brews
      ensures Valid() && m == Machine.Next(key, old(m), Machine.BrewOrdered(selector as int16, false, created))
      ensures ok <==> created && Machine.Accepts(key, old(m), selector)
    {
      ok := StartBrew(brews, cycles, panel, key, selector as int16, false, created);
      if Machine.Accepts(key, m, selector) {
        OrderIsTaken(key, m, selector, created);
      } else {
        OrderIsRefused(key, m, selector, created);
      }
      m := Machine.Next(key, m, Machine.BrewOrdered(selector as int16, false, created));
    }

    method Cancel()
      requires Valid()
      modifies this, brews
      ensures Valid() && m == Machine.Next(key, old(m), Machine.BrewCancelled)
    {
      brews.Cancel();
      m := Machine.Next(key, m, Machine.BrewCancelled);
    }

    method Confirm()
      requires Valid()
      modifies this, panel
      ensures Valid() && m == Machine.Next(key, old(m), Machine.PromptConfirmed)
    {
      var _ := HandleConfirm(key, tanks, panel);
      m := Machine.Next(key, m, Machine.PromptConfirmed);
    }

    /** A user sets a level, a part or all of the tanks, at the machine or for tests. */
    method SetLevel(tank: nat, pct: uint8)
      requires Valid()
      modifies this, tanks, tanks.levels, panel
      ensures Valid() && m == Machine.Next(key, old(m), Machine.LevelSet(tank, pct))
    {
      tanks.Set(tank, pct);
      Reevaluate(key, tanks, panel);
      m := Machine.Next(key, m, Machine.LevelSet(tank, pct));
    }

    method SetPart(part: nat, present: bool)
      requires Valid()
      modifies this, tanks, tanks.parts, panel
      ensures Valid() && m == Machine.Next(key, old(m), Machine.PartSet(part, present))
    {
      tanks.SetPart(part, present);
      Reevaluate(key, tanks, panel);
      m := Machine.Next(key, m, Machine.PartSet(part, present));
    }

    method ResetTanks()
      requires Valid()
      modifies this, tanks, tanks.levels, tanks.parts, panel
      ensures Valid() && m == Machine.Next(key, old(m), Machine.StockReset)
    {
      tanks.Reset();
      Reevaluate(key, tanks, panel);
      m := Machine.Next(key, m, Machine.StockReset);
    }

    method OrderCycle(kind: int16, created: bool) returns (ok: bool)
      requires Valid()
      modifies this, cycles
      ensures Valid() && m == Machine.Next(key, old(m), Machine.CycleOrdered(kind, created))
      ensures ok <==> created && old(m).brew.None? && old(m).cycle.None? && PlanFor(kind).Some?
    {
      ok := StartCycle(cycles, brews, kind, created);
      m := Machine.Next(key, m, Machine.CycleOrdered(kind, created));
    }

    method CancelCycle()
      requires Valid()
      modifies this, cycles
      ensures Valid() && m == Machine.Next(key, old(m), Machine.CycleCancelled)
    {
      cycles.Cancel();
      m := Machine.Next(key, m, Machine.CycleCancelled);
    }

    method PackStatus() returns (status: bytes)
      requires Valid()
      ensures status == Packed(m.panel)
    {
      var out := new uint8[8];
      panel.Pack(out);
      status := out[..];
    }
  }
}
