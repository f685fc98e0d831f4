/** Tank levels and removable parts: nivona_consumables.c. */
module Consumables {
  import opened Bytes

  // Index of each level and each part.
  const WATER: nat := 0
  const BEANS: nat := 1
  const TRAY: nat := 2
  const FILTER: nat := 3
  const LEVEL_COUNT: nat := 4
  const BREW_UNIT: nat := 0
  const TRAYS: nat := 1
  const POWDER_LID: nat := 2
  const PART_COUNT: nat := 3

  const WATER_LOW: int := 10
  const TRAY_FULL: int := 90

  function Clamp(v: int): uint8 {
    if v < 0 then 0 else if v > 100 then 100 else v
  }

  datatype Stock = Stock(levels: seq<uint8>, parts: seq<bool>) {
    ghost predicate Ok() {
      |levels| == LEVEL_COUNT && |parts| == PART_COUNT && forall i | 0 <= i < LEVEL_COUNT :: levels[i] <= 100
    }

    function Level(c: nat): uint8 {
      if c < |levels| then levels[c] else 0
    }

    function Part(p: nat): bool {
      p < |parts| && parts[p]
    }

    /** Set to a value held within 0..100; an unknown tank is left out. */
    function WithLevel(c: nat, value: int): Stock {
      if c < |levels| then this.(levels := levels[c := Clamp(value)]) else this
    }

    function Adjusted(c: nat, delta: int): Stock {
      WithLevel(c, Level(c) as int + delta)
    }

    function WithPart(p: nat, present: bool): Stock {
      if p < |parts| then this.(parts := parts[p := present]) else this
    }
  }

  const FACTORY := Stock([100, 100, 0, 100], [true, true, true])

  lemma {:induction false} StaysOk(s: Stock, c: nat, value: int, p: nat, present: bool)
    requires s.Ok()
    ensures s.WithLevel(c, value).Ok() && s.WithPart(p, present).Ok() && FACTORY.Ok()
  {
  }

  /** An adjustment moves the level by just `delta` exactly when that stays in 0..100. */
  lemma {:induction false} AdjustExactIff(s: Stock, c: nat, delta: int)
    requires s.Ok() && c < LEVEL_COUNT
    ensures s.Adjusted(c, delta).Level(c) as int == s.Level(c) as int + delta <==> 0 <= s.Level(c) as int + delta <= 100
  {
  }

  /** What flash holds: the levels, and the parts, each once written. */
  datatype Saved = Saved(levels: Option<seq<uint8>>, parts: Option<seq<bool>>)

  /** The state after power-up: the levels saved, with parts assumed present if not
      saved; factory values when no levels were saved. */
  function Restored(saved: Saved): Stock {
    match saved.levels
    case Some(levels) =>
      if |levels| != LEVEL_COUNT then FACTORY
      else
        (match saved.parts
         case Some(parts) => if |parts| == PART_COUNT then Stock(levels, parts) else Stock(levels, [true, true, true])
         case None => Stock(levels, [true, true, true]))
    case None => FACTORY
  }

  /** Levels that were saved come back as they are, and so do parts; parts that were not
      are taken to be in, and without levels all is as it left the factory. */
  lemma {:induction false} RestoredIs(levels: seq<uint8>, parts: seq<bool>)
    requires |levels| == 4 && |parts| == 3
    ensures Restored(Saved(Some(levels), Some(parts))) == Stock(levels, parts)
    ensures Restored(Saved(Some(levels), None)) == Stock(levels, [true, true, true])
    ensures Restored(Saved(None, Some(parts))) == Restored(Saved(None, None))
            == Stock([100, 100, 0, 100], [true, true, true])
  {
  }

  class Tanks {
    const levels: array<uint8>
    const parts: array<bool>
    var saved: Saved

    ghost function Model(): Stock
      reads this, levels, parts
    {
      Stock(levels[..], parts[..])
    }

    ghost predicate Valid()
      reads this, levels, parts
    {
      levels.Length == LEVEL_COUNT && parts.Length == PART_COUNT && Model().Ok()
    }

    /** Flash is what memory is; a power cycle changes nothing. */
    ghost predicate IsSaved()
      reads this, levels, parts
    {
      Restored(saved) == Model()
    }

    /** What flash holds is taken as it is; only levels up to 100 make sense. */
    constructor (saved: Saved)
      ensures fresh(levels) && fresh(parts) && Model() == Restored(saved) && IsSaved()
      ensures Valid() <==> Restored(saved).Ok()
    {
      levels := new uint8[LEVEL_COUNT](_ => 0);
      parts := new bool[PART_COUNT](_ => true);
      this.saved := saved;
      new;
      var restored := Restore();
      if !restored {
        Reset();
      }
    }

    method Restore() returns (ok: bool)
      requires levels.Length == LEVEL_COUNT && parts.Length == PART_COUNT
      modifies levels, parts
      ensures ok <==> saved.levels.Some? && |saved.levels.value| == LEVEL_COUNT
      ensures ok ==> Model() == Restored(saved)
    {
      ok := false;
      match saved.levels
      case None =>
      case Some(blob) =>
        ok := |blob| == LEVEL_COUNT;
        if ok {
          forall i | 0 <= i < LEVEL_COUNT {
            levels[i] := blob[i];
          }
          if saved.parts.Some? && |saved.parts.value| == PART_COUNT {
            forall i | 0 <= i < PART_COUNT {
              parts[i] := saved.parts.value[i];
            }
          } else {
            forall i | 0 <= i < PART_COUNT {
              parts[i] := true;
            }
          }
        }
    }

    method Persist()
      modifies `saved
      ensures saved == Saved(Some(levels[..]), Some(parts[..]))
    {
      saved := Saved(Some(levels[..]), Some(parts[..]));
    }

    method Reset()
      requires levels.Length == LEVEL_COUNT && parts.Length == PART_COUNT
      modifies this, levels, parts
      ensures Valid() && IsSaved() && Model() == FACTORY
    {
      levels[WATER], levels[BEANS], levels[TRAY], levels[FILTER] := 100, 100, 0, 100;
      parts[BREW_UNIT], parts[TRAYS], parts[POWDER_LID] := true, true, true;
      Persist();
    }

    method Get(c: nat) returns (v: uint8)
      requires Valid()
      ensures v == Model().Level(c)
    {
      if c >= LEVEL_COUNT {
        return 0;
      }
      v := levels[c];
    }

    method GetPart(p: nat) returns (v: bool)
      requires Valid()
      ensures v == Model().Part(p)
    {
      if p >= PART_COUNT {
        return false;
      }
      v := parts[p];
    }

    method Set(c: nat, pct: uint8)
      requires Valid() && IsSaved()
      modifies this, levels
      ensures Valid() && IsSaved() && Model() == old(Model()).WithLevel(c, pct)
    {
      if c >= LEVEL_COUNT {
        return;
      }
      levels[c] := Clamp(pct);
      Persist();
    }

    method SetPart(p: nat, present: bool)
      requires Valid() && IsSaved()
      modifies this, parts
      ensures Valid() && IsSaved() && Model() == old(Model()).WithPart(p, present)
    {
      if p >= PART_COUNT {
        return;
      }
      parts[p] := present;
      Persist();
    }

    method Adjust(c: nat, delta: int)
      requires Valid() && IsSaved()
      modifies this, levels
      ensures Valid() && IsSaved() && Model() == old(Model()).Adjusted(c, delta)
    {
      if c >= LEVEL_COUNT {
        return;
      }
      var v := levels[c] as int + delta;
      levels[c] := Clamp(v);
      Persist();
    }
  }
}
