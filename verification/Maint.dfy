/** The prompt shown to the user: nivona_maint.c. */
module Maint {
  import opened Bytes
  import opened Consumables
  import opened Families
  import opened Status

  /** The prompts a family can raise. */
  function FamilyMask(key: Key): set<uint8> {
    var fam := FamilyOf(key);
    {NONE, BU_REMOVED, TRAYS_MISSING, EMPTY_TRAYS, FILL_WATER, FLUSH_REQUIRED}
    + (if fam.hasMilk then {MOVE_CUP} else {})
    + (if fam.hasLid then {CLOSE_POWDER_LID, FILL_POWDER} else {})
  }

  /** The most urgent prompt: parts, then tanks. */
  function Evaluate(s: Stock, allowed: set<uint8>): uint8 {
    if !s.Part(BREW_UNIT) && BU_REMOVED in allowed then BU_REMOVED
    else if !s.Part(TRAYS) && TRAYS_MISSING in allowed then TRAYS_MISSING
    else if !s.Part(POWDER_LID) && CLOSE_POWDER_LID in allowed then CLOSE_POWDER_LID
    else if s.Level(WATER) < WATER_LOW && FILL_WATER in allowed then FILL_WATER
    else if s.Level(TRAY) > TRAY_FULL && EMPTY_TRAYS in allowed then EMPTY_TRAYS
    else NONE
  }

  function Prompt(key: Key, s: Stock): uint8 {
    Evaluate(s, FamilyMask(key))
  }

  function Reevaluated(key: Key, s: Stock, b: Block): Block {
    b.(manip := Prompt(key, s))
  }

  predicate IsSoft(manip: uint8) {
    manip == FLUSH_REQUIRED || manip == MOVE_CUP
  }

  function Confirmed(key: Key, s: Stock, b: Block): Block {
    if b.manip == NONE then b else Reevaluated(key, s, b)
  }

  function ColdStarted(key: Key, s: Stock, b: Block): Block {
    var r := Reevaluated(key, s, b);
    if r.manip == NONE then r.(manip := FLUSH_REQUIRED) else r
  }

  /** The prompt is what the tanks and parts call for; while they call for nothing,
      the flush after power-up may still stand. */
  predicate Settled(key: Key, s: Stock, b: Block) {
    b.manip == Prompt(key, s) || (b.manip == 20 && Prompt(key, s) == 0)
  }

  /** Nothing is called for exactly when the machine is fit to brew. */
  lemma {:induction false} PromptNoneIff(key: Key, s: Stock)
    ensures Prompt(key, s) == 0
            <==> s.Part(0) && s.Part(1) && (HasPowderLid(key) ==> s.Part(2)) && s.Level(0) >= 10 && s.Level(2) <= 90
  {
    FamilyIs(key);
  }

  /** Whether a prompt is called for on this family: the brew unit is out (1), the trays are
      (2), the lid is, if it has one (5), the water is low (4), the tray is full (3). */
  predicate CalledFor(key: Key, s: Stock, manip: uint8) {
    if manip == 1 then !s.Part(0)
    else if manip == 2 then !s.Part(1)
    else if manip == 5 then !s.Part(2) && HasPowderLid(key)
    else if manip == 4 then s.Level(0) < 10
    else manip == 3 && s.Level(2) > 90
  }

  /** A raised prompt names something that is really wrong, and that the family can raise. */
  lemma {:induction false} PromptIsTrue(key: Key, s: Stock)
    ensures var m := Prompt(key, s); m != 0 ==> m in FamilyMask(key) && !IsSoft(m) && CalledFor(key, s, m)
  {
    FamilyIs(key);
  }

  /** What can be called for, the most urgent first. */
  const URGENCY: seq<uint8> := [1, 2, 5, 4, 3]

  /** Of all that is called for, the most urgent is shown. */
  lemma {:induction false} PromptIsMostUrgent(key: Key, s: Stock, k: nat)
    requires k < |URGENCY|
    ensures Prompt(key, s) == URGENCY[k]
            <==> CalledFor(key, s, URGENCY[k]) && forall j | 0 <= j < k :: !CalledFor(key, s, URGENCY[j])
  {
    FamilyIs(key);
    assert URGENCY[0] == 1 && URGENCY[1] == 2 && URGENCY[2] == 5 && URGENCY[3] == 4 && URGENCY[4] == 3;
    forall j | 0 <= j < k
      ensures URGENCY[j] != URGENCY[k]
    {
    }
  }

  /** A confirm removes a soft prompt and never hides a real one: afterwards the
      prompt is exactly what is called for, if there was one at all. */
  lemma {:induction false} ConfirmSettles(key: Key, s: Stock, b: Block)
    requires Settled(key, s, b)
    ensures Confirmed(key, s, b).manip == Prompt(key, s)
    ensures Confirmed(key, s, b) == b.(manip := Prompt(key, s))
  {
  }

  method EvaluateTanks(tanks: Tanks, allowed: set<uint8>) returns (manip: uint8)
    requires tanks.Valid()
    ensures manip == Evaluate(tanks.Model(), allowed)
  {
    var brewUnit := tanks.GetPart(BREW_UNIT);
    if !brewUnit && BU_REMOVED in allowed {
      return BU_REMOVED;
    }
    var trays := tanks.GetPart(TRAYS);
    if !trays && TRAYS_MISSING in allowed {
      return TRAYS_MISSING;
    }
    var lid := tanks.GetPart(POWDER_LID);
    if !lid && CLOSE_POWDER_LID in allowed {
      return CLOSE_POWDER_LID;
    }
    var water := tanks.Get(WATER);
    if water < WATER_LOW && FILL_WATER in allowed {
      return FILL_WATER;
    }
    var tray := tanks.Get(TRAY);
    if tray > TRAY_FULL && EMPTY_TRAYS in allowed {
      return EMPTY_TRAYS;
    }
    return NONE;
  }

  method Reevaluate(key: Key, tanks: Tanks, panel: Panel)
    requires tanks.Valid()
    modifies panel
    ensures panel.Model() == Reevaluated(key, tanks.Model(), old(panel.Model()))
  {
    var mask := FamilyMask(key);
    var manip := EvaluateTanks(tanks, mask);
    panel.SetManipulation(manip);
  }

  method CurrentIsSoft(panel: Panel) returns (soft: bool)
    ensures soft == IsSoft(panel.manip) == (panel.manip == 20 || panel.manip == 11)
  {
    var s := panel.GetStatus();
    soft := s.manip == FLUSH_REQUIRED || s.manip == MOVE_CUP;
  }

  /** Answers whether the confirm left no hard prompt standing. */
  method HandleConfirm(key: Key, tanks: Tanks, panel: Panel) returns (cleared: bool)
    requires tanks.Valid()
    modifies panel
    ensures panel.Model() == Confirmed(key, tanks.Model(), old(panel.Model()))
    ensures cleared <==> old(panel.manip) == NONE || IsSoft(old(panel.manip)) || panel.manip == NONE
  {
    var s := panel.GetStatus();
    if s.manip == NONE {
      return true;
    }
    var soft := CurrentIsSoft(panel);
    if soft {
      panel.SetManipulation(NONE);
      Reevaluate(key, tanks, panel);
      return true;
    }
    Reevaluate(key, tanks, panel);
    s := panel.GetStatus();
    return s.manip == NONE;
  }

  method ColdStart(key: Key, tanks: Tanks, panel: Panel)
    requires tanks.Valid()
    modifies panel
    ensures panel.Model() == ColdStarted(key, tanks.Model(), old(panel.Model()))
    ensures panel.manip == (if Prompt(key, tanks.Model()) == 0 then 20 else Prompt(key, tanks.Model()))
    ensures Settled(key, tanks.Model(), panel.Model())
  {
    Reevaluate(key, tanks, panel);
    var s := panel.GetStatus();
    if s.manip == NONE {
      panel.SetManipulation(FLUSH_REQUIRED);
    }
  }
}
