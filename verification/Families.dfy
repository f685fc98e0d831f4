/** The family tables of nivona_families.c and nivona_stats.c. */
module Families {
  import opened Bytes

  datatype Key = F600 | F700 | F79x | F900 | F900Light | F1030 | F1040 | F8000

  datatype Category = Espresso | Coffee | Americano | MilkDrink | MilkOnly | HotWater | Unknown

  datatype Recipe = Recipe(selector: uint8, category: Category)

  // Offsets into the temp-recipe registers; -1 for a field the family lacks.
  datatype Layout = Layout(strength: int, twoCups: int, coffee: int, water: int, milk: int, foam: int)

  datatype Family = Family(
    key: Key,
    ready: int16,
    brewing: int16,
    hasMilk: bool,
    hasLid: bool,
    mode: uint8,
    layout: Layout
  )

  const RECIPES_600: seq<Recipe> :=
    [Recipe(0, Espresso), Recipe(1, Coffee), Recipe(2, Americano), Recipe(3, MilkDrink), Recipe(4, MilkOnly),
     Recipe(5, HotWater)]
  const RECIPES_700: seq<Recipe> :=
    [Recipe(0, Espresso), Recipe(1, Coffee), Recipe(2, Coffee), Recipe(3, Americano), Recipe(4, MilkDrink),
     Recipe(5, MilkDrink), Recipe(6, MilkOnly), Recipe(7, HotWater)]
  const RECIPES_79X: seq<Recipe> :=
    [Recipe(0, Espresso), Recipe(1, Coffee), Recipe(2, Americano), Recipe(3, MilkDrink), Recipe(5, MilkDrink),
     Recipe(6, MilkOnly), Recipe(7, HotWater)]
  const RECIPES_900: seq<Recipe> :=
    [Recipe(0, Espresso), Recipe(1, Coffee), Recipe(2, Americano), Recipe(3, MilkDrink), Recipe(4, MilkDrink),
     Recipe(5, MilkDrink), Recipe(6, MilkOnly), Recipe(7, HotWater)]
  const RECIPES_1030: seq<Recipe> :=
    [Recipe(0, Espresso), Recipe(1, Coffee), Recipe(2, Americano), Recipe(3, MilkDrink), Recipe(4, MilkDrink),
     Recipe(5, MilkDrink), Recipe(6, HotWater), Recipe(7, MilkOnly), Recipe(8, MilkOnly), Recipe(9, MilkOnly)]
  const RECIPES_1040: seq<Recipe> :=
    [Recipe(0, Espresso), Recipe(1, Coffee), Recipe(2, Americano), Recipe(3, MilkDrink), Recipe(4, MilkDrink),
     Recipe(5, MilkDrink), Recipe(6, HotWater), Recipe(7, MilkOnly), Recipe(8, MilkOnly)]
  const RECIPES_8000: seq<Recipe> :=
    [Recipe(0, Espresso), Recipe(1, Coffee), Recipe(2, Americano), Recipe(3, MilkDrink), Recipe(4, MilkDrink),
     Recipe(5, MilkDrink), Recipe(6, MilkOnly), Recipe(7, HotWater), Recipe(8, Espresso), Recipe(9, Coffee),
     Recipe(10, Americano)]

  const LAYOUT_600 := Layout(1, 4, 5, 6, -1, 8)
  const LAYOUT_700 := Layout(1, 4, 5, 6, 7, 8)
  const LAYOUT_900 := Layout(1, 4, 9, 10, 11, 12)

  function FamilyOf(key: Key): Family {
    match key
    case F600 => Family(key, 8, 11, false, false, 0x0B, LAYOUT_600)
    case F700 => Family(key, 8, 11, false, false, 0x0B, LAYOUT_700)
    case F79x => Family(key, 8, 11, false, false, 0x0B, LAYOUT_700)
    case F900 => Family(key, 8, 11, true, false, 0x0B, LAYOUT_900)
    case F900Light => Family(key, 8, 11, true, false, 0x0B, LAYOUT_900)
    case F1030 => Family(key, 8, 11, true, true, 0x0B, LAYOUT_900)
    case F1040 => Family(key, 8, 11, true, true, 0x0B, LAYOUT_900)
    case F8000 => Family(key, 3, 4, true, true, 0x04, LAYOUT_700)
  }

  // ---- Recipes -----------------------------------------------------------------

  function RecipesOf(key: Key): seq<Recipe> {
    match key
    case F600 => RECIPES_600
    case F700 => RECIPES_700
    case F79x => RECIPES_79X
    case F900 => RECIPES_900
    case F900Light => RECIPES_900
    case F1030 => RECIPES_1030
    case F1040 => RECIPES_1040
    case F8000 => RECIPES_8000
  }

  function RecipeIn(recipes: seq<Recipe>, selector: uint8): Option<Recipe> {
    if recipes == [] then None
    else if recipes[0].selector == selector then Some(recipes[0])
    else RecipeIn(recipes[1..], selector)
  }

  function RecipeFor(key: Key, selector: uint8): Option<Recipe> {
    RecipeIn(RecipesOf(key), selector)
  }

  method FindRecipe(recipes: seq<Recipe>, selector: uint8) returns (r: Option<Recipe>)
    ensures r == RecipeIn(recipes, selector)
  {
    for i := 0 to |recipes|
      invariant RecipeIn(recipes, selector) == RecipeIn(recipes[i..], selector)
    {
      if recipes[i].selector == selector {
        return Some(recipes[i]);
      }
    }
    return None;
  }

  lemma {:induction false} RecipeInIs(recipes: seq<Recipe>, selector: uint8)
    ensures var r := RecipeIn(recipes, selector);
            r.Some? ==> r.value in recipes && r.value.selector == selector
    ensures RecipeIn(recipes, selector).Some? <==> exists r | r in recipes :: r.selector == selector
  {
    if recipes != [] {
      RecipeInIs(recipes[1..], selector);
      assert forall r :: r in recipes <==> r == recipes[0] || r in recipes[1..];
    }
  }

  // ---- Counter ids -----------------------------------------------------------------

  /** The counters a family has; 0 for one it lacks. */
  datatype Stats = Stats(
    recipeIds: set<uint8>,  // the selectors with a counter of their own
    total: int16,
    cleanCoffee: int16,
    rinse: int16,
    filterChange: int16,
    descale: int16,
    viaApp: int16,
    filterDep: int16
  )

  const STATS_1000_IDS: set<uint8> := {0, 1, 2, 3, 4, 5, 6, 7, 8, 9, 11, 12, 13, 14}

  function StatsOf(key: Key): Stats {
    match key
    case F8000 => Stats({0, 1, 2, 3, 4, 5, 6, 7, 8, 9, 10, 13}, 213, 214, 216, 219, 220, 221, 642)
    case F1030 => Stats(STATS_1000_IDS, 215, 216, 218, 221, 222, 223, 101)
    case F1040 => Stats(STATS_1000_IDS - {7}, 215, 216, 218, 221, 222, 223, 101)
    case F900 => Stats({0, 1, 2, 3, 4, 5, 6, 7, 8, 9, 10, 11, 12, 13}, 213, 214, 216, 219, 220, 221, 101)
    case F900Light => Stats({0, 1, 2, 3, 4, 5, 6, 7, 8, 9, 10, 11, 12, 13}, 213, 214, 216, 219, 220, 221, 101)
    case F79x => Stats({0, 1, 2, 3, 5, 6, 7, 8}, 0, 0, 0, 0, 0, 0, 105)
    case F700 => Stats({0, 1, 2, 3, 4, 5, 6, 7, 8}, 0, 0, 0, 0, 0, 0, 105)
    case F600 => Stats({0, 1, 3, 4, 6, 7, 8}, 0, 0, 0, 0, 0, 0, 105)
  }

  predicate HasRecipeCounter(s: Stats, selector: uint8) {
    selector < 25 && selector in s.recipeIds
  }

  // ---- Facts about the tables ------------------------------------------------------

  /** The selectors each family brews. */
  predicate Brews(key: Key, selector: uint8) {
    match key
    case F600 => selector <= 5
    case F700 => selector <= 7
    case F79x => selector <= 7 && selector != 4
    case F900 => selector <= 7
    case F900Light => selector <= 7
    case F1030 => selector <= 9
    case F1040 => selector <= 8
    case F8000 => selector <= 10
  }

  lemma {:induction false} Brews600(s: uint8)
    ensures RecipeIn(RECIPES_600, s).Some? <==> s <= 5
  {
    RecipeInIs(RECIPES_600, s);
    if s <= 5 {
      assert RECIPES_600[s].selector == s;
    }
  }

  lemma {:induction false} Brews700(s: uint8)
    ensures RecipeIn(RECIPES_700, s).Some? <==> s <= 7
  {
    RecipeInIs(RECIPES_700, s);
    if s <= 7 {
      assert RECIPES_700[s].selector == s;
    }
  }

  lemma {:induction false} Brews79X(s: uint8)
    ensures RecipeIn(RECIPES_79X, s).Some? <==> s <= 7 && s != 4
  {
    RecipeInIs(RECIPES_79X, s);
    if s <= 7 && s != 4 {
      assert RECIPES_79X[if s < 4 then s else s - 1].selector == s;
    }
  }

  lemma {:induction false} Brews900(s: uint8)
    ensures RecipeIn(RECIPES_900, s).Some? <==> s <= 7
  {
    RecipeInIs(RECIPES_900, s);
    if s <= 7 {
      assert RECIPES_900[s].selector == s;
    }
  }

  lemma {:induction false} Brews1030(s: uint8)
    ensures RecipeIn(RECIPES_1030, s).Some? <==> s <= 9
  {
    RecipeInIs(RECIPES_1030, s);
    if s <= 9 {
      assert RECIPES_1030[s].selector == s;
    }
  }

  lemma {:induction false} Brews1040(s: uint8)
    ensures RecipeIn(RECIPES_1040, s).Some? <==> s <= 8
  {
    RecipeInIs(RECIPES_1040, s);
    if s <= 8 {
      assert RECIPES_1040[s].selector == s;
    }
  }

  lemma {:induction false} Brews8000(s: uint8)
    ensures RecipeIn(RECIPES_8000, s).Some? <==> s <= 10
  {
    RecipeInIs(RECIPES_8000, s);
    if s <= 10 {
      assert RECIPES_8000[s].selector == s;
    }
  }

  lemma {:induction false} BrewsIff(key: Key, selector: uint8)
    ensures RecipeFor(key, selector).Some? <==> Brews(key, selector)
  {
    match key {
      case F600 => Brews600(selector);
      case F700 => Brews700(selector);
      case F79x => Brews79X(selector);
      case F900 => Brews900(selector);
      case F900Light => Brews900(selector);
      case F1030 => Brews1030(selector);
      case F1040 => Brews1040(selector);
      case F8000 => Brews8000(selector);
    }
  }

  /** Every recipe a family brews has a counter of its own, except on the 600
      (Americano, hot water) and the 1040 (warm milk). */
  lemma {:induction false} RecipeCountedIff(key: Key, selector: uint8)
    requires Brews(key, selector)
    ensures HasRecipeCounter(StatsOf(key), selector)
            <==> !((key == F600 && (selector == 2 || selector == 5)) || (key == F1040 && selector == 7))
  {
  }

  /** The process codes of a family differ from each other and from the busy code. */
  lemma {:induction false} CodesDiffer(key: Key)
    ensures var f := FamilyOf(key); f.ready != f.brewing && f.ready != 99 && f.brewing != 99
  {
  }

  // ---- The families as an app knows them -------------------------------------------

  /** The code of a machine that is ready. */
  function ReadyCode(key: Key): int16 {
    if key == F8000 then 3 else 8
  }

  /** The code of a machine that brews. */
  function BrewingCode(key: Key): int16 {
    if key == F8000 then 4 else 11
  }

  /** The families with a lid for ground coffee. */
  predicate HasPowderLid(key: Key) {
    key == F1030 || key == F1040 || key == F8000
  }

  /** The table has what an app expects. */
  lemma {:induction false} FamilyIs(key: Key)
    ensures var f := FamilyOf(key);
            && f.ready == ReadyCode(key) && f.brewing == BrewingCode(key) && f.mode == (if key == F8000 then 4 else 11)
            && (f.hasLid <==> HasPowderLid(key))
            && (f.hasMilk <==> key != F600 && key != F700 && key != F79x)
  {
  }

  /** What a selector stands for, drink by drink. */
  function Drink(key: Key, selector: uint8): Category
    requires Brews(key, selector)
  {
    var milkOnly := match key
      case F600 => 4
      case F1030 => 7
      case F1040 => 7
      case _ => 6;
    var hotWater := match key
      case F600 => 5
      case F1030 => 6
      case F1040 => 6
      case _ => 7;
    if selector == 0 || (selector == 8 && key == F8000) then Espresso
    else if selector == 1 || (selector == 2 && key == F700) || (selector == 9 && key == F8000) then Coffee
    else if (selector == 2 && key != F700) || (selector == 3 && key == F700) || selector == 10 then Americano
    else if selector == hotWater then HotWater
    else if selector >= milkOnly then MilkOnly
    else MilkDrink
  }

  /** Every entry of the table makes the drink its selector stands for. */
  ghost predicate MakesDrinks(key: Key, recipes: seq<Recipe>) {
    forall i | 0 <= i < |recipes| ::
      Brews(key, recipes[i].selector) && recipes[i].category == Drink(key, recipes[i].selector)
  }

  lemma {:induction false} TableMakesDrinks(key: Key)
    ensures MakesDrinks(key, RecipesOf(key))
  {
  }

  /** Each selector a family brews makes its drink. */
  lemma {:induction false} RecipeIs(key: Key, selector: uint8)
    requires Brews(key, selector)
    ensures RecipeFor(key, selector) == Some(Recipe(selector, Drink(key, selector)))
  {
    BrewsIff(key, selector);
    RecipeInIs(RecipesOf(key), selector);
    TableMakesDrinks(key);
  }

  /** The families that count cups and cycles in all. */
  predicate HasCounters(key: Key) {
    key != F600 && key != F700 && key != F79x
  }

  /** By how much those counters come later on a family than on the 8000 and the 900. */
  function Shift(key: Key): int16 {
    if key == F1030 || key == F1040 then 2 else 0
  }

  /** The counters' ids, and the id of the filter setting. */
  lemma {:induction false} StatsAre(key: Key)
    ensures var s, d := StatsOf(key), Shift(key);
            && (HasCounters(key) ==>
                  && s.total == 213 + d && s.cleanCoffee == 214 + d && s.rinse == 216 + d
                  && s.filterChange == 219 + d && s.descale == 220 + d && s.viaApp == 221 + d)
            && (!HasCounters(key) ==>
                  && s.total == 0 && s.cleanCoffee == 0 && s.rinse == 0
                  && s.filterChange == 0 && s.descale == 0 && s.viaApp == 0)
            && s.filterDep == (if key == F8000 then 642 else if HasCounters(key) then 101 else 105)
  {
  }
}
