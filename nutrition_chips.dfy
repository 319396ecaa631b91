/** Which nutrients src/components/NutritionChips.tsx shows: the fixed list
 *  of six items, filtered to those with a value. `NutritionChips` and
 *  `NutritionTable` apply the same filter. */
module NutritionChips {
  import opened Common
  import opened Types

  /** The keys of `nutritionItems`; `sodium` is not among them. */
  datatype NutrientKey = Calory | Energy | Protein | Sugar | Fat | Fiber

  datatype NutritionItem = NutritionItem(key: NutrientKey, title: string, unit: string)

  const NUTRITION_ITEMS: seq<NutritionItem> := [
    NutritionItem(Calory, "Calories", "kcal"),
    NutritionItem(Energy, "Energy", "kJ"),
    NutritionItem(Protein, "Protein", "g"),
    NutritionItem(Sugar, "Sugar", "g"),
    NutritionItem(Fat, "Fat", "g"),
    NutritionItem(Fiber, "Fiber", "g")
  ]

  /** `nutrition[key]`; `None` is both `undefined` and `null`. */
  function Value(n: NutritionEstimate, key: NutrientKey): Option<real> {
    match key
    case Calory => n.calory
    case Energy => n.energy
    case Protein => n.protein
    case Sugar => n.sugar
    case Fat => n.fat
    case Fiber => n.fiber
  }

  /** `availableItems`: the items, in list order, whose value is present. */
  function AvailableItems(n: NutritionEstimate): (items: seq<NutritionItem>)
    ensures Subsequence(items, NUTRITION_ITEMS)
    ensures forall i :: 0 <= i < |items| ==> Value(n, items[i].key).Some?
    ensures forall i :: 0 <= i < |NUTRITION_ITEMS| && Value(n, NUTRITION_ITEMS[i].key).Some? ==>
              NUTRITION_ITEMS[i] in items
  {
    FilterIsSubsequence(NUTRITION_ITEMS, (item: NutritionItem) => Value(n, item.key).Some?);
    Filter(NUTRITION_ITEMS, (item: NutritionItem) => Value(n, item.key).Some?)
  }

  /** A zero value is shown: only missing values are left out. */
  lemma ZeroIsShown(n: NutritionEstimate, i: int)
    requires 0 <= i < |NUTRITION_ITEMS| && Value(n, NUTRITION_ITEMS[i].key) == Some(0.0)
    ensures NUTRITION_ITEMS[i] in AvailableItems(n)
  {
  }

  /** The sodium value never influences what is shown. */
  lemma SodiumIsNeverShown(n: NutritionEstimate, sodium: Option<real>)
    ensures AvailableItems(n.(sodium := sodium)) == AvailableItems(n)
  {
    var m := n.(sodium := sodium);
    var keepM := (item: NutritionItem) => Value(m, item.key).Some?;
    var keepN := (item: NutritionItem) => Value(n, item.key).Some?;
    forall item: NutritionItem
      ensures keepM(item) == keepN(item)
    {
      assert Value(m, item.key) == Value(n, item.key);
    }
    FilterAgrees(NUTRITION_ITEMS, keepM, keepN);
    assert AvailableItems(m) == Filter(NUTRITION_ITEMS, keepM);
  }

  /** Nothing is available exactly when all six values are missing. */
  lemma NothingAvailable(n: NutritionEstimate)
    ensures AvailableItems(n) == [] <==>
              n.calory.None? && n.energy.None? && n.protein.None? && n.sugar.None? && n.fat.None? && n.fiber.None?
  {
    var items := AvailableItems(n);
    if items == [] {
      forall i | 0 <= i < |NUTRITION_ITEMS|
        ensures Value(n, NUTRITION_ITEMS[i].key).None?
      {
      }
      assert Value(n, NUTRITION_ITEMS[0].key).None? && Value(n, NUTRITION_ITEMS[1].key).None?;
      assert Value(n, NUTRITION_ITEMS[2].key).None? && Value(n, NUTRITION_ITEMS[3].key).None?;
      assert Value(n, NUTRITION_ITEMS[4].key).None? && Value(n, NUTRITION_ITEMS[5].key).None?;
    } else {
      assert Value(n, items[0].key).Some?;
    }
  }

  /** What `NutritionChips` and `NutritionTable` render: nothing (`None`)
      when no item is available, else each available item with its value. */
  function Rendered(n: NutritionEstimate): (shown: Option<seq<(NutritionItem, real)>>)
    ensures shown.None? <==> AvailableItems(n) == []
    ensures shown.Some? ==>
              && |shown.value| == |AvailableItems(n)|
              && forall i :: 0 <= i < |shown.value| ==>
                   shown.value[i].0 == AvailableItems(n)[i] && Some(shown.value[i].1) == Value(n, shown.value[i].0.key)
  {
    var items := AvailableItems(n);
    if items == [] then None
    else Some(seq(|items|, i requires 0 <= i < |items| => (items[i], Value(n, items[i].key).value)))
  }
}
