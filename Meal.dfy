/** FitnessMealTracker.Core/Models/Meal.cs: a named, ordered list of food
    items whose totals are recomputed from the current items on every read. */
module Meals {
  import opened Wrappers
  import opened Nutrients
  import opened Text
  import opened Lists
  import opened FoodItems

  class Meal {
    var name: string
    /** `_items`, in insertion order; the same item may occur several times. */
    var items: seq<FoodItem>

    /** `new Meal()`: empty name and no items. */
    constructor ()
      ensures name == "" && items == []
    {
      name := "";
      items := [];
    }

    /** `new Meal(name)`: the name goes through the `Name` setter. */
    constructor Named(name: Option<string>)
      ensures this.name == NormalizeName(name) && items == []
    {
      this.name := NormalizeName(name);
      items := [];
    }

    /** The `Name` setter: null or whitespace becomes the empty string. */
    method SetName(value: Option<string>)
      modifies this
      ensures name == NormalizeName(value) && items == old(items)
    {
      name := NormalizeName(value);
    }

    /** The `ItemsForSerialization` setter used by the JSON reader: the list
        is cleared, then refilled with the given items when there are any. */
    method SetItemsForSerialization(value: Option<seq<FoodItem>>)
      modifies this
      ensures items == if value.None? then [] else value.value
      ensures name == old(name)
    {
      items := [];
      if value.Some? {
        items := items + value.value;
      }
    }

    /** `TotalCalories`, `TotalProtein`, `TotalCarbs`, `TotalFat`: the sum of
        nutrient `n` over the current items, never a cached value. */
    function Total(n: Nutrient): (r: real)
      reads this, items
      ensures r >= 0.0
    {
      SumOf(items, n)
    }

    /** `AddFoodItem`: null throws and changes nothing; anything else is
        appended, and every total grows by exactly that item's value. */
    method AddFoodItem(item: FoodItem?) returns (outcome: Outcome)
      modifies this
      ensures outcome == if item == null then Fail(ArgumentNull("item")) else Pass
      ensures items == if item == null then old(items) else old(items) + [item]
      ensures item != null ==> forall n :: Total(n) == old(Total(n)) + item.Get(n)
      ensures name == old(name)
    {
      if item == null {
        return Fail(ArgumentNull("item"));
      }
      items := items + [item];
      forall n: Nutrient ensures SumOf(items, n) == SumOf(old(items), n) + item.Get(n) {
        SumOfAppend(old(items), item, n);
      }
      outcome := Pass;
    }

    /** `RemoveFoodItem`: false, and no change, for null or an item that is
        not in the list by reference; otherwise the first occurrence goes,
        the rest keep their order, and every total drops by that item's value. */
    method RemoveFoodItem(item: FoodItem?) returns (removed: bool)
      modifies this
      ensures removed <==> item != null && item in old(items)
      ensures items == if removed then RemoveFirst<FoodItem>(old(items), item) else old(items)
      ensures removed ==> |items| == |old(items)| - 1
      ensures removed ==> forall n :: Total(n) == old(Total(n)) - item.Get(n)
      ensures name == old(name)
    {
      if item == null || item !in items {
        return false;
      }
      var x: FoodItem := item;
      RemoveFirstPresent(items, x);
      forall n: Nutrient ensures SumOf(RemoveFirst(items, x), n) == SumOf(items, n) - x.Get(n) {
        SumOfRemoveFirst(items, x, n);
      }
      items := RemoveFirst(items, x);
      removed := true;
    }

    /** `ClearFoodItems`: no items remain, so every total is zero. */
    method ClearFoodItems()
      modifies this
      ensures items == [] && name == old(name)
      ensures forall n :: Total(n) == 0.0
    {
      items := [];
    }
  }

  /** Removing the first occurrence of a present item lowers the sum by
      exactly that item's value. */
  lemma SumOfRemoveFirst(items: seq<FoodItem>, x: FoodItem, n: Nutrient)
    requires x in items
    ensures SumOf(RemoveFirst(items, x), n) == SumOf(items, n) - x.Get(n)
  {
    var k := IndexOf(items, x);
    RemoveFirstPresent(items, x);
    assert items == items[..k] + [x] + items[k + 1..];
    SumOfConcat(items[..k] + [x], items[k + 1..], n);
    SumOfAppend(items[..k], x, n);
    SumOfConcat(items[..k], items[k + 1..], n);
  }

  /** Every food item held by some meal of `meals`. */
  ghost function ItemsOf(meals: seq<Meal>): (r: set<FoodItem>)
    reads meals
  {
    set m, i | m in meals && i in m.items :: i
  }

  /** The items of a non-empty list of meals cover those of all meals but
      the last, and those of the last. */
  lemma ItemsOfSplit(meals: seq<Meal>)
    requires meals != []
    ensures ItemsOf(meals[..|meals| - 1]) <= ItemsOf(meals)
    ensures forall i | i in meals[|meals| - 1].items :: i in ItemsOf(meals)
  {
  }
}
