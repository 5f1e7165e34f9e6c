/** FitnessMealTracker.Core/Models/DailySummary.cs: the ordered meals of one
    day and their live nutrient totals. */
module DailySummaries {
  import opened Wrappers
  import opened Nutrients
  import opened Lists
  import opened FoodItems
  import opened Meals

  /** LINQ `meals.Sum(meal => meal.Total<n>)`, accumulated from the first meal
      to the last. */
  function SumMeals(meals: seq<Meal>, n: Nutrient): (r: real)
    reads meals, ItemsOf(meals)
    ensures r >= 0.0
    ensures meals == [] ==> r == 0.0
  {
    if meals == [] then 0.0
    else
      var init, last := meals[..|meals| - 1], meals[|meals| - 1];
      ItemsOfSplit(meals);
      SumMeals(init, n) + last.Total(n)
  }

  /** All food items of all meals, meal after meal, in order. */
  ghost function AllItems(meals: seq<Meal>): (r: seq<FoodItem>)
    reads meals
  {
    if meals == [] then []
    else AllItems(meals[..|meals| - 1]) + meals[|meals| - 1].items
  }

  /** A day's total is a double sum: the sum of the nutrient over every item of
      every meal. */
  lemma {:induction false} SumMealsIsSumOfAllItems(meals: seq<Meal>, n: Nutrient)
    ensures SumMeals(meals, n) == SumOf(AllItems(meals), n)
  {
    if meals != [] {
      var init := meals[..|meals| - 1];
      SumMealsIsSumOfAllItems(init, n);
      SumOfConcat(AllItems(init), meals[|meals| - 1].items, n);
    }
  }

  /** Appending a meal raises the total by exactly that meal's total. */
  lemma SumMealsAppend(meals: seq<Meal>, m: Meal, n: Nutrient)
    ensures SumMeals(meals + [m], n) == SumMeals(meals, n) + m.Total(n)
  {
    assert (meals + [m])[..|meals|] == meals;
  }

  /** The total over a concatenation of meal lists is the sum of the two. */
  lemma {:induction false} SumMealsConcat(a: seq<Meal>, b: seq<Meal>, n: Nutrient)
    ensures SumMeals(a + b, n) == SumMeals(a, n) + SumMeals(b, n)
  {
    if b == [] {
      assert a + b == a;
    } else {
      var init := b[..|b| - 1];
      SumMealsConcat(a, init, n);
      assert (a + b)[..|a + b| - 1] == a + init;
    }
  }

  /** Removing the first occurrence of a present meal lowers the total by
      exactly that meal's total. */
  lemma SumMealsRemoveFirst(meals: seq<Meal>, m: Meal, n: Nutrient)
    requires m in meals
    ensures SumMeals(RemoveFirst(meals, m), n) == SumMeals(meals, n) - m.Total(n)
  {
    var k := IndexOf(meals, m);
    RemoveFirstPresent(meals, m);
    assert meals == meals[..k] + [m] + meals[k + 1..];
    SumMealsConcat(meals[..k] + [m], meals[k + 1..], n);
    SumMealsAppend(meals[..k], m, n);
    SumMealsConcat(meals[..k], meals[k + 1..], n);
  }

  /** The meals' own totals, in order; they add up to the day's total. */
  function MealTotals(meals: seq<Meal>, n: Nutrient): (r: seq<real>)
    reads meals, ItemsOf(meals)
    ensures |r| == |meals|
    ensures forall k :: 0 <= k < |meals| ==> r[k] == meals[k].Total(n)
    ensures Sum(r) == SumMeals(meals, n)
  {
    if meals == [] then []
    else
      var init, last := meals[..|meals| - 1], meals[|meals| - 1];
      ItemsOfSplit(meals);
      var r := MealTotals(init, n) + [last.Total(n)];
      assert r[..|r| - 1] == MealTotals(init, n);
      r
  }

  class DailySummary {
    /** `_meals`, in insertion order; the same meal may occur several times. */
    var meals: seq<Meal>

    /** `new DailySummary()`: no meals, so every total is zero. */
    constructor ()
      ensures meals == []
      ensures forall n :: Total(n) == 0.0
    {
      meals := [];
    }

    /** `TotalCalories`, `TotalProtein`, `TotalCarbs`, `TotalFat`: the sum of
        the meals' totals, read from the meals' current items. */
    function Total(n: Nutrient): (r: real)
      reads this, meals, ItemsOf(meals)
      ensures r >= 0.0
    {
      SumMeals(meals, n)
    }

    /** `AddMeal`: null throws and changes nothing; anything else is appended,
        and every total grows by exactly that meal's total. */
    method AddMeal(meal: Meal?) returns (outcome: Outcome)
      modifies this
      ensures outcome == if meal == null then Fail(ArgumentNull("meal")) else Pass
      ensures meals == if meal == null then old(meals) else old(meals) + [meal]
      ensures meal != null ==> forall n :: Total(n) == old(Total(n)) + old(meal.Total(n))
    {
      if meal == null {
        return Fail(ArgumentNull("meal"));
      }
      forall n: Nutrient ensures SumMeals(meals + [meal], n) == SumMeals(meals, n) + meal.Total(n) {
        SumMealsAppend(meals, meal, n);
      }
      meals := meals + [meal];
      // Only `this` changed, so the meals' items, and with them the old totals, stay put.
      assert ItemsOf(old(meals)) == old(ItemsOf(meals));
      outcome := Pass;
    }

    /** `RemoveMeal`: false, and no change, for null or a meal that is not in
        the list by reference; otherwise its first occurrence goes, the rest
        keep their order, and every total drops by that meal's total. */
    method RemoveMeal(meal: Meal?) returns (removed: bool)
      modifies this
      ensures removed <==> meal != null && meal in old(meals)
      ensures meals == if removed then RemoveFirst<Meal>(old(meals), meal) else old(meals)
      ensures removed ==> |meals| == |old(meals)| - 1
      ensures removed ==> forall n :: Total(n) == old(Total(n)) - meal.Total(n)
    {
      if meal == null || meal !in meals {
        return false;
      }
      var m: Meal := meal;
      RemoveFirstPresent(meals, m);
      meals := RemoveFirst(meals, m);
      assert ItemsOf(old(meals)) == old(ItemsOf(meals));
      forall n: Nutrient ensures SumMeals(meals, n) == SumMeals(old(meals), n) - m.Total(n) {
        SumMealsRemoveFirst(old(meals), m, n);
      }
      removed := true;
    }

    /** `ClearMeals`: no meals remain, so every total is zero. */
    method ClearMeals()
      modifies this
      ensures meals == []
      ensures forall n :: Total(n) == 0.0
    {
      meals := [];
    }
  }
}
