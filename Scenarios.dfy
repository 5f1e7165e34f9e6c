/** Two days from the repository's tests, driven through the model's
    operations: the totals they assert follow from the operations'
    contracts alone. */
module Scenarios {
  import opened Wrappers
  import opened Lists
  import opened Nutrients
  import opened FoodItems
  import opened Meals
  import opened DailySummaries
  import opened UserGoals
  import opened NutritionCalculator

  /** `new Meal(mealName)` holding one new food item. */
  method OneItemMeal(mealName: string, itemName: string, calories: real, protein: real, carbs: real, fat: real)
    returns (meal: Meal)
    requires calories >= 0.0 && protein >= 0.0 && carbs >= 0.0 && fat >= 0.0
    ensures fresh(meal)
    ensures meal.Total(Calories) == calories && meal.Total(Protein) == protein
    ensures meal.Total(Carbs) == carbs && meal.Total(Fat) == fat
  {
    meal := new Meal.Named(Some(mealName));
    var food := FoodItem.Create(Some(itemName), calories, protein, carbs, fat);
    var _ := meal.AddFoodItem(food.value);
  }

  /** `new DailySummary()` with two meals added in order. */
  method TwoMealSummary(first: Meal, second: Meal) returns (summary: DailySummary)
    ensures fresh(summary) && summary.meals == [first, second]
    ensures forall n :: summary.Total(n) == first.Total(n) + second.Total(n)
  {
    summary := new DailySummary();
    var _ := summary.AddMeal(first);
    assert forall n :: summary.Total(n) == first.Total(n);
    var _ := summary.AddMeal(second);
  }

  /** A breakfast of one egg and a lunch of chicken: the day's calories and
      protein are the sums over both meals. */
  method TwoMealDay() returns (calories: real, protein: real)
    ensures calories == 270.0 && protein == 36.0
  {
    var breakfast := OneItemMeal("Breakfast", "Egg", 70.0, 6.0, 0.5, 5.0);
    var lunch := OneItemMeal("Lunch", "Chicken", 200.0, 30.0, 0.0, 8.0);
    var summary := TwoMealSummary(breakfast, lunch);
    calories := summary.Total(Calories);
    protein := summary.Total(Protein);
  }

  /** A 2500-calorie day against a 2000-calorie goal: the remaining
      calories are negative, by the excess. */
  method OverGoalDay() returns (remaining: Result<real>)
    ensures remaining == Success(-500.0)
  {
    var goal := new UserGoal();
    var _ := goal.SetGoal(Calories, 2000.0);
    var meal := OneItemMeal("Meal", "Food", 2500.0, 50.0, 100.0, 30.0);
    var summary := new DailySummary();
    var _ := summary.AddMeal(meal);
    assert summary.Total(Calories) == 2500.0 && goal.Goal(Calories) == 2000.0;
    remaining := CalculateRemaining(Calories, summary, goal);
  }

  /** Totals are never cached: adding a food item to a meal the day already
      holds raises the day's totals on the next read, by the item's values
      once for every time that meal occurs in the day. */
  method AddToLoggedMeal(summary: DailySummary, meal: Meal, item: FoodItem) returns (outcome: Outcome)
    modifies meal
    ensures outcome == Pass && summary.meals == old(summary.meals)
    ensures forall n :: summary.Total(n) == old(summary.Total(n)) + Times(Occurrences(summary.meals, meal), item.Get(n))
  {
    var meals := summary.meals;
    outcome := meal.AddFoodItem(item);
    // Only `meal` changed, so every other meal keeps its totals.
    forall n: Nutrient, k | 0 <= k < |meals| && meals[k] != meal
      ensures meals[k].Total(n) == old(meals[k].Total(n))
    {
      assert meals[k].items == old(meals[k].items);
    }
    forall n: Nutrient
      ensures SumMeals(meals, n) == old(SumMeals(meals, n)) + Times(Occurrences(meals, meal), item.Get(n))
    {
      SumShift(old(MealTotals(meals, n)), MealTotals(meals, n), meals, meal, item.Get(n));
    }
  }
}
