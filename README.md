# Fitness Meal Tracker — a verified model of the domain core

Fitness Meal Tracker is a desktop application for logging what a user eats in a day.
This project models its in-memory core in Dafny, as classes with in-place updates:

- **Food items, goals and exercises.** `FoodItem`, `UserGoal` and `Exercise` hold values behind
  validating setters. A negative nutrient, goal or calorie value is refused before anything is written.
  A null or whitespace-only name is stored as the empty string.
- **Meals and the day.** `Meal` is an ordered list of food items and `DailySummary` is an ordered
  list of meals. Both support add (null is refused), remove of the first occurrence by reference
  identity, and clear. Their nutrient totals are never cached: every read sums the current contents.
  A day's total is therefore a double sum over every item of every meal.
- **The calculator.** `NutritionCalculator` checks its arguments for null, the summary first, and then
  returns `goal - total` for a nutrient, without clamping.
- **The service.** `MealService` owns one `DailySummary` and talks to a meal repository.
  `LoadMeals` asks the repository first, then clears the day, then re-adds the loaded meals one by one.
  A null entry stops it part-way, with the meals before that entry already in place.

A .NET exception is modelled as an `Outcome` or `Result` value. It carries the parameter name the source
passes to the exception. A nullable `string` is `Option<string>`. Nullable references are Dafny's
nullable class types (`Meal?`, `FoodItem?`), so reference identity is Dafny's `==` on objects. The four
per-nutrient properties of each class (`Calories`, `Protein`, `Carbs`, `Fat`, and the matching goals,
totals and calculator methods) are modelled as one member parametrised by `Nutrient`. The fields stay
separate, as in the source. The "never negative" invariant is carried by the type `NonNegative` of every
numeric field, so every write is checked against it.

The repository is a store holding the last saved list of meals (`MealRepositories.MealRepository`). It
follows the contract in `IMealRepository` and the in-memory double the service tests use. Whether the
storage medium can be read and written is the field `available`.

Modules: `Wrappers`, `Nutrients`, `Text` (name normalisation), `Lists` (`List<T>.Remove` and sums),
`FoodItems`, `Meals`, `DailySummaries`, `UserGoals`, `Exercises`, `NutritionCalculator`,
`MealRepositories`, `MealServices` and `Scenarios`. `Scenarios` holds two days from the repository's
tests, whose totals follow from the contracts alone, and the live-total property of a logged meal.

## Model

| member | source | states |
|---|---|---|
| Text.IsWhiteSpace | FitnessMealTracker.Core/Models/FoodItem.cs:22 | The .NET `char.IsWhiteSpace` set: space, tab, line feed and carriage return are whitespace, no visible ASCII character is |
| Text.IsNullOrWhiteSpace | FitnessMealTracker.Core/Models/FoodItem.cs:22 | `string.IsNullOrWhiteSpace`: null and the empty string count as blank, a string holding a visible ASCII character does not |
| Text.NormalizeName | FitnessMealTracker.Core/Models/FoodItem.cs:22 | A null or whitespace-only name (.NET `char.IsWhiteSpace` set) becomes `""`; any other string is kept unchanged; a stored name is empty or has a non-whitespace character |
| Text.NormalizeNameIdempotent | FitnessMealTracker.Core/Models/FoodItem.cs:19-23 | Writing back a name read from a `Name` property stores the same name |
| Lists.RemoveFirst | FitnessMealTracker.Core/Models/Meal.cs:105 | `List.Remove` by the default (reference) comparer: one element shorter when the element is present, the same length otherwise, and nothing new appears |
| Lists.RemoveFirstAbsent | FitnessMealTracker.Core/Models/Meal.cs:105 | `List.Remove` of an element that is not present leaves the list unchanged |
| Lists.RemoveFirstPresent | FitnessMealTracker.Core/Models/Meal.cs:105 | `List.Remove` of a present element cuts out exactly its first occurrence, keeps the order of the rest and shortens the list by one |
| Lists.RemoveFirstMultiset | FitnessMealTracker.Core/Models/DailySummary.cs:60 | Removal takes away exactly one copy of the element and nothing else |
| Lists.RemoveFirstAfterAppend | FitnessMealTracker.Core/Models/DailySummary.cs:44-61 | Adding an element that was not in the list and then removing it gives back the original list |
| Lists.SumShift | FitnessMealTracker.Core/Models/DailySummary.cs:22-37 | If each summand changes by `d` exactly where the list holds `x`, the sum changes by `d` once per occurrence of `x` |
| FoodItems.FoodItem.constructor | FitnessMealTracker.Core/Models/FoodItem.cs:10-14 | `new FoodItem()` has an empty name and every nutrient zero |
| FoodItems.FoodItem.Get | FitnessMealTracker.Core/Models/FoodItem.cs:31-82 | The four nutrient getters return their fields; the result type makes every read non-negative |
| FoodItems.FoodItem.SetName | FitnessMealTracker.Core/Models/FoodItem.cs:19-23 | The name becomes the normalised value; no nutrient changes |
| FoodItems.FoodItem.Set | FitnessMealTracker.Core/Models/FoodItem.cs:29-91 | A value below 0 gives `ArgumentOutOfRange("value")` and changes nothing; 0 and above are read back exactly; the other nutrients and the name are untouched |
| FoodItems.FoodItem.Create | FitnessMealTracker.Core/Models/FoodItem.cs:101-108 | The constructor fails iff some value is negative; otherwise the new item has the normalised name and reads every value back |
| FoodItems.SumOf | FitnessMealTracker.Core/Models/Meal.cs:51-66 | The sum of a nutrient over food items is never negative and is 0 for no items |
| FoodItems.SumOfAppend | FitnessMealTracker.Core/Models/Meal.cs:89-96 | Appending an item raises the sum by exactly that item's value |
| FoodItems.SumOfConcat | FitnessMealTracker.Core/Models/Meal.cs:51-66 | The sum over two item lists put together is the sum of the two sums |
| Meals.Meal.constructor | FitnessMealTracker.Core/Models/Meal.cs:80-82 | `new Meal()` has an empty name and no items |
| Meals.Meal.Named | FitnessMealTracker.Core/Models/Meal.cs:72-75 | `new Meal(name)` stores the normalised name and has no items |
| Meals.Meal.SetName | FitnessMealTracker.Core/Models/Meal.cs:19-23 | The name becomes the normalised value; the items are untouched |
| Meals.Meal.SetItemsForSerialization | FitnessMealTracker.Core/Models/Meal.cs:35-46 | The items become the given list, or none when the list is null |
| Meals.Meal.Total | FitnessMealTracker.Core/Models/Meal.cs:51-66 | A meal's total of a nutrient is the sum over its current items, never negative |
| Meals.Meal.AddFoodItem | FitnessMealTracker.Core/Models/Meal.cs:89-96 | Null gives `ArgumentNull("item")` and changes nothing; otherwise the item is appended (duplicates allowed) and every total grows by that item's value |
| Meals.Meal.RemoveFoodItem | FitnessMealTracker.Core/Models/Meal.cs:103-106 | Returns true iff the item is non-null and present by reference; then its first occurrence goes, the length drops by one and every total drops by its value; otherwise nothing changes |
| Meals.Meal.ClearFoodItems | FitnessMealTracker.Core/Models/Meal.cs:111-114 | No items remain and every total is 0 |
| Meals.SumOfRemoveFirst | FitnessMealTracker.Core/Models/Meal.cs:103-106 | Removing the first occurrence of a present item lowers the sum by exactly that item's value |
| DailySummaries.SumMeals | FitnessMealTracker.Core/Models/DailySummary.cs:22-37 | The sum of the meals' totals is never negative and is 0 for no meals |
| DailySummaries.SumMealsIsSumOfAllItems | FitnessMealTracker.Core/Models/DailySummary.cs:22-37 | A day's total equals the sum of the nutrient over every item of every meal |
| DailySummaries.SumMealsAppend | FitnessMealTracker.Core/Models/DailySummary.cs:44-51 | Appending a meal raises the day's total by exactly that meal's total |
| DailySummaries.SumMealsConcat | FitnessMealTracker.Core/Models/DailySummary.cs:22-37 | The total over two meal lists put together is the sum of the two totals |
| DailySummaries.SumMealsRemoveFirst | FitnessMealTracker.Core/Models/DailySummary.cs:58-61 | Removing the first occurrence of a present meal lowers the day's total by that meal's total |
| DailySummaries.MealTotals | FitnessMealTracker.Core/Models/DailySummary.cs:22-37 | The per-meal totals, in order, one per meal, add up to the day's total |
| DailySummaries.DailySummary.constructor | FitnessMealTracker.Core/Models/DailySummary.cs:12 | A new summary has no meals and every total 0 |
| DailySummaries.DailySummary.Total | FitnessMealTracker.Core/Models/DailySummary.cs:22-37 | A day's total is the sum of the current meals' current totals, never negative |
| DailySummaries.DailySummary.AddMeal | FitnessMealTracker.Core/Models/DailySummary.cs:44-51 | Null gives `ArgumentNull("meal")` and changes nothing; otherwise the meal is appended and every total grows by that meal's total |
| DailySummaries.DailySummary.RemoveMeal | FitnessMealTracker.Core/Models/DailySummary.cs:58-61 | Returns true iff the meal is non-null and present by reference; then its first occurrence goes and every total drops by its total; otherwise nothing changes |
| DailySummaries.DailySummary.ClearMeals | FitnessMealTracker.Core/Models/DailySummary.cs:66-69 | No meals remain and every total is 0 |
| UserGoals.UserGoal.constructor | FitnessMealTracker.Core/Models/UserGoal.cs:12-15 | A new goal has all four targets 0 |
| UserGoals.UserGoal.Goal | FitnessMealTracker.Core/Models/UserGoal.cs:23-74 | The four goal getters return their fields; the result type makes every read non-negative |
| UserGoals.UserGoal.SetGoal | FitnessMealTracker.Core/Models/UserGoal.cs:21-83 | A value below 0 gives `ArgumentOutOfRange("value")` and changes nothing; otherwise that goal, and only that goal, reads the value back |
| Exercises.Exercise.constructor | FitnessMealTracker.Core/Models/Exercise.cs:44-46 | `new Exercise()` has an empty name and 0 calories burned |
| Exercises.Exercise.SetName | FitnessMealTracker.Core/Models/Exercise.cs:18-22 | The name becomes the normalised value; calories burned is untouched |
| Exercises.Exercise.SetCaloriesBurned | FitnessMealTracker.Core/Models/Exercise.cs:28-39 | A value below 0 gives `ArgumentOutOfRange("value")` and changes nothing; 0 and above are stored; the name is untouched |
| Exercises.Exercise.Create | FitnessMealTracker.Core/Models/Exercise.cs:53-57 | The constructor fails iff calories burned is negative; otherwise both values read back |
| NutritionCalculator.ValidateArguments | FitnessMealTracker.Business/Services/NutritionCalculator.cs:63-73 | Passes iff both arguments are non-null; a null summary is reported first, a null goal only when the summary is present |
| NutritionCalculator.CalculateRemaining | FitnessMealTracker.Business/Services/NutritionCalculator.cs:18-61 | Fails exactly as the argument check does; otherwise remaining + total = goal, the result is negative iff the total exceeds the goal, and it never exceeds the goal |
| MealRepositories.MealRepository.constructor | FitnessMealTracker.Tests/Services/MealServiceTests.cs:128 | A store starts holding the given list, with the given medium state (the test double starts with an empty list) |
| MealRepositories.MealRepository.LoadMeals | FitnessMealTracker.Data/Repositories/IMealRepository.cs:16 | Returns the stored list in order when the medium is readable, a storage failure otherwise |
| MealRepositories.MealRepository.SaveMeals | FitnessMealTracker.Data/Repositories/IMealRepository.cs:24 | A null list gives `ArgumentNull("meals")`; a failing medium gives a storage failure and keeps the old list; otherwise the given list is stored |
| MealServices.LoadedPrefix | FitnessMealTracker.Business/Services/MealService.cs:84-93 | The meals a load leaves behind are the loaded entries, in order, up to and not including the first null one |
| MealServices.LoadOutcome | FitnessMealTracker.Business/Services/MealService.cs:84-93 | Loading succeeds iff no loaded entry is null |
| MealServices.LoadedPrefixLength | FitnessMealTracker.Business/Services/MealService.cs:84-93 | The re-added prefix is exactly as long as the run of non-null entries before the first null one |
| MealServices.LoadedPrefixOfSaved | FitnessMealTracker.Business/Services/MealService.cs:74-93 | A list without nulls, as `SaveMeals` writes it, is re-added in full, in order, and the load succeeds |
| MealServices.MealService.constructor | FitnessMealTracker.Business/Services/MealService.cs:22-26 | A new service keeps the repository and owns a fresh, empty summary |
| MealServices.MealService.Create | FitnessMealTracker.Business/Services/MealService.cs:22-26 | A null repository gives `ArgumentNull("mealRepository")`; otherwise a new service with an empty summary |
| MealServices.MealService.GetAllMeals | FitnessMealTracker.Business/Services/MealService.cs:32-35 | The result is the summary's current meals |
| MealServices.MealService.GetDailySummary | FitnessMealTracker.Business/Services/MealService.cs:41-44 | The result is the one summary the service owns, the same object on every call |
| MealServices.MealService.AddMeal | FitnessMealTracker.Business/Services/MealService.cs:51-58 | Null gives `ArgumentNull("meal")` and changes nothing; otherwise the meal is appended to the summary |
| MealServices.MealService.RemoveMeal | FitnessMealTracker.Business/Services/MealService.cs:65-68 | Same result and effect as removing the meal from the summary |
| MealServices.MealService.SaveMeals | FitnessMealTracker.Business/Services/MealService.cs:74-78 | The repository receives the current meals (or fails on a failing medium, keeping its old list); the summary is not touched |
| MealServices.MealService.LoadMeals | FitnessMealTracker.Business/Services/MealService.cs:84-93 | A failing load leaves the summary as it was; otherwise the old meals are gone, the summary holds the loaded meals in order up to the first null entry, and the load fails iff there is one |
| MealServices.SaveThenLoad | FitnessMealTracker.Business/Services/MealService.cs:74-93 | With a working medium, saving and then loading succeeds and leaves the day's meals exactly as they were |
| Scenarios.TwoMealDay | FitnessMealTracker.Tests/Models/DailySummaryTests.cs:96-131 | An egg breakfast (70 kcal, 6 g protein) and a chicken lunch (200 kcal, 30 g) give a day of 270 kcal and 36 g protein |
| Scenarios.OverGoalDay | FitnessMealTracker.Tests/Services/NutritionCalculatorTests.cs:124-144 | 2500 kcal eaten against a 2000 kcal goal leaves -500, not a clamped 0 |
| Scenarios.AddToLoggedMeal | FitnessMealTracker.Core/Models/DailySummary.cs:22-37 | Adding an item to a meal already in the day raises the day's totals on the next read, by the item's values once per occurrence of that meal |

## Left out

- File-system I/O and JSON serialisation in `JsonMealRepository` are not modelled. The repository is the stored list behind the `IMealRepository` contract, and I/O or serialisation failure is the `available` field.
- The WPF application is not part of this model: `MainViewModel`, `RelayCommand`, `MainWindow` and `App`. This covers data binding, commands, message boxes and the culture-dependent `double.TryParse` checks.
- The interfaces `IMealService` and `INutritionCalculator` have no behaviour. They are used only as the shape of the contracts.
- Nutrient values are `real`, not IEEE-754 `double`. Rounding, infinities, NaN and the order-dependent rounding of LINQ `Sum` are not captured. A NaN passes the source's `value < 0` check; it has no counterpart here.
- `AsReadOnly` views (`Meal.Items`, `DailySummary.Meals`, `GetAllMeals`) are modelled as the current sequence at the time of the call. A view that keeps following later changes is not captured.
- Exception messages are not modelled, only the exception kind and the parameter name.
- Strings are sequences of Unicode scalar values, not UTF-16 code units. Whitespace is the fixed set `char.IsWhiteSpace` accepts.
- The repository may hand back a list containing null meals. The model covers that case. A null list itself is not modelled, because `IMealRepository.LoadMeals` promises a list.
- A null entry inside the list given to `ItemsForSerialization` is not modelled: `Meal.items` holds non-null items.
- A repository whose loaded list is the summary's own list object (aliasing between the list that is cleared and the list being read) is not modelled: lists are values here.
- MealServices.SaveThenLoad holds for a store that keeps the saved references, as the in-memory test double does. `JsonMealRepository` hands back freshly deserialised `Meal` objects. After a load from it, the summary holds new objects equal in content, not the old references, and `RemoveMeal` of an old reference returns false. Content equality across JSON is not modelled.
- MealRepositories.MealRepository.SaveMeals: a null list is reported as `ArgumentNull("meals")`, the parameter `IMealRepository` names. The test double in `MealServiceTests` would fail inside LINQ `ToList` instead, naming `source`.
- FoodItems.FoodItem.Create and Exercises.Exercise.Create: a failing constructor is a `Failure` result with no object. The partly initialised object the .NET runtime discards is not modelled.
- Each `Total*`, `Daily*Goal`, nutrient setter and `CalculateRemaining*` member is one Dafny member taking a `Nutrient`, not four members.
