/** FitnessMealTracker.Business/Services/MealService.cs: the façade that owns
    one day's summary and hands meals to and from the repository. */
module MealServices {
  import opened Wrappers
  import opened Lists
  import opened Meals
  import opened DailySummaries
  import opened MealRepositories

  /** The meals `LoadMeals` leaves in the summary: it re-adds the loaded
      entries in order and stops at the first null one, whose `AddMeal`
      throws. */
  function LoadedPrefix(loaded: seq<Meal?>): (r: seq<Meal>)
    ensures |r| <= |loaded|
    ensures forall k :: 0 <= k < |r| ==> r[k] == loaded[k]
    ensures |r| < |loaded| ==> loaded[|r|] == null
  {
    if loaded == [] || loaded[0] == null then []
    else [loaded[0]] + LoadedPrefix(loaded[1..])
  }

  /** What `LoadMeals` reports once the repository has answered: the
      exception of the first null entry, if there is one. */
  function LoadOutcome(loaded: seq<Meal?>): (outcome: Outcome)
    ensures outcome.Pass? <==> null !in loaded
  {
    if null in loaded then Fail(ArgumentNull("meal")) else Pass
  }

  /** The re-added prefix is exactly the entries before the first null one,
      all of them when there is none. */
  lemma LoadedPrefixLength(loaded: seq<Meal?>, i: nat)
    requires i <= |loaded|
    requires forall k :: 0 <= k < i ==> loaded[k] != null
    requires i == |loaded| || loaded[i] == null
    ensures |LoadedPrefix(loaded)| == i
  {
  }

  /** Loading a list without null entries re-adds all of it: saving the meals
      of a summary and loading them back restores the same meals in order. */
  lemma LoadedPrefixOfSaved(meals: seq<Meal>)
    ensures LoadedPrefix(meals) == meals
    ensures LoadOutcome(meals) == Pass
  {
    LoadedPrefixLength(meals, |meals|);
  }

  class MealService {
    const repository: MealRepository
    const summary: DailySummary

    /** The body of the constructor once the null check has passed: a fresh,
        empty summary. */
    constructor (mealRepository: MealRepository)
      ensures repository == mealRepository
      ensures fresh(summary) && summary.meals == []
    {
      repository := mealRepository;
      summary := new DailySummary();
    }

    /** `new MealService(mealRepository)`: a null repository throws. */
    static method Create(mealRepository: MealRepository?) returns (result: Result<MealService>)
      ensures result.Failure? <==> mealRepository == null
      ensures result.Failure? ==> result.error == ArgumentNull("mealRepository")
      ensures result.Success? ==>
                && fresh(result.value) && fresh(result.value.summary)
                && result.value.repository == mealRepository
                && result.value.summary.meals == []
    {
      if mealRepository == null {
        return Failure(ArgumentNull("mealRepository"));
      }
      var service := new MealService(mealRepository);
      result := Success(service);
    }

    /** `GetAllMeals`: the summary's meals. */
    method GetAllMeals() returns (meals: seq<Meal>)
      ensures meals == summary.meals
    {
      meals := summary.meals;
    }

    /** `GetDailySummary`: the one summary the service owns, not a copy. */
    method GetDailySummary() returns (dailySummary: DailySummary)
      ensures dailySummary == summary
    {
      dailySummary := summary;
    }

    /** `AddMeal`: null throws and changes nothing; otherwise the meal is
        appended to the summary. */
    method AddMeal(meal: Meal?) returns (outcome: Outcome)
      modifies summary
      ensures outcome == if meal == null then Fail(ArgumentNull("meal")) else Pass
      ensures summary.meals == if meal == null then old(summary.meals) else old(summary.meals) + [meal]
    {
      if meal == null {
        return Fail(ArgumentNull("meal"));
      }
      outcome := summary.AddMeal(meal);
    }

    /** `RemoveMeal`: exactly `DailySummary.RemoveMeal`. */
    method RemoveMeal(meal: Meal?) returns (removed: bool)
      modifies summary
      ensures removed <==> meal != null && meal in old(summary.meals)
      ensures summary.meals == if removed then RemoveFirst<Meal>(old(summary.meals), meal) else old(summary.meals)
    {
      removed := summary.RemoveMeal(meal);
    }

    /** `SaveMeals`: the repository receives a copy of the current meals; the
        summary is left alone. */
    method SaveMeals() returns (outcome: Outcome)
      modifies repository
      ensures outcome == if old(repository.available) then Pass else Fail(Storage)
      ensures repository.stored == if outcome.Pass? then summary.meals else old(repository.stored)
      ensures repository.available == old(repository.available)
    {
      var mealsList := summary.meals;
      outcome := repository.SaveMeals(Some(mealsList));
    }

    /** `LoadMeals`: the repository is asked first, so a storage failure leaves
        the summary as it was. Only then is the summary cleared and every
        loaded meal re-added in order; a null entry throws from `AddMeal` and
        leaves the summary holding the meals before it. */
    method LoadMeals() returns (outcome: Outcome)
      modifies summary
      ensures !repository.available ==> outcome == Fail(Storage) && summary.meals == old(summary.meals)
      ensures repository.available ==> outcome == LoadOutcome(repository.stored)
      ensures repository.available ==> summary.meals == LoadedPrefix(repository.stored)
    {
      var result := repository.LoadMeals();
      if result.Failure? {
        return Fail(result.error);
      }
      var loadedMeals := result.value;
      summary.ClearMeals();
      var i := 0;
      while i < |loadedMeals|
        invariant i <= |loadedMeals|
        invariant forall k :: 0 <= k < i ==> loadedMeals[k] != null
        invariant |summary.meals| == i
        invariant forall k :: 0 <= k < i ==> summary.meals[k] == loadedMeals[k]
      {
        outcome := summary.AddMeal(loadedMeals[i]);
        if outcome.Fail? {
          LoadedPrefixLength(loadedMeals, i);
          return;
        }
        i := i + 1;
      }
      LoadedPrefixLength(loadedMeals, i);
      outcome := Pass;
    }
  }

  /** Saving and then loading through the same service, with a working
      medium, leaves the day's meals exactly as they were. */
  method SaveThenLoad(service: MealService) returns (saved: Outcome, loaded: Outcome)
    modifies service.repository, service.summary
    ensures old(service.repository.available) ==> saved == Pass && loaded == Pass
    ensures old(service.repository.available) ==> service.summary.meals == old(service.summary.meals)
  {
    saved := service.SaveMeals();
    loaded := service.LoadMeals();
    LoadedPrefixOfSaved(old(service.summary.meals));
  }
}
