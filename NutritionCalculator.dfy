/** FitnessMealTracker.Business/Services/NutritionCalculator.cs: how much of
    each daily goal is left, as `goal - total`, with no clamping. */
module NutritionCalculator {
  import opened Wrappers
  import opened Nutrients
  import opened Meals
  import opened DailySummaries
  import opened UserGoals

  /** `ValidateArguments`: the summary is checked first, then the goal. */
  function ValidateArguments(dailySummary: DailySummary?, userGoal: UserGoal?): (outcome: Outcome)
    ensures outcome.Pass? <==> dailySummary != null && userGoal != null
    ensures dailySummary == null ==> outcome == Fail(ArgumentNull("dailySummary"))
    ensures dailySummary != null && userGoal == null ==> outcome == Fail(ArgumentNull("userGoal"))
  {
    if dailySummary == null then Fail(ArgumentNull("dailySummary"))
    else if userGoal == null then Fail(ArgumentNull("userGoal"))
    else Pass
  }

  /** `CalculateRemainingCalories`, `CalculateRemainingProtein`,
      `CalculateRemainingCarbs`, `CalculateRemainingFat`: after the argument
      check, what is left of the goal for `n` once the day's total is
      consumed; negative exactly when the total exceeds the goal. Reading the
      summary and the goal changes neither. */
  function CalculateRemaining(n: Nutrient, dailySummary: DailySummary?, userGoal: UserGoal?): (r: Result<real>)
    reads dailySummary, userGoal
    reads if dailySummary != null then dailySummary.meals else []
    reads if dailySummary != null then ItemsOf(dailySummary.meals) else {}
    ensures r.Failure? <==> ValidateArguments(dailySummary, userGoal).Fail?
    ensures r.Failure? ==> r.error == ValidateArguments(dailySummary, userGoal).error
    ensures r.Success? ==> dailySummary != null && userGoal != null
    ensures r.Success? ==> r.value + dailySummary.Total(n) == userGoal.Goal(n)
    ensures r.Success? ==> (r.value < 0.0 <==> dailySummary.Total(n) > userGoal.Goal(n))
    ensures r.Success? ==> r.value <= userGoal.Goal(n)
  {
    match ValidateArguments(dailySummary, userGoal)
    case Fail(e) => Failure(e)
    case Pass => Success(userGoal.Goal(n) - dailySummary.Total(n))
  }
}
