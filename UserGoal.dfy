/** FitnessMealTracker.Core/Models/UserGoal.cs: four independent daily
    targets, each guarded by a validating setter. */
module UserGoals {
  import opened Wrappers
  import opened Nutrients

  class UserGoal {
    // The field types carry the invariant "every goal is >= 0".
    var dailyCalorieGoal: NonNegative
    var dailyProteinGoal: NonNegative
    var dailyCarbGoal: NonNegative
    var dailyFatGoal: NonNegative

    /** The getter of the goal for nutrient `n`. */
    function Goal(n: Nutrient): (r: NonNegative)
      reads this
    {
      match n
      case Calories => dailyCalorieGoal
      case Protein => dailyProteinGoal
      case Carbs => dailyCarbGoal
      case Fat => dailyFatGoal
    }

    /** `new UserGoal()`: every goal is zero. */
    constructor ()
      ensures forall n :: Goal(n) == 0.0
    {
      dailyCalorieGoal, dailyProteinGoal, dailyCarbGoal, dailyFatGoal := 0.0, 0.0, 0.0, 0.0;
    }

    /** The `DailyCalorieGoal`, `DailyProteinGoal`, `DailyCarbGoal` and
        `DailyFatGoal` setters: a negative value throws and leaves the goal as
        it was; otherwise that goal, and only that goal, takes the value. */
    method SetGoal(n: Nutrient, value: real) returns (outcome: Outcome)
      modifies this
      ensures outcome == if value < Minimum then Fail(ArgumentOutOfRange("value")) else Pass
      ensures forall m :: Goal(m) == if m == n && outcome.Pass? then value else old(Goal(m))
    {
      if value < Minimum {
        return Fail(ArgumentOutOfRange("value"));
      }
      match n {
        case Calories => dailyCalorieGoal := value;
        case Protein => dailyProteinGoal := value;
        case Carbs => dailyCarbGoal := value;
        case Fat => dailyFatGoal := value;
      }
      outcome := Pass;
    }
  }
}
