/** FitnessMealTracker.Core/Models/Exercise.cs: a named activity and the
    calories it burned. */
module Exercises {
  import opened Wrappers
  import opened Nutrients
  import opened Text

  class Exercise {
    var name: string
    // The field type carries the invariant "calories burned is >= 0".
    var caloriesBurned: NonNegative

    /** `new Exercise()`: empty name, zero calories burned. */
    constructor ()
      ensures name == "" && caloriesBurned == 0.0
    {
      name := "";
      caloriesBurned := 0.0;
    }

    /** The `Name` setter: null or whitespace becomes the empty string. */
    method SetName(value: Option<string>)
      modifies this
      ensures name == NormalizeName(value) && caloriesBurned == old(caloriesBurned)
    {
      name := NormalizeName(value);
    }

    /** The `CaloriesBurned` setter: a negative value throws and leaves the
        field as it was; zero and above are stored as given. */
    method SetCaloriesBurned(value: real) returns (outcome: Outcome)
      modifies this
      ensures outcome == if value < Minimum then Fail(ArgumentOutOfRange("value")) else Pass
      ensures caloriesBurned == if outcome.Pass? then value else old(caloriesBurned)
      ensures name == old(name)
    {
      if value < Minimum {
        return Fail(ArgumentOutOfRange("value"));
      }
      caloriesBurned := value;
      outcome := Pass;
    }

    /** `new Exercise(name, caloriesBurned)`: the constructor runs both
        setters, so a negative value makes it throw and no object reaches the
        caller. */
    static method Create(name: Option<string>, caloriesBurned: real) returns (result: Result<Exercise>)
      ensures result.Failure? <==> caloriesBurned < 0.0
      ensures result.Failure? ==> result.error == ArgumentOutOfRange("value")
      ensures result.Success? ==>
                && fresh(result.value)
                && result.value.name == NormalizeName(name)
                && result.value.caloriesBurned == caloriesBurned
    {
      var exercise := new Exercise();
      exercise.SetName(name);
      var outcome := exercise.SetCaloriesBurned(caloriesBurned);
      if outcome.Fail? { return Failure(outcome.error); }
      result := Success(exercise);
    }
  }
}
