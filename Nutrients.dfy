/** The four nutrients every food item carries and every goal targets. */
module Nutrients {

  datatype Nutrient = Calories | Protein | Carbs | Fat

  /** A nutrient amount or goal as the setters admit it: never negative.
      (`double` in the source; see README for the abstraction to `real`.) */
  type NonNegative = r: real | r >= 0.0

  /** The lower bound shared by every validating setter
      (`MinimumNutrientValue`, `MinimumGoalValue`, `MinimumCaloriesBurned`). */
  const Minimum: real := 0.0
}
