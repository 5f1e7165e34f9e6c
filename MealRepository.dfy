/** The persistence collaborator of the meal service, behind the contract of
    FitnessMealTracker.Data/Repositories/IMealRepository.cs: a store holding
    the last saved list of meals. Whether the storage medium can be read and
    written is a field, standing for the file system the JSON implementation
    uses. */
module MealRepositories {
  import opened Wrappers
  import opened Meals

  class MealRepository {
    /** The list the medium currently holds. Entries read back from storage
        may be null, so the element type is nullable. */
    var stored: seq<Meal?>
    /** False when reading or writing the medium fails. */
    var available: bool

    constructor (stored: seq<Meal?>, available: bool)
      ensures this.stored == stored && this.available == available
    {
      this.stored := stored;
      this.available := available;
    }

    /** `LoadMeals`: the stored list, in order, or a storage failure. */
    method LoadMeals() returns (result: Result<seq<Meal?>>)
      ensures result.Success? <==> available
      ensures result.Success? ==> result.value == stored
      ensures result.Failure? ==> result.error == Storage
    {
      if !available {
        return Failure(Storage);
      }
      result := Success(stored);
    }

    /** `SaveMeals`: a null list throws; otherwise the medium holds a copy of
        the list, unless writing fails, in which case it keeps what it had. */
    method SaveMeals(meals: Option<seq<Meal?>>) returns (outcome: Outcome)
      modifies this
      ensures outcome == if meals.None? then Fail(ArgumentNull("meals"))
                         else if !old(available) then Fail(Storage)
                         else Pass
      ensures stored == if outcome.Pass? then meals.value else old(stored)
      ensures available == old(available)
    {
      if meals.None? {
        return Fail(ArgumentNull("meals"));
      }
      if !available {
        return Fail(Storage);
      }
      stored := meals.value;
      outcome := Pass;
    }
  }
}
