/** FitnessMealTracker.Core/Models/FoodItem.cs: a named food with four
    per-serving nutrient values, each guarded by a validating setter. */
module FoodItems {
  import opened Wrappers
  import opened Nutrients
  import opened Text

  class FoodItem {
    var name: string
    // The field types carry the invariant "every nutrient is >= 0": each
    // write below is checked against it.
    var calories: NonNegative
    var protein: NonNegative
    var carbs: NonNegative
    var fat: NonNegative

    /** The getter of the property for nutrient `n`. */
    function Get(n: Nutrient): (r: NonNegative)
      reads this
    {
      match n
      case Calories => calories
      case Protein => protein
      case Carbs => carbs
      case Fat => fat
    }

    /** `new FoodItem()`: empty name, every nutrient zero. */
    constructor ()
      ensures name == ""
      ensures forall n :: Get(n) == 0.0
    {
      name := "";
      calories, protein, carbs, fat := 0.0, 0.0, 0.0, 0.0;
    }

    /** The `Name` setter: null or whitespace becomes the empty string. */
    method SetName(value: Option<string>)
      modifies this
      ensures name == NormalizeName(value)
      ensures forall n :: Get(n) == old(Get(n))
    {
      name := NormalizeName(value);
    }

    /** The `Calories`, `Protein`, `Carbs` and `Fat` setters: a negative value
        throws before anything is written; zero and above are stored as given. */
    method Set(n: Nutrient, value: real) returns (outcome: Outcome)
      modifies this
      ensures outcome == if value < Minimum then Fail(ArgumentOutOfRange("value")) else Pass
      ensures forall m :: Get(m) == if m == n && outcome.Pass? then value else old(Get(m))
      ensures name == old(name)
    {
      if value < Minimum {
        return Fail(ArgumentOutOfRange("value"));
      }
      match n {
        case Calories => calories := value;
        case Protein => protein := value;
        case Carbs => carbs := value;
        case Fat => fat := value;
      }
      outcome := Pass;
    }

    /** `new FoodItem(name, calories, protein, carbs, fat)`: the constructor
        runs the setters in order, so the first negative value makes it throw
        and no object reaches the caller. */
    static method Create(name: Option<string>, calories: real, protein: real, carbs: real, fat: real)
      returns (result: Result<FoodItem>)
      ensures result.Failure? <==> calories < 0.0 || protein < 0.0 || carbs < 0.0 || fat < 0.0
      ensures result.Failure? ==> result.error == ArgumentOutOfRange("value")
      ensures result.Success? ==>
                && fresh(result.value)
                && result.value.name == NormalizeName(name)
                && result.value.Get(Calories) == calories && result.value.Get(Protein) == protein
                && result.value.Get(Carbs) == carbs && result.value.Get(Fat) == fat
    {
      var item := new FoodItem();
      item.SetName(name);
      var outcome := item.Set(Calories, calories);
      if outcome.Fail? { return Failure(outcome.error); }
      outcome := item.Set(Protein, protein);
      if outcome.Fail? { return Failure(outcome.error); }
      outcome := item.Set(Carbs, carbs);
      if outcome.Fail? { return Failure(outcome.error); }
      outcome := item.Set(Fat, fat);
      if outcome.Fail? { return Failure(outcome.error); }
      result := Success(item);
    }
  }

  /** LINQ `items.Sum(item => item.<n>)`: the sum of nutrient `n` over the
      items, accumulated from the first item to the last. */
  function SumOf(items: seq<FoodItem>, n: Nutrient): (r: real)
    reads items
    ensures r >= 0.0
    ensures items == [] ==> r == 0.0
  {
    if items == [] then 0.0
    else SumOf(items[..|items| - 1], n) + items[|items| - 1].Get(n)
  }

  /** Appending an item raises the sum by exactly that item's value. */
  lemma SumOfAppend(items: seq<FoodItem>, x: FoodItem, n: Nutrient)
    ensures SumOf(items + [x], n) == SumOf(items, n) + x.Get(n)
  {
    assert (items + [x])[..|items|] == items;
  }

  /** The sum over a concatenation is the sum of the two sums. */
  lemma {:induction false} SumOfConcat(a: seq<FoodItem>, b: seq<FoodItem>, n: Nutrient)
    ensures SumOf(a + b, n) == SumOf(a, n) + SumOf(b, n)
  {
    if b == [] {
      assert a + b == a;
    } else {
      var init := b[..|b| - 1];
      SumOfConcat(a, init, n);
      assert (a + b)[..|a + b| - 1] == a + init;
    }
  }
}
