/**
 * Ingredients, recipes and their calorie total (Recipe, Ingredient and
 * NutritionCalculator of the meal planner).
 */
module Recipes {

  /** The C# `int` that Ingredient.Calories and Recipe.GetCalories use. */
  newtype int32 = x: int | -0x8000_0000 <= x < 0x8000_0000

  /** An `int` value lies in the range of `int32`, the C# `int`. */
  predicate InInt32(x: int)
  {
    -0x8000_0000 <= x < 0x8000_0000
  }

  /** An ingredient as a value: its name, calories and environmental impact score. */
  datatype Ingredient = Ingredient(name: string, calories: int32, impactScore: real)

  /** The mathematical total of the calories, free of any overflow. */
  function SumCalories(ings: seq<Ingredient>): int
  {
    if ings == [] then 0 else ings[0].calories as int + SumCalories(ings[1..])
  }

  /** The outcome of Enumerable.Sum over `int`: a total, or the OverflowException it throws. */
  datatype CalorieSum = Total(kcal: int32) | Overflow

  /** Enumerable.Sum adds from the front in checked arithmetic; `acc` is the running total. */
  function CheckedSum(ings: seq<Ingredient>, acc: int32): CalorieSum
  {
    if ings == [] then Total(acc)
    else
      var t := acc as int + ings[0].calories as int;
      if InInt32(t) then CheckedSum(ings[1..], t as int32) else Overflow
  }

  /** Some running total of the first n ingredients, started from `acc`, leaves the range of `int`. */
  ghost predicate RunningTotalOverflows(ings: seq<Ingredient>, acc: int)
  {
    exists n | 1 <= n <= |ings| :: !InInt32(acc + SumCalories(ings[..n]))
  }

  lemma {:induction false} SumCaloriesConcat(a: seq<Ingredient>, b: seq<Ingredient>)
    ensures SumCalories(a + b) == SumCalories(a) + SumCalories(b)
  {
    if a == [] {
      assert a + b == b;
    } else {
      assert (a + b)[1..] == a[1..] + b;
      SumCaloriesConcat(a[1..], b);
    }
  }

  /** Appending an ingredient adds exactly its calories to the total. */
  lemma SumCaloriesAppend(ings: seq<Ingredient>, ing: Ingredient)
    ensures SumCalories(ings + [ing]) == SumCalories(ings) + ing.calories as int
  {
    SumCaloriesConcat(ings, [ing]);
  }

  /** The checked sum either overflows or computes the mathematical total, and it overflows
      exactly when some running total leaves the range of `int`. */
  lemma {:induction false} CheckedSumMeaning(ings: seq<Ingredient>, acc: int32)
    ensures CheckedSum(ings, acc).Total? ==> CheckedSum(ings, acc).kcal as int == acc as int + SumCalories(ings)
    ensures CheckedSum(ings, acc).Overflow? <==> RunningTotalOverflows(ings, acc as int)
  {
    if ings != [] {
      var t := acc as int + ings[0].calories as int;
      assert ings[..1] == [ings[0]];
      assert SumCalories(ings[..1]) == ings[0].calories as int;
      forall n | 1 <= n <= |ings|
        ensures SumCalories(ings[..n]) == ings[0].calories as int + SumCalories(ings[1..][..n - 1])
      {
        assert ings[..n][1..] == ings[1..][..n - 1];
      }
      if InInt32(t) {
        CheckedSumMeaning(ings[1..], t as int32);
        if RunningTotalOverflows(ings[1..], t) {
          var m :| 1 <= m <= |ings[1..]| && !InInt32(t + SumCalories(ings[1..][..m]));
          assert !InInt32(acc as int + SumCalories(ings[..m + 1]));
        }
        if RunningTotalOverflows(ings, acc as int) {
          var n :| 1 <= n <= |ings| && !InInt32(acc as int + SumCalories(ings[..n]));
          assert n > 1;
          assert !InInt32(t + SumCalories(ings[1..][..n - 1]));
        }
      }
    }
  }

  /** With no negative calories the running totals only grow, so the sum overflows
      exactly when the total exceeds the largest `int`. */
  lemma {:induction false} NonNegativeCheckedSum(ings: seq<Ingredient>, acc: int32)
    requires acc >= 0
    requires forall i | 0 <= i < |ings| :: ings[i].calories >= 0
    ensures CheckedSum(ings, acc).Overflow? <==> acc as int + SumCalories(ings) > 0x7FFF_FFFF
    ensures CheckedSum(ings, acc).Total? ==> CheckedSum(ings, acc).kcal as int == acc as int + SumCalories(ings)
  {
    CheckedSumMeaning(ings, acc);
    if ings != [] {
      NonNegativeSum(ings[1..]);
      var t := acc as int + ings[0].calories as int;
      if InInt32(t) {
        NonNegativeCheckedSum(ings[1..], t as int32);
      }
    }
  }

  lemma {:induction false} NonNegativeSum(ings: seq<Ingredient>)
    requires forall i | 0 <= i < |ings| :: ings[i].calories >= 0
    ensures SumCalories(ings) >= 0
  {
    if ings != [] {
      NonNegativeSum(ings[1..]);
    }
  }

  /** A recipe: its name, its tags and its ingredients, the latter two kept in insertion order. */
  class Recipe {
    var name: string
    var ingredients: seq<Ingredient>
    var tags: seq<string>

    constructor (name: string)
      ensures this.name == name && ingredients == [] && tags == []
    {
      this.name := name;
      ingredients := [];
      tags := [];
    }

    /** Appends one ingredient; no duplicate check. */
    method AddIngredient(ing: Ingredient)
      modifies this
      ensures ingredients == old(ingredients) + [ing]
      ensures name == old(name) && tags == old(tags)
    {
      ingredients := ingredients + [ing];
    }

    /** Appends one tag, as the recipe's Tags list is extended when a recipe is registered. */
    method AddTag(tag: string)
      modifies this
      ensures tags == old(tags) + [tag]
      ensures name == old(name) && ingredients == old(ingredients)
    {
      tags := tags + [tag];
    }

    /** The total calories: the sum of the ingredients' calories, or Overflow when the
        checked running total leaves the range of `int`. */
    function GetCalories(): (c: CalorieSum)
      reads this
      ensures c.Total? ==> c.kcal as int == SumCalories(ingredients)
      ensures c.Overflow? <==> RunningTotalOverflows(ingredients, 0)
      ensures ingredients == [] ==> c == Total(0)
    {
      CheckedSumMeaning(ingredients, 0);
      CheckedSum(ingredients, 0)
    }
  }

  class NutritionCalculator {
    constructor ()
    {
    }

    /** Delegates to the recipe, so it reports the same total. */
    function CalculateCalories(r: Recipe): (c: CalorieSum)
      reads r
      ensures c == r.GetCalories()
      ensures c.Total? ==> c.kcal as int == SumCalories(r.ingredients)
    {
      r.GetCalories()
    }
  }

  lemma TwoIngredientTotal(ings: seq<Ingredient>, x: int32, y: int32)
    requires |ings| == 2 && ings[0].calories == x && ings[1].calories == y
    requires 0 <= x < 1000 && 0 <= y < 1000
    ensures CheckedSum(ings, 0) == Total(x + y)
  {
    NonNegativeCheckedSum(ings, 0);
    assert ings[1..][1..] == [];
    assert SumCalories(ings[1..]) == y as int;
  }

  /** A salad of 20 and 5 calories totals 25. */
  method SaladCaloriesExample() returns (kcal: CalorieSum)
    ensures kcal == Total(25)
  {
    var r := new Recipe("Salada");
    r.AddIngredient(Ingredient("Tomate", 20, 2.0));
    r.AddIngredient(Ingredient("Alface", 5, 1.0));
    kcal := r.GetCalories();
    TwoIngredientTotal(r.ingredients, 20, 5);
  }

  /** Through the calculator, a recipe of 10 and 20 calories totals 30. */
  method CalculatorExample() returns (kcal: CalorieSum)
    ensures kcal == Total(30)
  {
    var r := new Recipe("Teste");
    r.AddIngredient(Ingredient("A", 10, 1.0));
    r.AddIngredient(Ingredient("B", 20, 1.0));
    var calculator := new NutritionCalculator();
    kcal := calculator.CalculateCalories(r);
    TwoIngredientTotal(r.ingredients, 10, 20);
  }
}
