/**
 * The grocery list: how many times each ingredient name occurs across the
 * recipes of a menu.
 */
module Grocery {
  import opened Recipes
  import opened Menus

  /** The names of the ingredients, in order. */
  function IngredientNames(ings: seq<Ingredient>): seq<string>
  {
    if ings == [] then [] else IngredientNames(ings[..|ings| - 1]) + [ings[|ings| - 1].name]
  }

  /** The i-th name is the name of the i-th ingredient. */
  lemma {:induction false} IngredientNamesAt(ings: seq<Ingredient>)
    ensures |IngredientNames(ings)| == |ings|
    ensures forall i | 0 <= i < |ings| :: IngredientNames(ings)[i] == ings[i].name
  {
    if ings != [] {
      IngredientNamesAt(ings[..|ings| - 1]);
    }
  }

  /** The ingredient names of every recipe of the menu, recipe after recipe; a recipe
      that appears twice contributes its names twice. */
  function MenuIngredientNames(recipes: seq<Recipe>): seq<string>
    reads recipes
  {
    if recipes == [] then []
    else MenuIngredientNames(recipes[..|recipes| - 1]) + IngredientNames(recipes[|recipes| - 1].ingredients)
  }

  /** A name occurs in the menu's names exactly when some ingredient of some recipe of the menu has it. */
  lemma {:induction false} MenuIngredientNamesMembership(recipes: seq<Recipe>, x: string)
    ensures x in MenuIngredientNames(recipes) <==>
            exists i, j | 0 <= i < |recipes| && 0 <= j < |recipes[i].ingredients| :: recipes[i].ingredients[j].name == x
  {
    if recipes != [] {
      var n := |recipes| - 1;
      var front := recipes[..n];
      MenuIngredientNamesMembership(front, x);
      var names := IngredientNames(recipes[n].ingredients);
      IngredientNamesAt(recipes[n].ingredients);
      if x in MenuIngredientNames(recipes) {
        if x in MenuIngredientNames(front) {
          var i, j :| 0 <= i < |front| && 0 <= j < |front[i].ingredients| && front[i].ingredients[j].name == x;
          assert recipes[i] == front[i];
        } else {
          assert x in names;
          var j :| 0 <= j < |names| && names[j] == x;
          assert recipes[n].ingredients[j].name == x;
        }
      }
      if exists i, j | 0 <= i < |recipes| && 0 <= j < |recipes[i].ingredients| :: recipes[i].ingredients[j].name == x {
        var i, j :| 0 <= i < |recipes| && 0 <= j < |recipes[i].ingredients| && recipes[i].ingredients[j].name == x;
        if i < n {
          assert front[i] == recipes[i];
        } else {
          assert names[j] == x;
        }
      }
    }
  }

  /** Appending a recipe to a menu adds its ingredient names once more to the tally. */
  lemma MenuIngredientNamesAppend(recipes: seq<Recipe>, r: Recipe)
    ensures multiset(MenuIngredientNames(recipes + [r])) ==
            multiset(MenuIngredientNames(recipes)) + multiset(IngredientNames(r.ingredients))
  {
    assert (recipes + [r])[..|recipes|] == recipes;
  }

  /** AddItem on the dictionary: the name's count goes up by one, starting at 1. */
  function Increment(items: map<string, int>, name: string): map<string, int>
  {
    items[name := if name in items then items[name] + 1 else 1]
  }

  /** The name's count is raised by one, or set to 1 when absent; every other name keeps its count. */
  lemma IncrementMeaning(items: map<string, int>, name: string)
    ensures var r := Increment(items, name);
      && name in r && r[name] == (if name in items then items[name] + 1 else 1)
      && forall k | k != name :: (k in r <==> k in items) && (k in items ==> r[k] == items[k])
  {
  }

  /** `items` holds, for each name of `bag`, the number of times it occurs there, and no other name. */
  ghost predicate Tallies(items: map<string, int>, bag: multiset<string>)
  {
    (forall k | k in items :: k in bag && items[k] == bag[k]) &&
    (forall k | k in bag :: k in items)
  }

  /** The counts obtained by adding the names one after another, starting from an empty list. */
  function CountNames(names: seq<string>): map<string, int>
  {
    if names == [] then map[] else Increment(CountNames(names[..|names| - 1]), names[|names| - 1])
  }

  /** Counting name by name yields exactly the multiset of the names. */
  lemma {:induction false} CountNamesTallies(names: seq<string>)
    ensures Tallies(CountNames(names), multiset(names))
  {
    if names != [] {
      var n := |names| - 1;
      CountNamesTallies(names[..n]);
      assert names == names[..n] + [names[n]];
      IncrementTallies(CountNames(names[..n]), multiset(names[..n]), names[n]);
    }
  }

  lemma IncrementTallies(items: map<string, int>, bag: multiset<string>, name: string)
    requires Tallies(items, bag)
    ensures Tallies(Increment(items, name), bag + multiset{name})
  {
  }

  /** A tally holds exactly the names of its bag, each with a count of at least 1,
      and it is empty exactly when the bag is. */
  lemma TalliesShape(items: map<string, int>, bag: multiset<string>)
    requires Tallies(items, bag)
    ensures items.Keys == set k | k in bag
    ensures forall k | k in items :: items[k] >= 1
    ensures items == map[] <==> bag == multiset{}
  {
    if bag != multiset{} {
      var k :| k in bag;
      assert k in items;
    }
  }

  /** The tally is determined by the bag alone, so the order in which names are added does not matter. */
  lemma TalliesUnique(a: map<string, int>, b: map<string, int>, bag: multiset<string>)
    requires Tallies(a, bag) && Tallies(b, bag)
    ensures a == b
  {
    assert a.Keys == b.Keys;
  }

  class GroceryList {
    /** The public view of the dictionary of counts. */
    var items: map<string, int>

    constructor ()
      ensures items == map[]
    {
      items := map[];
    }

    method AddItem(name: string)
      modifies this
      ensures items == Increment(old(items), name)
    {
      if name in items {
        items := items[name := items[name] + 1];
      } else {
        items := items[name := 1];
      }
    }

    /** A fresh list holding the count of every ingredient name across the menu's recipes. */
    static method GenerateFromMenu(menu: Menu) returns (g: GroceryList)
      ensures fresh(g)
      ensures g.items == CountNames(MenuIngredientNames(menu.recipes))
      ensures Tallies(g.items, multiset(MenuIngredientNames(menu.recipes)))
    {
      g := new GroceryList();
      var i := 0;
      while i < |menu.recipes|
        invariant 0 <= i <= |menu.recipes|
        invariant fresh(g)
        invariant g.items == CountNames(MenuIngredientNames(menu.recipes[..i]))
      {
        var ings := menu.recipes[i].ingredients;
        ghost var done := MenuIngredientNames(menu.recipes[..i]);
        var j := 0;
        CountStart(done, ings);
        while j < |ings|
          invariant 0 <= j <= |ings|
          modifies g
          invariant g.items == CountNames(done + IngredientNames(ings[..j]))
        {
          CountStep(done, ings, j);
          g.AddItem(ings[j].name);
          j := j + 1;
        }
        MenuNamesStep(menu.recipes, i);
        i := i + 1;
      }
      assert menu.recipes[..i] == menu.recipes;
      CountNamesTallies(MenuIngredientNames(menu.recipes));
    }
  }

  /** The generated list names exactly the ingredients that occur in some recipe of the menu,
      each with a count of at least 1. */
  lemma GroceryKeys(menu: Menu, items: map<string, int>, x: string)
    requires items == CountNames(MenuIngredientNames(menu.recipes))
    ensures x in items <==>
            exists i, j | 0 <= i < |menu.recipes| && 0 <= j < |menu.recipes[i].ingredients| ::
              menu.recipes[i].ingredients[j].name == x
    ensures x in items ==> items[x] >= 1
  {
    var names := MenuIngredientNames(menu.recipes);
    CountNamesTallies(names);
    TalliesShape(items, multiset(names));
    MenuIngredientNamesMembership(menu.recipes, x);
  }

  lemma MenuNamesStep(recipes: seq<Recipe>, i: nat)
    requires i < |recipes|
    ensures MenuIngredientNames(recipes[..i + 1]) ==
            MenuIngredientNames(recipes[..i]) + IngredientNames(recipes[i].ingredients[..|recipes[i].ingredients|])
  {
    assert recipes[..i + 1][..i] == recipes[..i];
    assert recipes[i].ingredients[..|recipes[i].ingredients|] == recipes[i].ingredients;
  }

  lemma CountStart(done: seq<string>, ings: seq<Ingredient>)
    ensures CountNames(done + IngredientNames(ings[..0])) == CountNames(done)
  {
    assert done + IngredientNames(ings[..0]) == done;
  }

  lemma CountStep(done: seq<string>, ings: seq<Ingredient>, j: nat)
    requires j < |ings|
    ensures CountNames(done + IngredientNames(ings[..j + 1])) ==
            Increment(CountNames(done + IngredientNames(ings[..j])), ings[j].name)
  {
    assert ings[..j + 1][..j] == ings[..j];
    var s := done + IngredientNames(ings[..j + 1]);
    assert s[..|s| - 1] == done + IngredientNames(ings[..j]);
  }

  lemma TwiceNames(recipes: seq<Recipe>, r: Recipe)
    requires |recipes| == 2 && recipes[0] == r && recipes[1] == r
    ensures MenuIngredientNames(recipes) == IngredientNames(r.ingredients) + IngredientNames(r.ingredients)
  {
    assert recipes[..1] == [r] && [r][..0] == [] && recipes[..1][..0] == [];
    assert MenuIngredientNames([r]) == IngredientNames(r.ingredients);
  }

  lemma PastaNames(ings: seq<Ingredient>)
    requires |ings| == 2 && ings[0].name == "Macarrão" && ings[1].name == "Molho"
    ensures IngredientNames(ings) == ["Macarrão", "Molho"]
  {
    assert ings[..1][..0] == [];
    assert IngredientNames(ings[..1]) == ["Macarrão"];
  }

  lemma DoubledPastaCounts()
    ensures CountNames(["Macarrão", "Molho"] + ["Macarrão", "Molho"]) == map["Macarrão" := 2, "Molho" := 2]
  {
    var names := ["Macarrão", "Molho"] + ["Macarrão", "Molho"];
    assert names[..3][..2] == names[..2] && names[..2][..1] == names[..1] && names[..1][..0] == [];
    assert CountNames(names[..1]) == map["Macarrão" := 1];
    assert CountNames(names[..2]) == map["Macarrão" := 1, "Molho" := 1];
    assert CountNames(names[..3]) == map["Macarrão" := 2, "Molho" := 1];
  }

  /** A menu holding the same recipe of "Macarrão" and "Molho" twice needs two of each. */
  method DuplicateRecipeExample() returns (counts: map<string, int>)
    ensures counts == map["Macarrão" := 2, "Molho" := 2]
  {
    var r := new Recipe("Macarrão");
    r.AddIngredient(Ingredient("Macarrão", 200, 3.0));
    r.AddIngredient(Ingredient("Molho", 50, 2.0));
    PastaNames(r.ingredients);
    var menu := new Menu("Jantar");
    menu.AddRecipe(r);
    menu.AddRecipe(r);
    TwiceNames(menu.recipes, r);
    DoubledPastaCounts();
    var g := GroceryList.GenerateFromMenu(menu);
    counts := g.items;
  }

  /** An empty menu needs nothing. */
  method EmptyMenuExample() returns (counts: map<string, int>)
    ensures counts == map[]
  {
    var menu := new Menu("Vazio");
    var g := GroceryList.GenerateFromMenu(menu);
    counts := g.items;
  }
}
