/**
 * The recipe catalog (DataStore), the by-name lookup the console uses on it,
 * and the MealPlanner's preference filter.
 */
module Planner {
  import opened Sequences
  import opened Recipes
  import opened Users

  datatype Option<T> = None | Some(value: T)

  /** The catalog of every recipe registered in the session, in registration order. */
  class DataStore {
    var recipes: seq<Recipe>

    constructor ()
      ensures recipes == []
    {
      recipes := [];
    }

    method AddRecipe(r: Recipe)
      modifies this
      ensures recipes == old(recipes) + [r]
    {
      recipes := recipes + [r];
    }
  }

  /** The first recipe whose name equals `name`, or None: FirstOrDefault(x => x.Name == name). */
  function FindByName(recipes: seq<Recipe>, name: string): Option<Recipe>
    reads recipes
  {
    if recipes == [] then None
    else if recipes[0].name == name then Some(recipes[0])
    else FindByName(recipes[1..], name)
  }

  /** The lookup fails exactly when no recipe has the name, and otherwise returns the
      recipe at the first position holding that name. */
  lemma {:induction false} FindByNameMeaning(recipes: seq<Recipe>, name: string)
    ensures FindByName(recipes, name).None? <==> forall i | 0 <= i < |recipes| :: recipes[i].name != name
    ensures FindByName(recipes, name).Some? ==>
      exists i | 0 <= i < |recipes| :: recipes[i] == FindByName(recipes, name).value
        && recipes[i].name == name
        && forall j | 0 <= j < i :: recipes[j].name != name
  {
    if recipes != [] && recipes[0].name != name {
      var rest := recipes[1..];
      FindByNameMeaning(rest, name);
      if FindByName(rest, name).Some? {
        var i :| 0 <= i < |rest| && rest[i] == FindByName(rest, name).value
          && rest[i].name == name && forall j | 0 <= j < i :: rest[j].name != name;
        assert recipes[i + 1] == rest[i];
        forall j | 0 <= j < i + 1
          ensures recipes[j].name != name
        {
          if j > 0 {
            assert recipes[j] == rest[j - 1];
          }
        }
      } else {
        forall i | 0 <= i < |recipes|
          ensures recipes[i].name != name
        {
          if i > 0 {
            assert recipes[i] == rest[i - 1];
          }
        }
      }
    } else if recipes != [] {
      assert recipes[0] == FindByName(recipes, name).value;
    }
  }

  /** The test each Where applies for one preference: a tag equal to it, or an
      ingredient whose name contains it as an ordinal substring. */
  predicate Satisfies(r: Recipe, pref: string)
    reads r
  {
    pref in r.tags || exists i | 0 <= i < |r.ingredients| :: ContainsOrdinal(r.ingredients[i].name, pref)
  }

  /** The recipe passes the test of every preference. */
  predicate SatisfiesAll(r: Recipe, prefs: seq<string>)
    reads r
  {
    forall k | 0 <= k < |prefs| :: Satisfies(r, prefs[k])
  }

  /** candidates.Where(...) for one preference, evaluated eagerly. */
  function Where(candidates: seq<Recipe>, pref: string): seq<Recipe>
    reads candidates
  {
    if candidates == [] then []
    else (if Satisfies(candidates[0], pref) then [candidates[0]] else []) + Where(candidates[1..], pref)
  }

  /** The reference meaning of the suggestion filter: the catalog's recipes that satisfy every
      preference, in catalog order, computed in a single pass. */
  function Matching(catalog: seq<Recipe>, prefs: seq<string>): seq<Recipe>
    reads catalog
  {
    if catalog == [] then []
    else (if SatisfiesAll(catalog[0], prefs) then [catalog[0]] else []) + Matching(catalog[1..], prefs)
  }

  lemma {:induction false} WhereConcat(a: seq<Recipe>, b: seq<Recipe>, pref: string)
    ensures Where(a + b, pref) == Where(a, pref) + Where(b, pref)
  {
    if a == [] {
      assert a + b == b;
    } else {
      assert (a + b)[1..] == a[1..] + b;
      WhereConcat(a[1..], b, pref);
    }
  }

  lemma SatisfiesAllAppend(r: Recipe, prefs: seq<string>, pref: string)
    ensures SatisfiesAll(r, prefs + [pref]) <==> SatisfiesAll(r, prefs) && Satisfies(r, pref)
  {
    if SatisfiesAll(r, prefs) && Satisfies(r, pref) {
      forall k | 0 <= k < |prefs + [pref]|
        ensures Satisfies(r, (prefs + [pref])[k])
      {
        if k < |prefs| {
          assert (prefs + [pref])[k] == prefs[k];
        }
      }
    }
    if SatisfiesAll(r, prefs + [pref]) {
      assert Satisfies(r, (prefs + [pref])[|prefs|]);
      forall k | 0 <= k < |prefs|
        ensures Satisfies(r, prefs[k])
      {
        assert (prefs + [pref])[k] == prefs[k];
      }
    }
  }

  /** Filtering the candidates of the preferences seen so far by one more preference gives the
      candidates of all of them: the chained Where calls combine the preferences as a conjunction. */
  lemma {:induction false} WhereMatching(catalog: seq<Recipe>, prefs: seq<string>, pref: string)
    ensures Where(Matching(catalog, prefs), pref) == Matching(catalog, prefs + [pref])
  {
    if catalog != [] {
      var head := if SatisfiesAll(catalog[0], prefs) then [catalog[0]] else [];
      WhereConcat(head, Matching(catalog[1..], prefs), pref);
      WhereMatching(catalog[1..], prefs, pref);
      SatisfiesAllAppend(catalog[0], prefs, pref);
      if head != [] {
        assert head[1..] == [];
      }
    }
  }

  /** With no preferences every recipe is a candidate. */
  lemma {:induction false} MatchingNoPreferences(catalog: seq<Recipe>)
    ensures Matching(catalog, []) == catalog
  {
    if catalog != [] {
      MatchingNoPreferences(catalog[1..]);
    }
  }

  /** The candidates are a subsequence of the catalog, every one satisfies every preference,
      and every catalog recipe that satisfies them all is a candidate. */
  lemma {:induction false} MatchingMeaning(catalog: seq<Recipe>, prefs: seq<string>)
    ensures IsSubsequence(Matching(catalog, prefs), catalog)
    ensures forall r | r in Matching(catalog, prefs) :: SatisfiesAll(r, prefs)
    ensures forall i | 0 <= i < |catalog| && SatisfiesAll(catalog[i], prefs) :: catalog[i] in Matching(catalog, prefs)
  {
    if catalog != [] {
      var rest := catalog[1..];
      MatchingMeaning(rest, prefs);
      var m := Matching(catalog, prefs);
      if SatisfiesAll(catalog[0], prefs) {
        assert m == [catalog[0]] + Matching(rest, prefs);
        assert m[0] == catalog[0] && m[1..] == Matching(rest, prefs);
      } else {
        assert m == Matching(rest, prefs);
        SubsequenceOfTail(m, catalog);
      }
      forall i | 0 <= i < |catalog| && SatisfiesAll(catalog[i], prefs)
        ensures catalog[i] in m
      {
        if i > 0 {
          assert catalog[i] == rest[i - 1];
        }
      }
    }
  }

  /** What SuggestRecipes returns: the first `count` candidates, none when `count` is not positive. */
  lemma SuggestionMeaning(catalog: seq<Recipe>, prefs: seq<string>, count: int)
    ensures var s := Take(Matching(catalog, prefs), count);
      && IsSubsequence(s, catalog)
      && (forall r | r in s :: SatisfiesAll(r, prefs))
      && |s| == (if count <= 0 then 0 else if count < |Matching(catalog, prefs)| then count else |Matching(catalog, prefs)|)
  {
    var m := Matching(catalog, prefs);
    MatchingMeaning(catalog, prefs);
    var s := Take(m, count);
    PrefixOfSubsequence(m, |s|, catalog);
    assert forall r | r in s :: r in m;
  }

  class MealPlanner {
    const store: DataStore

    constructor (store: DataStore)
      ensures this.store == store
    {
      this.store := store;
    }

    /** Narrows the catalog by each of the user's preferences in turn, then keeps the first `count`. */
    method SuggestRecipes(user: User, count: int) returns (result: seq<Recipe>)
      ensures result == Take(Matching(store.recipes, user.preferences), count)
      ensures IsSubsequence(result, store.recipes)
      ensures forall r | r in result :: SatisfiesAll(r, user.preferences)
      ensures |result| <= if count <= 0 then 0 else count
      ensures user.preferences == [] ==> result == Take(store.recipes, count)
    {
      var candidates := store.recipes;
      var prefs := user.preferences;
      MatchingNoPreferences(store.recipes);
      assert prefs[..0] == [];
      var i := 0;
      while i < |prefs|
        invariant 0 <= i <= |prefs|
        invariant candidates == Matching(store.recipes, prefs[..i])
      {
        var pref := prefs[i];
        WhereMatching(store.recipes, prefs[..i], pref);
        assert prefs[..i + 1] == prefs[..i] + [pref];
        candidates := Where(candidates, pref);
        i := i + 1;
      }
      assert prefs[..i] == prefs;
      result := Take(candidates, count);
      SuggestionMeaning(store.recipes, prefs, count);
    }
  }

  /** Tags match only exactly, ingredient names by substring: a recipe tagged "vegano light"
      fails the preference "vegano", one with the ingredient "Tofu vegano" passes it. */
  lemma TagExactIngredientSubstring(tagged: Recipe, stocked: Recipe)
    requires tagged.tags == ["vegano light"] && tagged.ingredients == []
    requires |stocked.ingredients| == 1 && stocked.ingredients[0].name == "Tofu vegano"
    ensures !Satisfies(tagged, "vegano")
    ensures Satisfies(stocked, "vegano")
  {
    assert OccursAt(stocked.ingredients[0].name, "vegano", 5);
  }

  lemma OnlyFirstMatches(catalog: seq<Recipe>, prefs: seq<string>)
    requires |catalog| == 2 && SatisfiesAll(catalog[0], prefs) && !SatisfiesAll(catalog[1], prefs)
    ensures Matching(catalog, prefs) == [catalog[0]]
  {
    assert catalog[1..][1..] == [];
    assert catalog[1..][0] == catalog[1];
    assert Matching(catalog[1..], prefs) == [];
  }

  /** Of a recipe tagged "vegano" and one tagged "carne" without ingredients, only the first
      passes the preference "vegano", so it is the only one suggested. */
  lemma TagCatalog(catalog: seq<Recipe>, prefs: seq<string>, count: int)
    requires |catalog| == 2 && catalog[0].tags == ["vegano"]
    requires catalog[1].tags == ["carne"] && catalog[1].ingredients == []
    requires prefs == ["vegano"] && count >= 1
    ensures Take(Matching(catalog, prefs), count) == [catalog[0]]
  {
    assert "vegano" in catalog[0].tags && "vegano" !in catalog[1].tags;
    assert !Satisfies(catalog[1], prefs[0]);
    OnlyFirstMatches(catalog, prefs);
  }

  /** A catalog of a recipe tagged "vegano" and one tagged "carne", filtered by the preference
      "vegano", suggests only the first. */
  method MatchingTagExample() returns (result: seq<Recipe>)
    ensures |result| == 1 && result[0].name == "Vegano"
  {
    var r1 := new Recipe("Vegano");
    r1.AddTag("vegano");
    var r2 := new Recipe("Carne");
    r2.AddTag("carne");
    var user := new User("Lucas");
    user.AddPreference("vegano");
    var store := new DataStore();
    store.AddRecipe(r1);
    store.AddRecipe(r2);
    var planner := new MealPlanner(store);
    result := planner.SuggestRecipes(user, 10);
    TagCatalog(store.recipes, user.preferences, 10);
  }

  /** Without preferences the whole catalog of two recipes is suggested. */
  method NoPreferencesExample() returns (result: seq<Recipe>)
    ensures |result| == 2 && result[0].name == "A" && result[1].name == "B"
  {
    var store := new DataStore();
    var a := new Recipe("A");
    var b := new Recipe("B");
    store.AddRecipe(a);
    store.AddRecipe(b);
    var planner := new MealPlanner(store);
    var user := new User("Maria");
    result := planner.SuggestRecipes(user, 10);
  }
}
