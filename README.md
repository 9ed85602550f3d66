# Meal planner — a verified Dafny model

This project models the in-memory domain logic of a small console meal-planning
application. A user has an insertion-ordered list of distinct taste preferences.
Recipes carry tags and ingredients, and each ingredient has calories. The session's
catalog (`DataStore`) holds every registered recipe. The `MealPlanner` suggests recipes
that satisfy all of the user's preferences. A `Menu` collects recipes, and a
`GroceryList` counts how often each ingredient name occurs across a menu. The
`NutritionCalculator` reports a recipe's total calories.

Modules, grouped by component of `ConsoleApp1/Program.cs`:

- `Sequences` (`sequences.dfy`): the .NET helpers the logic relies on. These are
  ordinal `String.Contains`, `Enumerable.Take`, and the subsequence relation used to
  say "in catalog order".
- `Recipes` (`recipes.dfy`): `Ingredient` as a value, `Recipe` as a class, and
  checked `int` summation of calories. `Enumerable.Sum` over `int` throws
  `OverflowException`; the model returns `Overflow` instead. Also `NutritionCalculator`.
- `Users` (`users.dfy`): `User` and its deduplicating `AddPreference`.
- `Menus` (`menus.dfy`): `Menu`.
- `Grocery` (`grocery.dfy`): `GroceryList` with its name→count dictionary as a public
  `map` field, `AddItem`, and the nested loops of `GenerateFromMenu`.
- `Planner` (`planner.dfy`): `DataStore`, the by-name `FirstOrDefault` lookup used by
  the console, and `MealPlanner.SuggestRecipes`.

Objects whose lists the source mutates in place (`Recipe`, `User`, `Menu`,
`GroceryList`, `DataStore`) are classes. Their `List<T>` fields become `seq` fields
that the methods reassign. `Dictionary<string, int>` becomes a `map`. Recipes are
shared by reference between the catalog and menus, as in the source.

Three behaviours of the code that the model keeps:

- The preferences are a list, in insertion order, without duplicates.
- `Take` returns nothing for any suggestion count ≤ 0.
- The checked `Sum` of calories throws `OverflowException` when a running total leaves
  the 32-bit range. The model returns `Overflow` there.

## Model

| member | source | states |
|---|---|---|
| `Sequences.Take` | ConsoleApp1/Program.cs:195 | `Take(count)` is a prefix of its input. Its length is 0 for count ≤ 0, otherwise min(count, length). |
| `Sequences.ContainsOrdinal` | ConsoleApp1/Program.cs:191 | Ordinal `String.Contains`: `sub` occurs at some position of `s`. `EmptyIsContained` and `TagExactIngredientSubstring` pin its behaviour. |
| `Sequences.EmptyIsContained` | ConsoleApp1/Program.cs:191 | The ordinal substring test accepts the empty string in every name, so an empty preference matches any recipe with an ingredient. |
| `Sequences.PrefixOfSubsequence` | ConsoleApp1/Program.cs:195 | Truncating a subsequence of the catalog leaves a subsequence of the catalog. |
| `Recipes.Recipe.constructor` | ConsoleApp1/Program.cs:205 | A new recipe has the given name and no tags or ingredients. |
| `Recipes.Ingredient` | ConsoleApp1/Program.cs:217-229 | An ingredient as a value: name, calories as a 32-bit `int`, and environmental impact score. |
| `Recipes.Recipe.AddIngredient` | ConsoleApp1/Program.cs:207 | Appends exactly one ingredient at the end. Name and tags are unchanged. |
| `Recipes.Recipe.AddTag` | ConsoleApp1/Program.cs:74 | `Tags.Add` appends exactly one tag at the end. Name and ingredients are unchanged. |
| `Recipes.Recipe.GetCalories` | ConsoleApp1/Program.cs:208 | The calorie total is the sum of the ingredients' calories. It overflows exactly when some running total leaves the `int` range. An empty recipe gives 0. |
| `Recipes.CheckedSum` | ConsoleApp1/Program.cs:208 | `Enumerable.Sum` over `int`: adds from the front in checked arithmetic and yields `Overflow` where it would throw. `CheckedSumMeaning` characterises it. |
| `Recipes.CheckedSumMeaning` | ConsoleApp1/Program.cs:208 | The checked front-to-back sum either equals the mathematical sum or overflows. It overflows iff a running total leaves the `int` range. |
| `Recipes.NonNegativeCheckedSum` | ConsoleApp1/Program.cs:208 | With non-negative calories, the sum overflows iff the total exceeds 2^31-1. Otherwise it is the exact total. |
| `Recipes.NonNegativeSum` | ConsoleApp1/Program.cs:208 | Non-negative calories give a non-negative total. |
| `Recipes.SumCaloriesConcat` | ConsoleApp1/Program.cs:208 | The total of two ingredient lists joined is the sum of their totals. |
| `Recipes.SumCaloriesAppend` | ConsoleApp1/Program.cs:207-208 | Adding an ingredient raises the total by exactly that ingredient's calories. |
| `Recipes.NutritionCalculator.CalculateCalories` | ConsoleApp1/Program.cs:280 | Returns the same value as the recipe's own `GetCalories`, i.e. the sum of its calories. |
| `Recipes.TwoIngredientTotal` | Tests/ConsoleApp1.Tests/AllTests.cs:38-45 | Two ingredients of small non-negative calories x and y total x+y without overflow. |
| `Recipes.SaladCaloriesExample` | Tests/ConsoleApp1.Tests/AllTests.cs:38-45 | Ingredients of 20 and 5 calories give `Total(25)`. |
| `Recipes.CalculatorExample` | Tests/ConsoleApp1.Tests/AllTests.cs:198-207 | Through the calculator, ingredients of 10 and 20 calories give `Total(30)`. |
| `Users.WithPreference` | ConsoleApp1/Program.cs:237-240 | The added preference is present. A present preference leaves the list unchanged; otherwise it is appended. No other string is added. Distinctness is preserved. |
| `Users.User.constructor` | ConsoleApp1/Program.cs:236 | A new user has the given name and no preferences. |
| `Users.User.AddPreference` | ConsoleApp1/Program.cs:237-240 | The new list is `WithPreference(old list, p)`. A duplicate-free list stays duplicate-free. The name is unchanged. |
| `Users.WithPreferenceIdempotent` | ConsoleApp1/Program.cs:239 | Adding the same preference twice gives the same list as adding it once. |
| `Users.AddAllDistinct` | ConsoleApp1/Program.cs:237-240 | Any sequence of additions keeps a duplicate-free list duplicate-free. |
| `Users.AddAllMembership` | ConsoleApp1/Program.cs:237-240 | After any sequence of additions, a string is in the list iff it was there initially or was added. |
| `Users.AddTwiceExample` | Tests/ConsoleApp1.Tests/AllTests.cs:76-84 | Adding "vegano" twice leaves the single preference `["vegano"]`. |
| `Menus.Menu.constructor` | ConsoleApp1/Program.cs:248 | A new menu has the given title and no recipes. |
| `Menus.Menu.AddRecipe` | ConsoleApp1/Program.cs:249 | Appends exactly one recipe at the end. The title is unchanged. |
| `Grocery.IngredientNamesAt` | ConsoleApp1/Program.cs:266-267 | The i-th name visited is the name of the i-th ingredient. |
| `Grocery.MenuIngredientNamesMembership` | ConsoleApp1/Program.cs:265-267 | A name is visited iff some ingredient of some recipe of the menu has it. |
| `Grocery.MenuIngredientNamesAppend` | ConsoleApp1/Program.cs:265-267 | A recipe appended to a menu adds its names to the multiset once more, so a repeated recipe counts each time. |
| `Grocery.IncrementMeaning` | ConsoleApp1/Program.cs:256-260 | `AddItem` raises the name's count by 1, or sets it to 1 if absent. Every other key and its count is unchanged. |
| `Grocery.IncrementTallies` | ConsoleApp1/Program.cs:256-260 | If the dictionary counts a multiset, then after `AddItem(name)` it counts that multiset plus one `name`. |
| `Grocery.CountNamesTallies` | ConsoleApp1/Program.cs:262-269 | Adding names one by one to an empty list yields exactly the multiset count of those names. |
| `Grocery.TalliesShape` | ConsoleApp1/Program.cs:262-269 | A tally's keys are exactly the bag's names and every count is ≥ 1. The tally is empty iff the bag is. |
| `Grocery.TalliesUnique` | ConsoleApp1/Program.cs:262-269 | The multiset alone determines the counts, so visiting order does not matter. |
| `Grocery.GroceryList.constructor` | ConsoleApp1/Program.cs:254 | A new list has no items. |
| `Grocery.GroceryList.AddItem` | ConsoleApp1/Program.cs:256-260 | The dictionary becomes `Increment(old dictionary, name)`. |
| `Grocery.Increment` | ConsoleApp1/Program.cs:258-259 | The dictionary update of `AddItem`: the name's count plus one, or 1 when absent. `IncrementMeaning` and `IncrementTallies` characterise it. |
| `Grocery.GroceryList.GenerateFromMenu` | ConsoleApp1/Program.cs:262-269 | Returns a fresh list. Its counts come from adding every ingredient name of every menu recipe in order, and they equal the multiset count of those names. |
| `Grocery.GroceryKeys` | ConsoleApp1/Program.cs:262-269 | The generated list's keys are exactly the names of the ingredients of some recipe of the menu, and each count is ≥ 1. |
| `Grocery.TwiceNames` | Tests/ConsoleApp1.Tests/AllTests.cs:163-165 | A menu with one recipe twice visits that recipe's names twice. |
| `Grocery.PastaNames` | Tests/ConsoleApp1.Tests/AllTests.cs:159-161 | The recipe's ingredient names are "Macarrão" then "Molho". |
| `Grocery.DoubledPastaCounts` | Tests/ConsoleApp1.Tests/AllTests.cs:175-176 | Counting "Macarrão", "Molho" twice gives 2 of each. |
| `Grocery.DuplicateRecipeExample` | Tests/ConsoleApp1.Tests/AllTests.cs:157-177 | A menu with the same two-ingredient recipe twice yields `{"Macarrão": 2, "Molho": 2}`. |
| `Grocery.EmptyMenuExample` | Tests/ConsoleApp1.Tests/AllTests.cs:180-191 | An empty menu yields an empty dictionary. |
| `Planner.DataStore.constructor` | ConsoleApp1/Program.cs:290 | A new catalog is empty. |
| `Planner.DataStore.AddRecipe` | ConsoleApp1/Program.cs:93 | `Recipes.Add` appends exactly one recipe to the catalog. |
| `Planner.FindByName` | ConsoleApp1/Program.cs:149-151 | `FirstOrDefault(x => x.Name == n)` over the catalog, used also at Program.cs:133 and 162: the first recipe with that name, or `None`. `FindByNameMeaning` characterises it. |
| `Planner.Satisfies` | ConsoleApp1/Program.cs:190-191 | The `Where` predicate for one preference: a tag equal to it, or an ingredient name containing it. `TagExactIngredientSubstring` shows the difference. |
| `Planner.Where` | ConsoleApp1/Program.cs:189-192 | `candidates.Where(...)` for one preference, in order. `WhereConcat` and `WhereMatching` characterise it. |
| `Planner.FindByNameMeaning` | ConsoleApp1/Program.cs:149-151 | The lookup returns none iff no catalog recipe has the name. Otherwise it returns the recipe at the first position with that name. |
| `Planner.SatisfiesAllAppend` | ConsoleApp1/Program.cs:187-192 | A recipe passes preferences p plus q iff it passes all of p and also q. |
| `Planner.WhereConcat` | ConsoleApp1/Program.cs:189-192 | One preference's `Where` filter distributes over concatenation. |
| `Planner.WhereMatching` | ConsoleApp1/Program.cs:187-193 | Filtering the candidates of the preferences seen so far by one more preference gives the candidates of all of them, so chained `Where` calls form a conjunction. |
| `Planner.MatchingNoPreferences` | ConsoleApp1/Program.cs:185-187 | With no preferences every catalog recipe is a candidate. |
| `Planner.MatchingMeaning` | ConsoleApp1/Program.cs:187-193 | The candidates are a subsequence of the catalog and each satisfies every preference. Every catalog recipe that satisfies them all is a candidate. |
| `Planner.SuggestionMeaning` | ConsoleApp1/Program.cs:195 | The suggestion is a subsequence of the catalog, and every recipe in it satisfies every preference. Its length is min(max(0, count), number of candidates). |
| `Planner.MealPlanner.constructor` | ConsoleApp1/Program.cs:178-181 | The planner reads the given catalog. |
| `Planner.MealPlanner.SuggestRecipes` | ConsoleApp1/Program.cs:183-196 | The result is the first `count` of the recipes that satisfy every preference, in catalog order. It is a subsequence of the catalog of length ≤ max(0, count). With no preferences it is the catalog's first `count` recipes. |
| `Planner.TagExactIngredientSubstring` | ConsoleApp1/Program.cs:190-191 | Tags must equal the preference ("vegano light" fails "vegano"). Ingredient names need only contain it ("Tofu vegano" passes). |
| `Planner.OnlyFirstMatches` | Tests/ConsoleApp1.Tests/AllTests.cs:115-118 | In a two-recipe catalog where only the first passes, the candidates are that first recipe alone. |
| `Planner.TagCatalog` | Tests/ConsoleApp1.Tests/AllTests.cs:100-118 | Of a recipe tagged "vegano" and one tagged "carne" without ingredients, the preference "vegano" and any count ≥ 1 suggest only the first. |
| `Planner.MatchingTagExample` | Tests/ConsoleApp1.Tests/AllTests.cs:98-119 | Recipes tagged "vegano" and "carne", with the preference "vegano" and count 10, suggest only "Vegano". |
| `Planner.NoPreferencesExample` | Tests/ConsoleApp1.Tests/AllTests.cs:122-134 | With no preferences and count 10, both catalog recipes are suggested, in order. |

## Left out

- `Recipe.GetSustainabilityScore` and `SustainabilityCalculator.CalculateScore` are not modelled. They average `double` scores, which is floating point, and `Average` throws on an empty recipe. `Ingredient.impactScore` is kept only as data.
- `Recipe.ToString` and `GroceryList.PrintList` are display formatting to the console. Dictionary enumeration order is unspecified.
- `DataStore.Save` and `Notification.SendEmail` only print to the console.
- `Main`, the menu loop and the console handlers are left out: console I/O and `int.Parse`/`double.Parse` of user text. From them the model keeps the by-name lookup, `Tags.Add` (`Recipe.AddTag`) and `Recipes.Add` (`DataStore.AddRecipe`).
- `Ingredient` is a value. Its property setters are not modelled, so changing an ingredient after it was added to a recipe (aliasing) is not captured.
- `Grocery.GroceryList.AddItem`: counts are unbounded integers. The source's unchecked `int` increment would wrap after 2^31-1 occurrences of one name.
- `Users.User.AddPreference`: preserves distinctness for a list that was already distinct. The source's `Preferences` list is public and can be extended directly without the duplicate check, so this is not a class invariant.
- `Planner.MealPlanner.SuggestRecipes`: LINQ's deferred execution is modelled by its eager meaning. The catalog and recipes do not change between building the query and `ToList`, so the result is the same. Each `Where` gets its own preference, as C# 5+ `foreach` variables do.
- Recipe, user and menu names have public setters in the source. In the model they are plain mutable fields.
