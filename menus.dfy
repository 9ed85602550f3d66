/**
 * A menu: a title and the recipes chosen for it, referenced rather than owned.
 */
module Menus {
  import opened Recipes

  class Menu {
    var title: string
    var recipes: seq<Recipe>

    constructor (title: string)
      ensures this.title == title && recipes == []
    {
      this.title := title;
      recipes := [];
    }

    /** Appends a recipe; the same recipe may be added more than once. */
    method AddRecipe(r: Recipe)
      modifies this
      ensures recipes == old(recipes) + [r]
      ensures title == old(title)
    {
      recipes := recipes + [r];
    }
  }
}
