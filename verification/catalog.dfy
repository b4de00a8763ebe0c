/** The category filter of the catalog (script.js:118-123, app.js:215-220):
    choosing a category shows the catalog groups of that category, or every
    group for `"all"`, and hides the rest. */
module Catalog {

  /** Whether a group of category `category` is displayed for `selected`. */
  predicate Visible(selected: string, category: string)
    ensures category == selected ==> Visible(selected, category)
    ensures Visible(selected, category) && category != selected ==> selected == "all"
  {
    selected == "all" || category == selected
  }

  /** `handleCategoryChange`: set each group's `display` flag in turn. */
  method HandleCategoryChange(selected: string, categories: seq<string>, display: array<bool>)
    requires display.Length == |categories|
    modifies display
    ensures forall i :: 0 <= i < display.Length ==> display[i] == Visible(selected, categories[i])
  {
    var i := 0;
    while i < display.Length
      invariant 0 <= i <= display.Length
      invariant forall j :: 0 <= j < i ==> display[j] == Visible(selected, categories[j])
    {
      display[i] := selected == "all" || categories[i] == selected;
      i := i + 1;
    }
  }

  /** Selecting `"all"` shows every group. */
  lemma AllShowsEverything(categories: seq<string>)
    ensures forall i :: 0 <= i < |categories| ==> Visible("all", categories[i])
  {
  }

  /** Any other selection shows exactly the groups of that category. */
  lemma SelectionShowsOnlyMatches(selected: string, categories: seq<string>)
    requires selected != "all"
    ensures forall i :: 0 <= i < |categories| ==> (Visible(selected, categories[i]) <==> categories[i] == selected)
  {
  }
}
