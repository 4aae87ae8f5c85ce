/**
 * The category page `/category/:category`: the title is the URL segment
 * with its first letter capitalised, and the games listed are those of
 * that category, compared ignoring case.
 */
module CategoryPage {
  import opened Wrappers
  import opened Text
  import opened GameService

  /** `s.charAt(0).toUpperCase() + s.slice(1)` */
  function Capitalize(s: string): (r: string)
    ensures |r| == |s|
    ensures s != [] ==> r[0] == UpperChar(s[0]) && r[1..] == s[1..]
  {
    if s == [] then [] else [UpperChar(s[0])] + s[1..]
  }

  /** Capitalising an already capitalised name leaves it as it is. */
  lemma CapitalizeIdempotent(s: string)
    ensures Capitalize(Capitalize(s)) == Capitalize(s)
  {
  }

  /** Capitalising does not change what a string lowers to. */
  lemma LowerOfCapitalize(s: string)
    ensures Lower(Capitalize(s)) == Lower(s)
  {
    var c := Capitalize(s);
    assert forall i :: 0 <= i < |s| ==> LowerChar(c[i]) == LowerChar(s[i]) by {
      forall i | 0 <= i < |s| ensures LowerChar(c[i]) == LowerChar(s[i]) {
        if i > 0 {
          assert c[i] == c[1..][i - 1] == s[1..][i - 1] == s[i];
        }
      }
    }
  }

  /** `categoryTitle`: the capitalised segment, or `'Category'` when the segment is absent or empty. */
  function CategoryTitle(category: Option<string>): (title: string)
    ensures category.None? || category == Some("") ==> title == "Category"
    ensures category.Some? && category.value != "" ==> title == Capitalize(category.value) && |title| == |category.value|
  {
    if category.Some? && category.value != "" then Capitalize(category.value) else "Category"
  }

  /** `document.title` once the games have loaded. */
  function DocumentTitle(formattedCategory: string): (title: string)
    ensures |title| == |formattedCategory| + |" Games - GameVoyage"|
    ensures title[..|formattedCategory|] == formattedCategory
    ensures title[|formattedCategory|..] == " Games - GameVoyage"
  {
    formattedCategory + " Games - GameVoyage"
  }

  /** The games shown do not depend on how the URL segment is capitalised. */
  lemma ShownGamesIgnoreCapitalisation(games: seq<Game>, category: string)
    ensures GetGamesByCategory(games, Capitalize(category)) == GetGamesByCategory(games, category)
  {
    LowerOfCapitalize(category);
    CategoryCaseInsensitive(games, Capitalize(category), category);
  }

  class CategoryPage {
    var games: seq<Game>
    var loading: bool
    /** The browser's `document.title`, which the page sets. */
    var documentTitle: string

    constructor(initialTitle: string)
      ensures games == [] && loading && documentTitle == initialTitle
    {
      games := [];
      loading := true;
      documentTitle := initialTitle;
    }

    /**
     * `fetchGames`: nothing happens without a category; otherwise the games
     * of the capitalised category are loaded from `table` and the document
     * title is set.
     */
    method FetchGames(category: Option<string>, table: seq<Game>)
      modifies this
      ensures category.None? || category == Some("") ==>
        games == old(games) && loading == old(loading) && documentTitle == old(documentTitle)
      ensures category.Some? && category.value != "" ==>
        var formatted := Capitalize(category.value);
        && games == GetGamesByCategory(table, category.value)
        && documentTitle == DocumentTitle(formatted)
        && !loading
    {
      if category.None? || category.value == "" {
        return;
      }
      loading := true;
      var formatted := Capitalize(category.value);
      games := GetGamesByCategory(table, formatted);
      ShownGamesIgnoreCapitalisation(table, category.value);
      documentTitle := DocumentTitle(formatted);
      loading := false;
    }
  }
}
