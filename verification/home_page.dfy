/**
 * The home page: the popular games, the list of categories with a count
 * of games in each, the newest releases and the best rated games, four of
 * each. The newest and best-rated sections sort the page's `allGames`
 * array in place.
 */
module HomePage {
  import opened Wrappers
  import opened Text
  import opened Seqs
  import opened GameService
  import CategoryPage

  /** Each section of the page shows at most this many games. */
  const SectionSize: nat := 4

  /** `games.map(game => game.category)` */
  function CategoriesOf(games: seq<Game>): (r: seq<string>)
    ensures |r| == |games|
    ensures forall i :: 0 <= i < |games| ==> r[i] == games[i].category
  {
    seq(|games|, i requires 0 <= i < |games| => games[i].category)
  }

  /** `[...new Set(games.map(game => game.category))]` */
  function UniqueCategories(games: seq<Game>): (r: seq<string>)
    ensures Distinct(r)
    ensures forall i :: 0 <= i < |games| ==> games[i].category in r
    ensures forall c :: c in r ==> exists j :: 0 <= j < |games| && games[j].category == c
  {
    var cats := CategoriesOf(games);
    var r := Dedup(cats);
    assert forall c :: c in r ==> exists j :: 0 <= j < |games| && games[j].category == c by {
      forall c | c in r ensures exists j :: 0 <= j < |games| && games[j].category == c {
        var j :| 0 <= j < |cats| && cats[j] == c;
      }
    }
    r
  }

  /** Categories are listed in the order of their first appearance in the game list. */
  lemma CategoriesInFirstAppearanceOrder(games: seq<Game>)
    ensures var cats, r := CategoriesOf(games), UniqueCategories(games);
      forall i, j :: 0 <= i < j < |r| ==> IndexOf(cats, r[i]) < IndexOf(cats, r[j])
  {
    DedupFirstAppearance(CategoriesOf(games));
  }

  /** `allGames.filter(game => game.category === category).length` */
  function CategoryCount(games: seq<Game>, category: string): nat {
    |Filter(games, (g: Game) => g.category == category)|
  }

  /** A category's count is the number of games listed under it. */
  lemma {:induction false} CategoryCountIsOccurrences(games: seq<Game>, category: string)
    ensures CategoryCount(games, category) == multiset(CategoriesOf(games))[category]
  {
    if games != [] {
      var p, g := games[..|games| - 1], games[|games| - 1];
      assert games == p + [g];
      CategoryCountIsOccurrences(p, category);
      CountAppend(p, g, category);
      assert CategoriesOf(games) == CategoriesOf(p) + [g.category];
    }
  }

  /** The counts shown beside `cats`, added up. */
  function SumOfCounts(games: seq<Game>, cats: seq<string>): nat {
    if cats == [] then 0 else CategoryCount(games, cats[0]) + SumOfCounts(games, cats[1..])
  }

  lemma CountAppend(games: seq<Game>, g: Game, category: string)
    ensures CategoryCount(games + [g], category) == CategoryCount(games, category) + (if g.category == category then 1 else 0)
  {
    FilterAppend(games, g, (x: Game) => x.category == category);
  }

  lemma {:induction false} SumAddGame(games: seq<Game>, g: Game, cats: seq<string>)
    requires Distinct(cats)
    ensures SumOfCounts(games + [g], cats) == SumOfCounts(games, cats) + (if g.category in cats then 1 else 0)
  {
    if cats != [] {
      assert Distinct(cats[1..]) by {
        forall i, j | 0 <= i < j < |cats[1..]| ensures cats[1..][i] != cats[1..][j] {
          assert cats[1..][i] == cats[i + 1] && cats[1..][j] == cats[j + 1];
        }
      }
      SumAddGame(games, g, cats[1..]);
      CountAppend(games, g, cats[0]);
      if cats[0] == g.category {
        assert g.category !in cats[1..] by {
          forall k | 0 <= k < |cats[1..]| ensures cats[1..][k] != g.category {
            assert cats[1..][k] == cats[k + 1];
          }
        }
      } else {
        assert g.category in cats <==> g.category in cats[1..] by {
          assert cats == [cats[0]] + cats[1..];
        }
      }
    }
  }

  lemma {:induction false} SumAppendCategory(games: seq<Game>, cats: seq<string>, c: string)
    ensures SumOfCounts(games, cats + [c]) == SumOfCounts(games, cats) + CategoryCount(games, c)
  {
    if cats == [] {
      assert ([] + [c])[1..] == [];
    } else {
      assert (cats + [c])[1..] == cats[1..] + [c];
      SumAppendCategory(games, cats[1..], c);
    }
  }

  lemma CountOfAbsentCategory(games: seq<Game>, c: string)
    requires c !in CategoriesOf(games)
    ensures CategoryCount(games, c) == 0
  {
    forall i | 0 <= i < |games| ensures games[i].category != c {
      assert CategoriesOf(games)[i] == games[i].category;
    }
    FilterNone(games, (g: Game) => g.category == c);
  }

  /** Every game is counted under exactly one listed category, so the counts add up to the number of games. */
  /** Adding a game adds its category at the end, unless the category is already listed. */
  lemma UniqueCategoriesAppend(p: seq<Game>, g: Game)
    ensures UniqueCategories(p + [g]) ==
      if g.category in CategoriesOf(p) then UniqueCategories(p) else UniqueCategories(p) + [g.category]
  {
    var cats := CategoriesOf(p + [g]);
    assert cats[..|cats| - 1] == CategoriesOf(p) && cats[|cats| - 1] == g.category;
  }

  lemma {:induction false} CountsSumToGames(games: seq<Game>)
    ensures SumOfCounts(games, UniqueCategories(games)) == |games|
  {
    if games != [] {
      var p, g := games[..|games| - 1], games[|games| - 1];
      assert games == p + [g];
      var d := UniqueCategories(p);
      if g.category in CategoriesOf(p) {
        calc {
          SumOfCounts(games, UniqueCategories(games));
        == { UniqueCategoriesAppend(p, g); }
          SumOfCounts(p + [g], d);
        == { var i :| 0 <= i < |p| && CategoriesOf(p)[i] == g.category;
             SumAddGame(p, g, d); }
          SumOfCounts(p, d) + 1;
        == { CountsSumToGames(p); }
          |games|;
        }
      } else {
        calc {
          SumOfCounts(games, UniqueCategories(games));
        == { UniqueCategoriesAppend(p, g); }
          SumOfCounts(games, d + [g.category]);
        == { SumAppendCategory(games, d, g.category); }
          SumOfCounts(p + [g], d) + CategoryCount(p + [g], g.category);
        == { SumAddGame(p, g, d);
             CountAppend(p, g, g.category);
             CountOfAbsentCategory(p, g.category); }
          SumOfCounts(p, d) + 1;
        == { CountsSumToGames(p); }
          |games|;
        }
      }
    }
  }

  /** The link of a category tile: `/category/` and the lowercased name. */
  function CategoryLink(category: string): (link: string)
    ensures StartsWith(link, "/category/")
    ensures link[|"/category/"|..] == Lower(category)
  {
    "/category/" + Lower(category)
  }

  /** Every game counted on a category tile is listed on the page its link opens. */
  lemma CountedGamesListedOnCategoryPage(games: seq<Game>, category: string)
    ensures var segment := CategoryLink(category)[|"/category/"|..];
      forall i :: 0 <= i < |games| && games[i].category == category ==>
        games[i] in GetGamesByCategory(games, CategoryPage.Capitalize(segment))
  {
    var segment := CategoryLink(category)[|"/category/"|..];
    LowerIdempotent(category);
    CategoryPage.ShownGamesIgnoreCapitalisation(games, segment);
  }

  /** The Popular section: `popularGames.slice(0, 4)` of the service's popular list is the four most played. */
  lemma PopularSectionIsTopFour(games: seq<Game>)
    ensures var shown := Take(GetPopularGames(games), SectionSize);
      && |shown| == (if |games| < SectionSize then |games| else SectionSize)
      && SortedDesc(shown, Plays)
      && forall g, h :: g in games && g !in shown && h in shown ==> g.plays <= h.plays
  {
    var popular := GetPopularGames(games);
    var shown := Take(popular, SectionSize);
    TakeSortedKeepsLargest(popular, SectionSize, Plays);
    forall g, h | g in games && g !in shown && h in shown ensures g.plays <= h.plays {
      var i :| 0 <= i < |shown| && shown[i] == h;
      assert popular[i] == h;
      if g in popular {
        assert Plays(g) <= Plays(h);
      }
    }
  }

  /**
   * Shifts left by one place the run of elements after `a[i]` whose keys
   * are above that of `a[i]`, and returns the place the run ended.
   */
  method ShiftRun<T>(a: array<T>, i: nat, key: T -> int) returns (j: nat)
    requires i < a.Length
    modifies a
    ensures i <= j < a.Length
    ensures forall m :: 0 <= m < i ==> a[m] == old(a[m])
    ensures forall m :: i <= m < j ==> a[m] == old(a[m + 1]) && key(old(a[m + 1])) > key(old(a[i]))
    ensures forall m :: j < m < a.Length ==> a[m] == old(a[m])
    ensures j + 1 == a.Length || key(old(a[j + 1])) <= key(old(a[i]))
  {
    var x := a[i];
    j := i;
    while j + 1 < a.Length && key(a[j + 1]) > key(x)
      invariant i <= j < a.Length
      invariant x == old(a[i])
      invariant forall m :: 0 <= m < i ==> a[m] == old(a[m])
      invariant forall m :: i <= m < j ==> a[m] == old(a[m + 1]) && key(old(a[m + 1])) > key(x)
      invariant forall m :: j < m < a.Length ==> a[m] == old(a[m])
    {
      a[j] := a[j + 1];
      j := j + 1;
    }
  }

  /**
   * Moves `a[i]` rightwards past the elements after it whose keys are
   * above its own, as one pass of the insertion sort below.
   */
  method InsertInto<T>(a: array<T>, i: nat, key: T -> int)
    requires i < a.Length
    modifies a
    ensures a[..i] == old(a[..i])
    ensures a[i..] == Insert(old(a[i]), old(a[i + 1..]), key)
  {
    var x := a[i];
    ghost var t := a[i + 1..];
    var j := ShiftRun(a, i, key);
    a[j] := x;
    PlacedIsInsert(a[i..], x, t, j - i, key);
  }

  /**
   * `allGames.sort((a, b) => key(b) - key(a))`, in place: an insertion
   * sort that grows a sorted suffix, giving the stable order `SortDesc`
   * describes.
   */
  method SortInPlaceDesc<T>(a: array<T>, key: T -> int)
    modifies a
    ensures a[..] == SortDesc(old(a[..]), key)
  {
    ghost var original := a[..];
    var i := a.Length;
    while i > 0
      invariant 0 <= i <= a.Length
      invariant a[..i] == original[..i]
      invariant a[i..] == SortDesc(original[i..], key)
    {
      i := i - 1;
      assert original[i..][1..] == original[i + 1..];
      InsertInto(a, i, key);
    }
    assert a[..] == a[0..];
  }

  /** The rating key of the Top Rated sort, in tenths of a star. */
  function Rating(g: Game): int {
    g.rating
  }

  /** A fresh array holding `s`. */
  method ArrayOf<T>(s: seq<T>) returns (a: array<T>)
    ensures fresh(a) && a[..] == s
  {
    a := new T[|s|](i requires 0 <= i < |s| => s[i]);
  }

  class HomePage {
    var popularGames: seq<Game>
    var allGames: array<Game>
    var categories: seq<string>
    var loading: bool

    constructor()
      ensures popularGames == [] && allGames.Length == 0 && categories == [] && loading
    {
      popularGames := [];
      allGames := new Game[0];
      categories := [];
      loading := true;
    }

    /**
     * `fetchData`: `getAllGames` and `getPopularGames` both read the service's
     * game table; `fetched` holds that table, or `None` when the awaited
     * promise rejected. Loading ends either way.
     */
    method FetchData(fetched: Option<seq<Game>>)
      modifies this
      ensures !loading
      ensures fetched.None? ==>
        popularGames == old(popularGames) && allGames == old(allGames) && categories == old(categories)
      ensures fetched.Some? ==>
        && fresh(allGames) && allGames[..] == fetched.value
        && popularGames == GetPopularGames(fetched.value)
        && categories == UniqueCategories(fetched.value)
    {
      if fetched.Some? {
        var table := fetched.value;
        SetState(table, GetPopularGames(table), UniqueCategories(table));
      }
      loading := false;
    }

    /** `setAllGames`, `setPopularGames` and `setCategories` on a successful fetch. */
    method SetState(all: seq<Game>, popular: seq<Game>, cats: seq<string>)
      modifies this
      ensures fresh(allGames) && allGames[..] == all
      ensures popularGames == popular && categories == cats && loading == old(loading)
    {
      allGames := ArrayOf(all);
      popularGames, categories := popular, cats;
    }

    /** The count shown on a category tile. */
    function CountShown(category: string): (count: nat)
      reads this, allGames
      ensures count == multiset(CategoriesOf(allGames[..]))[category]
      ensures count <= allGames.Length
    {
      CategoryCountIsOccurrences(allGames[..], category);
      CategoryCount(allGames[..], category)
    }

    /** The New Releases section: sorts `allGames` newest first, then shows four. */
    method NewReleases(releaseTime: Game -> int) returns (shown: seq<Game>)
      modifies allGames
      ensures allGames[..] == SortDesc(old(allGames[..]), releaseTime)
      ensures shown == Take(allGames[..], SectionSize)
      ensures SortedDesc(shown, releaseTime) && multiset(shown) <= multiset(old(allGames[..]))
    {
      SortInPlaceDesc(allGames, releaseTime);
      shown := Take(allGames[..], SectionSize);
      TakeIsSubseq(allGames[..], SectionSize);
    }

    /** The Top Rated section: sorts `allGames` best rated first, then shows four. */
    method TopRated() returns (shown: seq<Game>)
      modifies allGames
      ensures allGames[..] == SortDesc(old(allGames[..]), Rating)
      ensures shown == Take(allGames[..], SectionSize)
      ensures SortedDesc(shown, Rating) && multiset(shown) <= multiset(old(allGames[..]))
    {
      SortInPlaceDesc(allGames, Rating);
      shown := Take(allGames[..], SectionSize);
      TakeIsSubseq(allGames[..], SectionSize);
    }
  }
}
