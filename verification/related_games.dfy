/**
 * The related-games panel of a game page: up to four other games, those of
 * the current game's category first, topped up with games of other
 * categories.
 */
module RelatedGames {
  import opened Seqs
  import opened GameService

  const MaxShown: nat := 4

  predicate InCategory(g: Game, currentGameId: string, category: string) {
    g.id != currentGameId && g.category == category
  }

  predicate OutsideCategory(g: Game, currentGameId: string, category: string) {
    g.id != currentGameId && g.category != category
  }

  /** `relatedGames`: the first four other games of the category. */
  function SameCategoryPart(currentGameId: string, category: string, games: seq<Game>): (r: seq<Game>)
    ensures |r| <= MaxShown
    ensures forall i :: 0 <= i < |r| ==> InCategory(r[i], currentGameId, category)
    ensures IsSubseq(r, games)
    ensures var all := Filter(games, (g: Game) => InCategory(g, currentGameId, category));
      |r| == (if |all| < MaxShown then |all| else MaxShown) && r == all[..|r|]
  {
    var all := Filter(games, (g: Game) => InCategory(g, currentGameId, category));
    FilterIsSubseq(games, (g: Game) => InCategory(g, currentGameId, category));
    TakeIsSubseq(all, MaxShown);
    SubseqTransitive(Take(all, MaxShown), all, games);
    Take(all, MaxShown)
  }

  /** `otherGames`: other-category games filling the places the category left free. */
  function OtherCategoryPart(currentGameId: string, category: string, games: seq<Game>): (r: seq<Game>)
    ensures |r| + |SameCategoryPart(currentGameId, category, games)| <= MaxShown
    ensures forall i :: 0 <= i < |r| ==> OutsideCategory(r[i], currentGameId, category)
    ensures IsSubseq(r, games)
    ensures var all := Filter(games, (g: Game) => OutsideCategory(g, currentGameId, category));
      var room := MaxShown - |SameCategoryPart(currentGameId, category, games)|;
      |r| == (if |all| < room then |all| else room) && r == all[..|r|]
  {
    var room := MaxShown - |SameCategoryPart(currentGameId, category, games)|;
    var all := Filter(games, (g: Game) => OutsideCategory(g, currentGameId, category));
    FilterIsSubseq(games, (g: Game) => OutsideCategory(g, currentGameId, category));
    TakeIsSubseq(all, room);
    SubseqTransitive(Take(all, room), all, games);
    Take(all, room)
  }

  /** `allRelatedGames = [...relatedGames, ...otherGames]` */
  function AllRelatedGames(currentGameId: string, category: string, games: seq<Game>): (r: seq<Game>)
    ensures |r| <= MaxShown
    ensures forall i :: 0 <= i < |r| ==> r[i].id != currentGameId
    ensures forall i, j :: 0 <= i < j < |r| && r[j].category == category ==> r[i].category == category
  {
    var related := SameCategoryPart(currentGameId, category, games);
    var other := OtherCategoryPart(currentGameId, category, games);
    var r := related + other;
    r
  }

  /** The same-category part comes first and the other part after it, each in input order. */
  lemma PartsKeepInputOrder(currentGameId: string, category: string, games: seq<Game>)
    ensures var r := AllRelatedGames(currentGameId, category, games);
      var related := SameCategoryPart(currentGameId, category, games);
      r == related + OtherCategoryPart(currentGameId, category, games)
      && IsSubseq(related, games) && IsSubseq(r[|related|..], games)
  {
    var related := SameCategoryPart(currentGameId, category, games);
    var r := AllRelatedGames(currentGameId, category, games);
    assert r[|related|..] == OtherCategoryPart(currentGameId, category, games);
  }

  /** The two parts are disjoint filters, so no input entry is used more often than it occurs. */
  lemma NoEntryTwice(currentGameId: string, category: string, games: seq<Game>)
    ensures multiset(AllRelatedGames(currentGameId, category, games)) <= multiset(games)
  {
    var inCat := (g: Game) => InCategory(g, currentGameId, category);
    var outCat := (g: Game) => OutsideCategory(g, currentGameId, category);
    var notCurrent := (g: Game) => g.id != currentGameId;
    var related := SameCategoryPart(currentGameId, category, games);
    var other := OtherCategoryPart(currentGameId, category, games);
    var fi, fo := Filter(games, inCat), Filter(games, outCat);
    PrefixMultiset(fi, |related|);
    PrefixMultiset(fo, |other|);
    FilterSplit(games, notCurrent, inCat, outCat);
    assert multiset(fi) + multiset(fo) <= multiset(games);
  }

  /** Four places are filled whenever four other games exist; otherwise every other game is shown. */
  lemma ShownCount(currentGameId: string, category: string, games: seq<Game>)
    ensures var others := |Filter(games, (g: Game) => g.id != currentGameId)|;
      |AllRelatedGames(currentGameId, category, games)| == if others < MaxShown then others else MaxShown
  {
    var inCat := (g: Game) => InCategory(g, currentGameId, category);
    var outCat := (g: Game) => OutsideCategory(g, currentGameId, category);
    var notCurrent := (g: Game) => g.id != currentGameId;
    FilterSplit(games, notCurrent, inCat, outCat);
  }

  /** With four games of the category at hand, they are shown alone, in input order. */
  lemma FullCategoryShownAlone(currentGameId: string, category: string, games: seq<Game>)
    requires |Filter(games, (g: Game) => InCategory(g, currentGameId, category))| >= MaxShown
    ensures AllRelatedGames(currentGameId, category, games)
      == Filter(games, (g: Game) => InCategory(g, currentGameId, category))[..MaxShown]
  {
  }

  /**
   * With fewer than four games of the category, all of them are shown, in
   * input order, followed by the first games of other categories that fit.
   */
  lemma FewInCategoryToppedUp(currentGameId: string, category: string, games: seq<Game>)
    requires |Filter(games, (g: Game) => InCategory(g, currentGameId, category))| < MaxShown
    ensures var same := Filter(games, (g: Game) => InCategory(g, currentGameId, category));
      var others := Filter(games, (g: Game) => OutsideCategory(g, currentGameId, category));
      AllRelatedGames(currentGameId, category, games) == same + Take(others, MaxShown - |same|)
  {
    var same := Filter(games, (g: Game) => InCategory(g, currentGameId, category));
    var related := SameCategoryPart(currentGameId, category, games);
    assert related == same;
    assert OtherCategoryPart(currentGameId, category, games)
      == Take(Filter(games, (g: Game) => OutsideCategory(g, currentGameId, category)), MaxShown - |same|);
  }

  /** With fewer than four games of the category, every one of them is shown. */
  lemma FewInCategoryAllShown(currentGameId: string, category: string, games: seq<Game>)
    requires |Filter(games, (g: Game) => InCategory(g, currentGameId, category))| < MaxShown
    ensures forall i :: 0 <= i < |games| && InCategory(games[i], currentGameId, category) ==>
      games[i] in AllRelatedGames(currentGameId, category, games)
  {
    FewInCategoryToppedUp(currentGameId, category, games);
  }
}
