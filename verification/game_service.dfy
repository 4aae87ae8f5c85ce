/**
 * The game query layer: read-only queries over an in-memory table of game
 * records and a table of comment lists keyed by game id. Every query takes
 * the table it reads as a parameter; `Games` and `CommentsTable` are the
 * fixtures the site ships with.
 */
module GameService {
  import opened Wrappers
  import opened Text
  import opened Seqs

  /**
   * A game record. `rating` is kept in tenths of a star (4.7 is 47); an
   * absent `featured` flag is `false`. Image and embed URLs are not read by
   * any query and are not part of the model.
   */
  datatype Game = Game(
    id: string,
    title: string,
    description: string,
    category: string,
    tags: seq<string>,
    rating: int,
    plays: nat,
    featured: bool,
    releaseDate: string)

  /** A comment, with at most one level of replies in the fixtures. */
  datatype Comment = Comment(
    id: string,
    userName: string,
    userAvatar: Option<string>,
    content: string,
    date: string,
    likes: nat,
    dislikes: nat,
    replies: Option<seq<Comment>>)

  const Games: seq<Game> := [
    Game("racing-thunder", "Racing Thunder",
      "Experience high-speed racing with stunning graphics and challenging tracks. Compete against AI opponents or challenge your friends in multiplayer mode.",
      "Racing", ["Racing", "3D", "Multiplayer", "Action"], 47, 12500, true, "2023-04-15"),
    Game("castle-defense", "Castle Defense",
      "Build your fortress, train your army, and defend against waves of enemies in this strategic tower defense game.",
      "Strategy", ["Strategy", "Tower Defense", "Medieval", "War"], 45, 8700, true, "2023-05-23"),
    Game("puzzle-quest", "Puzzle Quest",
      "Solve increasingly challenging puzzles in this mind-bending adventure that tests your logical thinking and problem-solving skills.",
      "Puzzle", ["Puzzle", "Logic", "Adventure", "Brain Training"], 43, 6300, true, "2023-03-10"),
    Game("zombie-survival", "Zombie Survival",
      "Survive in a post-apocalyptic world overrun by zombies. Scavenge for supplies, build your base, and fight off hordes of the undead.",
      "Action", ["Action", "Survival", "Horror", "Zombies"], 46, 15000, false, "2023-01-18"),
    Game("space-adventure", "Space Adventure",
      "Explore the vast universe, discover alien planets, and complete exciting missions in this space-themed adventure game.",
      "Adventure", ["Adventure", "Space", "Exploration", "Sci-Fi"], 42, 7800, false, "2023-02-25"),
    Game("retro-arcade", "Retro Arcade",
      "Experience the nostalgia of classic arcade games with modern twists. Perfect for quick gaming sessions.",
      "Arcade", ["Arcade", "Retro", "Classic", "Pixel Art"], 40, 9200, false, "2022-12-05"),
    Game("soccer-stars", "Soccer Stars",
      "Lead your team to victory in this exciting soccer simulation game. Play quick matches or enter tournaments.",
      "Sports", ["Sports", "Soccer", "Multiplayer", "Team"], 44, 11000, false, "2023-06-12"),
    Game("word-master", "Word Master",
      "Test your vocabulary and word-finding skills in this challenging word puzzle game with multiple game modes.",
      "Puzzle", ["Puzzle", "Word", "Educational", "Brain Training"], 41, 6800, false, "2023-04-02")
  ]

  const CommentsTable: map<string, seq<Comment>> := map[
    "racing-thunder" := [
      Comment("1", "SpeedDemon", None,
        "This game is amazing! The controls are responsive and the graphics are top-notch. I especially love the desert track.",
        "2023-08-15", 24, 2,
        Some([Comment("1-1", "RacingFan22", None, "Agree! Have you tried the multiplayer mode yet?", "2023-08-15", 5, 0, None)])),
      Comment("2", "GameMaster", None,
        "Great game but I think the difficulty curve is a bit steep. Took me a while to get used to the controls.",
        "2023-08-10", 13, 4, None)
    ],
    "castle-defense" := [
      Comment("1", "StrategyKing", None,
        "One of the best tower defense games I've played! Love the variety of units and the progression system.",
        "2023-08-12", 18, 1, None)
    ]
  ]

  /** No two records of the table share an id. */
  ghost predicate UniqueIds(games: seq<Game>) {
    forall i, j :: 0 <= i < j < |games| ==> games[i].id != games[j].id
  }

  /** The table's ids already differ in their first two characters. */
  lemma TableIdsUnique()
    ensures UniqueIds(Games)
  {
    var ids := [Games[0].id, Games[1].id, Games[2].id, Games[3].id,
                Games[4].id, Games[5].id, Games[6].id, Games[7].id];
    assert ids == ["racing-thunder", "castle-defense", "puzzle-quest", "zombie-survival",
                   "space-adventure", "retro-arcade", "soccer-stars", "word-master"];
    forall i, j | 0 <= i < j < |Games| ensures Games[i].id != Games[j].id {
      assert Games[i].id == ids[i] && Games[j].id == ids[j];
      if (i == 0 && j == 5) || (i == 4 && j == 6) {
        assert ids[i][1] != ids[j][1];
      } else {
        assert ids[i][0] != ids[j][0];
      }
    }
  }

  /** `getAllGames`: the table itself. */
  function GetAllGames(): (r: seq<Game>)
    ensures |r| == 8 && UniqueIds(r)
  {
    TableIdsUnique();
    Games
  }

  /** `getFeaturedGames`: the games whose featured flag is set, in table order. */
  function GetFeaturedGames(games: seq<Game>): (r: seq<Game>)
    ensures forall i :: 0 <= i < |r| ==> r[i].featured && r[i] in games
    ensures forall i :: 0 <= i < |games| && games[i].featured ==> games[i] in r
    ensures IsSubseq(r, games)
  {
    FilterIsSubseq(games, (g: Game) => g.featured);
    Filter(games, (g: Game) => g.featured)
  }

  /** The case-insensitive category test of `getGamesByCategory`. */
  predicate SameCategoryIgnoringCase(g: Game, category: string) {
    Lower(g.category) == Lower(category)
  }

  /** `getGamesByCategory`: the games whose category equals `category` ignoring ASCII case. */
  function GetGamesByCategory(games: seq<Game>, category: string): (r: seq<Game>)
    ensures forall i :: 0 <= i < |r| ==> SameCategoryIgnoringCase(r[i], category) && r[i] in games
    ensures forall i :: 0 <= i < |games| && SameCategoryIgnoringCase(games[i], category) ==> games[i] in r
    ensures IsSubseq(r, games)
  {
    FilterIsSubseq(games, (g: Game) => SameCategoryIgnoringCase(g, category));
    Filter(games, (g: Game) => SameCategoryIgnoringCase(g, category))
  }

  /** Two spellings of a category that lower to the same string select the same games. */
  lemma CategoryCaseInsensitive(games: seq<Game>, a: string, b: string)
    requires Lower(a) == Lower(b)
    ensures GetGamesByCategory(games, a) == GetGamesByCategory(games, b)
  {
    FilterExtensional(games, (g: Game) => SameCategoryIgnoringCase(g, a), (g: Game) => SameCategoryIgnoringCase(g, b));
  }

  /** `getGameById`: the first game with the given id, or nothing. */
  function GetGameById(games: seq<Game>, id: string): (r: Option<Game>)
    ensures r.None? <==> forall i :: 0 <= i < |games| ==> games[i].id != id
    ensures r.Some? ==> r.value.id == id && r.value in games
    ensures r.Some? ==> r.value == games[IndexOfId(games, id)]
  {
    if games == [] then None
    else if games[0].id == id then Some(games[0])
    else
      var r := GetGameById(games[1..], id);
      assert forall i :: 1 <= i < |games| ==> games[i] == games[1..][i - 1];
      r
  }

  /** The index of the first game with the given id. */
  function IndexOfId(games: seq<Game>, id: string): (k: nat)
    requires exists i :: 0 <= i < |games| && games[i].id == id
    ensures k < |games| && games[k].id == id
    ensures forall i :: 0 <= i < k ==> games[i].id != id
  {
    if games[0].id == id then 0
    else
      assert exists i :: 0 <= i < |games[1..]| && games[1..][i].id == id by {
        var i :| 0 <= i < |games| && games[i].id == id;
        assert games[1..][i - 1] == games[i];
      }
      1 + IndexOfId(games[1..], id)
  }

  /** The filter test of `getRelatedGames`: another game, in the category or tagged with it. */
  predicate IsRelated(g: Game, gameId: string, category: string) {
    g.id != gameId && (g.category == category || category in g.tags)
  }

  /** `getRelatedGames`: the first four other games in `category` or tagged with it. */
  function GetRelatedGames(games: seq<Game>, gameId: string, category: string): (r: seq<Game>)
    ensures |r| <= 4
    ensures forall i :: 0 <= i < |r| ==> r[i].id != gameId && (r[i].category == category || category in r[i].tags)
    ensures IsSubseq(r, games)
    ensures |r| < 4 ==> forall i :: 0 <= i < |games| && IsRelated(games[i], gameId, category) ==> games[i] in r
    ensures var all := Filter(games, (g: Game) => IsRelated(g, gameId, category));
      |r| == (if |all| < 4 then |all| else 4) && r == all[..|r|]
  {
    var all := Filter(games, (g: Game) => IsRelated(g, gameId, category));
    FilterIsSubseq(games, (g: Game) => IsRelated(g, gameId, category));
    TakeIsSubseq(all, 4);
    SubseqTransitive(Take(all, 4), all, games);
    Take(all, 4)
  }

  /** The sort key of `getPopularGames`. */
  function Plays(g: Game): int {
    g.plays
  }

  /** `getPopularGames`: a sorted copy of the table, most played first, cut to eight. */
  function GetPopularGames(games: seq<Game>): (r: seq<Game>)
    ensures |r| == if |games| < 8 then |games| else 8
    ensures SortedDesc(r, Plays)
    ensures multiset(r) <= multiset(games)
    ensures forall g, h :: g in games && g !in r && h in r ==> g.plays <= h.plays
  {
    var sorted := SortDesc(games, Plays);
    var r := Take(sorted, 8);
    TakeIsSubseq(sorted, 8);
    TakeSortedKeepsLargest(sorted, 8, Plays);
    assert forall g :: g in games ==> g in sorted by {
      forall g | g in games ensures g in sorted {
        assert g in multiset(games);
      }
    }
    r
  }

  /** `getGameComments`: the stored list for a known game id, `[]` otherwise. */
  function GetGameComments(table: map<string, seq<Comment>>, gameId: string): (r: seq<Comment>)
    ensures gameId in table ==> r == table[gameId]
    ensures gameId !in table ==> r == []
  {
    (if gameId in table then Some(table[gameId]) else None).GetOr([])
  }

  /** The test of `searchGames` for an already lowercased query. */
  predicate Matches(g: Game, lowerQuery: string) {
    || Includes(Lower(g.title), lowerQuery)
    || Includes(Lower(g.description), lowerQuery)
    || exists t :: t in g.tags && Includes(Lower(t), lowerQuery)
  }

  /** `searchGames`: the games whose title, description or a tag contains the query, ignoring case. */
  function SearchGames(games: seq<Game>, query: string): (r: seq<Game>)
    ensures forall i :: 0 <= i < |r| ==> Matches(r[i], Lower(query)) && r[i] in games
    ensures forall i :: 0 <= i < |games| && Matches(games[i], Lower(query)) ==> games[i] in r
    ensures IsSubseq(r, games)
  {
    var q := Lower(query);
    FilterIsSubseq(games, (g: Game) => Matches(g, q));
    Filter(games, (g: Game) => Matches(g, q))
  }

  /** The empty query matches every game, so the whole table comes back in order. */
  lemma SearchEmptyQuery(games: seq<Game>)
    ensures SearchGames(games, "") == games
  {
    forall g | g in games ensures Matches(g, "") {
      IncludesEmpty(Lower(g.title));
    }
    FilterAll(games, (g: Game) => Matches(g, Lower("")));
  }
}
