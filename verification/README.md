# GameVoyage core in Dafny

This project models the logic of GameVoyage, a small game-listing site built with React and served by an edge worker. The model covers:

- **Game service** (`GameService`): the fixture tables of games and comments, and the queries over them. These are all games, featured games, games of a category ignoring case, a game by id, related games, the eight most played games, the comments of a game, and the case-insensitive search.
- **Worker** (`Worker`): the request handler.
  - A path under `/api/` goes to the API router. The router answers a CORS preflight, dispatches on the exact endpoint name and builds JSON responses carrying the CORS headers.
  - Any other path goes to the static-asset store. A miss falls back to `/index.html` served with status 200, and a second miss gives 404 "Not Found".
  - Response construction follows the Fetch Standard's `Response` constructor: a string body with no `Content-Type` gets `text/plain;charset=UTF-8`.
- **Related games** (`RelatedGames`): the related-games panel of a game page. Same-category games come first, other games top the list up, the total is capped at four, and the current game is never shown.
- **Comment section** (`CommentSection`): the comment list state. It covers posting a guest comment, liking and disliking, and when the post button is enabled.
- **Featured carousel** (`FeaturedGames`): the three-slide index, moved by next, previous and a dot click.
- **Category page** (`CategoryPage`): capitalisation of the URL segment, the page title, the fetch of the category's games and the document title.
- **Home page** (`HomePage`): the distinct category list in first-appearance order, the per-category counts and their sum, the category links, and the four-game sections. Two of those sections sort the page's game array in place.

Three shared modules stand for JavaScript built-ins:

- `Seqs`: `filter`, `slice(0, n)`, the stable `sort` with a descending comparator, and de-duplication through a `Set`.
- `Text`: ASCII `toLowerCase`/`toUpperCase`, `startsWith`, `includes`, `replace` with a string pattern, and `trim` over the ECMAScript white-space set.
- `Wrappers`: `Option`.

Pure code (the service, the worker, the related-games selection, the formatting helpers) is written as functions with lemmas. Code that updates component state is written as classes whose methods change the fields. These are the comment section, the carousel, the category page's fetch and the home page's fetch and in-place sorts.

## Model

| member | source | states |
|---|---|---|
| GameService.TableIdsUnique | src/services/gameService.ts:30-134 | no two games of the table share an id |
| GameService.GetAllGames | src/services/gameService.ts:178-180 | the table holds eight games with pairwise distinct ids |
| GameService.GetFeaturedGames | src/services/gameService.ts:182-184 | exactly the featured games of the table: each result is featured and in the table, each featured game is in the result, and the table order is kept |
| GameService.GetGamesByCategory | src/services/gameService.ts:186-190 | exactly the games whose category equals the argument after lowercasing both sides, in table order |
| GameService.CategoryCaseInsensitive | src/services/gameService.ts:186-190 | two category arguments that lowercase alike ("racing", "Racing", "RACING") give the same result |
| GameService.GetGameById | src/services/gameService.ts:192-194 | `None` exactly when no id matches; otherwise the game at the first index whose id matches |
| GameService.IndexOfId | src/services/gameService.ts:193 | the index found is the first one holding the id |
| GameService.GetRelatedGames | src/services/gameService.ts:196-203 | at most four games, never the given id, each of the category or tagged with it, in table order; the result is exactly the first min(4, k) of the k qualifying games, so when fewer than four are returned, every qualifying game is among them |
| GameService.GetPopularGames | src/services/gameService.ts:205-207 | min(8, n) table entries, none repeated beyond its multiplicity, ordered by non-increasing plays; every game left out has plays no greater than every game kept |
| Seqs.SortDescStable | src/services/gameService.ts:206 | the descending sort is stable: among games with equal plays the table order is kept |
| Seqs.SortDesc | src/services/gameService.ts:206 | the sorted copy is a permutation of its input, ordered by non-increasing key |
| GameService.GetGameComments | src/services/gameService.ts:209-211 | the stored list for a known game id, the empty list for any other id |
| GameService.SearchGames | src/services/gameService.ts:213-222 | keeps a game exactly when the lowercased query occurs in its lowercased title, description or some tag, in table order |
| GameService.SearchEmptyQuery | src/services/gameService.ts:213-222 | the empty query returns every game, in table order |
| Text.IncludesIffOccurs | src/services/gameService.ts:217-219 | `includes` holds exactly when the query occurs at some position |
| Text.LowerIdempotent | src/services/gameService.ts:188-189 | lowercasing twice is lowercasing once |
| Worker.NewResponse | src/worker.js:51-56 | status and body as given; the given headers are kept, and a string body without `Content-Type` gets `text/plain;charset=UTF-8` |
| Worker.HandleEvent | src/worker.js:32-59 | an `/api/` path is the router's answer; otherwise an asset hit is returned as-is, a miss serves `/index.html` with status 200 and that page's headers, and a second miss gives 404 "Not Found" as plain text |
| Worker.HandleEventAsWritten | src/worker.js:51-54 | on a runtime with Response attributes on the prototype, the fallback copies no header of the index page; it gets at most the default `Content-Type`, and none for a stream body |
| Worker.FallbackDropsContentType | src/worker.js:51-54 | for GET /game/racing-thunder with only `/index.html` (text/html) in the store, the fallback as written carries no `Content-Type`, while the corrected handler keeps `text/html` |
| Worker.ApiNeverReachesAssets | src/worker.js:36-38 | an `/api/` path gives the same response whatever the asset store holds |
| Worker.HandleApiRequest | src/worker.js:64-98 | CORS headers always; OPTIONS gives 200 with no body and exactly the three CORS headers; any other method gives JSON; an endpoint other than `games`, `game`, `comments` gives 404 `{"error":"Not Found"}`; each known endpoint gives its handler's response |
| Worker.Endpoint | src/worker.js:80 | for a path under `/api/`, the endpoint is the rest of the path after the prefix |
| Worker.MethodNotDistinguished | src/worker.js:73-88 | POST, PUT, DELETE and GET to the same path get the same response |
| Worker.SubPathEndpoint | src/worker.js:80-82 | an endpoint name followed by `/` and more, after `/api/`, is no endpoint name |
| Worker.SubPathNotFound | src/worker.js:82-96 | a sub-path of a known endpoint (`/api/games/x`) gives 404 `{"error":"Not Found"}` |
| Worker.HandleGamesEndpoint | src/worker.js:103-128 | 200 JSON with the CORS headers, a list of one game, and each listed game is the one `/api/game` returns for its id |
| Worker.HandleGameEndpoint | src/worker.js:133-178 | 400 "Game ID is required" exactly when `id` is absent or empty; 200 exactly for `geometry-dash-wave`, with a record of the requested id; 404 "Game not found" otherwise; CORS and JSON headers always |
| Worker.HandleCommentsEndpoint | src/worker.js:183-232 | 400 exactly when `gameId` is absent or empty; otherwise 200, with two comments (the first id "1" by WaveMaster) for `geometry-dash-wave` and an empty array for any other id |
| Text.ReplaceFirst | src/worker.js:80 | a string starting with the pattern has that occurrence replaced; a string not containing it is unchanged |
| RelatedGames.SameCategoryPart | src/components/RelatedGames.tsx:22-24 | exactly the first min(4, k) of the k other games of the category, in input order |
| RelatedGames.OtherCategoryPart | src/components/RelatedGames.tsx:27-29 | exactly the first min(4 - s, k) of the k other games outside the category, where s is the size of the first part, in input order |
| RelatedGames.AllRelatedGames | src/components/RelatedGames.tsx:22-31 | at most four games, never the current one, with same-category games before all others |
| RelatedGames.PartsKeepInputOrder | src/components/RelatedGames.tsx:22-29 | each part is a subsequence of the input |
| RelatedGames.NoEntryTwice | src/components/RelatedGames.tsx:23-28 | the two parts are disjoint, so no input entry is shown more often than it occurs |
| RelatedGames.ShownCount | src/components/RelatedGames.tsx:22-31 | the number shown is min(4, number of input games other than the current one) |
| RelatedGames.FullCategoryShownAlone | src/components/RelatedGames.tsx:24-29 | with four or more same-category games, the result is the first four of them and nothing else |
| RelatedGames.FewInCategoryToppedUp | src/components/RelatedGames.tsx:22-31 | with fewer than four same-category games, the result is all of them followed by the first games of other categories that fit in four |
| RelatedGames.FewInCategoryAllShown | src/components/RelatedGames.tsx:22-31 | with fewer than four same-category games, every one of them is shown |
| CommentSection.GuestComment | src/components/CommentSection.tsx:36-43 | the new comment is by "Guest User" with the given id, content and date and zero likes and dislikes |
| CommentSection.AddLike | src/components/CommentSection.tsx:51-59 | same length and order; likes rise by one exactly on comments with the id; every other field is unchanged |
| CommentSection.AddDislike | src/components/CommentSection.tsx:61-69 | same length and order; dislikes rise by one exactly on comments with the id; every other field is unchanged |
| CommentSection.UnknownIdChangesNothing | src/components/CommentSection.tsx:52-68 | an id no comment has leaves the list unchanged |
| CommentSection.LikeDislikeCommute | src/components/CommentSection.tsx:51-69 | a like and a dislike give the same list in either order |
| CommentSection.PostButtonDisabled | src/components/CommentSection.tsx:86 | the button is enabled exactly when no post is in flight and the input has a non-white-space character |
| Text.BlankIffAllWhiteSpace | src/components/CommentSection.tsx:30 | `!s.trim()` holds exactly when every character is white space |
| Text.TrimStartEmpty | src/components/CommentSection.tsx:30 | trimming the front leaves nothing exactly when every character is white space |
| CommentSection.CommentSection.constructor | src/components/CommentSection.tsx:25-27 | the list is the initial comments, the input is empty and no post is in flight |
| CommentSection.CommentSection.Edit | src/components/CommentSection.tsx:80 | only the input changes |
| CommentSection.CommentSection.Submit | src/components/CommentSection.tsx:29-33 | blank input: nothing changes and nothing is posted; otherwise a post is in flight, holding the untrimmed input and the list as it was |
| CommentSection.CommentSection.FinishSubmit | src/components/CommentSection.tsx:35-48 | the guest comment is put in front of the captured list, the input is cleared and no post is in flight |
| CommentSection.CommentSection.Like | src/components/CommentSection.tsx:51-59 | the list becomes `AddLike` of the old list; the input and the flag are unchanged |
| CommentSection.CommentSection.Dislike | src/components/CommentSection.tsx:61-69 | the list becomes `AddDislike` of the old list; the input and the flag are unchanged |
| CommentSection.PostComment | src/components/CommentSection.tsx:29-48 | a blank input changes neither the list nor the flag; otherwise one guest comment is prepended, the old list follows unchanged, the input is cleared and the flag is false |
| FeaturedGames.NextIndex | src/components/FeaturedGames.tsx:42-44 | i goes to (i+1) mod 3 |
| FeaturedGames.PrevIndex | src/components/FeaturedGames.tsx:46-48 | i goes to (i+3-1) mod 3 |
| FeaturedGames.PrevUndoesNext | src/components/FeaturedGames.tsx:42-48 | previous after next, and next after previous, return to the same slide |
| FeaturedGames.AdvanceByIsModular | src/components/FeaturedGames.tsx:42-44 | k steps of next from slide i reach (i+k) mod 3 |
| FeaturedGames.FullRoundReturns | src/components/FeaturedGames.tsx:42-44 | three steps of next return to the starting slide |
| FeaturedGames.ActiveSlides | src/components/FeaturedGames.tsx:63-64 | exactly one slide is active, the current one |
| FeaturedGames.Carousel.constructor | src/components/FeaturedGames.tsx:40 | the carousel starts at slide 0 |
| FeaturedGames.Carousel.Next | src/components/FeaturedGames.tsx:42-44 | the slide becomes (old+1) mod 3 and stays in range |
| FeaturedGames.Carousel.Prev | src/components/FeaturedGames.tsx:46-48 | the slide becomes (old+2) mod 3 and stays in range |
| FeaturedGames.Carousel.GoTo | src/components/FeaturedGames.tsx:122 | a dot click selects the slide of its index |
| CategoryPage.Capitalize | src/pages/CategoryPage.tsx:20 | same length; the first character uppercased and the rest unchanged |
| CategoryPage.CapitalizeIdempotent | src/pages/CategoryPage.tsx:20 | formatting a formatted name changes nothing |
| CategoryPage.LowerOfCapitalize | src/pages/CategoryPage.tsx:20-21 | capitalising does not change the lowercased name |
| CategoryPage.ShownGamesIgnoreCapitalisation | src/pages/CategoryPage.tsx:20-21 | the games fetched for the capitalised segment are those for the segment as typed |
| CategoryPage.CategoryTitle | src/pages/CategoryPage.tsx:34-36 | "Category" for an absent or empty segment, otherwise the capitalised segment |
| CategoryPage.DocumentTitle | src/pages/CategoryPage.tsx:23 | the formatted category followed by " Games - GameVoyage" |
| CategoryPage.CategoryPage.constructor | src/pages/CategoryPage.tsx:11-12 | no games, loading |
| CategoryPage.CategoryPage.FetchGames | src/pages/CategoryPage.tsx:14-32 | an absent or empty segment changes nothing (loading stays as it was); otherwise the games become those of the segment ignoring case, the document title is set and loading ends |
| HomePage.CategoriesOf | src/pages/Index.tsx:30 | the category of each game, position by position |
| HomePage.UniqueCategories | src/pages/Index.tsx:30 | each game's category exactly once, and nothing else |
| HomePage.CategoriesInFirstAppearanceOrder | src/pages/Index.tsx:30 | categories follow the order of their first appearance in the game list |
| Seqs.DedupFirstAppearance | src/pages/Index.tsx:30 | `[...new Set(s)]` orders its elements by their first index in `s` |
| HomePage.CountsSumToGames | src/pages/Index.tsx:111 | the per-category counts (exact, case-sensitive category match) add up to the number of games |
| HomePage.CategoryCountIsOccurrences | src/pages/Index.tsx:111 | the filtered count equals the number of occurrences of the category among the games' categories |
| HomePage.HomePage.CountShown | src/pages/Index.tsx:111 | a tile's count is exactly the number of games in `allGames` whose category equals the tile's, and so at most the number of games |
| HomePage.CategoryLink | src/pages/Index.tsx:105 | `/category/` followed by the lowercased name |
| HomePage.CountedGamesListedOnCategoryPage | src/pages/Index.tsx:105-111 | every game counted on a tile is listed on the category page its link opens |
| HomePage.PopularSectionIsTopFour | src/pages/Index.tsx:80 | the Popular section shows min(4, n) games by non-increasing plays; every game not shown has plays no greater than every game shown |
| HomePage.SortInPlaceDesc | src/pages/Index.tsx:146-147 | the array afterwards is the stable descending sort of its old contents |
| HomePage.InsertInto | src/pages/Index.tsx:147 | one insertion pass: the prefix is unchanged and the suffix is the old element inserted into the rest |
| HomePage.ShiftRun | src/pages/Index.tsx:147 | the run of elements after `a[i]` with keys above its own moves one place left; everything else stays, and the run ends at the array end or at a key not above |
| HomePage.HomePage.constructor | src/pages/Index.tsx:13-16 | no games, no categories, loading |
| HomePage.HomePage.FetchData | src/pages/Index.tsx:18-41 | loading ends either way; on success the game array holds the fetched table, the popular list is `GetPopularGames` of that same table (so `PopularSectionIsTopFour` applies to its first four) and the categories are its distinct ones; on failure nothing else changes |
| HomePage.HomePage.SetState | src/pages/Index.tsx:26-31 | the three setters install a fresh array holding the games, the popular list and the categories, and leave `loading` alone |
| HomePage.HomePage.NewReleases | src/pages/Index.tsx:146-148 | sorts the game array newest first in place and shows its first four, ordered by non-increasing release time |
| HomePage.HomePage.TopRated | src/pages/Index.tsx:183-185 | sorts the game array best rated first in place and shows its first four, ordered by non-increasing rating |

## Left out

- Rendering, styling and layout of every component; the header, footer, game card, game player and game detail page; the build script.
- The comments table is keyed by game id as a map. Keys that a JavaScript object inherits from its prototype, such as `constructor`, are not modelled.
- `toLowerCase` and `toUpperCase` are modelled on ASCII letters only.
- Ratings are integer tenths of a star rather than floating-point numbers. Release dates are compared through an abstract integer key passed as a parameter, not by parsing dates.
- Response bodies are structured values, not the bytes `JSON.stringify` would produce.
- Header names are compared exactly, not case-insensitively as the Fetch Standard's `Headers` does.
- Image, banner, thumbnail and play-URL fields of the records are not modelled.
- A request's method is used as given, with no normalisation. Each query parameter holds its first value only.
- The asset store is an abstract lookup from method and path to an optional response. The key-value library's internals, caching and `mapRequestToAsset` rewriting are not modelled beyond that lookup.
- The `fetch` listener's try/catch that answers 500 is not modelled. `handleEvent` is asynchronous, so that catch never sees its failures.
- Promises, timers and clocks are not modelled. A submitted comment is two steps, `Submit` and `FinishSubmit`, with the id and date passed in. The carousel's interval tick is one `Next`. Interleavings of the timer with other events are not modelled beyond `FinishSubmit` using the list captured at submit time.
- `fetchData` awaits `getAllGames` and `getPopularGames` together. Both read the service's one constant table, so the model passes that table once and computes the popular list from it. A rejection of either promise is the `None` case.
- CategoryPage.CategoryPage.FetchGames: the catch branch is not modelled, because the category query resolves and never rejects.
- HomePage.HomePage.NewReleases: the array is not shared with the game service's table. In the running page the service resolves its own array, and the in-place sort reorders that array too. The model sorts a fresh copy.

## Findings

| source | as written | input that shows it | evidently intended | confidence | as-written member | corrected member |
|---|---|---|---|---|---|---|
| src/worker.js:51-54 | the fallback builds `new Response(body, {...notFoundResponse, status: 200})`. Where a `Response`'s attributes are accessors on its prototype (as WebIDL specifies, and on Cloudflare Workers from compatibility date 2022-01-31, flag `workers_api_getters_setters_on_prototype`), spreading the response copies no headers and the index page is served without its `Content-Type`. cloudflare-build.js:38 deploys with a bare `wrangler publish`, so no compatibility date is fixed in the repository; on an earlier Workers runtime `headers` was an own property and was copied | GET /game/racing-thunder, when the store holds only `/index.html` with `Content-Type: text/html` | serve the index page with its own headers and status 200 | not executed | Worker.HandleEventAsWritten, Worker.FallbackDropsContentType | Worker.HandleEvent |
