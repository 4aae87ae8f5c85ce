/**
 * The edge worker: a request whose path starts with `/api/` goes to a
 * small JSON API (with CORS headers and an OPTIONS preflight answer);
 * every other request is served from the static-asset store, falling back
 * to `/index.html` for client-side routes.
 *
 * URLs arrive already parsed: `path` is `url.pathname` and `params` maps
 * each query key to its first value (what `searchParams.get` returns).
 * The asset store is an abstract lookup from method and asset path to the
 * response the asset handler builds, or `None` where the handler throws.
 */
module Worker {
  import opened Wrappers
  import opened Text
  import GameService

  datatype Request = Request(httpMethod: string, path: string, params: map<string, string>)

  /** The structured values the API serialises with `JSON.stringify`. */
  datatype JsonValue =
    | ErrorObject(error: string)
    | GameArray(games: seq<GameService.Game>)
    | GameObject(game: GameService.Game)
    | CommentArray(comments: seq<GameService.Comment>)

  datatype Body = NoBody | PlainText(text: string) | Json(value: JsonValue) | Stream(bytes: seq<bv8>) {
    /** Bodies given to `new Response` as a string (JSON bodies are `JSON.stringify` output). */
    predicate IsString() {
      PlainText? || Json?
    }
  }

  datatype Response = Response(status: int, headers: map<string, string>, body: Body)

  const CorsHeaders: map<string, string> := map[
    "Access-Control-Allow-Origin" := "*",
    "Access-Control-Allow-Methods" := "GET, POST, PUT, DELETE, OPTIONS",
    "Access-Control-Allow-Headers" := "Content-Type"
  ]

  /** `{'Content-Type': 'application/json', ...corsHeaders}` */
  const JsonHeaders: map<string, string> := map["Content-Type" := "application/json"] + CorsHeaders

  const ApiPrefix: string := "/api/"

  /** The content type the Fetch standard gives a string body when none is set. */
  const TextPlain: string := "text/plain;charset=UTF-8"

  predicate HasCorsHeaders(r: Response) {
    forall h :: h in CorsHeaders ==> h in r.headers && r.headers[h] == CorsHeaders[h]
  }

  predicate IsJsonResponse(r: Response) {
    "Content-Type" in r.headers && r.headers["Content-Type"] == "application/json"
  }

  /**
   * `new Response(body, {status, headers})`: the headers as given, plus the
   * default content type when the body is a string and none was given.
   */
  function NewResponse(body: Body, status: int, headers: map<string, string>): (r: Response)
    ensures r.status == status && r.body == body
    ensures forall h :: h in headers ==> h in r.headers && r.headers[h] == headers[h]
    ensures r.headers.Keys <= headers.Keys + {"Content-Type"}
    ensures "Content-Type" !in headers ==> ("Content-Type" in r.headers <==> body.IsString())
    ensures "Content-Type" !in headers && body.IsString() ==> r.headers["Content-Type"] == TextPlain
  {
    if body.IsString() && "Content-Type" !in headers then
      Response(status, headers["Content-Type" := TextPlain], body)
    else
      Response(status, headers, body)
  }

  /** The single record the worker serves (its rating of 4.8 in tenths). */
  const GeometryDashWave: GameService.Game := GameService.Game(
    "geometry-dash-wave", "Geometry Dash Wave",
    "Ride the wave and avoid obstacles in this challenging rhythm-based game. Test your reflexes as you navigate through increasingly difficult levels set to energetic music.",
    "Arcade", ["Rhythm", "Platformer", "Challenge", "Wave"], 48, 24689, true, "2023-04-15")

  const WaveComments: seq<GameService.Comment> := [
    GameService.Comment("1", "WaveMaster", Some("/avatars/user1.jpg"),
      "This is my favorite version of Geometry Dash! The wave mechanic is so satisfying when you get it right.",
      "2025-03-15", 42, 3, None),
    GameService.Comment("2", "DashPro", None,
      "I got to level 5 so far. The difficulty curve is perfect - challenging but not impossible.",
      "2025-03-20", 28, 1, None)
  ]

  /** `!params.get(name)`: the parameter is absent or empty. */
  predicate MissingParam(params: map<string, string>, name: string) {
    name !in params || params[name] == ""
  }

  /** `handleGamesEndpoint`: the full listing. */
  function HandleGamesEndpoint(): (r: Response)
    ensures r.status == 200 && HasCorsHeaders(r) && IsJsonResponse(r)
    ensures r.body.Json? && r.body.value.GameArray? && |r.body.value.games| == 1
    ensures forall g :: g in r.body.value.games ==> HandleGameEndpoint(map["id" := g.id]) == NewResponse(Json(GameObject(g)), 200, JsonHeaders)
  {
    NewResponse(Json(GameArray([GeometryDashWave])), 200, JsonHeaders)
  }

  /** `handleGameEndpoint`: one record by its `id` parameter. */
  function HandleGameEndpoint(params: map<string, string>): (r: Response)
    ensures HasCorsHeaders(r) && IsJsonResponse(r)
    ensures MissingParam(params, "id") <==> r.status == 400
    ensures MissingParam(params, "id") ==> r.body == Json(ErrorObject("Game ID is required"))
    ensures r.status == 200 ==> r.body.Json? && r.body.value.GameObject? && r.body.value.game.id == params["id"]
    ensures !MissingParam(params, "id") ==> (r.status == 200 <==> params["id"] == GeometryDashWave.id)
    ensures !MissingParam(params, "id") && r.status != 200 ==> r.status == 404 && r.body == Json(ErrorObject("Game not found"))
  {
    if MissingParam(params, "id") then
      NewResponse(Json(ErrorObject("Game ID is required")), 400, JsonHeaders)
    else if params["id"] == "geometry-dash-wave" then
      NewResponse(Json(GameObject(GeometryDashWave)), 200, JsonHeaders)
    else
      NewResponse(Json(ErrorObject("Game not found")), 404, JsonHeaders)
  }

  /** `handleCommentsEndpoint`: the comment list for the `gameId` parameter; an unknown id is not an error. */
  function HandleCommentsEndpoint(params: map<string, string>): (r: Response)
    ensures HasCorsHeaders(r) && IsJsonResponse(r)
    ensures MissingParam(params, "gameId") <==> r.status == 400
    ensures MissingParam(params, "gameId") ==> r.body == Json(ErrorObject("Game ID is required"))
    ensures !MissingParam(params, "gameId") ==> r.status == 200 && r.body.Json? && r.body.value.CommentArray?
    ensures !MissingParam(params, "gameId") && params["gameId"] != GeometryDashWave.id ==> r.body == Json(CommentArray([]))
    ensures !MissingParam(params, "gameId") && params["gameId"] == GeometryDashWave.id ==>
      var cs := r.body.value.comments; |cs| == 2 && cs[0].id == "1" && cs[0].userName == "WaveMaster"
  {
    if MissingParam(params, "gameId") then
      NewResponse(Json(ErrorObject("Game ID is required")), 400, JsonHeaders)
    else if params["gameId"] == "geometry-dash-wave" then
      NewResponse(Json(CommentArray(WaveComments)), 200, JsonHeaders)
    else
      NewResponse(Json(CommentArray([])), 200, JsonHeaders)
  }

  /** `url.pathname.replace('/api/', '')`: the endpoint name. */
  function Endpoint(path: string): (e: string)
    ensures StartsWith(path, ApiPrefix) ==> e == path[|ApiPrefix|..]
  {
    ReplaceFirst(path, ApiPrefix, "")
  }

  predicate IsKnownEndpoint(e: string) {
    e == "games" || e == "game" || e == "comments"
  }

  /** `handleApiRequest`: the preflight answer, then exact-match dispatch on the endpoint name. */
  function HandleApiRequest(req: Request): (r: Response)
    ensures HasCorsHeaders(r)
    ensures req.httpMethod == "OPTIONS" ==> r.status == 200 && r.body == NoBody && r.headers == CorsHeaders
    ensures req.httpMethod != "OPTIONS" ==> IsJsonResponse(r) && r.body.Json?
    ensures req.httpMethod != "OPTIONS" && !IsKnownEndpoint(Endpoint(req.path)) ==>
      r.status == 404 && r.body == Json(ErrorObject("Not Found"))
    ensures req.httpMethod != "OPTIONS" && Endpoint(req.path) == "games" ==> r == HandleGamesEndpoint()
    ensures req.httpMethod != "OPTIONS" && Endpoint(req.path) == "game" ==> r == HandleGameEndpoint(req.params)
    ensures req.httpMethod != "OPTIONS" && Endpoint(req.path) == "comments" ==> r == HandleCommentsEndpoint(req.params)
  {
    if req.httpMethod == "OPTIONS" then
      NewResponse(NoBody, 200, CorsHeaders)
    else
      var endpoint := Endpoint(req.path);
      if endpoint == "games" then HandleGamesEndpoint()
      else if endpoint == "game" then HandleGameEndpoint(req.params)
      else if endpoint == "comments" then HandleCommentsEndpoint(req.params)
      else NewResponse(Json(ErrorObject("Not Found")), 404, JsonHeaders)
  }

  /**
   * `handleEvent`: API paths go to the router; anything else is the asset,
   * else `/index.html` served with status 200, else a plain 404. This is
   * the corrected fallback that keeps the index page's own headers; see
   * `HandleEventAsWritten`.
   */
  function HandleEvent(req: Request, assets: (string, string) -> Option<Response>): (r: Response)
    ensures StartsWith(req.path, ApiPrefix) ==> r == HandleApiRequest(req)
    ensures !StartsWith(req.path, ApiPrefix) && assets(req.httpMethod, req.path).Some? ==>
      r == assets(req.httpMethod, req.path).value
    ensures !StartsWith(req.path, ApiPrefix) && assets(req.httpMethod, req.path).None? && assets(req.httpMethod, "/index.html").Some? ==>
      var index := assets(req.httpMethod, "/index.html").value;
      r.status == 200 && r.body == index.body && r.headers == index.headers
    ensures !StartsWith(req.path, ApiPrefix) && assets(req.httpMethod, req.path).None? && assets(req.httpMethod, "/index.html").None? ==>
      r.status == 404 && r.body == PlainText("Not Found") && r.headers == map["Content-Type" := TextPlain]
  {
    if StartsWith(req.path, ApiPrefix) then
      HandleApiRequest(req)
    else
      match assets(req.httpMethod, req.path)
      case Some(asset) => asset
      case None =>
        match assets(req.httpMethod, "/index.html")
        case Some(index) => Response(200, index.headers, index.body)
        case None => NewResponse(PlainText("Not Found"), 404, map[])
  }

  /**
   * `handleEvent` as written: `{...notFoundResponse, status: 200}` spreads
   * a Response. Where a Response's attributes are accessors on its
   * prototype, as WebIDL specifies and as Cloudflare Workers does from
   * compatibility date 2022-01-31 (flag
   * `workers_api_getters_setters_on_prototype`), the spread copies only
   * own properties, so the init object carries only the status and the
   * fallback loses the index page's headers. On an earlier Workers runtime
   * `headers` was an own property and was copied; this function models
   * the former runtime.
   */
  function HandleEventAsWritten(req: Request, assets: (string, string) -> Option<Response>): (r: Response)
    ensures !StartsWith(req.path, ApiPrefix) ==>
      var fixed := HandleEvent(req, assets);
      (assets(req.httpMethod, req.path).Some? || assets(req.httpMethod, "/index.html").None? ==> r == fixed)
    ensures !StartsWith(req.path, ApiPrefix) && assets(req.httpMethod, req.path).None? && assets(req.httpMethod, "/index.html").Some? ==>
      var index := assets(req.httpMethod, "/index.html").value;
      r.status == 200 && r.body == index.body && r.headers.Keys <= {"Content-Type"} && (index.body.Stream? ==> r.headers == map[])
  {
    if StartsWith(req.path, ApiPrefix) then
      HandleApiRequest(req)
    else
      match assets(req.httpMethod, req.path)
      case Some(asset) => asset
      case None =>
        match assets(req.httpMethod, "/index.html")
        case Some(index) => NewResponse(index.body, 200, map[])
        case None => NewResponse(PlainText("Not Found"), 404, map[])
  }

  /** A store holding only `/index.html`, served as HTML. */
  function IndexOnlyStore(httpMethod: string, path: string): Option<Response> {
    if path == "/index.html" then Some(Response(200, map["Content-Type" := "text/html"], Stream([]))) else None
  }

  /** A client route answered by the fallback loses its content type as written, and keeps it once corrected. */
  lemma FallbackDropsContentType()
    ensures "Content-Type" !in HandleEventAsWritten(Request("GET", "/game/racing-thunder", map[]), IndexOnlyStore).headers
    ensures HandleEvent(Request("GET", "/game/racing-thunder", map[]), IndexOnlyStore).headers["Content-Type"] == "text/html"
  {
    assert !StartsWith("/game/racing-thunder", ApiPrefix) by {
      assert "/game/racing-thunder"[..5] != ApiPrefix by {
        assert "/game/racing-thunder"[1] == 'g';
      }
    }
  }

  /** The asset store is never consulted for an API path. */
  lemma ApiNeverReachesAssets(req: Request, a: (string, string) -> Option<Response>, b: (string, string) -> Option<Response>)
    requires StartsWith(req.path, ApiPrefix)
    ensures HandleEvent(req, a) == HandleEvent(req, b) == HandleApiRequest(req)
  {
  }

  /** Methods other than OPTIONS are not distinguished. */
  lemma MethodNotDistinguished(req: Request, httpMethod: string)
    requires req.httpMethod != "OPTIONS" && httpMethod != "OPTIONS"
    ensures HandleApiRequest(req.(httpMethod := httpMethod)) == HandleApiRequest(req)
  {
  }

  /** An endpoint name followed by `/` and more is no endpoint name. */
  lemma SubPathEndpoint(name: string, rest: string, path: string)
    requires IsKnownEndpoint(name) && rest != [] && rest[0] == '/'
    requires path == ApiPrefix + name + rest
    ensures StartsWith(path, ApiPrefix) && !IsKnownEndpoint(Endpoint(path))
  {
    assert path[..|ApiPrefix|] == ApiPrefix;
    assert path[|ApiPrefix|..] == name + rest;
    var e := name + rest;
    assert |e| == |name| + |rest| && e[0] == name[0] && e[|name|] == '/';
  }

  /** A trailing slash or a sub-path after an endpoint name is an unknown endpoint. */
  lemma SubPathNotFound(name: string, rest: string, req: Request)
    requires IsKnownEndpoint(name) && rest != [] && rest[0] == '/'
    requires req.path == ApiPrefix + name + rest && req.httpMethod != "OPTIONS"
    ensures HandleApiRequest(req).status == 404
    ensures HandleApiRequest(req).body == Json(ErrorObject("Not Found"))
  {
    SubPathEndpoint(name, rest, req.path);
  }
}
