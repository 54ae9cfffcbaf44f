/** `ArtistService` (artists.ts): the call each method hands to `makeRequest`, or the exception it throws first. */
module Artists {
  import opened Wrappers
  import opened Text
  import opened Http
  import opened Client
  import opened ServiceCommon

  /** The most IDs one request may carry. */
  const MaxIds: nat := 50
  const MaxIdsMessage: string := "Maximum 50 IDs allowed per request"

  /** `get`: one artist; no query options are passed on. */
  function Get(id: string): Call
  {
    Plain(GET, "artists/" + Trim(id), Named("Artist"), [])
  }

  /** `getMany`: several artists; no query options are passed on. */
  function GetMany(ids: seq<string>): (r: Result<Call, ServiceError>)
    ensures r.Success? <==> |ids| <= MaxIds
    ensures r.Failure? ==> r.error == IllegalArgumentException(MaxIdsMessage)
  {
    match EncodeIds(ids, MaxIds, MaxIdsMessage)
    case Failure(e) => Failure(e)
    case Success(encodedIds) => Success(Plain(GET, "artists?ids=" + encodedIds, ArrayOf(Named("Artist")), []))
  }

  /** `getAlbums`: an artist's albums, a page at a time. */
  function GetAlbums(id: string, options: Options): Call
  {
    Plain(GET, "artists/" + Trim(id) + "/albums", PageOf(Named("SimplifiedAlbum")), options)
  }

  /** `getTopTracks`: an artist's top tracks. */
  function GetTopTracks(id: string, options: Options): Call
  {
    Plain(GET, "artists/" + Trim(id) + "/top-tracks", ArrayOf(Named("Track")), options)
  }

  // ---------------------------------------------------------------------------
  // What each route reads back as
  // ---------------------------------------------------------------------------

  /** The fixed parts of the routes, as segments. */
  lemma PathLiterals()
    ensures PlainSegments(["artists"]) && PlainSegments(["albums"]) && PlainSegments(["top-tracks"])
    ensures "artists/" == Join(["artists"], "/") + "/"
    ensures "/albums" == "/" + Join(["albums"], "/")
    ensures "/top-tracks" == "/" + Join(["top-tracks"], "/")
    ensures "artists?ids=" == Join(["artists"], "/") + "?" + "ids" + "="
  {
  }

  /** `get` is a GET of "artists" and the trimmed ID with no query at all. */
  lemma GetRoute(id: string)
    requires PlainId(id)
    ensures Get(id).verb == GET && Get(id).options == [] && Get(id).schema == Named("Artist")
    ensures Segments(Get(id).route) == ["artists", Trim(id)]
    ensures ParamsOf(Get(id).route) == []
  {
    PathLiterals();
    IdRoute(Get(id).route, "artists/", ["artists"], Trim(id));
  }

  /** Within the limit, `getMany` is a GET of "artists" whose only query entry is `ids`, and no options are passed on. */
  lemma GetManyRoute(ids: seq<string>)
    requires |ids| <= MaxIds && PlainIds(ids)
    ensures GetMany(ids).value.verb == GET && GetMany(ids).value.options == []
    ensures Segments(GetMany(ids).value.route) == ["artists"]
    ensures ParamsOf(GetMany(ids).value.route) == [("ids", JoinTrimmed(ids))]
  {
    PathLiterals();
    IdListRoute("artists?ids=", ["artists"], "ids", ids);
  }

  /** `getAlbums` and `getTopTracks` read back as "artists", the trimmed ID and their own last segment. */
  lemma ArtistItemRoutes(id: string, options: Options)
    requires PlainId(id)
    ensures GetAlbums(id, options).options == options && GetTopTracks(id, options).options == options
    ensures Segments(GetAlbums(id, options).route) == ["artists", Trim(id), "albums"]
    ensures ParamsOf(GetAlbums(id, options).route) == []
    ensures Segments(GetTopTracks(id, options).route) == ["artists", Trim(id), "top-tracks"]
    ensures ParamsOf(GetTopTracks(id, options).route) == []
  {
    PathLiterals();
    IdPathRoute(GetAlbums(id, options).route, "artists/", ["artists"], Trim(id), "/albums", ["albums"]);
    IdPathRoute(GetTopTracks(id, options).route, "artists/", ["artists"], Trim(id), "/top-tracks", ["top-tracks"]);
  }

  /** The limit is inclusive: 50 IDs are accepted and 51 rejected before any call is built. */
  lemma GuardBoundary(ids: seq<string>)
    ensures |ids| == 50 ==> GetMany(ids).Success?
    ensures |ids| == 51 ==> GetMany(ids) == Failure(IllegalArgumentException("Maximum 50 IDs allowed per request"))
  {
  }
}
