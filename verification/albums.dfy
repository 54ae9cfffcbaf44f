/** `AlbumService` (albums.ts): the call each method hands to `makeRequest`, or the exception it throws first. */
module Albums {
  import opened Wrappers
  import opened Text
  import opened Http
  import opened Client
  import opened ServiceCommon

  /** The most IDs one request may carry. */
  const MaxIds: nat := 20
  const MaxIdsMessage: string := "Maximum 20 IDs allowed per request"

  /** `get`: one album. */
  function Get(id: string, options: Options): Call
  {
    Plain(GET, "albums/" + Trim(id), Named("Album"), options)
  }

  /** `getMany`: several albums. */
  function GetMany(ids: seq<string>, options: Options): (r: Result<Call, ServiceError>)
    ensures r.Success? <==> |ids| <= MaxIds
    ensures r.Failure? ==> r.error == IllegalArgumentException(MaxIdsMessage)
  {
    match EncodeIds(ids, MaxIds, MaxIdsMessage)
    case Failure(e) => Failure(e)
    case Success(encodedIds) => Success(Plain(GET, "albums?ids=" + encodedIds, ArrayOf(Named("Album")), options))
  }

  /** `getTracks`: one album's tracks, a page at a time. */
  function GetTracks(id: string, options: Options): Call
  {
    Plain(GET, "albums/" + Trim(id) + "/tracks", PageOf(Named("Track")), options)
  }

  /** `getSaved`: the user's saved albums. */
  function GetSaved(options: Options): Call
  {
    Plain(GET, "me/albums", PageOf(Named("SavedAlbum")), options)
  }

  /** `save`: saves albums to the user's library. */
  function Save(ids: seq<string>): (r: Result<Call, ServiceError>)
    ensures r.Success? <==> |ids| <= MaxIds
    ensures r.Failure? ==> r.error == IllegalArgumentException(MaxIdsMessage)
  {
    match EncodeIds(ids, MaxIds, MaxIdsMessage)
    case Failure(e) => Failure(e)
    case Success(encodedIds) => Success(Plain(PUT, "me/albums?ids=" + encodedIds, VoidSchema, []))
  }

  /** `remove`: removes albums from the user's library. */
  function Remove(ids: seq<string>): (r: Result<Call, ServiceError>)
    ensures r.Success? <==> |ids| <= MaxIds
    ensures r.Failure? ==> r.error == IllegalArgumentException(MaxIdsMessage)
  {
    match EncodeIds(ids, MaxIds, MaxIdsMessage)
    case Failure(e) => Failure(e)
    case Success(encodedIds) => Success(Plain(DELETE, "me/albums?ids=" + encodedIds, VoidSchema, []))
  }

  /** `checkSaved`: whether each album is saved. */
  function CheckSaved(ids: seq<string>): (r: Result<Call, ServiceError>)
    ensures r.Success? <==> |ids| <= MaxIds
    ensures r.Failure? ==> r.error == IllegalArgumentException(MaxIdsMessage)
  {
    match EncodeIds(ids, MaxIds, MaxIdsMessage)
    case Failure(e) => Failure(e)
    case Success(encodedIds) => Success(Plain(GET, "me/albums/contains?ids=" + encodedIds, ArrayOf(BooleanSchema), []))
  }

  /** `getNewReleases`. */
  function GetNewReleases(options: Options): Call
  {
    Plain(GET, "browse/new-releases", PageOf(Named("SimplifiedAlbum")), options)
  }

  // ---------------------------------------------------------------------------
  // What each route reads back as
  // ---------------------------------------------------------------------------

  /** The fixed parts of the routes, as segments. */
  lemma PathLiterals()
    ensures PlainSegments(["albums"]) && PlainSegments(["tracks"])
    ensures "albums/" == Join(["albums"], "/") + "/"
    ensures "/tracks" == "/" + Join(["tracks"], "/")
    ensures "albums?ids=" == Join(["albums"], "/") + "?" + "ids" + "="
  {
  }

  lemma LibraryLiterals()
    ensures PlainSegments(["me", "albums"])
    ensures "me/albums?ids=" == Join(["me", "albums"], "/") + "?" + "ids" + "="
  {
    JoinTwo("me", "albums", "/");
  }

  lemma ContainsLiterals()
    ensures PlainSegments(["me", "albums", "contains"])
    ensures "me/albums/contains?ids=" == Join(["me", "albums", "contains"], "/") + "?" + "ids" + "="
  {
    JoinThree("me", "albums", "contains", "/");
  }

  /** `get` is a GET of the segments "albums" and the trimmed ID, with the caller's options and no body. */
  lemma GetRoute(id: string, options: Options)
    requires PlainId(id)
    ensures Get(id, options).verb == GET && Get(id, options).options == options && Get(id, options).body.None?
    ensures Segments(Get(id, options).route) == ["albums", Trim(id)]
    ensures ParamsOf(Get(id, options).route) == []
  {
    PathLiterals();
    IdRoute(Get(id, options).route, "albums/", ["albums"], Trim(id));
  }

  /** `getTracks` is a GET of "albums", the trimmed ID and "tracks", decoded as a page of tracks. */
  lemma GetTracksRoute(id: string, options: Options)
    requires PlainId(id)
    ensures GetTracks(id, options).verb == GET && GetTracks(id, options).options == options
    ensures GetTracks(id, options).schema == PageOf(Named("Track"))
    ensures Segments(GetTracks(id, options).route) == ["albums", Trim(id), "tracks"]
    ensures ParamsOf(GetTracks(id, options).route) == []
  {
    PathLiterals();
    IdPathRoute(GetTracks(id, options).route, "albums/", ["albums"], Trim(id), "/tracks", ["tracks"]);
  }

  /**
   * Within the limit, `getMany` is a GET of "albums" with exactly one `ids`
   * entry: the trimmed IDs joined by "%2C", in input order.
   */
  lemma GetManyRoute(ids: seq<string>, options: Options)
    requires |ids| <= MaxIds && PlainIds(ids)
    ensures GetMany(ids, options).value.verb == GET && GetMany(ids, options).value.options == options
    ensures Segments(GetMany(ids, options).value.route) == ["albums"]
    ensures ParamsOf(GetMany(ids, options).value.route) == [("ids", JoinTrimmed(ids))]
  {
    PathLiterals();
    IdListRoute("albums?ids=", ["albums"], "ids", ids);
  }

  /** Within the limit, `save` is a PUT and `remove` a DELETE of "me/albums" with the one `ids` entry. */
  lemma SaveRemoveRoutes(ids: seq<string>)
    requires |ids| <= MaxIds && PlainIds(ids)
    ensures Save(ids).value.verb == PUT && Remove(ids).value.verb == DELETE
    ensures Save(ids).value.route == Remove(ids).value.route
    ensures Segments(Save(ids).value.route) == ["me", "albums"]
    ensures ParamsOf(Save(ids).value.route) == [("ids", JoinTrimmed(ids))]
  {
    LibraryLiterals();
    IdListRoute("me/albums?ids=", ["me", "albums"], "ids", ids);
  }

  /** Within the limit, `checkSaved` is a GET of "me/albums/contains" with the one `ids` entry. */
  lemma CheckSavedRoute(ids: seq<string>)
    requires |ids| <= MaxIds && PlainIds(ids)
    ensures CheckSaved(ids).value.verb == GET && CheckSaved(ids).value.schema == ArrayOf(BooleanSchema)
    ensures Segments(CheckSaved(ids).value.route) == ["me", "albums", "contains"]
    ensures ParamsOf(CheckSaved(ids).value.route) == [("ids", JoinTrimmed(ids))]
  {
    ContainsLiterals();
    IdListRoute("me/albums/contains?ids=", ["me", "albums", "contains"], "ids", ids);
  }

  /** The limit is inclusive: 20 IDs are accepted and 21 rejected before any call is built. */
  lemma GuardBoundary(ids: seq<string>)
    ensures |ids| == 20 ==> GetMany(ids, []).Success? && Save(ids).Success? && Remove(ids).Success? && CheckSaved(ids).Success?
    ensures |ids| == 21 ==> GetMany(ids, []) == Failure(IllegalArgumentException("Maximum 20 IDs allowed per request"))
  {
  }
}
