/** `TrackService` (tracks.ts): the call each method hands to `makeRequest`, or the exception it throws first. */
module Tracks {
  import opened Wrappers
  import opened Text
  import opened Http
  import opened Client
  import opened ServiceCommon

  /** The most IDs one request may carry. */
  const MaxIds: nat := 50
  const MaxIdsMessage: string := "Maximum 50 IDs allowed per request"

  /** `get`: one track. */
  function Get(id: string, options: Options): Call
  {
    Plain(GET, "tracks/" + Trim(id), Named("Track"), options)
  }

  /** `getMany`: several tracks. */
  function GetMany(ids: seq<string>, options: Options): (r: Result<Call, ServiceError>)
    ensures r.Success? <==> |ids| <= MaxIds
    ensures r.Failure? ==> r.error == IllegalArgumentException(MaxIdsMessage)
  {
    match EncodeIds(ids, MaxIds, MaxIdsMessage)
    case Failure(e) => Failure(e)
    case Success(encodedIds) => Success(Plain(GET, "tracks?ids=" + encodedIds, ArrayOf(Named("Track")), options))
  }

  /** `getSaved`: the user's saved tracks. */
  function GetSaved(options: Options): Call
  {
    Plain(GET, "me/tracks", PageOf(Named("SavedTrack")), options)
  }

  /** `save`: saves tracks to the user's library. */
  function Save(ids: seq<string>): (r: Result<Call, ServiceError>)
    ensures r.Success? <==> |ids| <= MaxIds
    ensures r.Failure? ==> r.error == IllegalArgumentException(MaxIdsMessage)
  {
    match EncodeIds(ids, MaxIds, MaxIdsMessage)
    case Failure(e) => Failure(e)
    case Success(encodedIds) => Success(Plain(PUT, "me/tracks?ids=" + encodedIds, VoidSchema, []))
  }

  /** `remove`: removes tracks from the user's library. */
  function Remove(ids: seq<string>): (r: Result<Call, ServiceError>)
    ensures r.Success? <==> |ids| <= MaxIds
    ensures r.Failure? ==> r.error == IllegalArgumentException(MaxIdsMessage)
  {
    match EncodeIds(ids, MaxIds, MaxIdsMessage)
    case Failure(e) => Failure(e)
    case Success(encodedIds) => Success(Plain(DELETE, "me/tracks?ids=" + encodedIds, VoidSchema, []))
  }

  /** `checkSaved` as written: the joined IDs follow the '?' with no `ids=` before them. */
  function CheckSaved(ids: seq<string>): (r: Result<Call, ServiceError>)
    ensures r.Success? <==> |ids| <= MaxIds
    ensures r.Failure? ==> r.error == IllegalArgumentException(MaxIdsMessage)
  {
    match EncodeIds(ids, MaxIds, MaxIdsMessage)
    case Failure(e) => Failure(e)
    case Success(encodedIds) => Success(Plain(GET, "me/tracks/contains?" + encodedIds, ArrayOf(BooleanSchema), []))
  }

  /** `checkSaved` as evidently intended: the joined IDs under the `ids` key, as in `save` and `remove`. */
  function CheckSavedIntended(ids: seq<string>): (r: Result<Call, ServiceError>)
    ensures r.Success? <==> |ids| <= MaxIds
    ensures r.Failure? ==> r.error == IllegalArgumentException(MaxIdsMessage)
  {
    match EncodeIds(ids, MaxIds, MaxIdsMessage)
    case Failure(e) => Failure(e)
    case Success(encodedIds) => Success(Plain(GET, "me/tracks/contains?ids=" + encodedIds, ArrayOf(BooleanSchema), []))
  }

  // ---------------------------------------------------------------------------
  // What each route reads back as
  // ---------------------------------------------------------------------------

  /** The fixed parts of the catalogue routes, as segments. */
  lemma CatalogueLiterals()
    ensures PlainSegments(["tracks"])
    ensures "tracks/" == Join(["tracks"], "/") + "/"
    ensures "tracks?ids=" == Join(["tracks"], "/") + "?" + "ids" + "="
  {
  }

  lemma LibraryLiterals()
    ensures PlainSegments(["me", "tracks"])
    ensures "me/tracks?ids=" == Join(["me", "tracks"], "/") + "?" + "ids" + "="
  {
    JoinTwo("me", "tracks", "/");
  }

  lemma ContainsLiterals()
    ensures PlainSegments(["me", "tracks", "contains"])
    ensures "me/tracks/contains?" == Join(["me", "tracks", "contains"], "/") + "?"
    ensures "me/tracks/contains?ids=" == Join(["me", "tracks", "contains"], "/") + "?" + "ids" + "="
  {
    JoinThree("me", "tracks", "contains", "/");
  }

  /** `get` is a GET of the segments "tracks" and the trimmed ID, with the caller's options. */
  lemma GetRoute(id: string, options: Options)
    requires PlainId(id)
    ensures Get(id, options).verb == GET && Get(id, options).options == options && Get(id, options).body.None?
    ensures Segments(Get(id, options).route) == ["tracks", Trim(id)]
    ensures ParamsOf(Get(id, options).route) == []
  {
    CatalogueLiterals();
    IdRoute(Get(id, options).route, "tracks/", ["tracks"], Trim(id));
  }

  /** Within the limit, `getMany` is a GET of "tracks" with one `ids` entry: the trimmed IDs joined by "%2C", in order. */
  lemma GetManyRoute(ids: seq<string>, options: Options)
    requires |ids| <= MaxIds && PlainIds(ids)
    ensures GetMany(ids, options).value.verb == GET && GetMany(ids, options).value.options == options
    ensures Segments(GetMany(ids, options).value.route) == ["tracks"]
    ensures ParamsOf(GetMany(ids, options).value.route) == [("ids", JoinTrimmed(ids))]
  {
    CatalogueLiterals();
    IdListRoute("tracks?ids=", ["tracks"], "ids", ids);
  }

  /** Within the limit, `save` is a PUT and `remove` a DELETE of "me/tracks" with the one `ids` entry. */
  lemma SaveRemoveRoutes(ids: seq<string>)
    requires |ids| <= MaxIds && PlainIds(ids)
    ensures Save(ids).value.verb == PUT && Remove(ids).value.verb == DELETE
    ensures Save(ids).value.route == Remove(ids).value.route
    ensures Segments(Save(ids).value.route) == ["me", "tracks"]
    ensures ParamsOf(Save(ids).value.route) == [("ids", JoinTrimmed(ids))]
  {
    LibraryLiterals();
    IdListRoute("me/tracks?ids=", ["me", "tracks"], "ids", ids);
  }

  /**
   * As written, `checkSaved`'s query is one entry whose name is the whole
   * joined ID list and whose value is empty: there is no `ids` entry.
   */
  lemma CheckSavedRoute(ids: seq<string>)
    requires |ids| <= MaxIds && PlainIds(ids) && FreeOf(TrimAll(ids), '=')
    ensures CheckSaved(ids).value.verb == GET && CheckSaved(ids).value.schema == ArrayOf(BooleanSchema)
    ensures Segments(CheckSaved(ids).value.route) == ["me", "tracks", "contains"]
    ensures ParamsOf(CheckSaved(ids).value.route) == [(JoinTrimmed(ids), "")]
  {
    ContainsLiterals();
    BareIdListRoute("me/tracks/contains?", ["me", "tracks", "contains"], ids);
  }

  /** With two or more IDs the only entry's name holds "%2C", so no entry is named `ids`. */
  lemma CheckSavedLosesIdsKey(ids: seq<string>)
    requires 2 <= |ids| <= MaxIds && PlainIds(ids) && FreeOf(TrimAll(ids), '=')
    ensures forall p :: p in ParamsOf(CheckSaved(ids).value.route) ==> p.0 != "ids"
  {
    CheckSavedRoute(ids);
    JoinedListHasSeparator(ids);
  }

  /** Corrected, `checkSaved` carries the one `ids` entry like `save` and `remove`. */
  lemma CheckSavedIntendedRoute(ids: seq<string>)
    requires |ids| <= MaxIds && PlainIds(ids)
    ensures CheckSavedIntended(ids).value.verb == GET
    ensures Segments(CheckSavedIntended(ids).value.route) == ["me", "tracks", "contains"]
    ensures ParamsOf(CheckSavedIntended(ids).value.route) == [("ids", JoinTrimmed(ids))]
  {
    ContainsLiterals();
    IdListRoute("me/tracks/contains?ids=", ["me", "tracks", "contains"], "ids", ids);
  }

  /** The limit is inclusive: 50 IDs are accepted and 51 rejected before any call is built. */
  lemma GuardBoundary(ids: seq<string>)
    ensures |ids| == 50 ==> GetMany(ids, []).Success? && Save(ids).Success? && Remove(ids).Success? && CheckSaved(ids).Success?
    ensures |ids| == 51 ==> GetMany(ids, []) == Failure(IllegalArgumentException("Maximum 50 IDs allowed per request"))
  {
  }
}
