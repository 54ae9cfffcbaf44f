/** `ShowService` (shows.ts): the call each method hands to `makeRequest`, or the exception it throws first. */
module Shows {
  import opened Wrappers
  import opened Text
  import opened Http
  import opened Client
  import opened ServiceCommon

  /** The most IDs one request may carry. */
  const MaxIds: nat := 50
  const MaxIdsMessage: string := "Maximum 50 IDs allowed per request"

  /** `get`: one show. */
  function Get(id: string, options: Options): Call
  {
    Plain(GET, "shows/" + Trim(id), Named("Show"), options)
  }

  /** `getMany` as written: the joined IDs follow the '?' with no `ids=` before them. */
  function GetMany(ids: seq<string>, options: Options): (r: Result<Call, ServiceError>)
    ensures r.Success? <==> |ids| <= MaxIds
    ensures r.Failure? ==> r.error == IllegalArgumentException(MaxIdsMessage)
  {
    match EncodeIds(ids, MaxIds, MaxIdsMessage)
    case Failure(e) => Failure(e)
    case Success(encodedIds) => Success(Plain(GET, "shows?" + encodedIds, ArrayOf(Named("SimplifiedShow")), options))
  }

  /** `getMany` as evidently intended: the joined IDs under the `ids` key. */
  function GetManyIntended(ids: seq<string>, options: Options): (r: Result<Call, ServiceError>)
    ensures r.Success? <==> |ids| <= MaxIds
    ensures r.Failure? ==> r.error == IllegalArgumentException(MaxIdsMessage)
  {
    match EncodeIds(ids, MaxIds, MaxIdsMessage)
    case Failure(e) => Failure(e)
    case Success(encodedIds) => Success(Plain(GET, "shows?ids=" + encodedIds, ArrayOf(Named("SimplifiedShow")), options))
  }

  /** `getEpisodes`: a show's episodes, a page at a time. */
  function GetEpisodes(id: string, options: Options): Call
  {
    Plain(GET, "shows/" + Trim(id) + "/episodes", PageOf(Named("SimplifiedEpisode")), options)
  }

  /** `getSaved`: the user's saved shows. */
  function GetSaved(options: Options): Call
  {
    Plain(GET, "me/shows", PageOf(Named("SavedShow")), options)
  }

  /** `save`: saves shows to the user's library. */
  function Save(ids: seq<string>): (r: Result<Call, ServiceError>)
    ensures r.Success? <==> |ids| <= MaxIds
    ensures r.Failure? ==> r.error == IllegalArgumentException(MaxIdsMessage)
  {
    match EncodeIds(ids, MaxIds, MaxIdsMessage)
    case Failure(e) => Failure(e)
    case Success(encodedIds) => Success(Plain(PUT, "me/shows?ids=" + encodedIds, VoidSchema, []))
  }

  /** `remove`: removes shows from the user's library. */
  function Remove(ids: seq<string>): (r: Result<Call, ServiceError>)
    ensures r.Success? <==> |ids| <= MaxIds
    ensures r.Failure? ==> r.error == IllegalArgumentException(MaxIdsMessage)
  {
    match EncodeIds(ids, MaxIds, MaxIdsMessage)
    case Failure(e) => Failure(e)
    case Success(encodedIds) => Success(Plain(DELETE, "me/shows?ids=" + encodedIds, VoidSchema, []))
  }

  /** `checkSaved` as written: the joined IDs follow the '?' with no `ids=` before them. */
  function CheckSaved(ids: seq<string>): (r: Result<Call, ServiceError>)
    ensures r.Success? <==> |ids| <= MaxIds
    ensures r.Failure? ==> r.error == IllegalArgumentException(MaxIdsMessage)
  {
    match EncodeIds(ids, MaxIds, MaxIdsMessage)
    case Failure(e) => Failure(e)
    case Success(encodedIds) => Success(Plain(GET, "me/shows/contains?" + encodedIds, ArrayOf(BooleanSchema), []))
  }

  /** `checkSaved` as evidently intended: the joined IDs under the `ids` key. */
  function CheckSavedIntended(ids: seq<string>): (r: Result<Call, ServiceError>)
    ensures r.Success? <==> |ids| <= MaxIds
    ensures r.Failure? ==> r.error == IllegalArgumentException(MaxIdsMessage)
  {
    match EncodeIds(ids, MaxIds, MaxIdsMessage)
    case Failure(e) => Failure(e)
    case Success(encodedIds) => Success(Plain(GET, "me/shows/contains?ids=" + encodedIds, ArrayOf(BooleanSchema), []))
  }

  // ---------------------------------------------------------------------------
  // What each route reads back as
  // ---------------------------------------------------------------------------

  lemma PathLiterals()
    ensures PlainSegments(["shows"]) && PlainSegments(["episodes"])
    ensures "shows/" == Join(["shows"], "/") + "/"
    ensures "/episodes" == "/" + Join(["episodes"], "/")
    ensures "shows?" == Join(["shows"], "/") + "?"
    ensures "shows?ids=" == Join(["shows"], "/") + "?" + "ids" + "="
  {
  }

  lemma LibraryLiterals()
    ensures PlainSegments(["me", "shows"])
    ensures "me/shows?ids=" == Join(["me", "shows"], "/") + "?" + "ids" + "="
  {
    JoinTwo("me", "shows", "/");
  }

  lemma ContainsLiterals()
    ensures PlainSegments(["me", "shows", "contains"])
    ensures "me/shows/contains?" == Join(["me", "shows", "contains"], "/") + "?"
    ensures "me/shows/contains?ids=" == Join(["me", "shows", "contains"], "/") + "?" + "ids" + "="
  {
    JoinThree("me", "shows", "contains", "/");
  }

  /** `get` and `getEpisodes` read back as "shows" and the trimmed ID, then "episodes" for the latter. */
  lemma SingleShowRoutes(id: string, options: Options)
    requires PlainId(id)
    ensures Get(id, options).verb == GET && Get(id, options).options == options
    ensures Segments(Get(id, options).route) == ["shows", Trim(id)]
    ensures ParamsOf(Get(id, options).route) == []
    ensures GetEpisodes(id, options).schema == PageOf(Named("SimplifiedEpisode"))
    ensures Segments(GetEpisodes(id, options).route) == ["shows", Trim(id), "episodes"]
    ensures ParamsOf(GetEpisodes(id, options).route) == []
  {
    PathLiterals();
    IdRoute(Get(id, options).route, "shows/", ["shows"], Trim(id));
    IdPathRoute(GetEpisodes(id, options).route, "shows/", ["shows"], Trim(id), "/episodes", ["episodes"]);
  }

  /** As written, `getMany`'s query is one entry named by the whole joined list, with an empty value. */
  lemma GetManyRoute(ids: seq<string>, options: Options)
    requires |ids| <= MaxIds && PlainIds(ids) && FreeOf(TrimAll(ids), '=')
    ensures GetMany(ids, options).value.verb == GET && GetMany(ids, options).value.options == options
    ensures Segments(GetMany(ids, options).value.route) == ["shows"]
    ensures ParamsOf(GetMany(ids, options).value.route) == [(JoinTrimmed(ids), "")]
  {
    PathLiterals();
    BareIdListRoute("shows?", ["shows"], ids);
  }

  /** With two or more IDs no entry of `getMany`'s query is named `ids`. */
  lemma GetManyLosesIdsKey(ids: seq<string>, options: Options)
    requires 2 <= |ids| <= MaxIds && PlainIds(ids) && FreeOf(TrimAll(ids), '=')
    ensures forall p :: p in ParamsOf(GetMany(ids, options).value.route) ==> p.0 != "ids"
  {
    GetManyRoute(ids, options);
    JoinedListHasSeparator(ids);
  }

  /** Corrected, `getMany` is a GET of "shows" with the one `ids` entry. */
  lemma GetManyIntendedRoute(ids: seq<string>, options: Options)
    requires |ids| <= MaxIds && PlainIds(ids)
    ensures GetManyIntended(ids, options).value.verb == GET && GetManyIntended(ids, options).value.options == options
    ensures Segments(GetManyIntended(ids, options).value.route) == ["shows"]
    ensures ParamsOf(GetManyIntended(ids, options).value.route) == [("ids", JoinTrimmed(ids))]
  {
    PathLiterals();
    IdListRoute("shows?ids=", ["shows"], "ids", ids);
  }

  /** Within the limit, `save` is a PUT and `remove` a DELETE of "me/shows" with the one `ids` entry. */
  lemma SaveRemoveRoutes(ids: seq<string>)
    requires |ids| <= MaxIds && PlainIds(ids)
    ensures Save(ids).value.verb == PUT && Remove(ids).value.verb == DELETE
    ensures Save(ids).value.route == Remove(ids).value.route
    ensures Segments(Save(ids).value.route) == ["me", "shows"]
    ensures ParamsOf(Save(ids).value.route) == [("ids", JoinTrimmed(ids))]
  {
    LibraryLiterals();
    IdListRoute("me/shows?ids=", ["me", "shows"], "ids", ids);
  }

  /** As written, `checkSaved`'s query is one entry named by the whole joined list, with an empty value. */
  lemma CheckSavedRoute(ids: seq<string>)
    requires |ids| <= MaxIds && PlainIds(ids) && FreeOf(TrimAll(ids), '=')
    ensures CheckSaved(ids).value.verb == GET && CheckSaved(ids).value.schema == ArrayOf(BooleanSchema)
    ensures Segments(CheckSaved(ids).value.route) == ["me", "shows", "contains"]
    ensures ParamsOf(CheckSaved(ids).value.route) == [(JoinTrimmed(ids), "")]
  {
    ContainsLiterals();
    BareIdListRoute("me/shows/contains?", ["me", "shows", "contains"], ids);
  }

  /** With two or more IDs no entry of `checkSaved`'s query is named `ids`. */
  lemma CheckSavedLosesIdsKey(ids: seq<string>)
    requires 2 <= |ids| <= MaxIds && PlainIds(ids) && FreeOf(TrimAll(ids), '=')
    ensures forall p :: p in ParamsOf(CheckSaved(ids).value.route) ==> p.0 != "ids"
  {
    CheckSavedRoute(ids);
    JoinedListHasSeparator(ids);
  }

  /** Corrected, `checkSaved` carries the one `ids` entry like `save` and `remove`. */
  lemma CheckSavedIntendedRoute(ids: seq<string>)
    requires |ids| <= MaxIds && PlainIds(ids)
    ensures CheckSavedIntended(ids).value.verb == GET
    ensures Segments(CheckSavedIntended(ids).value.route) == ["me", "shows", "contains"]
    ensures ParamsOf(CheckSavedIntended(ids).value.route) == [("ids", JoinTrimmed(ids))]
  {
    ContainsLiterals();
    IdListRoute("me/shows/contains?ids=", ["me", "shows", "contains"], "ids", ids);
  }

  /** The limit is inclusive: 50 IDs are accepted and 51 rejected before any call is built. */
  lemma GuardBoundary(ids: seq<string>)
    ensures |ids| == 50 ==> GetMany(ids, []).Success? && Save(ids).Success? && Remove(ids).Success? && CheckSaved(ids).Success?
    ensures |ids| == 51 ==> GetMany(ids, []) == Failure(IllegalArgumentException("Maximum 50 IDs allowed per request"))
  {
  }
}
