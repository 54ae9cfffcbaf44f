/** `AudiobookService` (audiobooks.ts): the call each method hands to `makeRequest`, or the exception it throws first. */
module Audiobooks {
  import opened Wrappers
  import opened Text
  import opened Http
  import opened Client
  import opened ServiceCommon

  /** The most IDs one request may carry. */
  const MaxIds: nat := 50
  const MaxIdsMessage: string := "Maximum 50 IDs allowed per request"

  /** `get`: one audiobook. */
  function Get(id: string, options: Options): Call
  {
    Plain(GET, "audiobooks/" + Trim(id), Named("Audiobook"), options)
  }

  /** `getMany`: several audiobooks. */
  function GetMany(ids: seq<string>, options: Options): (r: Result<Call, ServiceError>)
    ensures r.Success? <==> |ids| <= MaxIds
    ensures r.Failure? ==> r.error == IllegalArgumentException(MaxIdsMessage)
  {
    match EncodeIds(ids, MaxIds, MaxIdsMessage)
    case Failure(e) => Failure(e)
    case Success(encodedIds) => Success(Plain(GET, "audiobooks?ids=" + encodedIds, ArrayOf(Named("Audiobook")), options))
  }

  /** `getChapters`: an audiobook's chapters, a page at a time. */
  function GetChapters(id: string, options: Options): Call
  {
    Plain(GET, "audiobooks/" + Trim(id) + "/chapters", PageOf(Named("SimplifiedChapter")), options)
  }

  /** `getSaved`: the user's saved audiobooks. */
  function GetSaved(options: Options): Call
  {
    Plain(GET, "me/audiobooks", PageOf(Named("SimplifiedAudiobook")), options)
  }

  /** `save`: saves audiobooks to the user's library. */
  function Save(ids: seq<string>): (r: Result<Call, ServiceError>)
    ensures r.Success? <==> |ids| <= MaxIds
    ensures r.Failure? ==> r.error == IllegalArgumentException(MaxIdsMessage)
  {
    match EncodeIds(ids, MaxIds, MaxIdsMessage)
    case Failure(e) => Failure(e)
    case Success(encodedIds) => Success(Plain(PUT, "me/audiobooks?ids=" + encodedIds, VoidSchema, []))
  }

  /** `remove`: removes audiobooks from the user's library. */
  function Remove(ids: seq<string>): (r: Result<Call, ServiceError>)
    ensures r.Success? <==> |ids| <= MaxIds
    ensures r.Failure? ==> r.error == IllegalArgumentException(MaxIdsMessage)
  {
    match EncodeIds(ids, MaxIds, MaxIdsMessage)
    case Failure(e) => Failure(e)
    case Success(encodedIds) => Success(Plain(DELETE, "me/audiobooks?ids=" + encodedIds, VoidSchema, []))
  }

  /** `checkSaved`: whether each audiobook is saved. */
  function CheckSaved(ids: seq<string>): (r: Result<Call, ServiceError>)
    ensures r.Success? <==> |ids| <= MaxIds
    ensures r.Failure? ==> r.error == IllegalArgumentException(MaxIdsMessage)
  {
    match EncodeIds(ids, MaxIds, MaxIdsMessage)
    case Failure(e) => Failure(e)
    case Success(encodedIds) => Success(Plain(GET, "me/audiobooks/contains?ids=" + encodedIds, ArrayOf(BooleanSchema), []))
  }

  // ---------------------------------------------------------------------------
  // What each route reads back as
  // ---------------------------------------------------------------------------

  lemma PathLiterals()
    ensures PlainSegments(["audiobooks"]) && PlainSegments(["chapters"])
    ensures "audiobooks/" == Join(["audiobooks"], "/") + "/"
    ensures "/chapters" == "/" + Join(["chapters"], "/")
    ensures "audiobooks?ids=" == Join(["audiobooks"], "/") + "?" + "ids" + "="
  {
  }

  lemma LibraryLiterals()
    ensures PlainSegments(["me", "audiobooks"])
    ensures "me/audiobooks?ids=" == Join(["me", "audiobooks"], "/") + "?" + "ids" + "="
  {
    JoinTwo("me", "audiobooks", "/");
  }

  lemma ContainsLiterals()
    ensures PlainSegments(["me", "audiobooks", "contains"])
    ensures "me/audiobooks/contains?ids=" == Join(["me", "audiobooks", "contains"], "/") + "?" + "ids" + "="
  {
    JoinThree("me", "audiobooks", "contains", "/");
  }

  /** `get` and `getChapters` read back as "audiobooks" and the trimmed ID, then "chapters" for the latter. */
  lemma SingleAudiobookRoutes(id: string, options: Options)
    requires PlainId(id)
    ensures Get(id, options).verb == GET && Get(id, options).options == options
    ensures Segments(Get(id, options).route) == ["audiobooks", Trim(id)]
    ensures ParamsOf(Get(id, options).route) == []
    ensures GetChapters(id, options).schema == PageOf(Named("SimplifiedChapter"))
    ensures Segments(GetChapters(id, options).route) == ["audiobooks", Trim(id), "chapters"]
    ensures ParamsOf(GetChapters(id, options).route) == []
  {
    PathLiterals();
    IdRoute(Get(id, options).route, "audiobooks/", ["audiobooks"], Trim(id));
    IdPathRoute(GetChapters(id, options).route, "audiobooks/", ["audiobooks"], Trim(id), "/chapters", ["chapters"]);
  }

  /** Within the limit, `getMany` is a GET of "audiobooks" with the one `ids` entry. */
  lemma GetManyRoute(ids: seq<string>, options: Options)
    requires |ids| <= MaxIds && PlainIds(ids)
    ensures GetMany(ids, options).value.verb == GET && GetMany(ids, options).value.options == options
    ensures Segments(GetMany(ids, options).value.route) == ["audiobooks"]
    ensures ParamsOf(GetMany(ids, options).value.route) == [("ids", JoinTrimmed(ids))]
  {
    PathLiterals();
    IdListRoute("audiobooks?ids=", ["audiobooks"], "ids", ids);
  }

  /** Within the limit, `save` is a PUT and `remove` a DELETE of "me/audiobooks" with the one `ids` entry. */
  lemma SaveRemoveRoutes(ids: seq<string>)
    requires |ids| <= MaxIds && PlainIds(ids)
    ensures Save(ids).value.verb == PUT && Remove(ids).value.verb == DELETE
    ensures Save(ids).value.route == Remove(ids).value.route
    ensures Segments(Save(ids).value.route) == ["me", "audiobooks"]
    ensures ParamsOf(Save(ids).value.route) == [("ids", JoinTrimmed(ids))]
  {
    LibraryLiterals();
    IdListRoute("me/audiobooks?ids=", ["me", "audiobooks"], "ids", ids);
  }

  /** Within the limit, `checkSaved` is a GET of "me/audiobooks/contains" with the one `ids` entry. */
  lemma CheckSavedRoute(ids: seq<string>)
    requires |ids| <= MaxIds && PlainIds(ids)
    ensures CheckSaved(ids).value.verb == GET && CheckSaved(ids).value.schema == ArrayOf(BooleanSchema)
    ensures Segments(CheckSaved(ids).value.route) == ["me", "audiobooks", "contains"]
    ensures ParamsOf(CheckSaved(ids).value.route) == [("ids", JoinTrimmed(ids))]
  {
    ContainsLiterals();
    IdListRoute("me/audiobooks/contains?ids=", ["me", "audiobooks", "contains"], "ids", ids);
  }

  /** The limit is inclusive: 50 IDs are accepted and 51 rejected before any call is built. */
  lemma GuardBoundary(ids: seq<string>)
    ensures |ids| == 50 ==> GetMany(ids, []).Success? && Save(ids).Success? && Remove(ids).Success? && CheckSaved(ids).Success?
    ensures |ids| == 51 ==> GetMany(ids, []) == Failure(IllegalArgumentException("Maximum 50 IDs allowed per request"))
  {
  }
}
