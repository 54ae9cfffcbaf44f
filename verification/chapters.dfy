/** `ChapterService` (chapters.ts): the call each method hands to `makeRequest`, or the exception it throws first. */
module Chapters {
  import opened Wrappers
  import opened Text
  import opened Http
  import opened Client
  import opened ServiceCommon

  /** The most IDs one request may carry. */
  const MaxIds: nat := 50
  const MaxIdsMessage: string := "Maximum 50 IDs allowed per request"

  /** `get`: one chapter. */
  function Get(id: string, options: Options): Call
  {
    Plain(GET, "chapters/" + Trim(id), Named("Chapter"), options)
  }

  /** `getMany`: several chapters. */
  function GetMany(ids: seq<string>, options: Options): (r: Result<Call, ServiceError>)
    ensures r.Success? <==> |ids| <= MaxIds
    ensures r.Failure? ==> r.error == IllegalArgumentException(MaxIdsMessage)
  {
    match EncodeIds(ids, MaxIds, MaxIdsMessage)
    case Failure(e) => Failure(e)
    case Success(encodedIds) => Success(Plain(GET, "chapters?ids=" + encodedIds, ArrayOf(Named("Chapter")), options))
  }

  lemma PathLiterals()
    ensures PlainSegments(["chapters"])
    ensures "chapters/" == Join(["chapters"], "/") + "/"
    ensures "chapters?ids=" == Join(["chapters"], "/") + "?" + "ids" + "="
  {
  }

  /** `get` is a GET of "chapters" and the trimmed ID, with the caller's options. */
  lemma GetRoute(id: string, options: Options)
    requires PlainId(id)
    ensures Get(id, options).verb == GET && Get(id, options).options == options
    ensures Segments(Get(id, options).route) == ["chapters", Trim(id)]
    ensures ParamsOf(Get(id, options).route) == []
  {
    PathLiterals();
    IdRoute(Get(id, options).route, "chapters/", ["chapters"], Trim(id));
  }

  /** Within the limit, `getMany` is a GET of "chapters" with the one `ids` entry, and the options are passed through. */
  lemma GetManyRoute(ids: seq<string>, options: Options)
    requires |ids| <= MaxIds && PlainIds(ids)
    ensures GetMany(ids, options).value.verb == GET && GetMany(ids, options).value.options == options
    ensures Segments(GetMany(ids, options).value.route) == ["chapters"]
    ensures ParamsOf(GetMany(ids, options).value.route) == [("ids", JoinTrimmed(ids))]
  {
    PathLiterals();
    IdListRoute("chapters?ids=", ["chapters"], "ids", ids);
  }

  /** The limit is inclusive: 50 IDs are accepted and 51 rejected before any call is built. */
  lemma GuardBoundary(ids: seq<string>, options: Options)
    ensures |ids| == 50 ==> GetMany(ids, options).Success?
    ensures |ids| == 51 ==> GetMany(ids, options) == Failure(IllegalArgumentException("Maximum 50 IDs allowed per request"))
  {
  }
}
