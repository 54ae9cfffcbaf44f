/** `EpisodeService` (episodes.ts): the call each method hands to `makeRequest`, or the exception it throws first. */
module Episodes {
  import opened Wrappers
  import opened Text
  import opened Http
  import opened Client
  import opened ServiceCommon

  /** The most IDs one request may carry. */
  const MaxIds: nat := 50
  const MaxIdsMessage: string := "Maximum 50 IDs allowed per request"

  /** `get`: one episode. */
  function Get(id: string, options: Options): Call
  {
    Plain(GET, "episodes/" + Trim(id), Named("Episode"), options)
  }

  /** `getMany`: several episodes. */
  function GetMany(ids: seq<string>, options: Options): (r: Result<Call, ServiceError>)
    ensures r.Success? <==> |ids| <= MaxIds
    ensures r.Failure? ==> r.error == IllegalArgumentException(MaxIdsMessage)
  {
    match EncodeIds(ids, MaxIds, MaxIdsMessage)
    case Failure(e) => Failure(e)
    case Success(encodedIds) => Success(Plain(GET, "episodes?ids=" + encodedIds, ArrayOf(Named("Episode")), options))
  }

  lemma PathLiterals()
    ensures PlainSegments(["episodes"])
    ensures "episodes/" == Join(["episodes"], "/") + "/"
    ensures "episodes?ids=" == Join(["episodes"], "/") + "?" + "ids" + "="
  {
  }

  /** `get` is a GET of "episodes" and the trimmed ID, with the caller's options. */
  lemma GetRoute(id: string, options: Options)
    requires PlainId(id)
    ensures Get(id, options).verb == GET && Get(id, options).options == options
    ensures Segments(Get(id, options).route) == ["episodes", Trim(id)]
    ensures ParamsOf(Get(id, options).route) == []
  {
    PathLiterals();
    IdRoute(Get(id, options).route, "episodes/", ["episodes"], Trim(id));
  }

  /** Within the limit, `getMany` is a GET of "episodes" with the one `ids` entry, and the options are passed through. */
  lemma GetManyRoute(ids: seq<string>, options: Options)
    requires |ids| <= MaxIds && PlainIds(ids)
    ensures GetMany(ids, options).value.verb == GET && GetMany(ids, options).value.options == options
    ensures Segments(GetMany(ids, options).value.route) == ["episodes"]
    ensures ParamsOf(GetMany(ids, options).value.route) == [("ids", JoinTrimmed(ids))]
  {
    PathLiterals();
    IdListRoute("episodes?ids=", ["episodes"], "ids", ids);
  }

  /** The limit is inclusive: 50 IDs are accepted and 51 rejected before any call is built. */
  lemma GuardBoundary(ids: seq<string>, options: Options)
    ensures |ids| == 50 ==> GetMany(ids, options).Success?
    ensures |ids| == 51 ==> GetMany(ids, options) == Failure(IllegalArgumentException("Maximum 50 IDs allowed per request"))
  {
  }
}
