/** `PlaylistService` (playlists.ts): the call each method hands to `makeRequest`, or the exception it throws first. */
module Playlists {
  import opened Wrappers
  import opened Text
  import opened Json
  import opened Http
  import opened Client
  import opened ServiceCommon

  /** The most track objects `remove` may send. */
  const MaxObjects: nat := 100
  const MaxObjectsMessage: string := "Maximum 100 objects allowed per request"

  /** `get`: one playlist. */
  function Get(id: string, options: Options): Call
  {
    Plain(GET, "playlists/" + Trim(id), Named("Playlist"), options)
  }

  /** The body of `changeDetails` and `create`: `{name, public: isPublic, collaborative, description}`. */
  function DetailsFields(name: Option<string>, isPublic: Option<bool>, collaborative: Option<bool>, description: Option<string>): Fields
  {
    [("name", OptString(name)), ("public", OptBool(isPublic)), ("collaborative", OptBool(collaborative)), ("description", OptString(description))]
  }

  /** `changeDetails`: renames the playlist or changes its state. */
  function ChangeDetails(playlistId: string, name: Option<string>, isPublic: Option<bool>, collaborative: Option<bool>, description: Option<string>): Call
  {
    Call(PUT, "playlists/" + Trim(playlistId), VoidSchema, [], [], Some(JsonBody(DetailsFields(name, isPublic, collaborative, description))))
  }

  /** `getItems`: a page of the playlist's items. */
  function GetItems(id: string, options: Options): Call
  {
    Plain(GET, "playlists/" + Trim(id) + "/tracks", PageOf(Named("PlaylistTrack")), options)
  }

  /** The body of `updateItems`, under the API's snake-case names. */
  function UpdateFields(uris: Option<seq<string>>, rangeStart: Option<int>, insertBefore: Option<int>, rangeLength: Option<int>, snapshotId: Option<string>): Fields
  {
    [("uris", OptStrings(uris)), ("range_start", OptNumber(rangeStart)), ("insert_before", OptNumber(insertBefore)),
     ("range_length", OptNumber(rangeLength)), ("snapshot_id", OptString(snapshotId))]
  }

  /** `updateItems`: reorders or replaces the playlist's items; the reply is the new snapshot ID. */
  function UpdateItems(playlistId: string, uris: Option<seq<string>>, rangeStart: Option<int>, insertBefore: Option<int>, rangeLength: Option<int>, snapshotId: Option<string>): Call
  {
    Call(PUT, "playlists/" + Trim(playlistId) + "/tracks", StringSchema, [], [],
      Some(JsonBody(UpdateFields(uris, rangeStart, insertBefore, rangeLength, snapshotId))))
  }

  /** The body of `add`: `{position, uris}`. */
  function AddFields(position: Option<int>, uris: Option<seq<string>>): Fields
  {
    [("position", OptNumber(position)), ("uris", OptStrings(uris))]
  }

  /** `add` as written: the playlist ID goes into the route untrimmed. */
  function Add(playlistId: string, position: Option<int>, uris: Option<seq<string>>): Call
  {
    Call(POST, "playlists/" + playlistId + "/tracks", StringSchema, [], [], Some(JsonBody(AddFields(position, uris))))
  }

  /** `add` as evidently intended: the ID trimmed, as in every other playlist route. */
  function AddIntended(playlistId: string, position: Option<int>, uris: Option<seq<string>>): Call
  {
    Call(POST, "playlists/" + Trim(playlistId) + "/tracks", StringSchema, [], [], Some(JsonBody(AddFields(position, uris))))
  }

  /** `{uri}` for each URI, in order. */
  function TrackObjects(uris: seq<string>): (r: Json)
    ensures r.JArr? && |r.items| == |uris|
    ensures forall i :: 0 <= i < |uris| ==> r.items[i] == JObj([Member("uri", JStr(uris[i]))])
  {
    JArr(seq(|uris|, i requires 0 <= i < |uris| => JObj([Member("uri", JStr(uris[i]))])))
  }

  /** The body of `remove`: `{tracks, snapshot_id}`. */
  function RemoveFields(tracks: Option<seq<string>>, snapshotId: Option<string>): Fields
  {
    [("tracks", if tracks.Some? then Some(TrackObjects(tracks.value)) else None), ("snapshot_id", OptString(snapshotId))]
  }

  /**
   * `remove`: more than 100 track objects throw before any request; when
   * `tracks` is undefined, `tracks?.length > 100` is false and the call is made.
   */
  function Remove(playlistId: string, tracks: Option<seq<string>>, snapshotId: Option<string>): (r: Result<Call, ServiceError>)
    ensures r.Failure? <==> tracks.Some? && |tracks.value| > MaxObjects
    ensures r.Failure? ==> r.error == IllegalArgumentException(MaxObjectsMessage)
  {
    if tracks.Some? && |tracks.value| > MaxObjects then Failure(IllegalArgumentException(MaxObjectsMessage))
    else Success(Call(DELETE, "playlists/" + Trim(playlistId) + "/tracks", StringSchema, [], [],
      Some(JsonBody(RemoveFields(tracks, snapshotId)))))
  }

  /** `getPlaylists`: the current user's playlists. */
  function GetPlaylists(options: Options): Call
  {
    Plain(GET, "me/playlists", PageOf(Named("SimplifiedPlaylist")), options)
  }

  /** `getUsersPlaylists`: a user's playlists. */
  function GetUsersPlaylists(id: string, options: Options): Call
  {
    Plain(GET, "users/" + Trim(id) + "/playlists", PageOf(Named("SimplifiedPlaylist")), options)
  }

  /** `create` as written: the user ID goes into the route untrimmed; the name is required. */
  function Create(userId: string, name: string, isPublic: Option<bool>, collaborative: Option<bool>, description: Option<string>): Call
  {
    Call(POST, "users/" + userId + "/playlists", Named("Playlist"), [], [], Some(JsonBody(DetailsFields(Some(name), isPublic, collaborative, description))))
  }

  /** `create` as evidently intended: the user ID trimmed, as in `getUsersPlaylists`. */
  function CreateIntended(userId: string, name: string, isPublic: Option<bool>, collaborative: Option<bool>, description: Option<string>): Call
  {
    Call(POST, "users/" + Trim(userId) + "/playlists", Named("Playlist"), [], [], Some(JsonBody(DetailsFields(Some(name), isPublic, collaborative, description))))
  }

  /** `getCoverImage`: the playlist's images. */
  function GetCoverImage(id: string): Call
  {
    Plain(GET, "playlists/" + Trim(id) + "/images", ArrayOf(Named("Image")), [])
  }

  /** The custom header of `addCustomCoverImage`. */
  const JpegHeaders: Headers := [("Content-Type", "image/jpeg")]

  /** `addCustomCoverImage`: the base64 JPEG, trimmed, is the body. */
  function AddCustomCoverImage(id: string, image: string): Call
  {
    Call(PUT, "playlists/" + Trim(id) + "/images", VoidSchema, [], JpegHeaders, Some(Trim(image)))
  }

  // ---------------------------------------------------------------------------
  // What each route and body reads back as
  // ---------------------------------------------------------------------------

  lemma PlaylistLiterals()
    ensures PlainSegments(["playlists"]) && PlainSegments(["tracks"]) && PlainSegments(["images"])
    ensures "playlists/" == Join(["playlists"], "/") + "/"
    ensures "/tracks" == "/" + Join(["tracks"], "/")
    ensures "/images" == "/" + Join(["images"], "/")
  {
  }

  lemma UserLiterals()
    ensures PlainSegments(["users"]) && PlainSegments(["playlists"])
    ensures "users/" == Join(["users"], "/") + "/"
    ensures "/playlists" == "/" + Join(["playlists"], "/")
  {
  }

  lemma DetailsNames(name: Option<string>, isPublic: Option<bool>, collaborative: Option<bool>, description: Option<string>)
    ensures var f := DetailsFields(name, isPublic, collaborative, description);
      DistinctNames(f) && f[0].0 == "name" && f[1].0 == "public" && f[2].0 == "collaborative" && f[3].0 == "description"
  {
  }

  lemma UpdateNames(uris: Option<seq<string>>, rangeStart: Option<int>, insertBefore: Option<int>, rangeLength: Option<int>, snapshotId: Option<string>)
    ensures var f := UpdateFields(uris, rangeStart, insertBefore, rangeLength, snapshotId);
      DistinctNames(f) && f[0].0 == "uris" && f[1].0 == "range_start" && f[2].0 == "insert_before" &&
      f[3].0 == "range_length" && f[4].0 == "snapshot_id"
  {
  }

  /** `get` and `changeDetails` address the same resource: "playlists" and the trimmed ID. */
  lemma PlaylistRoute(id: string, options: Options, name: Option<string>, isPublic: Option<bool>, collaborative: Option<bool>, description: Option<string>)
    requires PlainId(id)
    ensures Get(id, options).verb == GET && Get(id, options).options == options
    ensures Segments(Get(id, options).route) == ["playlists", Trim(id)] && ParamsOf(Get(id, options).route) == []
    ensures ChangeDetails(id, name, isPublic, collaborative, description).verb == PUT
    ensures ChangeDetails(id, name, isPublic, collaborative, description).route == Get(id, options).route
  {
    PlaylistLiterals();
    IdRoute(Get(id, options).route, "playlists/", ["playlists"], Trim(id));
  }

  /**
   * The `changeDetails` body holds each given detail under its API name and
   * leaves out the undefined ones; `public` carries `isPublic`.
   */
  lemma ChangeDetailsBody(id: string, name: Option<string>, isPublic: Option<bool>, collaborative: Option<bool>, description: Option<string>)
    ensures var b := ChangeDetails(id, name, isPublic, collaborative, description).body;
      BodyField(b, "name") == OptString(name) && BodyField(b, "public") == OptBool(isPublic) &&
      BodyField(b, "collaborative") == OptBool(collaborative) && BodyField(b, "description") == OptString(description)
  {
    var f := DetailsFields(name, isPublic, collaborative, description);
    DetailsNames(name, isPublic, collaborative, description);
    BodyFieldAt(f, 0);
    BodyFieldAt(f, 1);
    BodyFieldAt(f, 2);
    BodyFieldAt(f, 3);
  }

  /** `getItems` is a GET of "playlists", the trimmed ID and "tracks", with the caller's options. */
  lemma GetItemsRoute(id: string, options: Options)
    requires PlainId(id)
    ensures GetItems(id, options).verb == GET && GetItems(id, options).options == options
    ensures Segments(GetItems(id, options).route) == ["playlists", Trim(id), "tracks"] && ParamsOf(GetItems(id, options).route) == []
  {
    PlaylistLiterals();
    IdPathRoute(GetItems(id, options).route, "playlists/", ["playlists"], Trim(id), "/tracks", ["tracks"]);
  }

  /** `updateItems` and `remove` (within its limit) are a PUT and a DELETE of the route `getItems` reads. */
  lemma ItemsRoutes(id: string, options: Options, uris: Option<seq<string>>, snapshotId: Option<string>, tracks: Option<seq<string>>)
    requires tracks.None? || |tracks.value| <= MaxObjects
    ensures UpdateItems(id, uris, None, None, None, snapshotId).verb == PUT
    ensures UpdateItems(id, uris, None, None, None, snapshotId).route == GetItems(id, options).route
    ensures Remove(id, tracks, snapshotId).value.verb == DELETE
    ensures Remove(id, tracks, snapshotId).value.route == GetItems(id, options).route
  {
    var route := "playlists/" + Trim(id) + "/tracks";
    assert GetItems(id, options).route == route;
    assert UpdateItems(id, uris, None, None, None, snapshotId).route == route;
    var r := Remove(id, tracks, snapshotId);
    assert r.Success?;
    assert r.value.route == route;
  }

  /** The `updateItems` body holds each given field under its snake-case API name. */
  lemma UpdateItemsBody(id: string, uris: Option<seq<string>>, rangeStart: Option<int>, insertBefore: Option<int>, rangeLength: Option<int>, snapshotId: Option<string>)
    ensures var b := UpdateItems(id, uris, rangeStart, insertBefore, rangeLength, snapshotId).body;
      BodyField(b, "uris") == OptStrings(uris) && BodyField(b, "range_start") == OptNumber(rangeStart) &&
      BodyField(b, "insert_before") == OptNumber(insertBefore) && BodyField(b, "range_length") == OptNumber(rangeLength) &&
      BodyField(b, "snapshot_id") == OptString(snapshotId)
  {
    var f := UpdateFields(uris, rangeStart, insertBefore, rangeLength, snapshotId);
    UpdateNames(uris, rangeStart, insertBefore, rangeLength, snapshotId);
    BodyFieldAt(f, 0);
    BodyFieldAt(f, 1);
    BodyFieldAt(f, 2);
    BodyFieldAt(f, 3);
    BodyFieldAt(f, 4);
  }

  /**
   * Within the limit, the `remove` body holds one `{uri}` object per URI, in
   * order, under `tracks`, and the snapshot ID under `snapshot_id`.
   */
  lemma RemoveBody(id: string, tracks: seq<string>, snapshotId: Option<string>)
    requires |tracks| <= MaxObjects
    ensures var b := Remove(id, Some(tracks), snapshotId).value.body;
      BodyField(b, "tracks") == Some(TrackObjects(tracks)) && BodyField(b, "snapshot_id") == OptString(snapshotId)
  {
    var f := RemoveFields(Some(tracks), snapshotId);
    assert DistinctNames(f) && f[0].0 == "tracks" && f[1].0 == "snapshot_id";
    BodyFieldAt(f, 0);
    BodyFieldAt(f, 1);
  }

  /** The limit is inclusive: 100 objects are sent, 101 throw, and no `tracks` at all passes the guard. */
  lemma RemoveGuardBoundary(id: string, tracks: seq<string>, snapshotId: Option<string>)
    ensures |tracks| == 100 ==> Remove(id, Some(tracks), snapshotId).Success?
    ensures |tracks| == 101 ==> Remove(id, Some(tracks), snapshotId) == Failure(IllegalArgumentException("Maximum 100 objects allowed per request"))
    ensures Remove(id, None, snapshotId).Success?
  {
  }

  /** The `add` body holds the position and the URIs under their own names. */
  lemma AddBody(id: string, position: Option<int>, uris: Option<seq<string>>)
    ensures BodyField(Add(id, position, uris).body, "position") == OptNumber(position)
    ensures BodyField(Add(id, position, uris).body, "uris") == OptStrings(uris)
    ensures Add(id, position, uris).verb == POST && Add(id, position, uris).body == AddIntended(id, position, uris).body
  {
    var f := AddFields(position, uris);
    assert DistinctNames(f) && f[0].0 == "position" && f[1].0 == "uris";
    BodyFieldAt(f, 0);
    BodyFieldAt(f, 1);
  }

  /**
   * As written, `add` reads back with the untrimmed ID as its second segment,
   * so an ID with surrounding blanks names another resource than the one
   * `updateItems` and `remove` change for the same ID.
   */
  lemma AddRouteUntrimmed(id: string, position: Option<int>, uris: Option<seq<string>>, snapshotId: Option<string>)
    requires '/' !in id && '?' !in id && PlainId(id)
    ensures Segments(Add(id, position, uris).route) == ["playlists", id, "tracks"]
    ensures Trim(id) != id ==> Add(id, position, uris).route != UpdateItems(id, uris, None, None, None, snapshotId).route
  {
    PlaylistLiterals();
    IdPathRoute(Add(id, position, uris).route, "playlists/", ["playlists"], id, "/tracks", ["tracks"]);
    GetItemsRoute(id, []);
  }

  /** Corrected, `add` posts to the route `updateItems` and `getItems` use. */
  lemma AddIntendedRoute(id: string, position: Option<int>, uris: Option<seq<string>>, snapshotId: Option<string>)
    requires PlainId(id)
    ensures Segments(AddIntended(id, position, uris).route) == ["playlists", Trim(id), "tracks"]
    ensures AddIntended(id, position, uris).route == UpdateItems(id, uris, None, None, None, snapshotId).route
  {
    GetItemsRoute(id, []);
  }

  /** `getPlaylists` is a GET of "me" and "playlists" with the caller's options. */
  lemma GetPlaylistsRoute(options: Options)
    ensures GetPlaylists(options).verb == GET && GetPlaylists(options).options == options
    ensures Segments(GetPlaylists(options).route) == ["me", "playlists"] && ParamsOf(GetPlaylists(options).route) == []
  {
    JoinTwo("me", "playlists", "/");
    FixedRoute("me/playlists", ["me", "playlists"]);
  }

  /** `getUsersPlaylists` reads back as "users", the trimmed ID and "playlists". */
  lemma UsersPlaylistsRoute(id: string, options: Options)
    requires PlainId(id)
    ensures GetUsersPlaylists(id, options).verb == GET && GetUsersPlaylists(id, options).options == options
    ensures Segments(GetUsersPlaylists(id, options).route) == ["users", Trim(id), "playlists"]
    ensures ParamsOf(GetUsersPlaylists(id, options).route) == []
  {
    UserLiterals();
    IdPathRoute(GetUsersPlaylists(id, options).route, "users/", ["users"], Trim(id), "/playlists", ["playlists"]);
  }

  /** The `create` body always holds the name, and the other details as `changeDetails` writes them. */
  lemma CreateBody(userId: string, name: string, isPublic: Option<bool>, collaborative: Option<bool>, description: Option<string>)
    ensures Create(userId, name, isPublic, collaborative, description).verb == POST
    ensures BodyField(Create(userId, name, isPublic, collaborative, description).body, "name") == Some(JStr(name))
    ensures Create(userId, name, isPublic, collaborative, description).body == ChangeDetails(userId, Some(name), isPublic, collaborative, description).body
  {
    var f := DetailsFields(Some(name), isPublic, collaborative, description);
    DetailsNames(Some(name), isPublic, collaborative, description);
    BodyFieldAt(f, 0);
  }

  /**
   * As written, `create` reads back with the untrimmed user ID, so a padded
   * ID names another user than `getUsersPlaylists` does for the same ID.
   */
  lemma CreateRouteUntrimmed(userId: string, name: string, options: Options)
    requires '/' !in userId && '?' !in userId && PlainId(userId)
    ensures Segments(Create(userId, name, None, None, None).route) == ["users", userId, "playlists"]
    ensures Trim(userId) != userId ==> Create(userId, name, None, None, None).route != GetUsersPlaylists(userId, options).route
  {
    UserLiterals();
    IdPathRoute(Create(userId, name, None, None, None).route, "users/", ["users"], userId, "/playlists", ["playlists"]);
    UsersPlaylistsRoute(userId, options);
  }

  /** Corrected, `create` posts to the route `getUsersPlaylists` reads. */
  lemma CreateIntendedRoute(userId: string, name: string, options: Options)
    requires PlainId(userId)
    ensures Segments(CreateIntended(userId, name, None, None, None).route) == ["users", Trim(userId), "playlists"]
    ensures CreateIntended(userId, name, None, None, None).route == GetUsersPlaylists(userId, options).route
  {
    UsersPlaylistsRoute(userId, options);
  }

  /** `getCoverImage` and `addCustomCoverImage` are a GET and a PUT of "playlists", the trimmed ID and "images". */
  lemma CoverImageRoute(id: string, image: string)
    requires PlainId(id)
    ensures GetCoverImage(id).verb == GET && AddCustomCoverImage(id, image).verb == PUT
    ensures Segments(GetCoverImage(id).route) == ["playlists", Trim(id), "images"] && ParamsOf(GetCoverImage(id).route) == []
    ensures AddCustomCoverImage(id, image).route == GetCoverImage(id).route
  {
    PlaylistLiterals();
    IdPathRoute(GetCoverImage(id).route, "playlists/", ["playlists"], Trim(id), "/images", ["images"]);
  }

  /**
   * The upload sends the trimmed image as its body, and nothing when that is
   * empty, with `Content-Type: image/jpeg` beside the authorization header.
   */
  lemma CoverImageUpload(id: string, image: string, authorization: string)
    ensures SentBody(AddCustomCoverImage(id, image).body) == if Trim(image) == "" then None else Some(Trim(image))
    ensures HeaderValue(MergeHeaders(authorization, AddCustomCoverImage(id, image).headers), "Content-Type") == Some("image/jpeg")
    ensures HeaderValue(MergeHeaders(authorization, AddCustomCoverImage(id, image).headers), "Authorization") == Some(authorization)
  {
    MergeHeadersValues(authorization, JpegHeaders, "Content-Type");
    MergeHeadersValues(authorization, JpegHeaders, "Authorization");
  }
}
