/** `UserService` (users.ts): the call each method hands to `makeRequest`, or the exception it throws first. */
module Users {
  import opened Wrappers
  import opened Text
  import opened Json
  import opened Http
  import opened Client
  import opened ServiceCommon

  /** The most IDs one request may carry. */
  const MaxIds: nat := 50
  const MaxIdsMessage: string := "Maximum 50 IDs allowed per request"

  /** The `type` of `getTopItems`: "artists" or "tracks". */
  datatype TopItemsType = TopArtists | TopTracks

  function TopItemsText(t: TopItemsType): string
  {
    match t
    case TopArtists => "artists"
    case TopTracks => "tracks"
  }

  /** The `type` of the follow calls: "artist" or "user". */
  datatype FollowType = ArtistIds | UserIds

  function FollowText(t: FollowType): string
  {
    match t
    case ArtistIds => "artist"
    case UserIds => "user"
  }

  /** `getCurrentUser`. */
  function GetCurrentUser(): Call
  {
    Plain(GET, "me", Named("User"), [])
  }

  /** `getTopItems`: the schema is a page of tracks when the type is "tracks", a page of artists otherwise. */
  function GetTopItems(t: TopItemsType, options: Options): Call
  {
    Plain(GET, "me/top/" + TopItemsText(t),
      if TopItemsText(t) == "tracks" then PageOf(Named("Track")) else PageOf(Named("Artist")),
      options)
  }

  /** `getUser`: a user's public profile. */
  function GetUser(id: string): Call
  {
    Plain(GET, "users/" + Trim(id), Named("User"), [])
  }

  /** The body of `followPlaylist`: `{public: isPublic}`. */
  function FollowPlaylistFields(isPublic: Option<bool>): Fields
  {
    [("public", OptBool(isPublic))]
  }

  /** `followPlaylist`. */
  function FollowPlaylist(id: string, isPublic: Option<bool>): Call
  {
    Call(PUT, "playlists/" + Trim(id) + "/followers", VoidSchema, [], [], Some(JsonBody(FollowPlaylistFields(isPublic))))
  }

  /** `unfollowPlaylist`. */
  function UnfollowPlaylist(id: string): Call
  {
    Plain(DELETE, "playlists/" + Trim(id) + "/followers", VoidSchema, [])
  }

  /** `getFollowedArtists`: the only type the request allows is "artist". */
  function GetFollowedArtists(options: Options): Call
  {
    Plain(GET, "me/following?type=" + FollowText(ArtistIds), Named("FollowedArtist"), options)
  }

  /** `follow`: follows artists or users. */
  function Follow(t: FollowType, ids: seq<string>): (r: Result<Call, ServiceError>)
    ensures r.Success? <==> |ids| <= MaxIds
    ensures r.Failure? ==> r.error == IllegalArgumentException(MaxIdsMessage)
  {
    match EncodeIds(ids, MaxIds, MaxIdsMessage)
    case Failure(e) => Failure(e)
    case Success(encodedIds) => Success(Plain(PUT, "me/following?type=" + FollowText(t) + "&ids=" + encodedIds, VoidSchema, []))
  }

  /** `unfollow`: unfollows artists or users. */
  function Unfollow(t: FollowType, ids: seq<string>): (r: Result<Call, ServiceError>)
    ensures r.Success? <==> |ids| <= MaxIds
    ensures r.Failure? ==> r.error == IllegalArgumentException(MaxIdsMessage)
  {
    match EncodeIds(ids, MaxIds, MaxIdsMessage)
    case Failure(e) => Failure(e)
    case Success(encodedIds) => Success(Plain(DELETE, "me/following?type=" + FollowText(t) + "&ids=" + encodedIds, VoidSchema, []))
  }

  /** `checkFollowed`: whether the user follows each artist or user. */
  function CheckFollowed(t: FollowType, ids: seq<string>): (r: Result<Call, ServiceError>)
    ensures r.Success? <==> |ids| <= MaxIds
    ensures r.Failure? ==> r.error == IllegalArgumentException(MaxIdsMessage)
  {
    match EncodeIds(ids, MaxIds, MaxIdsMessage)
    case Failure(e) => Failure(e)
    case Success(encodedIds) =>
      Success(Plain(GET, "me/following/contains?type=" + FollowText(t) + "&ids=" + encodedIds, ArrayOf(BooleanSchema), []))
  }

  /** `isFollowingPlaylist` as written: the first segment is the singular "playlist". */
  function IsFollowingPlaylist(id: string): Call
  {
    Plain(GET, "playlist/" + Trim(id) + "/followers/contains", ArrayOf(BooleanSchema), [])
  }

  /** `isFollowingPlaylist` as evidently intended: under "playlists", like `followPlaylist`. */
  function IsFollowingPlaylistIntended(id: string): Call
  {
    Plain(GET, "playlists/" + Trim(id) + "/followers/contains", ArrayOf(BooleanSchema), [])
  }

  // ---------------------------------------------------------------------------
  // What each route and body reads back as
  // ---------------------------------------------------------------------------

  lemma ProfileLiterals()
    ensures PlainSegments(["me", "top"]) && PlainSegments(["users"])
    ensures "me/top/" == Join(["me", "top"], "/") + "/"
    ensures "users/" == Join(["users"], "/") + "/"
  {
    JoinTwo("me", "top", "/");
  }

  lemma PlaylistLiterals()
    ensures PlainSegments(["playlists"]) && PlainSegments(["playlist"])
    ensures PlainSegments(["followers"]) && PlainSegments(["followers", "contains"])
    ensures "playlists/" == Join(["playlists"], "/") + "/"
    ensures "playlist/" == Join(["playlist"], "/") + "/"
    ensures "/followers" == "/" + Join(["followers"], "/")
    ensures "/followers/contains" == "/" + Join(["followers", "contains"], "/")
  {
    JoinTwo("followers", "contains", "/");
  }

  lemma FollowingLiterals()
    ensures PlainSegments(["me", "following"])
    ensures "me/following?type=" == Join(["me", "following"], "/") + "?" + "type" + "="
  {
    JoinTwo("me", "following", "/");
  }

  lemma ContainsLiterals()
    ensures PlainSegments(["me", "following", "contains"])
    ensures "me/following/contains?type=" == Join(["me", "following", "contains"], "/") + "?" + "type" + "="
  {
    JoinThree("me", "following", "contains", "/");
  }

  /** The type texts hold no character the reader cuts at. */
  lemma FollowTextPlain(t: FollowType)
    ensures '&' !in FollowText(t) && '/' !in FollowText(t) && '?' !in FollowText(t)
  {
  }

  /**
   * `getTopItems` reads back as "me", "top" and the type, and decodes a page
   * of tracks exactly when the type is "tracks", a page of artists otherwise.
   */
  lemma TopItemsRoute(t: TopItemsType, options: Options)
    ensures GetTopItems(t, options).verb == GET && GetTopItems(t, options).options == options
    ensures Segments(GetTopItems(t, options).route) == ["me", "top", TopItemsText(t)]
    ensures ParamsOf(GetTopItems(t, options).route) == []
    ensures GetTopItems(t, options).schema == PageOf(Named("Track")) <==> t == TopTracks
    ensures GetTopItems(t, options).schema == PageOf(Named("Artist")) <==> t == TopArtists
  {
    ProfileLiterals();
    assert '/' !in TopItemsText(t) && '?' !in TopItemsText(t);
    IdRoute(GetTopItems(t, options).route, "me/top/", ["me", "top"], TopItemsText(t));
  }

  /** `getUser` reads back as "users" and the trimmed ID, with no query options. */
  lemma GetUserRoute(id: string)
    requires PlainId(id)
    ensures GetUser(id).verb == GET && GetUser(id).options == []
    ensures Segments(GetUser(id).route) == ["users", Trim(id)]
    ensures ParamsOf(GetUser(id).route) == []
  {
    ProfileLiterals();
    IdRoute(GetUser(id).route, "users/", ["users"], Trim(id));
  }

  /**
   * `followPlaylist` is a PUT and `unfollowPlaylist` a DELETE of the same
   * route, "playlists", the trimmed ID and "followers"; the follow body's only
   * key `public` holds `isPublic` and is left out when it is undefined.
   */
  lemma FollowPlaylistRoutes(id: string, isPublic: Option<bool>)
    requires PlainId(id)
    ensures FollowPlaylist(id, isPublic).verb == PUT && UnfollowPlaylist(id).verb == DELETE
    ensures FollowPlaylist(id, isPublic).route == UnfollowPlaylist(id).route
    ensures Segments(FollowPlaylist(id, isPublic).route) == ["playlists", Trim(id), "followers"]
    ensures ParamsOf(FollowPlaylist(id, isPublic).route) == []
    ensures BodyField(FollowPlaylist(id, isPublic).body, "public") == OptBool(isPublic)
    ensures UnfollowPlaylist(id).body.None?
  {
    PlaylistLiterals();
    IdPathRoute(FollowPlaylist(id, isPublic).route, "playlists/", ["playlists"], Trim(id), "/followers", ["followers"]);
    JsonBodyField(FollowPlaylistFields(isPublic), "public");
  }

  /** `getFollowedArtists` is a GET of "me/following" whose first query entry is `type=artist`, the options following. */
  lemma FollowedArtistsRoute(options: Options)
    ensures GetFollowedArtists(options).options == options
    ensures Segments(GetFollowedArtists(options).route) == ["me", "following"]
    ensures ParamsOf(GetFollowedArtists(options).route) == [("type", "artist")]
  {
    FollowingLiterals();
    OneParamRoute("me/following?type=", ["me", "following"], "type", "artist");
  }

  /**
   * Within the limit, `follow` is a PUT and `unfollow` a DELETE of
   * "me/following" whose entries are `type` then `ids`, the trimmed IDs
   * joined by "%2C".
   */
  lemma FollowRoutes(t: FollowType, ids: seq<string>)
    requires |ids| <= MaxIds && PlainIds(ids)
    ensures Follow(t, ids).value.verb == PUT && Unfollow(t, ids).value.verb == DELETE
    ensures Follow(t, ids).value.route == Unfollow(t, ids).value.route
    ensures Segments(Follow(t, ids).value.route) == ["me", "following"]
    ensures ParamsOf(Follow(t, ids).value.route) == [("type", FollowText(t)), ("ids", JoinTrimmed(ids))]
  {
    FollowingLiterals();
    FollowTextPlain(t);
    JoinTrimmedExcludes(ids, '&');
    TypedIdListRoute("me/following?type=", ["me", "following"], FollowText(t), JoinTrimmed(ids));
  }

  /** Within the limit, `checkFollowed` is a GET of "me/following/contains" with `type` then `ids`. */
  lemma CheckFollowedRoute(t: FollowType, ids: seq<string>)
    requires |ids| <= MaxIds && PlainIds(ids)
    ensures CheckFollowed(t, ids).value.verb == GET && CheckFollowed(t, ids).value.schema == ArrayOf(BooleanSchema)
    ensures Segments(CheckFollowed(t, ids).value.route) == ["me", "following", "contains"]
    ensures ParamsOf(CheckFollowed(t, ids).value.route) == [("type", FollowText(t)), ("ids", JoinTrimmed(ids))]
  {
    ContainsLiterals();
    FollowTextPlain(t);
    JoinTrimmedExcludes(ids, '&');
    TypedIdListRoute("me/following/contains?type=", ["me", "following", "contains"], FollowText(t), JoinTrimmed(ids));
  }

  /**
   * As written, `isFollowingPlaylist` reads back under "playlist", so its
   * first segment differs from the "playlists" of `followPlaylist`.
   */
  lemma IsFollowingPlaylistRoute(id: string, isPublic: Option<bool>)
    requires PlainId(id)
    ensures Segments(IsFollowingPlaylist(id).route) == ["playlist", Trim(id), "followers", "contains"]
    ensures Segments(IsFollowingPlaylist(id).route)[0] != Segments(FollowPlaylist(id, isPublic).route)[0]
  {
    PlaylistLiterals();
    IdPathRoute(IsFollowingPlaylist(id).route, "playlist/", ["playlist"], Trim(id), "/followers/contains", ["followers", "contains"]);
    FollowPlaylistRoutes(id, isPublic);
  }

  /** Corrected, `isFollowingPlaylist` reads back under "playlists", the first segment of the `followPlaylist` route. */
  lemma IsFollowingPlaylistIntendedRoute(id: string, isPublic: Option<bool>)
    requires PlainId(id)
    ensures IsFollowingPlaylistIntended(id).verb == GET
    ensures Segments(IsFollowingPlaylistIntended(id).route) == ["playlists", Trim(id), "followers", "contains"]
    ensures Segments(IsFollowingPlaylistIntended(id).route)[0] == Segments(FollowPlaylist(id, isPublic).route)[0]
    ensures ParamsOf(IsFollowingPlaylistIntended(id).route) == []
  {
    PlaylistLiterals();
    IdPathRoute(IsFollowingPlaylistIntended(id).route, "playlists/", ["playlists"], Trim(id), "/followers/contains", ["followers", "contains"]);
    FollowPlaylistRoutes(id, isPublic);
  }

  /** The limit is inclusive: 50 IDs are accepted and 51 rejected before any call is built. */
  lemma GuardBoundary(t: FollowType, ids: seq<string>)
    ensures |ids| == 50 ==> Follow(t, ids).Success? && Unfollow(t, ids).Success? && CheckFollowed(t, ids).Success?
    ensures |ids| == 51 ==> Follow(t, ids) == Failure(IllegalArgumentException("Maximum 50 IDs allowed per request"))
  {
  }
}
