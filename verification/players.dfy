/**
 * `PlayerService` (players.ts): the call each method hands to `makeRequest`.
 * Most player commands take an optional device ID and add a `device_id` entry
 * to the query only when it is truthy, that is, given and not empty.
 */
module Players {
  import opened Wrappers
  import opened Text
  import opened Json
  import opened Http
  import opened Client
  import opened ServiceCommon

  /** A JavaScript string in a condition: `undefined` and "" are false. */
  predicate Truthy(deviceId: Option<string>)
  {
    deviceId.Some? && deviceId.value != ""
  }

  /** `${state}` of a boolean. */
  function BoolText(b: bool): string
  {
    if b then "true" else "false"
  }

  /** The repeat modes `setRepeatMode` accepts. */
  datatype RepeatState = RepeatTrack | RepeatContext | RepeatOff

  function RepeatText(s: RepeatState): string
  {
    match s
    case RepeatTrack => "track"
    case RepeatContext => "context"
    case RepeatOff => "off"
  }

  /** A volume in percent: the request type only admits 0 to 100. */
  type Percent = x: int | 0 <= x <= 100

  /** Where playback starts in a context: a position in it, or an item's URI. */
  datatype Offset = PositionOffset(position: int) | UriOffset(uri: string)

  function OffsetJson(o: Offset): Json
  {
    match o
    case PositionOffset(p) => JObj([Member("position", JNum(p))])
    case UriOffset(u) => JObj([Member("uri", JStr(u))])
  }

  /** `getPlaybackState`. */
  function GetPlaybackState(options: Options): Call
  {
    Plain(GET, "me/player", Named("PlaybackState"), options)
  }

  /** The body of `transferPlayback`: `{device_ids: [deviceId.trim()], play: playbackState}`. */
  function TransferFields(deviceIds: seq<string>, playbackState: Option<bool>): Fields
  {
    [("device_ids", Some(Strings(deviceIds))), ("play", OptBool(playbackState))]
  }

  /** `transferPlayback`: moves playback to one device. */
  function TransferPlayback(deviceId: string, playbackState: Option<bool>): Call
  {
    Call(PUT, "me/player", VoidSchema, [], [], Some(JsonBody(TransferFields([Trim(deviceId)], playbackState))))
  }

  /** `getDevices`. */
  function GetDevices(): Call
  {
    Plain(GET, "me/player/devices", ArrayOf(Named("Device")), [])
  }

  /** `getCurrentlyPlaying`. */
  function GetCurrentlyPlaying(options: Options): Call
  {
    Plain(GET, "me/player/currently-playing", Named("PlaybackState"), options)
  }

  /** The body of `startOrResumePlayback`. */
  function StartFields(contextUri: Option<string>, uris: Option<seq<string>>, offset: Option<Offset>, positionMs: int): Fields
  {
    [("position_ms", Some(JNum(positionMs))), ("context_uri", OptString(contextUri)), ("uris", OptStrings(uris)),
     ("offset", if offset.Some? then Some(OffsetJson(offset.value)) else None)]
  }

  /** `startOrResumePlayback` as written: its route starts with a '/'. */
  function StartOrResumePlayback(deviceId: Option<string>, contextUri: Option<string>, uris: Option<seq<string>>, offset: Option<Offset>, positionMs: int): Call
  {
    Call(PUT, if Truthy(deviceId) then "/me/player/play?device_id=" + deviceId.value else "/me/player/play",
      VoidSchema, [], [], Some(JsonBody(StartFields(contextUri, uris, offset, positionMs))))
  }

  /** `startOrResumePlayback` as evidently intended: relative to the base URL, like every other route. */
  function StartOrResumePlaybackIntended(deviceId: Option<string>, contextUri: Option<string>, uris: Option<seq<string>>, offset: Option<Offset>, positionMs: int): Call
  {
    Call(PUT, if Truthy(deviceId) then "me/player/play?device_id=" + deviceId.value else "me/player/play",
      VoidSchema, [], [], Some(JsonBody(StartFields(contextUri, uris, offset, positionMs))))
  }

  /** `pausePlayback`. */
  function PausePlayback(deviceId: Option<string>): Call
  {
    Plain(PUT, if Truthy(deviceId) then "me/player/pause?device_id=" + deviceId.value else "me/player/pause", VoidSchema, [])
  }

  /** `skipToNext`. */
  function SkipToNext(deviceId: Option<string>): Call
  {
    Plain(POST, if Truthy(deviceId) then "me/player/next?device_id=" + deviceId.value else "me/player/next", VoidSchema, [])
  }

  /** `skipToPrevious`. */
  function SkipToPrevious(deviceId: Option<string>): Call
  {
    Plain(POST, if Truthy(deviceId) then "me/player/previous?device_id=" + deviceId.value else "me/player/previous", VoidSchema, [])
  }

  /** `seekToPosition`: the position in milliseconds, in decimal. */
  function SeekToPosition(positionMs: int, deviceId: Option<string>): Call
  {
    Plain(PUT,
      if Truthy(deviceId) then "me/player/seek?position_ms=" + IntToString(positionMs) + "&device_id=" + deviceId.value
      else "me/player/seek?position_ms=" + IntToString(positionMs),
      VoidSchema, [])
  }

  /** `setRepeatMode`. */
  function SetRepeatMode(state: RepeatState, deviceId: Option<string>): Call
  {
    Plain(PUT,
      if Truthy(deviceId) then "me/player/repeat?state=" + RepeatText(state) + "&device_id=" + deviceId.value
      else "me/player/repeat?state=" + RepeatText(state),
      VoidSchema, [])
  }

  /** `setPlaybackVolume`. */
  function SetPlaybackVolume(volumePercent: Percent, deviceId: Option<string>): Call
  {
    Plain(PUT,
      if Truthy(deviceId) then "me/player/volume?volume_percent=" + IntToString(volumePercent) + "&device_id=" + deviceId.value
      else "me/player/volume?volume_percent=" + IntToString(volumePercent),
      VoidSchema, [])
  }

  /** `togglePlaybackShuffle`. */
  function TogglePlaybackShuffle(state: bool, deviceId: Option<string>): Call
  {
    Plain(PUT,
      if Truthy(deviceId) then "me/player/shuffle?state=" + BoolText(state) + "&device_id=" + deviceId.value
      else "me/player/shuffle?state=" + BoolText(state),
      VoidSchema, [])
  }

  /** `getRecentlyPlayed`. */
  function GetRecentlyPlayed(options: Options): Call
  {
    Plain(GET, "me/player/recently-played", PageOf(Named("PlayHistory")), options)
  }

  /** `getQueue`. */
  function GetQueue(): Call
  {
    Plain(GET, "me/player/queue", Named("Queue"), [])
  }

  /** `addToPlaybackQueue`: the item's URI goes into the query as given. */
  function AddToPlaybackQueue(uri: string, deviceId: Option<string>): Call
  {
    Plain(POST,
      if Truthy(deviceId) then "me/player/queue?uri=" + uri + "&device_id=" + deviceId.value
      else "me/player/queue?uri=" + uri,
      VoidSchema, [])
  }

  // ---------------------------------------------------------------------------
  // What each route and body reads back as
  // ---------------------------------------------------------------------------

  /** A route with only the optional device: a `device_id` entry exactly when the device ID is truthy. */
  lemma DeviceOnlyRoute(path: string, prefix: string, segments: seq<string>, deviceId: Option<string>)
    requires PlainSegments(segments) && path == Join(segments, "/") && prefix == path + "?" + "device_id" + "="
    requires Truthy(deviceId) ==> '&' !in deviceId.value
    ensures Segments(if Truthy(deviceId) then prefix + deviceId.value else path) == segments
    ensures Truthy(deviceId) ==> ParamsOf(prefix + deviceId.value) == [("device_id", deviceId.value)]
    ensures ParamsOf(path) == []
  {
    FixedRoute(path, segments);
    if Truthy(deviceId) {
      OneParamRoute(prefix, segments, "device_id", deviceId.value);
    }
  }

  /** A route with one entry and the optional device, which comes second when it is there. */
  lemma ParamDeviceRoute(lead: string, segments: seq<string>, key: string, value: string, deviceId: Option<string>)
    requires PlainSegments(segments) && lead == Join(segments, "/") + "?" + key + "="
    requires '=' !in key && '&' !in key && '&' !in value
    requires Truthy(deviceId) ==> '&' !in deviceId.value
    ensures Segments(if Truthy(deviceId) then lead + value + "&device_id=" + deviceId.value else lead + value) == segments
    ensures Truthy(deviceId) ==> ParamsOf(lead + value + "&device_id=" + deviceId.value) == [(key, value), ("device_id", deviceId.value)]
    ensures ParamsOf(lead + value) == [(key, value)]
  {
    OneParamRoute(lead, segments, key, value);
    if Truthy(deviceId) {
      assert "&device_id=" == "&" + "device_id" + "=";
      TwoParamRoute(lead, segments, key, value, "&device_id=", "device_id", deviceId.value);
    }
  }

  lemma PlayerLiterals()
    ensures PlainSegments(["me", "player"]) && "me/player" == Join(["me", "player"], "/")
  {
    JoinTwo("me", "player", "/");
  }

  lemma SlashPlayLiterals()
    ensures PlainSegments(["", "me", "player", "play"])
    ensures "/me/player/play" == Join(["", "me", "player", "play"], "/")
    ensures "/me/player/play?device_id=" == "/me/player/play" + "?" + "device_id" + "="
  {
    JoinFour("", "me", "player", "play", "/");
  }

  lemma PlayLiterals()
    ensures PlainSegments(["me", "player", "play"]) && "me/player/play" == Join(["me", "player", "play"], "/")
    ensures "me/player/play?device_id=" == "me/player/play" + "?" + "device_id" + "="
  {
    JoinThree("me", "player", "play", "/");
  }

  lemma PauseLiterals()
    ensures PlainSegments(["me", "player", "pause"]) && "me/player/pause" == Join(["me", "player", "pause"], "/")
    ensures "me/player/pause?device_id=" == "me/player/pause" + "?" + "device_id" + "="
  {
    JoinThree("me", "player", "pause", "/");
  }

  lemma NextLiterals()
    ensures PlainSegments(["me", "player", "next"]) && "me/player/next" == Join(["me", "player", "next"], "/")
    ensures "me/player/next?device_id=" == "me/player/next" + "?" + "device_id" + "="
  {
    JoinThree("me", "player", "next", "/");
  }

  lemma PreviousLiterals()
    ensures PlainSegments(["me", "player", "previous"]) && "me/player/previous" == Join(["me", "player", "previous"], "/")
    ensures "me/player/previous?device_id=" == "me/player/previous" + "?" + "device_id" + "="
  {
    JoinThree("me", "player", "previous", "/");
  }

  lemma SeekLiterals()
    ensures PlainSegments(["me", "player", "seek"])
    ensures "me/player/seek?position_ms=" == Join(["me", "player", "seek"], "/") + "?" + "position_ms" + "="
  {
    JoinThree("me", "player", "seek", "/");
  }

  lemma RepeatLiterals()
    ensures PlainSegments(["me", "player", "repeat"])
    ensures "me/player/repeat?state=" == Join(["me", "player", "repeat"], "/") + "?" + "state" + "="
  {
    JoinThree("me", "player", "repeat", "/");
  }

  lemma VolumeLiterals()
    ensures PlainSegments(["me", "player", "volume"])
    ensures "me/player/volume?volume_percent=" == Join(["me", "player", "volume"], "/") + "?" + "volume_percent" + "="
  {
    JoinThree("me", "player", "volume", "/");
  }

  lemma ShuffleLiterals()
    ensures PlainSegments(["me", "player", "shuffle"])
    ensures "me/player/shuffle?state=" == Join(["me", "player", "shuffle"], "/") + "?" + "state" + "="
  {
    JoinThree("me", "player", "shuffle", "/");
  }

  lemma CurrentlyPlayingLiterals()
    ensures PlainSegments(["me", "player", "currently-playing"]) && "me/player/currently-playing" == Join(["me", "player", "currently-playing"], "/")
  {
    JoinThree("me", "player", "currently-playing", "/");
  }

  lemma RecentlyPlayedLiterals()
    ensures PlainSegments(["me", "player", "recently-played"]) && "me/player/recently-played" == Join(["me", "player", "recently-played"], "/")
  {
    JoinThree("me", "player", "recently-played", "/");
  }

  lemma QueueLiterals()
    ensures PlainSegments(["me", "player", "queue"]) && "me/player/queue" == Join(["me", "player", "queue"], "/")
    ensures "me/player/queue?uri=" == Join(["me", "player", "queue"], "/") + "?" + "uri" + "="
  {
    JoinThree("me", "player", "queue", "/");
  }

  /** `getPlaybackState` and `transferPlayback` are a GET and a PUT of "me" and "player". */
  lemma PlaybackStateRoute(deviceId: string, playbackState: Option<bool>, options: Options)
    ensures GetPlaybackState(options).verb == GET && GetPlaybackState(options).options == options
    ensures TransferPlayback(deviceId, playbackState).verb == PUT
    ensures Segments(GetPlaybackState(options).route) == ["me", "player"] && ParamsOf(GetPlaybackState(options).route) == []
    ensures TransferPlayback(deviceId, playbackState).route == GetPlaybackState(options).route
  {
    PlayerLiterals();
    FixedRoute("me/player", ["me", "player"]);
  }

  /** The transfer body names exactly one device, the trimmed ID, and carries `play` only when `playbackState` is given. */
  lemma TransferBody(deviceId: string, playbackState: Option<bool>)
    ensures BodyField(TransferPlayback(deviceId, playbackState).body, "device_ids") == Some(JArr([JStr(Trim(deviceId))]))
    ensures BodyField(TransferPlayback(deviceId, playbackState).body, "play") == OptBool(playbackState)
  {
    var f := TransferFields([Trim(deviceId)], playbackState);
    TransferNames([Trim(deviceId)], playbackState);
    OneString(Trim(deviceId));
    BodyFieldAt(f, 0);
    BodyFieldAt(f, 1);
  }

  lemma TransferNames(deviceIds: seq<string>, playbackState: Option<bool>)
    ensures var f := TransferFields(deviceIds, playbackState);
      DistinctNames(f) && f[0].0 == "device_ids" && f[1].0 == "play"
  {
  }

  lemma OneString(s: string)
    ensures Strings([s]) == JArr([JStr(s)])
  {
  }

  /** `getDevices` is a GET of "me/player/devices" with no options. */
  lemma DevicesRoute()
    ensures GetDevices().verb == GET && GetDevices().options == [] && GetDevices().schema == ArrayOf(Named("Device"))
    ensures Segments(GetDevices().route) == ["me", "player", "devices"] && ParamsOf(GetDevices().route) == []
  {
    JoinThree("me", "player", "devices", "/");
    FixedRoute("me/player/devices", ["me", "player", "devices"]);
  }

  /** `getCurrentlyPlaying` is a GET of "me/player/currently-playing" with the caller's options. */
  lemma CurrentlyPlayingRoute(options: Options)
    ensures GetCurrentlyPlaying(options).verb == GET && GetCurrentlyPlaying(options).options == options
    ensures Segments(GetCurrentlyPlaying(options).route) == ["me", "player", "currently-playing"]
    ensures ParamsOf(GetCurrentlyPlaying(options).route) == []
  {
    CurrentlyPlayingLiterals();
    FixedRoute("me/player/currently-playing", ["me", "player", "currently-playing"]);
  }

  /** `getRecentlyPlayed` is a GET of "me/player/recently-played" with the caller's options. */
  lemma RecentlyPlayedRoute(options: Options)
    ensures GetRecentlyPlayed(options).verb == GET && GetRecentlyPlayed(options).options == options
    ensures Segments(GetRecentlyPlayed(options).route) == ["me", "player", "recently-played"]
    ensures ParamsOf(GetRecentlyPlayed(options).route) == []
  {
    RecentlyPlayedLiterals();
    FixedRoute("me/player/recently-played", ["me", "player", "recently-played"]);
  }

  /** `getQueue` is a GET of "me/player/queue" with no options. */
  lemma GetQueueRoute()
    ensures GetQueue().verb == GET && GetQueue().options == []
    ensures Segments(GetQueue().route) == ["me", "player", "queue"] && ParamsOf(GetQueue().route) == []
  {
    QueueLiterals();
    FixedRoute("me/player/queue", ["me", "player", "queue"]);
  }

  /** `pausePlayback` is a PUT of "me/player/pause" with a `device_id` entry exactly when the device ID is truthy. */
  lemma PauseRoute(deviceId: Option<string>)
    requires Truthy(deviceId) ==> '&' !in deviceId.value
    ensures PausePlayback(deviceId).verb == PUT
    ensures Segments(PausePlayback(deviceId).route) == ["me", "player", "pause"]
    ensures Truthy(deviceId) ==> ParamsOf(PausePlayback(deviceId).route) == [("device_id", deviceId.value)]
    ensures !Truthy(deviceId) ==> ParamsOf(PausePlayback(deviceId).route) == []
  {
    PauseLiterals();
    DeviceOnlyRoute("me/player/pause", "me/player/pause?device_id=", ["me", "player", "pause"], deviceId);
  }

  /** `skipToNext` is a POST of "me/player/next" with a `device_id` entry exactly when the device ID is truthy. */
  lemma NextRoute(deviceId: Option<string>)
    requires Truthy(deviceId) ==> '&' !in deviceId.value
    ensures SkipToNext(deviceId).verb == POST
    ensures Segments(SkipToNext(deviceId).route) == ["me", "player", "next"]
    ensures Truthy(deviceId) ==> ParamsOf(SkipToNext(deviceId).route) == [("device_id", deviceId.value)]
    ensures !Truthy(deviceId) ==> ParamsOf(SkipToNext(deviceId).route) == []
  {
    NextLiterals();
    DeviceOnlyRoute("me/player/next", "me/player/next?device_id=", ["me", "player", "next"], deviceId);
  }

  /** `skipToPrevious` is a POST of "me/player/previous" with a `device_id` entry exactly when the device ID is truthy. */
  lemma PreviousRoute(deviceId: Option<string>)
    requires Truthy(deviceId) ==> '&' !in deviceId.value
    ensures SkipToPrevious(deviceId).verb == POST
    ensures Segments(SkipToPrevious(deviceId).route) == ["me", "player", "previous"]
    ensures Truthy(deviceId) ==> ParamsOf(SkipToPrevious(deviceId).route) == [("device_id", deviceId.value)]
    ensures !Truthy(deviceId) ==> ParamsOf(SkipToPrevious(deviceId).route) == []
  {
    PreviousLiterals();
    DeviceOnlyRoute("me/player/previous", "me/player/previous?device_id=", ["me", "player", "previous"], deviceId);
  }

  /** `seekToPosition`: the position in decimal first, then the device when it is truthy. */
  lemma SeekRoute(positionMs: int, deviceId: Option<string>)
    requires Truthy(deviceId) ==> '&' !in deviceId.value
    ensures SeekToPosition(positionMs, deviceId).verb == PUT
    ensures Segments(SeekToPosition(positionMs, deviceId).route) == ["me", "player", "seek"]
    ensures Truthy(deviceId) ==> ParamsOf(SeekToPosition(positionMs, deviceId).route) == [("position_ms", IntToString(positionMs)), ("device_id", deviceId.value)]
    ensures !Truthy(deviceId) ==> ParamsOf(SeekToPosition(positionMs, deviceId).route) == [("position_ms", IntToString(positionMs))]
  {
    SeekLiterals();
    NumberText(positionMs);
    ParamDeviceRoute("me/player/seek?position_ms=", ["me", "player", "seek"], "position_ms", IntToString(positionMs), deviceId);
  }

  /** `setRepeatMode`: the mode's name first, then the device when it is truthy. */
  lemma RepeatRoute(state: RepeatState, deviceId: Option<string>)
    requires Truthy(deviceId) ==> '&' !in deviceId.value
    ensures SetRepeatMode(state, deviceId).verb == PUT
    ensures Segments(SetRepeatMode(state, deviceId).route) == ["me", "player", "repeat"]
    ensures Truthy(deviceId) ==> ParamsOf(SetRepeatMode(state, deviceId).route) == [("state", RepeatText(state)), ("device_id", deviceId.value)]
    ensures !Truthy(deviceId) ==> ParamsOf(SetRepeatMode(state, deviceId).route) == [("state", RepeatText(state))]
  {
    RepeatLiterals();
    assert '&' !in RepeatText(state);
    ParamDeviceRoute("me/player/repeat?state=", ["me", "player", "repeat"], "state", RepeatText(state), deviceId);
  }

  /** `setPlaybackVolume`: the percentage in decimal first, then the device when it is truthy. */
  lemma VolumeRoute(volumePercent: Percent, deviceId: Option<string>)
    requires Truthy(deviceId) ==> '&' !in deviceId.value
    ensures SetPlaybackVolume(volumePercent, deviceId).verb == PUT
    ensures Segments(SetPlaybackVolume(volumePercent, deviceId).route) == ["me", "player", "volume"]
    ensures Truthy(deviceId) ==> ParamsOf(SetPlaybackVolume(volumePercent, deviceId).route) == [("volume_percent", IntToString(volumePercent)), ("device_id", deviceId.value)]
    ensures !Truthy(deviceId) ==> ParamsOf(SetPlaybackVolume(volumePercent, deviceId).route) == [("volume_percent", IntToString(volumePercent))]
  {
    VolumeLiterals();
    NumberText(volumePercent);
    ParamDeviceRoute("me/player/volume?volume_percent=", ["me", "player", "volume"], "volume_percent", IntToString(volumePercent), deviceId);
  }

  /** `togglePlaybackShuffle`: "true" or "false" first, then the device when it is truthy. */
  lemma ShuffleRoute(state: bool, deviceId: Option<string>)
    requires Truthy(deviceId) ==> '&' !in deviceId.value
    ensures TogglePlaybackShuffle(state, deviceId).verb == PUT
    ensures Segments(TogglePlaybackShuffle(state, deviceId).route) == ["me", "player", "shuffle"]
    ensures Truthy(deviceId) ==> ParamsOf(TogglePlaybackShuffle(state, deviceId).route) == [("state", BoolText(state)), ("device_id", deviceId.value)]
    ensures !Truthy(deviceId) ==> ParamsOf(TogglePlaybackShuffle(state, deviceId).route) == [("state", BoolText(state))]
  {
    ShuffleLiterals();
    assert '&' !in BoolText(state);
    ParamDeviceRoute("me/player/shuffle?state=", ["me", "player", "shuffle"], "state", BoolText(state), deviceId);
  }

  /** `addToPlaybackQueue`: a POST with the URI first, then the device when it is truthy. */
  lemma QueueRoute(uri: string, deviceId: Option<string>)
    requires '&' !in uri
    requires Truthy(deviceId) ==> '&' !in deviceId.value
    ensures AddToPlaybackQueue(uri, deviceId).verb == POST
    ensures Segments(AddToPlaybackQueue(uri, deviceId).route) == ["me", "player", "queue"]
    ensures Truthy(deviceId) ==> ParamsOf(AddToPlaybackQueue(uri, deviceId).route) == [("uri", uri), ("device_id", deviceId.value)]
    ensures !Truthy(deviceId) ==> ParamsOf(AddToPlaybackQueue(uri, deviceId).route) == [("uri", uri)]
  {
    QueueLiterals();
    ParamDeviceRoute("me/player/queue?uri=", ["me", "player", "queue"], "uri", uri, deviceId);
  }

  /** Any route that starts with '/' puts a second '/' after the base URL. */
  lemma DoubleSlash(route: string)
    requires |route| > 0 && route[0] == '/'
    ensures (BaseUrl + route)[|BaseUrl| - 1..|BaseUrl| + 1] == "//"
  {
    var address := BaseUrl + route;
    assert address[|BaseUrl| - 1] == BaseUrl[|BaseUrl| - 1] == '/';
    assert address[|BaseUrl|] == '/';
  }

  /**
   * As written, the route of `startOrResumePlayback` reads back with an empty
   * first segment, and the address sent is the base URL followed by a second '/'.
   */
  lemma StartRouteLeadingSlash(deviceId: Option<string>, contextUri: Option<string>, uris: Option<seq<string>>, offset: Option<Offset>, positionMs: int)
    requires Truthy(deviceId) ==> '&' !in deviceId.value
    ensures Segments(StartOrResumePlayback(deviceId, contextUri, uris, offset, positionMs).route) == ["", "me", "player", "play"]
    ensures (BaseUrl + StartOrResumePlayback(deviceId, contextUri, uris, offset, positionMs).route)[|BaseUrl| - 1..|BaseUrl| + 1] == "//"
  {
    SlashPlayLiterals();
    var route := StartOrResumePlayback(deviceId, contextUri, uris, offset, positionMs).route;
    DeviceOnlyRoute("/me/player/play", "/me/player/play?device_id=", ["", "me", "player", "play"], deviceId);
    assert route[0] == '/';
    DoubleSlash(route);
  }

  /**
   * Corrected, `startOrResumePlayback` reads back as "me/player/play" with a
   * `device_id` entry exactly when the device ID is truthy, like `pausePlayback`.
   */
  lemma StartIntendedRoute(deviceId: Option<string>, contextUri: Option<string>, uris: Option<seq<string>>, offset: Option<Offset>, positionMs: int)
    requires Truthy(deviceId) ==> '&' !in deviceId.value
    ensures var c := StartOrResumePlaybackIntended(deviceId, contextUri, uris, offset, positionMs);
      c.verb == PUT && Segments(c.route) == ["me", "player", "play"] &&
      (Truthy(deviceId) ==> ParamsOf(c.route) == [("device_id", deviceId.value)]) &&
      (!Truthy(deviceId) ==> ParamsOf(c.route) == [])
  {
    PlayLiterals();
    DeviceOnlyRoute("me/player/play", "me/player/play?device_id=", ["me", "player", "play"], deviceId);
  }

  /**
   * The `startOrResumePlayback` body always holds the position under
   * `position_ms`, and the context, the URIs and the offset under their API
   * names when they are given.
   */
  lemma StartBody(deviceId: Option<string>, contextUri: Option<string>, uris: Option<seq<string>>, offset: Option<Offset>, positionMs: int)
    ensures var b := StartOrResumePlayback(deviceId, contextUri, uris, offset, positionMs).body;
      BodyField(b, "position_ms") == Some(JNum(positionMs)) && BodyField(b, "context_uri") == OptString(contextUri) &&
      BodyField(b, "uris") == OptStrings(uris) &&
      BodyField(b, "offset") == (if offset.Some? then Some(OffsetJson(offset.value)) else None)
    ensures StartOrResumePlayback(deviceId, contextUri, uris, offset, positionMs).body ==
      StartOrResumePlaybackIntended(deviceId, contextUri, uris, offset, positionMs).body
  {
    var f := StartFields(contextUri, uris, offset, positionMs);
    assert DistinctNames(f) && f[0].0 == "position_ms" && f[1].0 == "context_uri" && f[2].0 == "uris" && f[3].0 == "offset";
    BodyFieldAt(f, 0);
    BodyFieldAt(f, 1);
    BodyFieldAt(f, 2);
    BodyFieldAt(f, 3);
  }
}
