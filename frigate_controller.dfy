/** The camera directory: turns the NVR's configuration into camera descriptors. The HTTP
    request and the JSON parse are replaced by a value describing what they produced. */
module FrigateController {
  import opened Wrappers
  import opened SettingsController

  /** `live.stream_name` as the JSON gives it: missing, `null`, or a string. */
  datatype StreamNameField = NameMissing | NameNull | Name(text: string)

  /** `live` of a camera's configuration. */
  datatype LiveConfig = LiveConfig(streamName: StreamNameField)

  /** One camera's configuration; `live` may be missing or `null` in the JSON (None). */
  datatype CameraConfig = CameraConfig(live: Option<LiveConfig>)

  /** The parsed configuration body: `cameras` as its keys in `Object.keys` order with their
      values, or None when the body has no `cameras` member. */
  datatype ConfigBody = ConfigBody(cameras: Option<seq<(string, CameraConfig)>>)

  /** What fetching `{host}/api/config` and parsing it as JSON produced. The HTTP status
      is carried but, as in the application, never inspected. */
  datatype ConfigResponse =
    | NetworkFailure
    | Received(status: int, body: Option<ConfigBody>)

  /** The outcome of `getCameras`: the cameras, and whether the error alert was raised. */
  datatype CameraFetch = CameraFetch(cameras: seq<Camera>, alerted: bool)

  const StreamPath: string := "/live/webrtc/api/stream.mp4?src="
  const StreamSuffix: string := "&video=h264"
  const ThumbnailPath: string := "/api/"
  const ThumbnailSuffix: string := "/latest.jpg?h=200"

  /** The HLS-over-MP4 stream URL of a camera stream on a host. */
  function StreamUrl(host: string, streamName: string): (u: string)
    ensures host <= u
    ensures |u| == |host| + |StreamPath| + |streamName| + |StreamSuffix|
    ensures u[|host|..|host| + |StreamPath|] == StreamPath
    ensures u[|host| + |StreamPath|..|host| + |StreamPath| + |streamName|] == streamName
    ensures u[|host| + |StreamPath| + |streamName|..] == StreamSuffix
  {
    var u := host + StreamPath + streamName + StreamSuffix;
    assert u[..|host|] == host;
    assert u[|host|..|host| + |StreamPath|] == StreamPath;
    assert u[|host| + |StreamPath| + |streamName|..] == StreamSuffix;
    assert u[|host| + |StreamPath|..|host| + |StreamPath| + |streamName|] == streamName;
    u
  }

  /** The latest-snapshot URL of a camera, 200 pixels high. */
  function ThumbnailUrl(host: string, key: string): (u: string)
    ensures host <= u
    ensures |u| == |host| + |ThumbnailPath| + |key| + |ThumbnailSuffix|
    ensures u[|host|..|host| + |ThumbnailPath|] == ThumbnailPath
    ensures u[|host| + |ThumbnailPath|..|host| + |ThumbnailPath| + |key|] == key
    ensures u[|host| + |ThumbnailPath| + |key|..] == ThumbnailSuffix
  {
    var u := host + ThumbnailPath + key + ThumbnailSuffix;
    assert u[..|host|] == host;
    assert u[|host|..|host| + |ThumbnailPath|] == ThumbnailPath;
    assert u[|host| + |ThumbnailPath| + |key|..] == ThumbnailSuffix;
    assert u[|host| + |ThumbnailPath|..|host| + |ThumbnailPath| + |key|] == key;
    u
  }

  /** What a template literal writes for `stream_name`: the string itself, "null" for
      `null` and "undefined" when it is missing. */
  function StreamNameText(name: StreamNameField): (text: string)
    ensures name.Name? ==> text == name.text
    ensures name.NameNull? ==> text == "null"
    ensures name.NameMissing? ==> text == "undefined"
  {
    match name
    case Name(t) => t
    case NameNull => "null"
    case NameMissing => "undefined"
  }

  /** The descriptor the directory builds for the camera under `key`: named by the key,
      disabled, available, with no stream type and no alternative streams, and both URLs on
      the given host. */
  function CameraFor(host: string, key: string, live: LiveConfig): (c: Camera)
    ensures c.name == key && !c.enabled && !c.unavailable
    ensures c.streamType.None? && c.hlsStream.None? && c.mjpegStream.None?
    ensures host <= c.stream && host <= c.thumbnail
    ensures |c.stream| == |host| + |StreamPath| + |StreamNameText(live.streamName)| + |StreamSuffix|
    ensures |c.thumbnail| == |host| + |ThumbnailPath| + |key| + |ThumbnailSuffix|
    ensures c.stream[|host| + |StreamPath|..|host| + |StreamPath| + |StreamNameText(live.streamName)|] == StreamNameText(live.streamName)
    ensures c.thumbnail[|host| + |ThumbnailPath|..|host| + |ThumbnailPath| + |key|] == key
  {
    Camera(
      name := key,
      enabled := false,
      unavailable := false,
      stream := StreamUrl(host, StreamNameText(live.streamName)),
      streamType := None,
      hlsStream := None,
      mjpegStream := None,
      thumbnail := ThumbnailUrl(host, key))
  }

  /** Maps every configuration entry to its camera, in order; reading `live.stream_name`
      of an entry without `live` throws, which aborts the whole mapping (None). */
  function BuildCameras(host: string, entries: seq<(string, CameraConfig)>): (r: Option<seq<Camera>>)
    ensures r.Some? <==> forall i :: 0 <= i < |entries| ==> entries[i].1.live.Some?
    ensures r.Some? ==> |r.value| == |entries|
    ensures r.Some? ==> forall i :: 0 <= i < |entries| ==>
      entries[i].1.live.Some? && r.value[i] == CameraFor(host, entries[i].0, entries[i].1.live.value)
  {
    if |entries| == 0 then Some([])
    else match entries[0].1.live
      case None => None
      case Some(live) =>
        match BuildCameras(host, entries[1..])
        case None => None
        case Some(rest) => Some([CameraFor(host, entries[0].0, live)] + rest)
  }

  /** `FrigateController(host).getCameras()`: the cameras of the configuration, or the
      empty list and an alert on any failure (fetch, parse, missing `cameras`, missing `live`). */
  function GetCameras(host: string, response: ConfigResponse): (r: CameraFetch)
    ensures r.alerted ==> r.cameras == []
    ensures !r.alerted <==>
      && response.Received?
      && response.body.Some?
      && response.body.value.cameras.Some?
      && BuildCameras(host, response.body.value.cameras.value).Some?
    ensures !r.alerted ==> r.cameras == BuildCameras(host, response.body.value.cameras.value).value
  {
    match response
    case NetworkFailure => CameraFetch([], true)
    case Received(_, None) => CameraFetch([], true)
    case Received(_, Some(ConfigBody(None))) => CameraFetch([], true)
    case Received(_, Some(ConfigBody(Some(entries)))) =>
      match BuildCameras(host, entries)
      case None => CameraFetch([], true)
      case Some(cameras) => CameraFetch(cameras, false)
  }

  /** The keys of a JSON object are distinct. */
  predicate DistinctKeys(entries: seq<(string, CameraConfig)>) {
    forall i, j :: 0 <= i < j < |entries| ==> entries[i].0 != entries[j].0
  }

  /** The cameras' names are pairwise distinct. */
  predicate DistinctNames(cameras: seq<Camera>) {
    forall i, j :: 0 <= i < j < |cameras| ==> cameras[i].name != cameras[j].name
  }

  /** A successful fetch yields one camera per configuration key, in key order, named by its
      key, disabled, available, with its stream and thumbnail URLs on the given host; so the
      names are distinct. */
  lemma GetCamerasShape(host: string, response: ConfigResponse)
    requires !GetCameras(host, response).alerted
    ensures var entries := response.body.value.cameras.value;
      var cameras := GetCameras(host, response).cameras;
      && |cameras| == |entries|
      && (forall i :: 0 <= i < |cameras| ==>
            && cameras[i].name == entries[i].0
            && !cameras[i].enabled && !cameras[i].unavailable
            && entries[i].1.live.Some?
            && cameras[i].stream == host + StreamPath + StreamNameText(entries[i].1.live.value.streamName) + StreamSuffix
            && cameras[i].thumbnail == host + ThumbnailPath + entries[i].0 + ThumbnailSuffix
            && host <= cameras[i].stream && host <= cameras[i].thumbnail)
      && (DistinctKeys(entries) ==> DistinctNames(cameras))
  {
  }

  /** The stream URL determines the stream name, and the thumbnail URL the camera key, on
      a given host: distinct keys get distinct thumbnails. */
  lemma UrlsDetermineIdentity(host: string, a: string, b: string)
    ensures StreamUrl(host, a) == StreamUrl(host, b) ==> a == b
    ensures ThumbnailUrl(host, a) == ThumbnailUrl(host, b) ==> a == b
  {
  }

  /** A non-success status whose body lacks `cameras` (an error body) fails soft. */
  lemma ErrorBodyFailsSoft(host: string, status: int)
    ensures GetCameras(host, Received(status, Some(ConfigBody(None)))) == CameraFetch([], true)
  {
  }
}
