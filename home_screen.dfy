/** The home screen's selection logic: which cameras get a tile, what each tile is given,
    what a click on a tile navigates with, and which of the three screens is shown. */
module HomeScreen {
  import opened Wrappers
  import opened SettingsController
  import Player

  /** `cameras.filter(c => c.enabled)`. */
  function EnabledCameras(cameras: seq<Camera>): (r: seq<Camera>)
    ensures |r| <= |cameras|
    ensures forall c :: c in r <==> c in cameras && c.enabled
  {
    if |cameras| == 0 then []
    else if cameras[0].enabled then [cameras[0]] + EnabledCameras(cameras[1..])
    else EnabledCameras(cameras[1..])
  }

  /** The filter keeps the order of the list: filtering a concatenation concatenates the
      filtered parts. */
  lemma {:induction false} EnabledCamerasOfConcat(a: seq<Camera>, b: seq<Camera>)
    ensures EnabledCameras(a + b) == EnabledCameras(a) + EnabledCameras(b)
    decreases |a|
  {
    if |a| > 0 {
      assert (a + b)[1..] == a[1..] + b;
      EnabledCamerasOfConcat(a[1..], b);
    } else {
      assert a + b == b;
    }
  }

  /** A list whose cameras are all enabled is its own filter; so filtering twice is filtering once. */
  lemma {:induction false} EnabledCamerasIdempotent(cameras: seq<Camera>)
    ensures EnabledCameras(EnabledCameras(cameras)) == EnabledCameras(cameras)
    decreases |cameras|
  {
    if |cameras| > 0 {
      EnabledCamerasIdempotent(cameras[1..]);
      if cameras[0].enabled {
        var rest := EnabledCameras(cameras[1..]);
        assert ([cameras[0]] + rest)[1..] == rest;
      }
    }
  }

  /** The camera a clicked URI belongs to: the first whose stream or MJPEG stream equals it. */
  function CameraForUri(cameras: seq<Camera>, uri: string): (r: Option<nat>)
    ensures r.Some? ==> r.value < |cameras| && (cameras[r.value].stream == uri || cameras[r.value].mjpegStream == Some(uri))
    ensures r.Some? ==> forall j :: 0 <= j < r.value ==> cameras[j].stream != uri && cameras[j].mjpegStream != Some(uri)
    ensures r.None? <==> forall j :: 0 <= j < |cameras| ==> cameras[j].stream != uri && cameras[j].mjpegStream != Some(uri)
  {
    FirstIndex(cameras, (c: Camera) => c.stream == uri || c.mjpegStream == Some(uri))
  }

  /** The parameters of the navigation to the fullscreen view. */
  datatype VideoDetailParams = VideoDetailParams(
    uri: string,
    streamType: StreamType,
    mjpegFallback: Option<string>,
    snapshotUrl: Option<string>)

  /** `onVideoClick`: the URI as clicked, with the matched camera's stream type (HLS when
      there is no match or it has none), MJPEG stream and thumbnail (absent without a match). */
  function OnVideoClick(cameras: seq<Camera>, uri: string): (p: VideoDetailParams)
    ensures p.uri == uri
    ensures CameraForUri(cameras, uri).None? ==>
      p.streamType == Hls && p.mjpegFallback.None? && p.snapshotUrl.None?
    ensures CameraForUri(cameras, uri).Some? ==>
      var c := cameras[CameraForUri(cameras, uri).value];
      && p.streamType == c.streamType.GetOr(Hls)
      && p.mjpegFallback == c.mjpegStream
      && p.snapshotUrl == Some(c.thumbnail)
  {
    match CameraForUri(cameras, uri)
    case None => VideoDetailParams(uri, Hls, None, None)
    case Some(k) =>
      var c := cameras[k];
      VideoDetailParams(uri, c.streamType.GetOr(Hls), c.mjpegStream, Some(c.thumbnail))
  }

  /** The three things the home screen can show. */
  datatype Screen = CameraGrid | Welcome | EmptyState

  /** The grid when some camera is enabled; otherwise the welcome screen without a host and
      the empty state with one. */
  function ChooseScreen(cameras: seq<Camera>, host: string): (s: Screen)
    ensures s == CameraGrid <==> exists c :: c in cameras && c.enabled
    ensures s == Welcome <==> (forall c :: c in cameras ==> !c.enabled) && host == ""
    ensures s == EmptyState <==> (forall c :: c in cameras ==> !c.enabled) && host != ""
  {
    var enabled := EnabledCameras(cameras);
    if |enabled| > 0 then
      assert enabled[0] in enabled;
      CameraGrid
    else if host == "" then Welcome
    else EmptyState
  }

  /** What the tile of a camera is given. */
  function TileProps(c: Camera): (p: Player.PlayerProps)
    ensures p.uri == c.stream && p.streamType == c.streamType
    ensures p.mjpegFallback == c.mjpegStream && p.snapshotUrl == c.thumbnail
  {
    Player.PlayerProps(c.stream, c.streamType, c.mjpegStream, c.thumbnail)
  }

  /** The tiles of the grid, one per enabled camera in list order. */
  function Tiles(cameras: seq<Camera>): (tiles: seq<Player.PlayerProps>)
    ensures |tiles| == |EnabledCameras(cameras)|
    ensures forall i :: 0 <= i < |tiles| ==> tiles[i] == TileProps(EnabledCameras(cameras)[i])
  {
    var enabled := EnabledCameras(cameras);
    seq(|enabled|, i requires 0 <= i < |enabled| => TileProps(enabled[i]))
  }

  /** No URI of a camera is a URI of another camera. */
  predicate UrisDistinct(cameras: seq<Camera>) {
    forall i, j :: 0 <= i < |cameras| && 0 <= j < |cameras| && i != j ==>
      && cameras[i].stream != cameras[j].stream
      && cameras[i].mjpegStream != Some(cameras[j].stream)
      && (cameras[i].mjpegStream.Some? ==>
            cameras[j].stream != cameras[i].mjpegStream.value && cameras[j].mjpegStream != cameras[i].mjpegStream)
  }

  /** A click on a playing tile reports its current URI, whether on HLS or after the MJPEG
      fallback; when no two cameras share a URI, the navigation then carries that tile's
      camera's MJPEG stream and thumbnail. */
  lemma ClickFindsTileCamera(cameras: seq<Camera>, k: nat, s: Player.TileState)
    requires k < |cameras| && UrisDistinct(cameras)
    ensures var c := cameras[k];
      var p := OnVideoClick(cameras, Player.CurrentUri(TileProps(c), s));
      && p.uri == Player.CurrentUri(TileProps(c), s)
      && p.mjpegFallback == c.mjpegStream
      && p.snapshotUrl == Some(c.thumbnail)
  {
    var c := cameras[k];
    var uri := Player.CurrentUri(TileProps(c), s);
    assert c.stream == uri || c.mjpegStream == Some(uri);
    var found := CameraForUri(cameras, uri);
    assert found.Some?;
  }
}
