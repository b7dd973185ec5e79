/** The fullscreen player: plays at once, falls back from HLS to MJPEG on an error, shows a
    loading indicator driven by player and web-view events, and keeps a pinch/pan/double-tap
    zoom transform. Animated assignments (`withTiming(v)`) take their target value at once. */
module FullscreenPlayer {
  import opened Wrappers
  import opened JsSemantics
  import opened SettingsController

  /** What the fullscreen view is given (`snapshotUrl` is accepted but never used). */
  datatype FullscreenProps = FullscreenProps(
    uri: string,
    streamType: Option<StreamType>,
    mjpegFallback: Option<string>)

  /** `status.status` of a video player status change. */
  datatype PlaybackStatus = Idle | Loading | ReadyToPlay | Error

  /** The playback part of the state. */
  datatype PlaybackState = PlaybackState(currentStreamType: StreamType, isLoading: bool)

  /** The events of the playback part: video player status changes (heard only while the
      video player is used) and the MJPEG web view's load events (only while it is shown). */
  datatype PlaybackEvent =
    | StatusChange(status: PlaybackStatus, hasError: bool)
    | MjpegLoadStart
    | MjpegLoadEnd
    | MjpegLoadError

  /** `currentUri`, as in the grid tile. */
  function CurrentUri(props: FullscreenProps, s: PlaybackState): (u: string)
    ensures s.currentStreamType == Hls ==> u == props.uri
    ensures s.currentStreamType == Mjpeg ==> u == OrElse(props.mjpegFallback, props.uri)
  {
    if s.currentStreamType == Mjpeg then OrElse(props.mjpegFallback, props.uri) else props.uri
  }

  /** `shouldUseVideo`: fullscreen uses the video player whenever it is not on MJPEG. */
  function ShouldUseVideo(s: PlaybackState): (use: bool)
    ensures use <==> s.currentStreamType == Hls
  {
    s.currentStreamType != Mjpeg
  }

  /** The status effect, run on mount and whenever the stream type changes: without the
      video player the loading indicator is cleared. */
  function StatusEffect(s: PlaybackState): (r: PlaybackState)
    ensures r.currentStreamType == s.currentStreamType
    ensures !ShouldUseVideo(s) ==> !r.isLoading
    ensures ShouldUseVideo(s) ==> r == s
  {
    if !ShouldUseVideo(s) then s.(isLoading := false) else s
  }

  /** Mounted: the given stream type or HLS, loading, then the first run of the status effect. */
  function InitialPlayback(props: FullscreenProps): (s: PlaybackState)
    ensures s.currentStreamType == props.streamType.GetOr(Hls)
    ensures s.isLoading <==> s.currentStreamType == Hls
  {
    StatusEffect(PlaybackState(props.streamType.GetOr(Hls), true))
  }

  /** The status listener: `loading` sets the indicator and every other status clears it; an
      error clears it and switches from HLS to MJPEG when a fallback URI is set. A switch
      re-runs the status effect. */
  function StatusStep(props: FullscreenProps, s: PlaybackState, status: PlaybackStatus, hasError: bool): (r: PlaybackState)
    ensures !ShouldUseVideo(s) ==> r == s
    ensures ShouldUseVideo(s) && !hasError ==> r == s.(isLoading := status == Loading)
    ensures ShouldUseVideo(s) && hasError ==> !r.isLoading
    ensures r.currentStreamType != s.currentStreamType <==>
      ShouldUseVideo(s) && hasError && Truthy(props.mjpegFallback)
    ensures r.currentStreamType != s.currentStreamType ==> r.currentStreamType == Mjpeg
  {
    if !ShouldUseVideo(s) then s
    else
      var loading := status == Loading;
      if hasError then
        var switched := if Truthy(props.mjpegFallback) && s.currentStreamType == Hls
          then Mjpeg else s.currentStreamType;
        StatusEffect(PlaybackState(switched, false))
      else PlaybackState(s.currentStreamType, loading)
  }

  /** The MJPEG web view's callbacks: load start sets the indicator, load end and load
      error clear it. */
  function WebViewStep(s: PlaybackState, e: PlaybackEvent): (r: PlaybackState)
    requires !e.StatusChange?
    ensures r.currentStreamType == s.currentStreamType
    ensures s.currentStreamType == Mjpeg ==> (r.isLoading <==> e.MjpegLoadStart?)
    ensures s.currentStreamType == Hls ==> r == s
  {
    if s.currentStreamType != Mjpeg then s
    else s.(isLoading := e.MjpegLoadStart?)
  }

  function PlaybackStep(props: FullscreenProps, s: PlaybackState, e: PlaybackEvent): PlaybackState {
    match e
    case StatusChange(status, err) => StatusStep(props, s, status, err)
    case _ => WebViewStep(s, e)
  }

  function RunPlayback(props: FullscreenProps, s: PlaybackState, events: seq<PlaybackEvent>): PlaybackState
    decreases |events|
  {
    if |events| == 0 then s else RunPlayback(props, PlaybackStep(props, s, events[0]), events[1..])
  }

  /** The fallback is one-way in fullscreen too. */
  lemma {:induction false} MjpegIsFinal(props: FullscreenProps, s: PlaybackState, events: seq<PlaybackEvent>)
    requires s.currentStreamType == Mjpeg
    ensures RunPlayback(props, s, events).currentStreamType == Mjpeg
    decreases |events|
  {
    if |events| > 0 {
      MjpegIsFinal(props, PlaybackStep(props, s, events[0]), events[1..]);
    }
  }

  /** Without a usable fallback URI, an error on HLS is final for the session: the view
      stays on HLS whatever happens, and the indicator is off right after each error. */
  lemma {:induction false} ErrorWithoutFallbackStaysOnHls(props: FullscreenProps, s: PlaybackState, events: seq<PlaybackEvent>)
    requires !Truthy(props.mjpegFallback) && s.currentStreamType == Hls
    ensures RunPlayback(props, s, events).currentStreamType == Hls
    ensures |events| > 0 && events[|events| - 1].StatusChange? && events[|events| - 1].hasError ==>
      !RunPlayback(props, s, events).isLoading
    decreases |events|
  {
    if |events| > 0 {
      ErrorWithoutFallbackStaysOnHls(props, PlaybackStep(props, s, events[0]), events[1..]);
      if |events| == 1 {
        assert RunPlayback(props, s, events) == PlaybackStep(props, s, events[0]);
      } else {
        assert events[1..][|events[1..]| - 1] == events[|events| - 1];
      }
    }
  }

  /** The detail screen hands the view only the URI: it starts on HLS, loading, and no
      sequence of events ever takes it off HLS, since there is no fallback to switch to. */
  lemma DetailScreenStaysOnHls(uri: string, events: seq<PlaybackEvent>)
    ensures var props := FullscreenProps(uri, None, None);
      var s0 := InitialPlayback(props);
      && s0 == PlaybackState(Hls, true)
      && RunPlayback(props, s0, events).currentStreamType == Hls
  {
    var props := FullscreenProps(uri, None, None);
    ErrorWithoutFallbackStaysOnHls(props, InitialPlayback(props), events);
  }

  // ---------------------------------------------------------------------------------------
  // Zoom and pan

  const MinScale: real := 1.0
  const MaxScale: real := 5.0

  /** The six shared values of the gesture handlers. */
  datatype Transform = Transform(
    scale: real,
    savedScale: real,
    translateX: real,
    translateY: real,
    savedTranslateX: real,
    savedTranslateY: real)

  /** Unzoomed and centred. */
  const Identity: Transform := Transform(1.0, 1.0, 0.0, 0.0, 0.0, 0.0)

  /** Pinch update: the live scale is the saved scale times the gesture's factor. */
  function PinchUpdate(t: Transform, factor: real): (r: Transform)
    ensures r.scale == t.savedScale * factor
    ensures r.(scale := t.scale) == t
  {
    t.(scale := t.savedScale * factor)
  }

  /** Pinch end: the live scale is committed, then a scale below 1 snaps back to the
      identity transform and a scale above 5 is clamped to 5. */
  function PinchEnd(t: Transform): (r: Transform)
    ensures MinScale <= r.scale <= MaxScale && r.savedScale == r.scale
    ensures t.scale < MinScale ==> r == Identity
    ensures MinScale <= t.scale <= MaxScale ==> r == t.(savedScale := t.scale)
    ensures t.scale > MaxScale ==> r == t.(scale := MaxScale, savedScale := MaxScale)
  {
    var committed := t.(savedScale := t.scale);
    var reset := if committed.scale < 1.0
      then committed.(scale := 1.0, savedScale := 1.0, translateX := 0.0, translateY := 0.0,
                      savedTranslateX := 0.0, savedTranslateY := 0.0)
      else committed;
    if reset.scale > 5.0 then reset.(scale := 5.0, savedScale := 5.0) else reset
  }

  /** Panning is enabled only while zoomed in. */
  function PanEnabled(t: Transform): (enabled: bool)
    ensures enabled <==> MinScale < t.scale
  {
    t.scale > 1.0
  }

  /** Pan update: the live translation is the saved translation plus the gesture's offset. */
  function PanUpdate(t: Transform, dx: real, dy: real): (r: Transform)
    ensures PanEnabled(t) ==> r.translateX == t.savedTranslateX + dx && r.translateY == t.savedTranslateY + dy
    ensures r.(translateX := t.translateX, translateY := t.translateY) == t
    ensures !PanEnabled(t) ==> r == t
  {
    if PanEnabled(t) then t.(translateX := t.savedTranslateX + dx, translateY := t.savedTranslateY + dy) else t
  }

  /** Pan end: the live translation is committed. */
  function PanEnd(t: Transform): (r: Transform)
    ensures PanEnabled(t) ==> r.savedTranslateX == r.translateX && r.savedTranslateY == r.translateY
    ensures r.(savedTranslateX := t.savedTranslateX, savedTranslateY := t.savedTranslateY) == t
    ensures !PanEnabled(t) ==> r == t
  {
    if PanEnabled(t) then t.(savedTranslateX := t.translateX, savedTranslateY := t.translateY) else t
  }

  /** Double tap: back to the identity transform from any state. */
  function DoubleTap(t: Transform): (r: Transform)
    ensures r == Identity
    ensures r.scale == r.savedScale == 1.0
    ensures r.translateX == r.translateY == r.savedTranslateX == r.savedTranslateY == 0.0
  {
    t.(scale := 1.0, savedScale := 1.0, translateX := 0.0, translateY := 0.0,
       savedTranslateX := 0.0, savedTranslateY := 0.0)
  }

  datatype GestureEvent =
    | PinchMove(factor: real)
    | PinchStop
    | PanMove(dx: real, dy: real)
    | PanStop
    | DoubleTapped

  function GestureStep(t: Transform, e: GestureEvent): Transform {
    match e
    case PinchMove(f) => PinchUpdate(t, f)
    case PinchStop => PinchEnd(t)
    case PanMove(dx, dy) => PanUpdate(t, dx, dy)
    case PanStop => PanEnd(t)
    case DoubleTapped => DoubleTap(t)
  }

  function RunGestures(t: Transform, events: seq<GestureEvent>): Transform
    decreases |events|
  {
    if |events| == 0 then t else RunGestures(GestureStep(t, events[0]), events[1..])
  }

  /** Panning is off whenever the view is not zoomed in: after a double tap, after a pinch
      that ends at scale 1 or below, and so pan events leave the identity transform alone. */
  lemma PanDisabledWhenUnzoomed(t: Transform, dx: real, dy: real)
    ensures !PanEnabled(DoubleTap(t))
    ensures t.scale <= MinScale ==> !PanEnabled(PinchEnd(t))
    ensures PanUpdate(Identity, dx, dy) == Identity && PanEnd(Identity) == Identity
  {
  }

  /** The committed scale stays within [1, 5] under every sequence of gestures (the live
      scale too, when no pinch moves: see `SettledWithoutPinchMoves`). */
  lemma {:induction false} SavedScaleStaysInRange(t: Transform, events: seq<GestureEvent>)
    requires MinScale <= t.savedScale <= MaxScale
    ensures MinScale <= RunGestures(t, events).savedScale <= MaxScale
    decreases |events|
  {
    if |events| > 0 {
      SavedScaleStaysInRange(GestureStep(t, events[0]), events[1..]);
    }
  }

  /** Settled transforms: no pinch is under way, so the live scale is the committed one. */
  predicate Settled(t: Transform) {
    t.scale == t.savedScale && MinScale <= t.scale <= MaxScale
  }

  /** Without a pinch move, pans, pinch ends and double taps keep the transform settled. */
  lemma {:induction false} SettledWithoutPinchMoves(t: Transform, events: seq<GestureEvent>)
    requires Settled(t)
    requires forall i :: 0 <= i < |events| ==> !events[i].PinchMove?
    ensures Settled(RunGestures(t, events))
    decreases |events|
  {
    if |events| > 0 {
      assert forall i :: 0 <= i < |events[1..]| ==> events[1..][i] == events[i + 1];
      SettledWithoutPinchMoves(GestureStep(t, events[0]), events[1..]);
    }
  }

  // ---------------------------------------------------------------------------------------

  /** The fullscreen view's state. */
  class FullscreenPlayer {
    const props: FullscreenProps
    var currentStreamType: StreamType
    var isLoading: bool
    var scale: real
    var savedScale: real
    var translateX: real
    var translateY: real
    var savedTranslateX: real
    var savedTranslateY: real

    function Playback(): PlaybackState
      reads this
    {
      PlaybackState(currentStreamType, isLoading)
    }

    function Zoom(): Transform
      reads this
    {
      Transform(scale, savedScale, translateX, translateY, savedTranslateX, savedTranslateY)
    }

    /** Mount, including the first run of the status effect. */
    constructor (props: FullscreenProps)
      ensures this.props == props
      ensures Playback() == InitialPlayback(props) && Zoom() == Identity
    {
      this.props := props;
      var initialType := props.streamType.GetOr(Hls);
      currentStreamType := initialType;
      isLoading := true;
      scale, savedScale := 1.0, 1.0;
      translateX, translateY := 0.0, 0.0;
      savedTranslateX, savedTranslateY := 0.0, 0.0;
      if initialType == Mjpeg {
        isLoading := false;
      }
    }

    method OnStatusChange(status: PlaybackStatus, hasError: bool)
      modifies this
      ensures Playback() == StatusStep(props, old(Playback()), status, hasError)
      ensures Zoom() == old(Zoom())
    {
      if currentStreamType == Mjpeg {
        return;
      }
      if status == Loading {
        isLoading := true;
      } else {
        isLoading := false;
      }
      if hasError {
        isLoading := false;
        if Truthy(props.mjpegFallback) && currentStreamType == Hls {
          currentStreamType := Mjpeg;
          isLoading := false;
        }
      }
    }

    method OnWebViewEvent(e: PlaybackEvent)
      requires !e.StatusChange?
      modifies this
      ensures Playback() == WebViewStep(old(Playback()), e)
      ensures Zoom() == old(Zoom())
    {
      if currentStreamType == Mjpeg {
        isLoading := e.MjpegLoadStart?;
      }
    }

    /** A press on the video view reports the current URI; the video view is only shown
        while on HLS. */
    method PressVideo() returns (clicked: Option<string>)
      ensures currentStreamType == Hls ==> clicked == Some(props.uri)
      ensures currentStreamType == Mjpeg ==> clicked.None?
    {
      if currentStreamType == Hls {
        clicked := Some(CurrentUri(props, Playback()));
      } else {
        clicked := None;
      }
    }

    /** The gesture handlers below are attached to the video view only, so gestures
        arrive only while on HLS. */
    method OnPinchUpdate(factor: real)
      requires currentStreamType == Hls
      modifies this
      ensures Zoom() == PinchUpdate(old(Zoom()), factor) && Playback() == old(Playback())
    {
      scale := savedScale * factor;
    }

    method OnPinchEnd()
      requires currentStreamType == Hls
      modifies this
      ensures Zoom() == PinchEnd(old(Zoom())) && Playback() == old(Playback())
    {
      savedScale := scale;
      if scale < 1.0 {
        scale := 1.0;
        savedScale := 1.0;
        translateX := 0.0;
        translateY := 0.0;
        savedTranslateX := 0.0;
        savedTranslateY := 0.0;
      }
      if scale > 5.0 {
        scale := 5.0;
        savedScale := 5.0;
      }
    }

    method OnPanUpdate(dx: real, dy: real)
      requires currentStreamType == Hls
      modifies this
      ensures Zoom() == PanUpdate(old(Zoom()), dx, dy) && Playback() == old(Playback())
    {
      if scale > 1.0 {
        translateX := savedTranslateX + dx;
        translateY := savedTranslateY + dy;
      }
    }

    method OnPanEnd()
      requires currentStreamType == Hls
      modifies this
      ensures Zoom() == PanEnd(old(Zoom())) && Playback() == old(Playback())
    {
      if scale > 1.0 {
        savedTranslateX := translateX;
        savedTranslateY := translateY;
      }
    }

    method OnDoubleTap()
      requires currentStreamType == Hls
      modifies this
      ensures Zoom() == DoubleTap(old(Zoom())) && Playback() == old(Playback())
    {
      scale := 1.0;
      savedScale := 1.0;
      translateX := 0.0;
      translateY := 0.0;
      savedTranslateX := 0.0;
      savedTranslateY := 0.0;
    }
  }
}
