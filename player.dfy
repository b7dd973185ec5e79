/** The grid tile player: idle preview, full playback over HLS, or MJPEG after an HLS
    error, with a 30-second revert to the preview. The status listener and the timer
    become explicit events; the clock is a parameter (milliseconds). */
module Player {
  import opened Wrappers
  import opened JsSemantics
  import opened SettingsController

  /** Playback reverts to the preview this long after it starts. */
  const InactivityTimeoutMs: int := 30000

  /** What the tile is given. */
  datatype PlayerProps = PlayerProps(
    uri: string,
    streamType: Option<StreamType>,
    mjpegFallback: Option<string>,
    snapshotUrl: string)

  /** The tile's state; `revertAt` is when the pending revert timer fires, if one is pending. */
  datatype TileState = TileState(
    isPlayingVideo: bool,
    currentStreamType: StreamType,
    revertAt: Option<int>)

  /** The events a tile reacts to: a tap, a status change of the video player, the clock. */
  datatype TileEvent =
    | Tap(tappedAt: int)
    | StatusChange(hasError: bool)
    | ClockTick(now: int)

  /** `streamType || "hls"`. */
  function InitialStreamType(streamType: Option<StreamType>): (t: StreamType)
    ensures streamType.None? ==> t == Hls
    ensures streamType.Some? ==> t == streamType.value
  {
    streamType.GetOr(Hls)
  }

  /** A freshly mounted tile: idle, no timer, on the stream type it was given or HLS. */
  function InitialTile(props: PlayerProps): (s: TileState)
    ensures !s.isPlayingVideo && s.revertAt.None?
    ensures s.currentStreamType == InitialStreamType(props.streamType)
  {
    TileState(false, InitialStreamType(props.streamType), None)
  }

  /** `currentUri`: the MJPEG fallback (when it is a non-empty string) once on MJPEG,
      otherwise the primary URI. */
  function CurrentUri(props: PlayerProps, s: TileState): (u: string)
    ensures s.currentStreamType == Hls ==> u == props.uri
    ensures s.currentStreamType == Mjpeg && Truthy(props.mjpegFallback) ==> u == props.mjpegFallback.value
    ensures s.currentStreamType == Mjpeg && !Truthy(props.mjpegFallback) ==> u == props.uri
  {
    if s.currentStreamType == Mjpeg then OrElse(props.mjpegFallback, props.uri) else props.uri
  }

  /** `shouldUseVideo`: the video player runs only while playing over HLS. */
  function ShouldUseVideo(s: TileState): (use: bool)
    ensures use <==> s.isPlayingVideo && s.currentStreamType == Hls
  {
    s.currentStreamType != Mjpeg && s.isPlayingVideo
  }

  /** The source handed to the video player: the primary URI while it runs, none otherwise. */
  function VideoSource(props: PlayerProps, s: TileState): (src: Option<string>)
    ensures src.Some? <==> s.isPlayingVideo && s.currentStreamType == Hls
    ensures src.Some? ==> src.value == props.uri
  {
    if ShouldUseVideo(s) then Some(CurrentUri(props, s)) else None
  }

  /** `lowBandwidthUri`: the idle preview shows the MJPEG stream when there is one, else the snapshot. */
  function LowBandwidthUri(props: PlayerProps): (u: string)
    ensures Truthy(props.mjpegFallback) ==> u == props.mjpegFallback.value
    ensures !Truthy(props.mjpegFallback) ==> u == props.snapshotUrl
  {
    OrElse(props.mjpegFallback, props.snapshotUrl)
  }

  /** `handleClick`: an idle tile starts playing and arms the revert timer; a playing tile
      reports its current URI to `onClick` and changes nothing. */
  function TapStep(props: PlayerProps, s: TileState, now: int): (r: (TileState, Option<string>))
    ensures !s.isPlayingVideo ==>
      r.0 == s.(isPlayingVideo := true, revertAt := Some(now + InactivityTimeoutMs)) && r.1.None?
    ensures s.isPlayingVideo ==> r.0 == s && r.1 == Some(CurrentUri(props, s))
  {
    if !s.isPlayingVideo then (s.(isPlayingVideo := true, revertAt := Some(now + InactivityTimeoutMs)), None)
    else (s, Some(CurrentUri(props, s)))
  }

  /** The status listener, registered only while the video player runs: an error switches
      from HLS to MJPEG when a fallback URI is set; nothing else changes. */
  function StatusStep(props: PlayerProps, s: TileState, hasError: bool): (r: TileState)
    ensures r.isPlayingVideo == s.isPlayingVideo && r.revertAt == s.revertAt
    ensures r.currentStreamType != s.currentStreamType <==>
      ShouldUseVideo(s) && hasError && Truthy(props.mjpegFallback)
    ensures r.currentStreamType != s.currentStreamType ==> s.currentStreamType == Hls && r.currentStreamType == Mjpeg
  {
    if ShouldUseVideo(s) && hasError && Truthy(props.mjpegFallback) && s.currentStreamType == Hls
    then s.(currentStreamType := Mjpeg)
    else s
  }

  /** The revert timer: once its time has come, playback stops; the stream type is kept. */
  function ClockStep(s: TileState, now: int): (r: TileState)
    ensures r.currentStreamType == s.currentStreamType
    ensures s.revertAt.Some? && now >= s.revertAt.value ==> !r.isPlayingVideo && r.revertAt.None?
    ensures !(s.revertAt.Some? && now >= s.revertAt.value) ==> r == s
  {
    if s.revertAt.Some? && now >= s.revertAt.value then s.(isPlayingVideo := false, revertAt := None)
    else s
  }

  /** One event, with the URI it reports to `onClick`, if any. */
  function Step(props: PlayerProps, s: TileState, e: TileEvent): (TileState, Option<string>) {
    match e
    case Tap(t) => TapStep(props, s, t)
    case StatusChange(err) => (StatusStep(props, s, err), None)
    case ClockTick(t) => (ClockStep(s, t), None)
  }

  /** The state after a sequence of events. */
  function Run(props: PlayerProps, s: TileState, events: seq<TileEvent>): TileState
    decreases |events|
  {
    if |events| == 0 then s else Run(props, Step(props, s, events[0]).0, events[1..])
  }

  /** A revert timer is pending exactly while the tile plays. */
  predicate TimerArmed(s: TileState) {
    s.isPlayingVideo <==> s.revertAt.Some?
  }

  /** Every event keeps the timer pending exactly while playing. */
  lemma {:induction false} RunKeepsTimerArmed(props: PlayerProps, s: TileState, events: seq<TileEvent>)
    requires TimerArmed(s)
    ensures TimerArmed(Run(props, s, events))
    decreases |events|
  {
    if |events| > 0 {
      RunKeepsTimerArmed(props, Step(props, s, events[0]).0, events[1..]);
    }
  }

  /** The fallback is one-way: once on MJPEG, no sequence of events returns the tile to HLS. */
  lemma {:induction false} MjpegIsFinal(props: PlayerProps, s: TileState, events: seq<TileEvent>)
    requires s.currentStreamType == Mjpeg
    ensures Run(props, s, events).currentStreamType == Mjpeg
    decreases |events|
  {
    if |events| > 0 {
      MjpegIsFinal(props, Step(props, s, events[0]).0, events[1..]);
    }
  }

  /** Without a usable fallback URI the stream type never changes: an HLS error leaves the
      tile on HLS. */
  lemma {:induction false} NoFallbackNoSwitch(props: PlayerProps, s: TileState, events: seq<TileEvent>)
    requires !Truthy(props.mjpegFallback)
    ensures Run(props, s, events).currentStreamType == s.currentStreamType
    decreases |events|
  {
    if |events| > 0 {
      NoFallbackNoSwitch(props, Step(props, s, events[0]).0, events[1..]);
    }
  }

  /** The revert time is fixed when playback starts: taps and status changes while playing
      neither extend nor cancel it, and every tick before it leaves the tile playing. */
  lemma {:induction false} PlaybackRunsUntilRevert(props: PlayerProps, s: TileState, events: seq<TileEvent>)
    requires s.isPlayingVideo && s.revertAt.Some?
    requires forall i :: 0 <= i < |events| && events[i].ClockTick? ==> events[i].now < s.revertAt.value
    ensures Run(props, s, events).isPlayingVideo
    ensures Run(props, s, events).revertAt == s.revertAt
    decreases |events|
  {
    if |events| > 0 {
      var next := Step(props, s, events[0]).0;
      assert next.isPlayingVideo && next.revertAt == s.revertAt;
      assert forall i :: 0 <= i < |events[1..]| && events[1..][i].ClockTick? ==> events[1..][i].now < next.revertAt.value by {
        forall i | 0 <= i < |events[1..]| && events[1..][i].ClockTick?
          ensures events[1..][i].now < next.revertAt.value
        {
          assert events[1..][i] == events[i + 1];
        }
      }
      PlaybackRunsUntilRevert(props, next, events[1..]);
    }
  }

  /** Scenario: tap at `t0`, an HLS error, a tap at `t0 + 10000` (reported to `onClick` as
      the MJPEG URI), and a tick at `t0 + 30000` leave the tile idle on MJPEG, so the next
      tap plays MJPEG directly. */
  lemma FallbackScenario(props: PlayerProps, t0: int)
    requires props.streamType.None? && Truthy(props.mjpegFallback)
    ensures var s0 := InitialTile(props);
      var s1 := TapStep(props, s0, t0).0;
      var s2 := StatusStep(props, s1, true);
      var (s3, clicked) := TapStep(props, s2, t0 + 10000);
      var s4 := ClockStep(s3, t0 + InactivityTimeoutMs);
      && s1.isPlayingVideo && VideoSource(props, s1) == Some(props.uri)
      && s2.currentStreamType == Mjpeg && VideoSource(props, s2).None?
      && clicked == Some(props.mjpegFallback.value)
      && !s4.isPlayingVideo && s4.currentStreamType == Mjpeg
  {
  }

  /** A tile on the screen. */
  class TilePlayer {
    const props: PlayerProps
    var isPlayingVideo: bool
    var currentStreamType: StreamType
    var revertAt: Option<int>

    function State(): TileState
      reads this
    {
      TileState(isPlayingVideo, currentStreamType, revertAt)
    }

    constructor (props: PlayerProps)
      ensures this.props == props && State() == InitialTile(props)
    {
      this.props := props;
      isPlayingVideo := false;
      currentStreamType := InitialStreamType(props.streamType);
      revertAt := None;
    }

    /** A tap on the preview, the MJPEG view or the video view. */
    method HandleClick(now: int) returns (clicked: Option<string>)
      modifies this
      ensures (State(), clicked) == TapStep(props, old(State()), now)
    {
      if !isPlayingVideo {
        isPlayingVideo := true;
        revertAt := Some(now + InactivityTimeoutMs);
        clicked := None;
      } else {
        clicked := Some(CurrentUri(props, State()));
      }
    }

    /** A `statusChange` event of the video player. */
    method OnStatusChange(hasError: bool)
      modifies this
      ensures State() == StatusStep(props, old(State()), hasError)
    {
      if ShouldUseVideo(State()) && hasError {
        if Truthy(props.mjpegFallback) && currentStreamType == Hls {
          currentStreamType := Mjpeg;
        }
      }
    }

    /** The clock reaching `now`; the pending revert timer fires when due. */
    method OnClock(now: int)
      modifies this
      ensures State() == ClockStep(old(State()), now)
    {
      if revertAt.Some? && now >= revertAt.value {
        isPlayingVideo := false;
        revertAt := None;
      }
    }

    /** The fullscreen icon always reports the primary URI, whatever the state. */
    method PressFullscreenIcon() returns (uri: string)
      ensures uri == props.uri
    {
      uri := props.uri;
    }
  }
}
