/** The camera list with enable buttons. Its cameras are JavaScript objects shared with the
    list it was given: pressing a button sets `enabled` on those very objects, then hands
    the same objects, in a new array, to `setCameras`. */
module CameraList {
  import opened Wrappers
  import opened SettingsController
  import SettingsScreen

  /** A camera object; only `enabled` is ever written. */
  class CameraObject {
    const name: string
    var enabled: bool
    const unavailable: bool
    const stream: string
    const streamType: Option<StreamType>
    const hlsStream: Option<string>
    const mjpegStream: Option<string>
    const thumbnail: string

    /** The object's current value. */
    function Value(): (c: Camera)
      reads this
    {
      Camera(name, enabled, unavailable, stream, streamType, hlsStream, mjpegStream, thumbnail)
    }

    constructor (c: Camera)
      ensures Value() == c
    {
      name := c.name;
      enabled := c.enabled;
      unavailable := c.unavailable;
      stream := c.stream;
      streamType := c.streamType;
      hlsStream := c.hlsStream;
      mjpegStream := c.mjpegStream;
      thumbnail := c.thumbnail;
    }
  }

  /** The current values of a list of camera objects. */
  function Values(cameras: seq<CameraObject>): (r: seq<Camera>)
    reads set c | c in cameras
    ensures |r| == |cameras|
    ensures forall i :: 0 <= i < |r| ==> r[i] == cameras[i].Value()
  {
    if |cameras| == 0 then [] else [cameras[0].Value()] + Values(cameras[1..])
  }

  /** Every camera of the given name gets `enabled := state`; the others are left alone. */
  function SetEnabledByName(cameras: seq<Camera>, name: string, state: bool): (r: seq<Camera>)
    ensures |r| == |cameras|
    ensures forall i :: 0 <= i < |r| ==> r[i].(enabled := cameras[i].enabled) == cameras[i]
    ensures forall i :: 0 <= i < |r| ==> r[i].enabled == if cameras[i].name == name then state else cameras[i].enabled
  {
    if |cameras| == 0 then []
    else
      var c := cameras[0];
      [if c.name == name then c.(enabled := state) else c] + SetEnabledByName(cameras[1..], name, state)
  }

  /** `updateCameraState`: walks the list and writes `state` into every object named like
      `camera`; the result holds the same objects in the same order. */
  method UpdateCameraState(cameras: seq<CameraObject>, camera: CameraObject, state: bool)
    returns (newCameras: seq<CameraObject>)
    modifies set c | c in cameras
    ensures newCameras == cameras
    ensures forall c :: c in cameras ==> c.enabled == if c.name == camera.name then state else old(c.enabled)
    ensures Values(newCameras) == SetEnabledByName(old(Values(cameras)), camera.name, state)
  {
    var i := 0;
    while i < |cameras|
      invariant 0 <= i <= |cameras|
      invariant forall j :: 0 <= j < i && cameras[j].name == camera.name ==> cameras[j].enabled == state
      invariant forall j :: 0 <= j < |cameras| && cameras[j].name != camera.name ==> cameras[j].enabled == old(cameras[j].enabled)
    {
      if cameras[i].name == camera.name {
        cameras[i].enabled := state;
      }
      i := i + 1;
    }
    newCameras := cameras;
  }

  /** The button's title. */
  function ButtonTitle(c: Camera): (title: string)
    ensures c.enabled ==> title == "Enabled"
    ensures !c.enabled ==> title == "Disabled"
  {
    if c.enabled then "Enabled" else "Disabled"
  }

  /** The button's colour. */
  function ButtonColor(c: Camera): (color: string)
    ensures c.enabled ==> color == "green"
    ensures !c.enabled ==> color == "darkgray"
  {
    if c.enabled then "green" else "darkgray"
  }

  /** Pressing the button asks for the opposite of the camera's current state. */
  function PressedState(c: Camera): (state: bool)
    ensures state != c.enabled
  {
    !c.enabled
  }

  /** The title and the colour tell the same thing: one changes exactly when the other does. */
  lemma TitleAndColorAgree(a: Camera, b: Camera)
    ensures ButtonTitle(a) == ButtonTitle(b) <==> ButtonColor(a) == ButtonColor(b)
    ensures ButtonTitle(a) == ButtonTitle(b) <==> a.enabled == b.enabled
  {
  }

  /** All cameras named like the k-th share its `enabled` (as when names are unique). */
  predicate NameAgrees(cameras: seq<Camera>, k: nat)
    requires k < |cameras|
  {
    forall j :: 0 <= j < |cameras| && cameras[j].name == cameras[k].name ==> cameras[j].enabled == cameras[k].enabled
  }

  /** Pressing the button of the k-th camera toggles it as the settings screen's switch does,
      when same-named cameras agree; if they disagree it does not (they all take one value). */
  lemma {:induction false} PressIsToggle(cameras: seq<Camera>, k: nat)
    requires k < |cameras|
    ensures NameAgrees(cameras, k) <==>
      SetEnabledByName(cameras, cameras[k].name, PressedState(cameras[k])) == SettingsScreen.ToggleByName(cameras, cameras[k].name)
  {
    var name := cameras[k].name;
    var pressed := SetEnabledByName(cameras, name, PressedState(cameras[k]));
    var toggled := SettingsScreen.ToggleByName(cameras, name);
    if NameAgrees(cameras, k) {
      forall i | 0 <= i < |cameras|
        ensures pressed[i] == toggled[i]
      {
        assert pressed[i].(enabled := cameras[i].enabled) == cameras[i];
        assert toggled[i].(enabled := cameras[i].enabled) == cameras[i];
      }
    } else {
      var j :| 0 <= j < |cameras| && cameras[j].name == name && cameras[j].enabled != cameras[k].enabled;
      assert pressed[j].enabled == cameras[j].enabled;
      assert toggled[j].enabled != cameras[j].enabled;
    }
  }

  /** Pressing the same button twice restores the list when same-named cameras agree. */
  lemma {:induction false} PressTwiceRestores(cameras: seq<Camera>, k: nat)
    requires k < |cameras| && NameAgrees(cameras, k)
    ensures var once := SetEnabledByName(cameras, cameras[k].name, PressedState(cameras[k]));
      SetEnabledByName(once, once[k].name, PressedState(once[k])) == cameras
  {
    var name := cameras[k].name;
    var once := SetEnabledByName(cameras, name, PressedState(cameras[k]));
    var twice := SetEnabledByName(once, once[k].name, PressedState(once[k]));
    forall i | 0 <= i < |cameras|
      ensures twice[i] == cameras[i]
    {
      assert once[i].(enabled := cameras[i].enabled) == cameras[i];
      assert twice[i].(enabled := once[i].enabled) == once[i];
    }
  }
}
