/** The settings screen's logic: merging a fresh camera directory into the list on screen,
    toggling cameras, the two "unsaved changes" flags, and the save and load handlers. */
module SettingsScreen {
  import opened Wrappers
  import opened JsSemantics
  import opened SettingsController
  import opened FrigateController

  // ---------------------------------------------------------------------------------------
  // Camera lists

  /** The position of the first camera named `name` (`cameras.find(c => c.name === name)`). */
  function FirstNamed(cameras: seq<Camera>, name: string): (r: Option<nat>)
    ensures r.Some? ==> r.value < |cameras| && cameras[r.value].name == name
    ensures r.Some? ==> forall j :: 0 <= j < r.value ==> cameras[j].name != name
    ensures r.None? <==> forall j :: 0 <= j < |cameras| ==> cameras[j].name != name
  {
    FirstIndex(cameras, (c: Camera) => c.name == name)
  }

  /** `handleSave`'s merge: each fetched camera, in fetched order, takes `enabled` from the
      first camera of the same name in the current list and keeps every other field. */
  function MergeCameras(fetched: seq<Camera>, current: seq<Camera>): (r: seq<Camera>)
    ensures |r| == |fetched|
    ensures forall i :: 0 <= i < |r| ==> r[i].(enabled := fetched[i].enabled) == fetched[i]
    ensures forall i :: 0 <= i < |r| ==>
      match FirstNamed(current, fetched[i].name)
      case None => r[i] == fetched[i]
      case Some(k) => r[i].enabled == current[k].enabled
  {
    if |fetched| == 0 then []
    else
      var camera := fetched[0];
      var merged := match FirstNamed(current, camera.name)
        case None => camera
        case Some(k) => camera.(enabled := current[k].enabled);
      [merged] + MergeCameras(fetched[1..], current)
  }

  /** `toggleCamera`: negates `enabled` on every camera with the given name and on no other,
      changing nothing else. */
  function ToggleByName(cameras: seq<Camera>, name: string): (r: seq<Camera>)
    ensures |r| == |cameras|
    ensures forall i :: 0 <= i < |r| ==> r[i].(enabled := cameras[i].enabled) == cameras[i]
    ensures forall i :: 0 <= i < |r| ==> (r[i].enabled != cameras[i].enabled <==> cameras[i].name == name)
  {
    if |cameras| == 0 then []
    else
      var c := cameras[0];
      [if c.name == name then c.(enabled := !c.enabled) else c] + ToggleByName(cameras[1..], name)
  }

  /** Toggling the same camera twice restores the list. */
  lemma ToggleTwiceRestores(cameras: seq<Camera>, name: string)
    ensures ToggleByName(ToggleByName(cameras, name), name) == cameras
  {
    var once := ToggleByName(cameras, name);
    var twice := ToggleByName(once, name);
    forall i | 0 <= i < |cameras|
      ensures twice[i] == cameras[i]
    {
      assert once[i].name == cameras[i].name;
    }
  }

  /** Merging against an empty list leaves the fetched list as it is. */
  lemma MergeWithNothing(fetched: seq<Camera>)
    ensures MergeCameras(fetched, []) == fetched
  {
    var r := MergeCameras(fetched, []);
    forall i | 0 <= i < |fetched|
      ensures r[i] == fetched[i]
    {
      assert FirstNamed([], fetched[i].name).None?;
    }
  }

  /** Merging again against the same list changes nothing more. */
  lemma MergeIdempotent(fetched: seq<Camera>, current: seq<Camera>)
    ensures MergeCameras(MergeCameras(fetched, current), current) == MergeCameras(fetched, current)
  {
    var once := MergeCameras(fetched, current);
    var twice := MergeCameras(once, current);
    forall i | 0 <= i < |fetched|
      ensures twice[i] == once[i]
    {
      assert once[i].name == fetched[i].name;
    }
  }

  /** The merge keeps exactly the fetched names in the fetched order: a current camera the
      directory no longer reports is dropped, not kept as unavailable, and the merge flags
      nothing unavailable that the directory did not. */
  lemma MergeDropsUnfetched(fetched: seq<Camera>, current: seq<Camera>)
    ensures var r := MergeCameras(fetched, current);
      && (forall i :: 0 <= i < |r| ==> r[i].name == fetched[i].name && r[i].unavailable == fetched[i].unavailable)
      && (forall c :: c in current && (forall j :: 0 <= j < |fetched| ==> fetched[j].name != c.name) ==>
            forall i :: 0 <= i < |r| ==> r[i].name != c.name)
  {
    var r := MergeCameras(fetched, current);
    forall i | 0 <= i < |r|
      ensures r[i].name == fetched[i].name && r[i].unavailable == fetched[i].unavailable
    {
      assert r[i].(enabled := fetched[i].enabled) == fetched[i];
    }
  }

  /** With the directory reporting `front` and `back` and the screen listing `front`
      (enabled) and `side` (enabled), the merge is `front` (enabled) and `back` (as
      fetched); `side` is gone. */
  lemma MergeExample(front: Camera, back: Camera, savedFront: Camera, side: Camera)
    requires front.name == "front" && back.name == "back" && !back.enabled
    requires savedFront.name == "front" && savedFront.enabled
    requires side.name == "side" && side.enabled
    ensures MergeCameras([front, back], [savedFront, side]) == [front.(enabled := true), back]
  {
    var r := MergeCameras([front, back], [savedFront, side]);
    assert FirstNamed([savedFront, side], "front") == Some(0);
    assert FirstNamed([savedFront, side], "back").None?;
    assert r[0] == front.(enabled := true);
    assert r[1] == back;
  }

  /** Distinct names in the directory stay distinct after the merge. */
  lemma MergeKeepsDistinctNames(fetched: seq<Camera>, current: seq<Camera>)
    requires DistinctNames(fetched)
    ensures DistinctNames(MergeCameras(fetched, current))
  {
    MergeDropsUnfetched(fetched, current);
  }

  // ---------------------------------------------------------------------------------------
  // The two forms and their "unsaved changes" flags

  /** The server card: host and credentials, as typed or as last saved. */
  datatype ServerForm = ServerForm(host: string, username: string, password: string)

  /** The camera card: the camera list and the grid column count, as edited or as last saved. */
  datatype CameraForm = CameraForm(cameras: seq<Camera>, gridColumns: int)

  /** `hasUnsavedHostChanges`: some field of the server card differs from its saved value. */
  function UnsavedServerChanges(input: ServerForm, saved: ServerForm): (dirty: bool)
    ensures dirty <==> input != saved
  {
    input.host != saved.host || input.username != saved.username || input.password != saved.password
  }

  /** `hasUnsavedCameraChanges`: the list (compared as JSON) or the column count differs. */
  function UnsavedCameraChanges(current: CameraForm, saved: CameraForm): (dirty: bool)
    ensures dirty <==> current != saved
  {
    current.cameras != saved.cameras || current.gridColumns != saved.gridColumns
  }

  /** `inputUsername && inputPassword`: credentials are saved only when both fields are
      truthy; otherwise they are cleared. */
  function SavesAuth(input: ServerForm): (saves: bool)
    ensures saves <==> Truthy(Some(input.username)) && Truthy(Some(input.password))
  {
    input.username != "" && input.password != ""
  }

  /** `host && savedCams.length === 0`: `loadSettings` fetches the directory when a host is
      saved but no camera is. */
  function ShouldFetchOnLoad(host: string, savedCameras: seq<Camera>): (fetch: bool)
    ensures fetch <==> Truthy(Some(host)) && savedCameras == []
  {
    host != "" && |savedCameras| == 0
  }

  /** What `frigateController.login` did. The camera directory shown defines no `login`, so
      calling it throws a TypeError (`LoginThrows`); a login returning a result is the other case. */
  datatype LoginOutcome = LoginThrows | LoginReturned(success: bool)

  /** `handleSave` runs to its end: the host is not blank, and when credentials are saved,
      the login call returns instead of throwing. */
  predicate SaveCompletes(input: ServerForm, login: LoginOutcome) {
    !IsBlank(input.host) && (SavesAuth(input) ==> login.LoginReturned?)
  }

  /** The store after `handleSave`'s credential step. */
  function StoreAfterAuthStep(store: map<string, StoredValue>, input: ServerForm): (r: map<string, StoredValue>)
    ensures SavesAuth(input) ==> r == store[AuthKey := StoredAuth(AuthData(input.username, input.password, None, None))]
    ensures !SavesAuth(input) ==> r == store - {AuthKey}
  {
    if SavesAuth(input) then store[AuthKey := StoredAuth(AuthData(input.username, input.password, None, None))]
    else store - {AuthKey}
  }

  /** The directory fetch in `handleSave` uses the host as typed, before the store strips its
      trailing slashes: a host typed as `h/` is stored as `h`, while its cameras' URLs are
      built on `h/`. */
  lemma SaveBuildsUrlsOnTypedHost(h: string, key: string)
    requires h == [] || h[|h| - 1] != '/'
    ensures NormalizeHost(h + "/") == h
    ensures ThumbnailUrl(h + "/", key) == h + "//api/" + key + ThumbnailSuffix
  {
    OneSlashStripped(h);
    ThumbnailAfterSlash(h, key);
  }

  lemma OneSlashStripped(h: string)
    requires h == [] || h[|h| - 1] != '/'
    ensures NormalizeHost(h + "/") == h
  {
    var typed := h + "/";
    assert typed[..|typed| - 1] == h;
    assert NormalizeHost(typed) == NormalizeHost(h);
    NormalizeHostKeeps(h);
  }

  lemma ThumbnailAfterSlash(h: string, key: string)
    ensures ThumbnailUrl(h + "/", key) == h + "//api/" + key + ThumbnailSuffix
  {
    assert "/" + ThumbnailPath == "//api/";
    assert h + "/" + ThumbnailPath == h + "//api/";
  }

  // ---------------------------------------------------------------------------------------

  /** The settings screen's state, over the settings store it reads and writes. */
  class SettingsScreen {
    const settings: SettingController
    var input: ServerForm
    var saved: ServerForm
    var current: CameraForm
    var savedForm: CameraForm

    constructor (settings: SettingController)
      ensures this.settings == settings
      ensures input == ServerForm("", "", "") && saved == input
      ensures current == CameraForm([], 2) && savedForm == current
    {
      this.settings := settings;
      input := ServerForm("", "", "");
      saved := ServerForm("", "", "");
      current := CameraForm([], 2);
      savedForm := CameraForm([], 2);
    }

    /** `handleSave`: a blank host does nothing. Otherwise the credentials are saved (and a
        login attempted) or cleared, the directory is fetched from the typed host and merged
        into the list on screen, and host and merged list are stored (the host normalised).
        The host as typed and the merged list become the saved values. A throwing login ends the handler right after the credentials are stored. */
    method HandleSave(login: LoginOutcome, response: ConfigResponse)
      requires settings.Valid()
      modifies this, settings
      ensures settings.Valid()
      ensures IsBlank(old(input.host)) ==> unchanged(this) && settings.store == old(settings.store)
      ensures !IsBlank(old(input.host)) && SavesAuth(old(input)) && login.LoginThrows? ==>
        && unchanged(this)
        && settings.store == StoreAfterAuthStep(old(settings.store), old(input))
      ensures SaveCompletes(old(input), login) ==>
        var merged := MergeCameras(GetCameras(old(input.host), response).cameras, old(current.cameras));
        && settings.store == StoreAfterAuthStep(old(settings.store), old(input))
             [HostKey := StoredHost(NormalizeHost(old(input.host)))]
             [CamerasKey := StoredCameras(merged)]
        && input == old(input) && saved == input
        && current == old(current).(cameras := merged)
        && savedForm == old(savedForm).(cameras := merged)
        && !UnsavedServerChanges(input, saved)
        && (UnsavedCameraChanges(current, savedForm) <==> old(current.gridColumns) != old(savedForm.gridColumns))
    {
      if IsBlank(input.host) {
        return;
      }
      if SavesAuth(input) {
        settings.SetAuth(input.username, input.password);
        if login.LoginThrows? {
          return;
        }
      } else {
        settings.ClearAuth();
      }
      var fetched := GetCameras(input.host, response).cameras;
      var merged := MergeCameras(fetched, current.cameras);
      settings.SetHost(input.host);
      settings.SetCameras(merged);
      saved := input;
      current := current.(cameras := merged);
      savedForm := savedForm.(cameras := merged);
    }

    /** `handleSaveCameras`: stores the list and the column count and makes them the saved values. */
    method HandleSaveCameras()
      requires settings.Valid()
      modifies this, settings
      ensures settings.Valid()
      ensures settings.store == old(settings.store)
        [CamerasKey := StoredCameras(old(current.cameras))]
        [GridColumnsKey := StoredColumns(old(current.gridColumns))]
      ensures input == old(input) && saved == old(saved) && current == old(current)
      ensures savedForm == current
      ensures !UnsavedCameraChanges(current, savedForm)
    {
      settings.SetCameras(current.cameras);
      settings.SetGridColumns(current.gridColumns);
      savedForm := current;
    }

    /** `toggleCamera`: flips `enabled` on the cameras named like the given one. */
    method ToggleCamera(camera: Camera)
      modifies this
      ensures current == old(current).(cameras := ToggleByName(old(current.cameras), camera.name))
      ensures input == old(input) && saved == old(saved) && savedForm == old(savedForm)
    {
      current := current.(cameras := ToggleByName(current.cameras, camera.name));
    }

    /** `loadSettings`: reads host, credentials, cameras and columns into both the edited and
        the saved state (credentials only when stored), and when a host is stored but no
        camera, fetches the directory from the stored host and stores it. */
    method LoadSettings(response: ConfigResponse)
      requires settings.Valid()
      modifies this, settings
      ensures settings.Valid()
      ensures var st := old(settings.store);
        var host := HostIn(st);
        var auth := AuthIn(st);
        var stored := CamerasIn(st);
        var loaded := if ShouldFetchOnLoad(host, stored) then GetCameras(host, response).cameras else stored;
        && input == (if auth.Some? then ServerForm(host, auth.value.username, auth.value.password)
                     else old(input).(host := host))
        && saved == (if auth.Some? then ServerForm(host, auth.value.username, auth.value.password)
                     else old(saved).(host := host))
        && current == CameraForm(loaded, GridColumnsIn(st))
        && savedForm == current
        && settings.store == (if ShouldFetchOnLoad(host, stored) then st[CamerasKey := StoredCameras(loaded)] else st)
      ensures AuthIn(old(settings.store)).Some? ==> !UnsavedServerChanges(input, saved)
      ensures AuthIn(old(settings.store)).None? ==>
        (UnsavedServerChanges(input, saved) <==>
           old(input.username) != old(saved.username) || old(input.password) != old(saved.password))
      ensures !UnsavedCameraChanges(current, savedForm)
    {
      var host := settings.GetHost();
      var auth := settings.GetAuth();
      var savedCams := settings.GetCameras();
      var columns := settings.GetGridColumns();

      saved := saved.(host := host);
      input := input.(host := host);
      current := current.(gridColumns := columns);
      savedForm := savedForm.(gridColumns := columns);

      if auth.Some? {
        saved := saved.(username := auth.value.username, password := auth.value.password);
        input := input.(username := auth.value.username, password := auth.value.password);
      }

      current := current.(cameras := savedCams);
      savedForm := savedForm.(cameras := savedCams);

      if ShouldFetchOnLoad(host, savedCams) {
        var fetched := GetCameras(host, response).cameras;
        current := current.(cameras := fetched);
        savedForm := savedForm.(cameras := fetched);
        settings.SetCameras(fetched);
      }
    }
  }
}
