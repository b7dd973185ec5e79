# frigate-expo core, modelled in Dafny

frigate-expo is a React Native viewer for the Frigate network video recorder (NVR). This
project models the logic under its screens: the settings store, the camera directory built
from the NVR's configuration, the settings screen's list handling and save/load handlers,
the home screen's camera selection, the grid tile player with its HLS→MJPEG fallback and
30-second revert, the fullscreen player with its loading indicator and zoom/pan transform,
and the camera list's enable buttons.

One Dafny module per source file:

| module | source file | form |
|---|---|---|
| `SettingsController` | controllers/SettingsController.ts | class `SettingController` over a `map` standing for the key/value store; host normalisation and the store readers as functions |
| `FrigateController` | controllers/FrigateController.ts | pure functions from a host and the fetched configuration to camera descriptors |
| `SettingsScreen` | screens/SettingsScreen.tsx | merge, toggle and the dirty flags as functions; class `SettingsScreen` with the save and load handlers as methods |
| `HomeScreen` | screens/HomeScreen.tsx | pure functions: filter, click lookup, screen choice, tile props |
| `Player` | components/Player.tsx | pure step functions over the tile state, with trace lemmas; class `TilePlayer` whose methods follow them |
| `FullscreenPlayer` | components/FullscreenPlayer.tsx | step functions for playback and for the transform, with trace lemmas; class `FullscreenPlayer` with the eight state values |
| `CameraList` | components/CameraList.tsx | class `CameraObject`; `UpdateCameraState` writes `enabled` into the objects of the list in a loop |
| `Wrappers`, `JsSemantics` | — | `Option`, first-match search (`find`), truthiness of optional strings, `||`, the whitespace `trim` removes |

How the environment appears in the model:

- AsyncStorage is a `map<string, StoredValue>`. JSON encoding and decoding are the identity.
- The result of `fetch` plus `response.json()` is a `ConfigResponse` parameter.
- The login outcome is a `LoginOutcome` parameter.
- `Date.now()` and the timer are a `now` parameter and a `ClockTick` event.
- Player status callbacks and web-view load callbacks are events.
- `withTiming(v)` assigns `v` at once.
- `Alert.alert` is the `alerted` flag of `CameraFetch`.

Three behaviours of the code are worth knowing:

- **Merge on save.** The merge keeps only the fetched cameras, in fetched order, and takes `enabled` by name from the current list. A camera the directory no longer reports is dropped, not kept as `unavailable`, and the old order is not kept. `MergeDropsUnfetched` and `MergeExample` state this.
- **HTTP status.** The directory fetch never checks the HTTP status. An error response fails only if its body does not parse as JSON or has no `cameras` member (`ErrorBodyFailsSoft`).
- **Login.** `handleSave` calls `frigateController.login` (screens/SettingsScreen.tsx:54), but `FrigateController` defines only its constructor and `getCameras` (controllers/FrigateController.ts:17-45). The call therefore throws, and the handler stops after storing the credentials; `LoginOutcome` covers both that and a login that returns. The directory request sends no token.

Three more behaviours are visible in the model:

- **Fullscreen fallback.** `onVideoClick` navigates with the stream type, MJPEG fallback and snapshot, but the detail screen passes only `uri` on to the fullscreen view. In the application, the fullscreen view therefore always plays HLS and never falls back (`DetailScreenStaysOnHls`). The fullscreen model still takes all its props, as the component declares them.
- **Host used for camera URLs.** `handleSave` builds the camera URLs from the host as typed, but stores the host with its trailing slashes removed. A host typed as `h/` is therefore stored as `h`, while its thumbnails are `h//api/...` (`SaveBuildsUrlsOnTypedHost`).
- **Gestures only on HLS.** The pinch, pan and double-tap handlers are attached to the video view alone (components/FullscreenPlayer.tsx:174-186), so they arrive only while the fullscreen view plays HLS; the model's gesture methods require that.

## Model

| member | source | states |
|---|---|---|
| SettingsController.NormalizeHost | controllers/SettingsController.ts:31-35 | the stored host is the given host with its whole trailing run of `/` removed: a prefix of it, not ending in `/`, followed only by `/` |
| SettingsController.NormalizeHostUnique | controllers/SettingsController.ts:33 | exactly one prefix has that property, so the normalisation is fully determined |
| SettingsController.NormalizeHostIdempotent | controllers/SettingsController.ts:33 | normalising twice is normalising once |
| SettingsController.NormalizeHostKeeps | controllers/SettingsController.ts:33 | a host not ending in `/` is stored unchanged; a normalised host never ends in `/` |
| SettingsController.HostIn | controllers/SettingsController.ts:37-39 | the host read is `""` when none is stored, else exactly the stored value |
| SettingsController.AuthIn | controllers/SettingsController.ts:46-49 | the credentials read are null exactly when none are stored, else the stored record |
| SettingsController.CamerasIn | controllers/SettingsController.ts:26-29 | the camera list read is `[]` when none is stored, else the stored list |
| SettingsController.GridColumnsIn | controllers/SettingsController.ts:68-71 | the column count read is 1 when none is stored, else the stored integer |
| SettingsController.SettingController.constructor | controllers/SettingsController.ts:21 | the controller works on the store it is given |
| SettingsController.SettingController.SetCameras | controllers/SettingsController.ts:22-24 | only the `cameras` key changes, to the given list |
| SettingsController.SettingController.GetCameras | controllers/SettingsController.ts:26-29 | returns the stored list or `[]` |
| SettingsController.SettingController.SetHost | controllers/SettingsController.ts:31-35 | only the `host` key changes, to the normalised host, which does not end in `/` |
| SettingsController.SettingController.GetHost | controllers/SettingsController.ts:37-39 | returns the stored host or `""` |
| SettingsController.SettingController.SetAuth | controllers/SettingsController.ts:41-44 | only the `auth` key changes, to the given username and password with no token and no expiry |
| SettingsController.SettingController.GetAuth | controllers/SettingsController.ts:46-49 | returns the stored credentials or null |
| SettingsController.SettingController.ClearAuth | controllers/SettingsController.ts:51-53 | removes the `auth` key and nothing else |
| SettingsController.SettingController.UpdateToken | controllers/SettingsController.ts:55-62 | no change without stored credentials; otherwise sets the token and the expiry `now + expiresIn*1000`, and keeps username and password |
| SettingsController.SettingController.SetGridColumns | controllers/SettingsController.ts:64-66 | only the `gridColumns` key changes, to the given count |
| SettingsController.SettingController.GetGridColumns | controllers/SettingsController.ts:68-71 | returns the stored count or 1 |
| SettingsController.StoreRoundTrips | controllers/SettingsController.ts:22-71 | each setter then its getter returns what was set (the host normalised); a token update keeps the credentials; after `clearAuth`, even with a token update, there are no credentials |
| FrigateController.StreamNameText | controllers/FrigateController.ts:34 | the text interpolated for `stream_name`: the string itself, "null" for a JSON `null`, "undefined" when it is missing |
| FrigateController.CameraFor | controllers/FrigateController.ts:30-36 | the camera built for a key: named by the key, disabled, available, no stream type and no alternative streams; both URLs start with the host, with the stream name and the key in place after their paths |
| FrigateController.StreamUrl | controllers/FrigateController.ts:34 | the stream URL is the host, the stream path, the stream name and the `&video=h264` suffix, in that order |
| FrigateController.ThumbnailUrl | controllers/FrigateController.ts:35 | the thumbnail URL is the host, `/api/`, the camera key and the `/latest.jpg?h=200` suffix, in that order |
| FrigateController.BuildCameras | controllers/FrigateController.ts:28-37 | succeeds exactly when every entry has `live`; then the i-th entry gives the i-th camera, built from its key and its `live` |
| FrigateController.GetCameras | controllers/FrigateController.ts:23-44 | no alert exactly when the fetch, the parse, `cameras` and every `live` succeed, and then the result is the mapped list; otherwise an alert and `[]` |
| FrigateController.GetCamerasShape | controllers/FrigateController.ts:28-35 | on success: one camera per key, in key order, named by its key, disabled, available, with the stream and thumbnail URLs on the given host; distinct keys give distinct names |
| FrigateController.UrlsDetermineIdentity | controllers/FrigateController.ts:34-35 | on one host, equal stream URLs mean equal stream names and equal thumbnail URLs mean equal keys |
| FrigateController.ErrorBodyFailsSoft | controllers/FrigateController.ts:25-43 | a body without `cameras`, whatever the HTTP status, gives an alert and `[]` |
| SettingsScreen.FirstNamed | screens/SettingsScreen.tsx:70 | the first camera with the name, or none exactly when no camera has it |
| SettingsScreen.MergeCameras | screens/SettingsScreen.tsx:69-72 | same length and order as the fetched list; only `enabled` may differ from the fetched entry, taken from the first same-named current camera; unmatched entries unchanged |
| SettingsScreen.MergeWithNothing | screens/SettingsScreen.tsx:69-72 | merging against an empty list gives the fetched list |
| SettingsScreen.MergeIdempotent | screens/SettingsScreen.tsx:69-72 | merging the result again against the same list changes nothing |
| SettingsScreen.MergeDropsUnfetched | screens/SettingsScreen.tsx:69-72 | the merge has the fetched names and `unavailable` flags; a current camera missing from the fetch is absent from the result |
| SettingsScreen.MergeExample | screens/SettingsScreen.tsx:69-72 | fetched `front, back` against current `front` (enabled) and `side` gives `front` (enabled) and `back`, without `side` |
| SettingsScreen.MergeKeepsDistinctNames | screens/SettingsScreen.tsx:69-72 | distinct fetched names stay distinct after the merge |
| SettingsScreen.ToggleByName | screens/SettingsScreen.tsx:106-111 | same length; only `enabled` may change, and it changes exactly on the cameras with the name |
| SettingsScreen.ToggleTwiceRestores | screens/SettingsScreen.tsx:106-111 | toggling the same name twice restores the list |
| SettingsScreen.UnsavedServerChanges | screens/SettingsScreen.tsx:163-175 | dirty exactly when host, username or password differs from its saved value |
| SettingsScreen.UnsavedCameraChanges | screens/SettingsScreen.tsx:177-183 | dirty exactly when the list or the column count differs from its saved value |
| SettingsScreen.StoreAfterAuthStep | screens/SettingsScreen.tsx:52-64 | with username and password both non-empty the credentials are stored without a token; otherwise they are removed |
| SettingsScreen.SaveBuildsUrlsOnTypedHost | screens/SettingsScreen.tsx:49-74 | a host typed with one trailing `/` is stored without it, while its thumbnail URLs contain `//api/` |
| JsSemantics.WhitespaceRunEnd | screens/SettingsScreen.tsx:43 | the end of the leading whitespace run `trim()` removes: only whitespace before it, and it is the end of the string or a non-whitespace character |
| JsSemantics.WhitespaceRunStart | screens/SettingsScreen.tsx:43 | the start of the trailing whitespace run `trim()` removes: only whitespace after it, and it follows a non-whitespace character or the leading run |
| JsSemantics.Trim | screens/SettingsScreen.tsx:43 | `trim()` is a slice of the string with only whitespace before and after it, and is empty or starts and ends with a non-whitespace character |
| JsSemantics.BlankIffTrimEmpty | screens/SettingsScreen.tsx:43 | `!inputHost.trim()` holds exactly when every character of the host is whitespace (the `IsBlank` test `HandleSave` uses) |
| SettingsScreen.SavesAuth | screens/SettingsScreen.tsx:52 | the credentials are stored and a login tried exactly when both username and password are truthy |
| SettingsScreen.ShouldFetchOnLoad | screens/SettingsScreen.tsx:138 | loading fetches cameras exactly when the stored host is truthy and the stored list is empty |
| SettingsScreen.SettingsScreen.constructor | screens/SettingsScreen.tsx:25-40 | empty server form, saved equal to input, empty camera list with 2 columns, saved equal to current |
| SettingsScreen.SettingsScreen.HandleSave | screens/SettingsScreen.tsx:42-89 | a blank host changes nothing; a throwing login leaves only the credential step done; a completed save stores the credentials (or clears them), the normalised host and the merged list; the host as typed and the credentials become the saved form values, and the merged list both the current and the saved list; it leaves the server form clean and the camera form dirty only for the columns |
| SettingsScreen.SettingsScreen.HandleSaveCameras | screens/SettingsScreen.tsx:91-104 | stores the list and the column count, makes them the saved values, and the camera form is clean |
| SettingsScreen.SettingsScreen.ToggleCamera | screens/SettingsScreen.tsx:106-111 | the edited list becomes its toggle by the camera's name; nothing else changes |
| SettingsScreen.SettingsScreen.LoadSettings | screens/SettingsScreen.tsx:113-161 | loads host, columns, the list and (when stored) the credentials into both edited and saved state; with a host and no stored cameras it fetches the directory and stores it; the camera form is clean afterwards |
| HomeScreen.EnabledCameras | screens/HomeScreen.tsx:44 | the result holds exactly the enabled cameras of the list |
| HomeScreen.EnabledCamerasOfConcat | screens/HomeScreen.tsx:44 | filtering a concatenation concatenates the filtered parts, so list order is kept |
| HomeScreen.EnabledCamerasIdempotent | screens/HomeScreen.tsx:44 | filtering twice is filtering once |
| HomeScreen.CameraForUri | screens/HomeScreen.tsx:17-19 | the first camera whose stream or MJPEG stream is the URI, or none exactly when no camera matches |
| HomeScreen.OnVideoClick | screens/HomeScreen.tsx:15-26 | the URI passes unchanged; stream type from the match or HLS; MJPEG fallback and snapshot from the match, absent without one |
| HomeScreen.ChooseScreen | screens/HomeScreen.tsx:129-141 | grid exactly when some camera is enabled; otherwise welcome exactly when the host is empty, else the empty state |
| HomeScreen.TileProps | screens/HomeScreen.tsx:52-57 | a tile gets its camera's stream, stream type, MJPEG stream and thumbnail |
| HomeScreen.Tiles | screens/HomeScreen.tsx:44-62 | one tile per enabled camera, in list order |
| HomeScreen.ClickFindsTileCamera | screens/HomeScreen.tsx:15-26 | when no two cameras share a URI, a click reported by a tile (on HLS or MJPEG) navigates with that tile's camera's MJPEG stream and thumbnail |
| Player.InitialStreamType | components/Player.tsx:23-25 | the given stream type, or HLS |
| Player.InitialTile | components/Player.tsx:22-25 | not playing, no timer, on the initial stream type |
| Player.CurrentUri | components/Player.tsx:28 | the primary URI on HLS; on MJPEG the fallback when it is a non-empty string, else the primary URI |
| Player.ShouldUseVideo | components/Player.tsx:29 | the video view is used exactly while playing on HLS |
| Player.VideoSource | components/Player.tsx:29-35 | the video player has a source exactly while playing on HLS, and it is the primary URI |
| Player.LowBandwidthUri | components/Player.tsx:32 | the preview shows the MJPEG fallback when non-empty, else the snapshot |
| Player.TapStep | components/Player.tsx:74-80 | an idle tile starts playing and arms the revert timer without reporting; a playing tile reports its current URI and does not change |
| Player.StatusStep | components/Player.tsx:55-72 | the stream type changes exactly on an error while playing on HLS with a non-empty fallback, and only from HLS to MJPEG; playing and the timer are untouched |
| Player.ClockStep | components/Player.tsx:44-52 | when the timer is due, playback stops and the timer clears; otherwise nothing changes; the stream type is kept |
| Player.RunKeepsTimerArmed | components/Player.tsx:44-52 | over any event sequence, a revert timer is pending exactly while the tile plays |
| Player.MjpegIsFinal | components/Player.tsx:60-65 | once on MJPEG, no event sequence returns the tile to HLS |
| Player.NoFallbackNoSwitch | components/Player.tsx:60-65 | without a non-empty fallback the stream type never changes |
| Player.PlaybackRunsUntilRevert | components/Player.tsx:44-52 | taps and errors neither extend nor cancel the revert time, and the tile keeps playing through every earlier tick |
| Player.FallbackScenario | components/Player.tsx:22-80 | tap, HLS error, tap (reporting the MJPEG URI), then the 30 s tick leave the tile idle on MJPEG |
| Player.TilePlayer.constructor | components/Player.tsx:22-25 | the mounted tile is in the initial state |
| Player.TilePlayer.HandleClick | components/Player.tsx:74-80 | the state and the reported URI are those of the tap step |
| Player.TilePlayer.OnStatusChange | components/Player.tsx:55-72 | the new state is the status step of the old |
| Player.TilePlayer.OnClock | components/Player.tsx:44-52 | the new state is the clock step of the old |
| Player.TilePlayer.PressFullscreenIcon | components/Player.tsx:193 | the fullscreen icon reports the primary URI whatever the state |
| FullscreenPlayer.CurrentUri | components/FullscreenPlayer.tsx:53 | the primary URI on HLS, `mjpegFallback || uri` on MJPEG |
| FullscreenPlayer.ShouldUseVideo | components/FullscreenPlayer.tsx:54 | the video view is used exactly on HLS |
| FullscreenPlayer.StatusEffect | components/FullscreenPlayer.tsx:66-70 | without the video player the loading indicator is cleared; with it nothing changes |
| FullscreenPlayer.InitialPlayback | components/FullscreenPlayer.tsx:38-70 | the given stream type or HLS, loading exactly when on HLS once mounted |
| FullscreenPlayer.StatusStep | components/FullscreenPlayer.tsx:72-91 | ignored on MJPEG; `loading` sets the indicator and any other status clears it; an error clears it and switches to MJPEG exactly when the fallback is non-empty |
| FullscreenPlayer.WebViewStep | components/FullscreenPlayer.tsx:158-171 | on MJPEG, load start sets the indicator and load end or error clears it; on HLS nothing changes |
| FullscreenPlayer.MjpegIsFinal | components/FullscreenPlayer.tsx:84-91 | once on MJPEG, no event sequence returns to HLS |
| FullscreenPlayer.ErrorWithoutFallbackStaysOnHls | components/FullscreenPlayer.tsx:84-91 | without a non-empty fallback the view stays on HLS, and the indicator is off after an error |
| FullscreenPlayer.DetailScreenStaysOnHls | screens/VideoDetailScreen.tsx:7-21 | the detail screen passes only the URI, so the view starts on HLS and loading, and never leaves HLS |
| FullscreenPlayer.PinchUpdate | components/FullscreenPlayer.tsx:101-103 | the live scale becomes saved scale times the pinch factor; nothing else changes |
| FullscreenPlayer.PinchEnd | components/FullscreenPlayer.tsx:104-120 | scale and saved scale end equal and within [1, 5]; below 1 everything resets to the identity; above 5 both clamp to 5 and the translations stay |
| FullscreenPlayer.PanUpdate | components/FullscreenPlayer.tsx:123-132 | when zoomed in, the live translation is the saved translation plus the offset; nothing else changes |
| FullscreenPlayer.PanEnd | components/FullscreenPlayer.tsx:128-132 | when zoomed in, the live translation is committed to the saved one; nothing else changes |
| FullscreenPlayer.PanEnabled | components/FullscreenPlayer.tsx:132 | the pan gesture is enabled exactly when the live scale is above 1 |
| FullscreenPlayer.PanDisabledWhenUnzoomed | components/FullscreenPlayer.tsx:104-144 | after a double tap, or a pinch ending at scale 1 or below, panning is disabled; on the identity transform a pan changes nothing |
| FullscreenPlayer.DoubleTap | components/FullscreenPlayer.tsx:135-144 | from any state: scale and saved scale 1, all four translations 0 |
| FullscreenPlayer.SavedScaleStaysInRange | components/FullscreenPlayer.tsx:100-144 | over any gesture sequence the saved scale stays within [1, 5] |
| FullscreenPlayer.SettledWithoutPinchMoves | components/FullscreenPlayer.tsx:100-144 | with no pinch move, live and saved scale stay equal and within [1, 5] |
| FullscreenPlayer.FullscreenPlayer.constructor | components/FullscreenPlayer.tsx:38-51 | the mounted view is in the initial playback state with the identity transform |
| FullscreenPlayer.FullscreenPlayer.OnStatusChange | components/FullscreenPlayer.tsx:72-91 | the playback state follows the status step; the transform is untouched |
| FullscreenPlayer.FullscreenPlayer.OnWebViewEvent | components/FullscreenPlayer.tsx:158-171 | the playback state follows the web-view step; the transform is untouched |
| FullscreenPlayer.FullscreenPlayer.PressVideo | components/FullscreenPlayer.tsx:174-183 | a press on HLS reports the primary URI; on MJPEG there is no video view to press |
| FullscreenPlayer.FullscreenPlayer.OnPinchUpdate | components/FullscreenPlayer.tsx:101-103 | on HLS, where the gesture handlers are attached, the transform follows the pinch update |
| FullscreenPlayer.FullscreenPlayer.OnPinchEnd | components/FullscreenPlayer.tsx:104-120 | on HLS, where the gesture handlers are attached, the transform follows the pinch end |
| FullscreenPlayer.FullscreenPlayer.OnPanUpdate | components/FullscreenPlayer.tsx:123-132 | on HLS, where the gesture handlers are attached, the transform follows the pan update |
| FullscreenPlayer.FullscreenPlayer.OnPanEnd | components/FullscreenPlayer.tsx:128-132 | on HLS, where the gesture handlers are attached, the transform follows the pan end |
| FullscreenPlayer.FullscreenPlayer.OnDoubleTap | components/FullscreenPlayer.tsx:135-144 | on HLS, where the gesture handlers are attached, the transform is reset to the identity |
| CameraList.CameraObject.constructor | components/CameraList.tsx:20-24 | a camera object holding the given camera's values; `enabled` is its only mutable field, the one `updateCameraState` writes |
| CameraList.Values | components/CameraList.tsx:19-26 | the list's values, one per object, in order: the i-th is the i-th object's current value |
| CameraList.SetEnabledByName | components/CameraList.tsx:19-26 | same length; only `enabled` may change, to the given state on the cameras with the name and nowhere else |
| CameraList.UpdateCameraState | components/CameraList.tsx:19-27 | returns the same objects in the same order; each object named like the pressed camera now has the given state, the others keep theirs; the values are those of `SetEnabledByName` |
| CameraList.ButtonTitle | components/CameraList.tsx:6 | "Enabled" for an enabled camera, "Disabled" otherwise |
| CameraList.ButtonColor | components/CameraList.tsx:7 | "green" for an enabled camera, "darkgray" otherwise |
| CameraList.PressedState | components/CameraList.tsx:13 | the button asks for the negation of the camera's `enabled` |
| CameraList.TitleAndColorAgree | components/CameraList.tsx:6-7 | title and colour change together, exactly when `enabled` does |
| CameraList.PressIsToggle | components/CameraList.tsx:13-26 | pressing a camera's button toggles the list like the settings screen's switch exactly when all cameras of that name share its `enabled` |
| CameraList.PressTwiceRestores | components/CameraList.tsx:13-26 | pressing the same button twice restores the list when cameras of that name agree |

## Left out

- Storage and network I/O: AsyncStorage, `fetch`, `response.json()` and `Alert.alert` are replaced by a map, a response value and a flag. JSON encoding is the identity, so text that does not parse back and key-order effects of `JSON.stringify` are not modelled.
- Login: `frigateController.login` does not exist on the directory class, so its outcome is a parameter. No code of the core sends or refreshes a token.
- Asynchronous ordering: every handler runs as one atomic step. Races between overlapping `loadSettings` runs are not modelled, and neither are focus listeners firing during a save.
- Error paths of the store itself are not modelled: AsyncStorage is taken never to reject, so the `catch` block of `handleSave` is reached only through the login call, and those of `handleSaveCameras` and `loadSettings` are never reached.
- FrigateController.StreamNameText: a `stream_name` that is neither a string, `null` nor missing (a number, an object) is not modelled; the application's configuration type declares it a string.
- `FrigateController.GetCameras` takes the configuration's keys in `Object.keys` order as given. JavaScript lists integer-like keys first, and the model does not reorder them.
- Numbers are `int` and `real`. JavaScript doubles, `parseInt` of stored text and `toString` are not modelled. Nothing in the core relies on their limits.
- Rendering is not modelled: layout, styles, the HTML of the web views, `MjpegWebView`, activity indicators and icons.
- The busy flags `isLoading` and `isSavingCameras` of the settings screen are not modelled. Besides the spinners, they disable the two save buttons while a save runs (screens/SettingsScreen.tsx:256, 379), and `isLoading` hides the "No cameras found" card (screens/SettingsScreen.tsx:395); none of these effects is modelled, as every handler runs as one atomic step.
- Text-input setters, the column buttons and the drag-to-reorder list of the settings screen are not modelled; each only assigns an edited field.
- `hasError` is not modelled in either player. It is set nowhere and read nowhere.
- The video player's own behaviour (loop, mute, play) is not modelled. It appears only as the status events it raises.
- FullscreenPlayer.PanUpdate: the pan gate `scale > 1` is read when the pan event arrives. The code reads the shared value when the view last rendered, and renders do not follow scale changes.
- FullscreenPlayer.PanEnd: the same pan-gate timing applies.
- The navigation shell (App.tsx) is not part of this model. Of the detail screen (screens/VideoDetailScreen.tsx), only what it passes to the fullscreen view is modelled; its orientation lock is not.
- The `onClose` button of the fullscreen view is not modelled; it only calls its callback.
