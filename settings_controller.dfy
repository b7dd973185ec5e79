/** The settings store: host, credentials, the camera list and the grid column count, kept
    under four keys of a key/value store. The store's values are kept already parsed
    (JSON encoding and decoding is the identity here). */
module SettingsController {
  import opened Wrappers

  /** The two transports a camera can be played with. */
  datatype StreamType = Hls | Mjpeg

  /** A camera descriptor. `streamType`, `hlsStream` and `mjpegStream` are optional: the
      camera directory never fills them, and readers of them fall back to defaults. */
  datatype Camera = Camera(
    name: string,
    enabled: bool,
    unavailable: bool,
    stream: string,
    streamType: Option<StreamType>,
    hlsStream: Option<string>,
    mjpegStream: Option<string>,
    thumbnail: string)

  /** Saved credentials, with the bearer token and its expiry (milliseconds since the epoch). */
  datatype AuthData = AuthData(
    username: string,
    password: string,
    token: Option<string>,
    tokenExpiry: Option<int>)

  /** What the store holds under a key. */
  datatype StoredValue =
    | StoredHost(host: string)
    | StoredAuth(auth: AuthData)
    | StoredCameras(cameras: seq<Camera>)
    | StoredColumns(columns: int)

  const HostKey: string := "host"
  const AuthKey: string := "auth"
  const CamerasKey: string := "cameras"
  const GridColumnsKey: string := "gridColumns"

  /** Every key this controller writes holds the kind of value the controller writes there. */
  predicate WellFormed(store: map<string, StoredValue>) {
    && (HostKey in store ==> store[HostKey].StoredHost?)
    && (AuthKey in store ==> store[AuthKey].StoredAuth?)
    && (CamerasKey in store ==> store[CamerasKey].StoredCameras?)
    && (GridColumnsKey in store ==> store[GridColumnsKey].StoredColumns?)
  }

  // ---------------------------------------------------------------------------------------
  // Host normalisation: `host.replace(/\/+$/, "")`

  /** `r` is `s` with its whole trailing run of `/` removed. */
  ghost predicate TrailingSlashesStripped(s: string, r: string) {
    && r <= s
    && (r == [] || r[|r| - 1] != '/')
    && forall i :: |r| <= i < |s| ==> s[i] == '/'
  }

  /** Removes every trailing `/` of a host. */
  function NormalizeHost(s: string): (r: string)
    ensures TrailingSlashesStripped(s, r)
    decreases |s|
  {
    if |s| > 0 && s[|s| - 1] == '/' then NormalizeHost(s[..|s| - 1]) else s
  }

  /** Stripping trailing slashes has exactly one result: the normalised host is the only
      prefix of `s` that leaves nothing but slashes behind and does not itself end in `/`. */
  lemma NormalizeHostUnique(s: string, r: string)
    requires TrailingSlashesStripped(s, r)
    ensures r == NormalizeHost(s)
  {
  }

  /** Normalising twice is normalising once. */
  lemma NormalizeHostIdempotent(s: string)
    ensures NormalizeHost(NormalizeHost(s)) == NormalizeHost(s)
  {
    var n := NormalizeHost(s);
    NormalizeHostUnique(n, n);
  }

  /** A host that does not end in `/` is stored as it was given, and a stored host never
      ends in `/`. */
  lemma NormalizeHostKeeps(s: string)
    ensures s == [] || s[|s| - 1] != '/' ==> NormalizeHost(s) == s
    ensures NormalizeHost(s) == [] || NormalizeHost(s)[|NormalizeHost(s)| - 1] != '/'
  {
    if s == [] || s[|s| - 1] != '/' {
      NormalizeHostUnique(s, s);
    }
  }

  // ---------------------------------------------------------------------------------------
  // What the getters read out of a store

  /** The stored host, or "" when none is stored (`?? ""`). */
  function HostIn(store: map<string, StoredValue>): (host: string)
    requires WellFormed(store)
    ensures HostKey !in store ==> host == ""
    ensures HostKey in store ==> store[HostKey] == StoredHost(host)
  {
    if HostKey in store then store[HostKey].host else ""
  }

  /** The stored credentials, or None (`null`) when none are stored. */
  function AuthIn(store: map<string, StoredValue>): (auth: Option<AuthData>)
    requires WellFormed(store)
    ensures auth.None? <==> AuthKey !in store
    ensures auth.Some? ==> store[AuthKey] == StoredAuth(auth.value)
  {
    if AuthKey in store then Some(store[AuthKey].auth) else None
  }

  /** The stored camera list, or the empty list when none is stored. */
  function CamerasIn(store: map<string, StoredValue>): (cameras: seq<Camera>)
    requires WellFormed(store)
    ensures CamerasKey !in store ==> cameras == []
    ensures CamerasKey in store ==> store[CamerasKey] == StoredCameras(cameras)
  {
    if CamerasKey in store then store[CamerasKey].cameras else []
  }

  /** The stored column count, or 1 when none is stored. */
  function GridColumnsIn(store: map<string, StoredValue>): (columns: int)
    requires WellFormed(store)
    ensures GridColumnsKey !in store ==> columns == 1
    ensures GridColumnsKey in store ==> store[GridColumnsKey] == StoredColumns(columns)
  {
    if GridColumnsKey in store then store[GridColumnsKey].columns else 1
  }

  // ---------------------------------------------------------------------------------------

  /** The settings controller over its key/value store. */
  class SettingController {
    var store: map<string, StoredValue>

    ghost predicate Valid()
      reads this
    {
      WellFormed(store)
    }

    constructor (initial: map<string, StoredValue>)
      requires WellFormed(initial)
      ensures Valid() && store == initial
    {
      store := initial;
    }

    method SetCameras(cameras: seq<Camera>)
      requires Valid()
      modifies this
      ensures Valid()
      ensures store == old(store)[CamerasKey := StoredCameras(cameras)]
    {
      store := store[CamerasKey := StoredCameras(cameras)];
    }

    /** The stored camera list, or the empty list when none is stored. */
    method GetCameras() returns (cameras: seq<Camera>)
      requires Valid()
      ensures cameras == CamerasIn(store)
    {
      cameras := CamerasIn(store);
    }

    method SetHost(host: string)
      requires Valid()
      modifies this
      ensures Valid()
      ensures store == old(store)[HostKey := StoredHost(NormalizeHost(host))]
      ensures store[HostKey].host == [] || store[HostKey].host[|store[HostKey].host| - 1] != '/'
    {
      var normalizedHost := NormalizeHost(host);
      store := store[HostKey := StoredHost(normalizedHost)];
    }

    /** The stored host, or "" when none is stored. */
    method GetHost() returns (host: string)
      requires Valid()
      ensures host == HostIn(store)
    {
      host := HostIn(store);
    }

    /** Stores fresh credentials, with no token and no expiry. */
    method SetAuth(username: string, password: string)
      requires Valid()
      modifies this
      ensures Valid()
      ensures store == old(store)[AuthKey := StoredAuth(AuthData(username, password, None, None))]
    {
      var authData := AuthData(username, password, None, None);
      store := store[AuthKey := StoredAuth(authData)];
    }

    /** The stored credentials, or None (`null`) when none are stored. */
    method GetAuth() returns (auth: Option<AuthData>)
      requires Valid()
      ensures auth == AuthIn(store)
    {
      auth := AuthIn(store);
    }

    method ClearAuth()
      requires Valid()
      modifies this
      ensures Valid()
      ensures store == old(store) - {AuthKey}
      ensures AuthKey !in store
    {
      store := store - {AuthKey};
    }

    /** Read-modify-write of the stored credentials: when some are stored, sets the token
        and an expiry `expiresIn` seconds after `now` (milliseconds); otherwise nothing. */
    method UpdateToken(token: string, expiresIn: int, now: int)
      requires Valid()
      modifies this
      ensures Valid()
      ensures AuthKey !in old(store) ==> store == old(store)
      ensures AuthKey in old(store) ==>
        var before := old(store)[AuthKey].auth;
        && store == old(store)[AuthKey := StoredAuth(
             AuthData(before.username, before.password, Some(token), Some(now + expiresIn * 1000)))]
        && store[AuthKey].auth.username == before.username
        && store[AuthKey].auth.password == before.password
    {
      var auth := GetAuth();
      if auth.Some? {
        var updated := auth.value.(token := Some(token), tokenExpiry := Some(now + expiresIn * 1000));
        store := store[AuthKey := StoredAuth(updated)];
      }
    }

    method SetGridColumns(columns: int)
      requires Valid()
      modifies this
      ensures Valid()
      ensures store == old(store)[GridColumnsKey := StoredColumns(columns)]
    {
      store := store[GridColumnsKey := StoredColumns(columns)];
    }

    /** The stored column count, or 1 when none is stored. */
    method GetGridColumns() returns (columns: int)
      requires Valid()
      ensures columns == GridColumnsIn(store)
    {
      columns := GridColumnsIn(store);
    }
  }

  /** Each setter followed by its getter gives back what was set (the host normalised); a
      token update on stored credentials keeps them and adds the token with its expiry;
      after `ClearAuth` there are no credentials, and a token update then changes nothing. */
  method StoreRoundTrips(c: SettingController, host: string, cameras: seq<Camera>,
                         username: string, password: string, token: string, expiresIn: int,
                         columns: int, now: int)
    returns (hostRead: string, camerasRead: seq<Camera>, authRead: Option<AuthData>,
             tokenRead: Option<AuthData>, clearedRead: Option<AuthData>, columnsRead: int)
    requires c.Valid()
    modifies c
    ensures c.Valid()
    ensures hostRead == NormalizeHost(host)
    ensures camerasRead == cameras
    ensures authRead == Some(AuthData(username, password, None, None))
    ensures tokenRead == Some(AuthData(username, password, Some(token), Some(now + expiresIn * 1000)))
    ensures clearedRead == None
    ensures columnsRead == columns
  {
    c.SetHost(host);
    hostRead := c.GetHost();
    c.SetCameras(cameras);
    camerasRead := c.GetCameras();
    c.SetAuth(username, password);
    authRead := c.GetAuth();
    c.UpdateToken(token, expiresIn, now);
    tokenRead := c.GetAuth();
    c.ClearAuth();
    c.UpdateToken(token, expiresIn, now);
    clearedRead := c.GetAuth();
    c.SetGridColumns(columns);
    columnsRead := c.GetGridColumns();
  }
}
