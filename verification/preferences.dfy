/** data/ImmichPreferences.kt: the persisted configuration (a key/value
    preference file), its one-time migration from the legacy single-album key,
    the round-robin album cursor, the cached album/tag lists, and the derived
    `ImmichConfig` value with `isConfigured` and `apiBaseUrl`. */
module Preferences {
  import opened Common
  import opened Text
  import opened Models

  /** The keys `ImmichPreferences` reads and writes. */
  datatype PrefKey =
    | KeyServerUrl | KeyApiKey
    | KeySelectedAlbum  // the legacy single-album key, read only to migrate it
    | KeySelectedAlbums | KeySelectedTags | KeyFavoritesOnly | KeyLastAlbumIndex
    | KeyCachedAlbums | KeyCachedTags
  {
    /** The key's name in the preference file. */
    function Name(): string {
      match this
      case KeyServerUrl => "server_url"
      case KeyApiKey => "api_key"
      case KeySelectedAlbum => "selected_album"
      case KeySelectedAlbums => "selected_albums"
      case KeySelectedTags => "selected_tags"
      case KeyFavoritesOnly => "favorites_only"
      case KeyLastAlbumIndex => "last_album_index"
      case KeyCachedAlbums => "cached_albums_json"
      case KeyCachedTags => "cached_tags_json"
    }
  }

  /** The kinds of value a preference file holds. */
  datatype PrefValue =
    | StringValue(str: string)
    | StringSetValue(strs: set<string>)
    | IntValue(number: int32)
    | BoolValue(flag: bool)

  type Store = map<PrefKey, PrefValue>

  /** Every key this class writes holds the kind of value its getter expects
      (Android would throw `ClassCastException` otherwise), and a string set is
      no larger than a Kotlin `Set` can be. */
  ghost predicate WellTyped(store: Store) {
    && (KeyServerUrl in store ==> store[KeyServerUrl].StringValue?)
    && (KeyApiKey in store ==> store[KeyApiKey].StringValue?)
    && (KeySelectedAlbum in store ==> store[KeySelectedAlbum].StringValue?)
    && (KeySelectedAlbums in store ==>
          store[KeySelectedAlbums].StringSetValue? && |store[KeySelectedAlbums].strs| <= MaxInt32)
    && (KeySelectedTags in store ==>
          store[KeySelectedTags].StringSetValue? && |store[KeySelectedTags].strs| <= MaxInt32)
    && (KeyFavoritesOnly in store ==> store[KeyFavoritesOnly].BoolValue?)
    && (KeyLastAlbumIndex in store ==> store[KeyLastAlbumIndex].IntValue?)
    && (KeyCachedAlbums in store ==> store[KeyCachedAlbums].StringValue?)
    && (KeyCachedTags in store ==> store[KeyCachedTags].StringValue?)
  }

  /** `getString(key, null)`. */
  function GetString(store: Store, key: PrefKey): Option<string> {
    if key in store && store[key].StringValue? then Some(store[key].str) else None
  }

  /** `getStringSet(key, null)`. */
  function GetStringSet(store: Store, key: PrefKey): Option<set<string>> {
    if key in store && store[key].StringSetValue? then Some(store[key].strs) else None
  }

  /** `getInt(key, default)`. */
  function GetInt(store: Store, key: PrefKey, default: int32): int32 {
    if key in store && store[key].IntValue? then store[key].number else default
  }

  /** `getBoolean(key, default)`. */
  function GetBool(store: Store, key: PrefKey, default: bool): bool {
    if key in store && store[key].BoolValue? then store[key].flag else default
  }

  /** `ImmichConfig`. */
  datatype Config = Config(
    serverUrl: Option<string>,
    apiKey: Option<string>,
    selectedAlbumIds: set<string>,
    selectedTagIds: set<string>,
    favoritesOnly: bool)
  {
    /** `isConfigured`: a non-blank server URL and a non-blank API key. */
    predicate IsConfigured() {
      serverUrl.Some? && !IsBlank(serverUrl.value) && apiKey.Some? && !IsBlank(apiKey.value)
    }

    /** `apiBaseUrl`: the server URL with `/api` appended unless it already ends
        so, then a `/`. */
    function ApiBaseUrl(): (r: Option<string>)
      ensures r.None? <==> serverUrl.None?
      ensures r.Some? ==> EndsWith(r.value, "/api/")
      ensures r.Some? && EndsWith(serverUrl.value, "/api") ==> r.value == serverUrl.value + "/"
      ensures r.Some? && !EndsWith(serverUrl.value, "/api") ==> r.value == serverUrl.value + "/api/"
    {
      match serverUrl
      case None => None
      case Some(base) =>
        var withApi := if EndsWith(base, "/api") then base else base + "/api";
        WithApiSuffix(base);
        ApiSlashSuffix(withApi);
        Some(if EndsWith(withApi, "/") then withApi else withApi + "/")
    }
  }

  /** The configuration a fresh state holds: nothing set. */
  const EmptyConfig := Config(None, None, {}, {}, false)

  /** Appending `/api` unless it is already there leaves a string ending in `/api`. */
  lemma WithApiSuffix(s: string)
    ensures EndsWith(if EndsWith(s, "/api") then s else s + "/api", "/api")
  {
    if !EndsWith(s, "/api") {
      assert (s + "/api")[|s|..] == "/api";
    }
  }

  /** A string ending in `/api` does not end in `/`, and with `/` added ends in `/api/`. */
  lemma ApiSlashSuffix(s: string)
    requires EndsWith(s, "/api")
    ensures !EndsWith(s, "/")
    ensures EndsWith(s + "/", "/api/")
  {
    assert s[|s| - 1] == 'i';
    assert (s + "/")[|s| - 3..] == s[|s| - 3..] + "/";
  }

  /** The private `normalizeUrl`: trim, then drop one trailing `/`. */
  function NormalizeUrl(s: string): (r: string)
    ensures r == Trim(s) || r + "/" == Trim(s)
    ensures !EndsWith(Trim(s), "/") ==> r == Trim(s)
    ensures EndsWith(Trim(s), "/") ==> r + "/" == Trim(s)
  {
    RemoveSuffix(Trim(s), "/")
  }

  /** The stored API key as `readConfig` reports it: trimmed, and `null` when blank. */
  function NormalizeApiKey(raw: Option<string>): (r: Option<string>)
    ensures r.Some? ==> raw.Some? && r.value == Trim(raw.value)
    ensures r.Some? ==> !IsBlank(r.value)
    ensures raw.Some? && !IsBlank(Trim(raw.value)) ==> r.Some?
  {
    var trimmed := if raw.Some? then Trim(raw.value) else "";
    if IsBlank(trimmed) then None else Some(trimmed)
  }

  /** The album selection `readConfig` reports: the album-set key if present,
      else the legacy single album as a one-element set, else nothing. */
  function MigratedAlbums(store: Store): set<string> {
    match GetStringSet(store, KeySelectedAlbums)
    case Some(albums) => albums
    case None =>
      match GetString(store, KeySelectedAlbum)
      case Some(legacy) => {legacy}
      case None => {}
  }

  /** The store after `readConfig`: a legacy album without an album set is written
      under the album-set key and the legacy key is removed; otherwise nothing is
      written. */
  function MigrateStore(store: Store): (r: Store)
    ensures GetStringSet(store, KeySelectedAlbums).Some? ==> r == store
    ensures GetStringSet(store, KeySelectedAlbums).None? && GetString(store, KeySelectedAlbum).None? ==> r == store
    ensures GetStringSet(store, KeySelectedAlbums).None? && GetString(store, KeySelectedAlbum).Some? ==>
      && KeySelectedAlbum !in r
      && GetStringSet(r, KeySelectedAlbums) == Some({GetString(store, KeySelectedAlbum).value})
      && (forall k :: k != KeySelectedAlbum && k != KeySelectedAlbums ==> (k in r <==> k in store))
      && (forall k :: k != KeySelectedAlbum && k != KeySelectedAlbums && k in store ==> r[k] == store[k])
    ensures CursorOf(r) == CursorOf(store)
  {
    if GetStringSet(store, KeySelectedAlbums).None? && GetString(store, KeySelectedAlbum).Some? then
      store[KeySelectedAlbums := StringSetValue({GetString(store, KeySelectedAlbum).value})] - {KeySelectedAlbum}
    else
      store
  }

  /** The `ImmichConfig` that `readConfig` (and so `current()`) returns. */
  function ConfigOf(store: Store): (r: Config)
    ensures r.serverUrl.Some? <==> GetString(store, KeyServerUrl).Some?
    ensures r.serverUrl.Some? ==> NormalizeUrl(GetString(store, KeyServerUrl).value) == r.serverUrl.value
    ensures r.apiKey == NormalizeApiKey(GetString(store, KeyApiKey))
    ensures r.apiKey.Some? ==> !IsBlank(r.apiKey.value)
    ensures GetStringSet(store, KeySelectedAlbums).Some? ==> r.selectedAlbumIds == GetStringSet(store, KeySelectedAlbums).value
    ensures GetStringSet(store, KeySelectedAlbums).None? && GetString(store, KeySelectedAlbum).Some? ==>
      r.selectedAlbumIds == {GetString(store, KeySelectedAlbum).value}
    ensures GetStringSet(store, KeySelectedAlbums).None? && GetString(store, KeySelectedAlbum).None? ==>
      r.selectedAlbumIds == {}
    ensures GetStringSet(store, KeySelectedTags).Some? ==> r.selectedTagIds == GetStringSet(store, KeySelectedTags).value
    ensures GetStringSet(store, KeySelectedTags).None? ==> r.selectedTagIds == {}
    ensures KeySelectedTags !in store ==> r.selectedTagIds == {}
    ensures KeyFavoritesOnly in store && store[KeyFavoritesOnly].BoolValue? ==> r.favoritesOnly == store[KeyFavoritesOnly].flag
    ensures !(KeyFavoritesOnly in store && store[KeyFavoritesOnly].BoolValue?) ==> !r.favoritesOnly
    ensures KeyFavoritesOnly !in store ==> !r.favoritesOnly
    ensures WellTyped(store) ==> |r.selectedAlbumIds| <= MaxInt32
  {
    Config(
      serverUrl := match GetString(store, KeyServerUrl) { case Some(u) => Some(NormalizeUrl(u)) case None => None },
      apiKey := NormalizeApiKey(GetString(store, KeyApiKey)),
      selectedAlbumIds := MigratedAlbums(store),
      selectedTagIds := GetStringSet(store, KeySelectedTags).GetOr({}),
      favoritesOnly := GetBool(store, KeyFavoritesOnly, false))
  }

  /** Migration is one-time: reading again writes nothing more and reports the
      same configuration. */
  lemma MigrationIdempotent(store: Store)
    ensures MigrateStore(MigrateStore(store)) == MigrateStore(store)
    ensures ConfigOf(MigrateStore(store)) == ConfigOf(store)
  {
    var m := MigrateStore(store);
    if m != store {
      assert GetString(m, KeyServerUrl) == GetString(store, KeyServerUrl);
      assert GetString(m, KeyApiKey) == GetString(store, KeyApiKey);
      assert GetStringSet(m, KeySelectedTags) == GetStringSet(store, KeySelectedTags);
      assert GetBool(m, KeyFavoritesOnly, false) == GetBool(store, KeyFavoritesOnly, false);
    }
  }

  lemma MigratePreservesWellTyped(store: Store)
    requires WellTyped(store)
    ensures WellTyped(MigrateStore(store))
  {
  }

  /** A store nothing has been written to reads as the empty configuration. */
  lemma EmptyStoreConfig()
    ensures ConfigOf(map[]) == EmptyConfig
    ensures !EmptyConfig.IsConfigured()
  {
  }

  /** A stored API key as the next read reports it: trimmed again (which
      changes nothing) and absent when blank. */
  lemma {:induction false} StoredApiKeyReadsBack(apiKey: string)
    ensures NormalizeApiKey(Some(Trim(apiKey))) == (if IsBlank(apiKey) then None else Some(Trim(apiKey)))
  {
    TrimIdempotent(apiKey);
    BlankIffTrimEmpty(apiKey);
    BlankIffTrimEmpty(Trim(apiKey));
  }

  /** What `updateServer` stores is what the next read reports: the URL trimmed
      and stripped of one trailing `/`, the key trimmed (absent when blank). */
  lemma {:induction false} UpdateServerThenRead(store: Store, serverUrl: string, apiKey: string)
    ensures var s := store[KeyServerUrl := StringValue(Trim(serverUrl))][KeyApiKey := StringValue(Trim(apiKey))];
      && ConfigOf(s).serverUrl == Some(NormalizeUrl(serverUrl))
      && ConfigOf(s).apiKey == (if IsBlank(apiKey) then None else Some(Trim(apiKey)))
  {
    var s := store[KeyServerUrl := StringValue(Trim(serverUrl))][KeyApiKey := StringValue(Trim(apiKey))];
    assert GetString(s, KeyServerUrl) == Some(Trim(serverUrl));
    assert GetString(s, KeyApiKey) == Some(Trim(apiKey));
    assert ConfigOf(s).serverUrl == Some(NormalizeUrl(Trim(serverUrl)));
    assert ConfigOf(s).apiKey == NormalizeApiKey(Some(Trim(apiKey)));
    TrimIdempotent(serverUrl);
    StoredApiKeyReadsBack(apiKey);
  }

  /** `isConfigured` of a stored configuration: both credentials present and not
      blank once trimmed (the URL also once a trailing `/` is dropped). */
  lemma {:induction false} ConfiguredIffCredentials(store: Store)
    ensures ConfigOf(store).IsConfigured() <==>
      && GetString(store, KeyServerUrl).Some? && NormalizeUrl(GetString(store, KeyServerUrl).value) != []
      && GetString(store, KeyApiKey).Some? && Trim(GetString(store, KeyApiKey).value) != []
  {
    var c := ConfigOf(store);
    if GetString(store, KeyServerUrl).Some? {
      var u := NormalizeUrl(GetString(store, KeyServerUrl).value);
      var t := Trim(GetString(store, KeyServerUrl).value);
      if u != [] {
        if u == t {
          assert !IsWhitespace(u[0]);
        } else {
          assert u + "/" == t;
          assert u[0] == t[0];
          assert !IsWhitespace(u[0]);
        }
      }
    }
    if GetString(store, KeyApiKey).Some? {
      var t := Trim(GetString(store, KeyApiKey).value);
      BlankIffTrimEmpty(t);
      TrimIdempotent(GetString(store, KeyApiKey).value);
    }
  }

  /** `getCachedAlbums` / `getCachedTags`: the decoded list, or the empty list
      when the key is missing or its text does not decode (the exception is
      caught). */
  function CachedListOf<T>(store: Store, key: PrefKey, decode: string -> Option<seq<T>>): (r: seq<T>)
    ensures GetString(store, key).None? ==> r == []
    ensures GetString(store, key).Some? && decode(GetString(store, key).value).None? ==> r == []
    ensures r != [] ==> decode(GetString(store, key).value) == Some(r)
  {
    match GetString(store, key)
    case None => []
    case Some(json) =>
      match decode(json)
      case Some(list) => list
      case None => []
  }

  /** What is cached reads back, whenever the codec round-trips it. */
  lemma CacheRoundTrip<T>(store: Store, key: PrefKey, list: seq<T>,
                          encode: seq<T> -> string, decode: string -> Option<seq<T>>)
    requires decode(encode(list)) == Some(list)
    ensures CachedListOf(store[key := StringValue(encode(list))], key, decode) == list
  {
  }

  /** The round-robin cursor (`getInt(KEY_LAST_ALBUM_INDEX, 0)`). */
  function CursorOf(store: Store): int32 {
    GetInt(store, KeyLastAlbumIndex, 0)
  }

  /** The cursor value stored after returning `current`: `(current + 1) % total`
      in Kotlin `Int` arithmetic. */
  function NextCursor(current: int32, total: int32): (r: int32)
    requires total > 0
    ensures 0 <= current < total ==> r == (if current + 1 == total then 0 else current + 1)
  {
    Rem(Wrap32(current as int + 1), total)
  }

  /** `getNextAlbumIndex(total)`: the returned index and the store afterwards.
      With `total <= 0` it returns 0 and writes nothing. */
  function NextAlbumIndexOf(store: Store, total: int32): (r: (int32, Store))
    ensures total <= 0 ==> r == (0, store)
    ensures total > 0 ==> r.0 == CursorOf(store) && CursorOf(r.1) == NextCursor(CursorOf(store), total)
    ensures forall k :: k != KeyLastAlbumIndex ==> (k in r.1 <==> k in store) && (k in store ==> r.1[k] == store[k])
  {
    if total <= 0 then (0, store)
    else (CursorOf(store), store[KeyLastAlbumIndex := IntValue(NextCursor(CursorOf(store), total))])
  }

  /** The indices returned by `k` successive `getNextAlbumIndex(total)` calls. */
  function Rotation(store: Store, total: int32, k: nat): (r: seq<int32>)
    ensures |r| == k
    decreases k
  {
    if k == 0 then []
    else
      var (index, next) := NextAlbumIndexOf(store, total);
      [index] + Rotation(next, total, k - 1)
  }

  /** The cursor after `j` calls, starting at `c`. */
  function CursorAfter(c: int32, total: int32, j: nat): int32
    requires total > 0
    decreases j
  {
    if j == 0 then c else CursorAfter(NextCursor(c, total), total, j - 1)
  }

  lemma {:induction false} RotationAt(store: Store, total: int32, k: nat, i: nat)
    requires total > 0 && i < k
    ensures Rotation(store, total, k)[i] == CursorAfter(CursorOf(store), total, i)
    decreases i
  {
    if i > 0 {
      var next := NextAlbumIndexOf(store, total).1;
      RotationAt(next, total, k - 1, i - 1);
    }
  }

  lemma {:induction false} CursorAfterAdd(c: int32, total: int32, a: nat, b: nat)
    requires total > 0
    ensures CursorAfter(c, total, a + b) == CursorAfter(CursorAfter(c, total, a), total, b)
    decreases a
  {
    if a > 0 {
      CursorAfterAdd(NextCursor(c, total), total, a - 1, b);
    }
  }

  lemma {:induction false} CursorAfterCounts(c: int32, total: int32, j: nat)
    requires 0 <= c && c + j < total
    ensures CursorAfter(c, total, j) == c + j
    decreases j
  {
    if j > 0 {
      CursorAfterCounts(c + 1, total, j - 1);
    }
  }

  /** From a cursor in range, `total` calls bring it back to where it was. */
  lemma {:induction false} CursorAfterFullTurn(c: int32, total: int32)
    requires 0 <= c < total
    ensures CursorAfter(c, total, total as nat) == c
  {
    var a := (total - 1 - c) as nat;
    CursorAfterCounts(c, total, a);
    CursorAfterAdd(c, total, a, 1);
    assert CursorAfter(c, total, a + 1) == 0;
    CursorAfterAdd(c, total, a + 1, c as nat);
    CursorAfterCounts(0, total, c as nat);
  }

  /** Round robin: starting from a fresh cursor, `total` successive calls return
      0, 1, ..., total - 1, and every further call repeats the call `total`
      before it. */
  lemma {:induction false} RoundRobinFromZero(store: Store, total: int32, k: nat)
    requires total > 0 && CursorOf(store) == 0
    ensures forall i :: 0 <= i < k && i < total ==> Rotation(store, total, k)[i] == i
    ensures forall i :: 0 <= i && i + total < k ==> Rotation(store, total, k)[i + total] == Rotation(store, total, k)[i]
  {
    forall i | 0 <= i < k && i < total
      ensures Rotation(store, total, k)[i] == i
    {
      RotationAt(store, total, k, i);
      CursorAfterCounts(0, total, i);
    }
    forall i | 0 <= i && i + total < k
      ensures Rotation(store, total, k)[i + total] == Rotation(store, total, k)[i]
    {
      RotationAt(store, total, k, i);
      RotationAt(store, total, k, i + total as nat);
      CursorAfterAdd(0, total, total as nat, i);
      CursorAfterFullTurn(0, total);
    }
  }

  /** A cursor in range stays in range however many calls follow. */
  lemma {:induction false} CursorAfterInRange(c: int32, total: int32, j: nat)
    requires 0 <= c < total
    ensures 0 <= CursorAfter(c, total, j) < total
    decreases j
  {
    if j > 0 {
      NextCursorInRange(c, total);
      CursorAfterInRange(NextCursor(c, total), total, j - 1);
    }
  }

  /** Writing the cursor keeps the store well typed. */
  lemma CursorWriteKeepsWellTyped(store: Store, v: int32)
    requires WellTyped(store)
    ensures WellTyped(store[KeyLastAlbumIndex := IntValue(v)])
  {
  }

  /** A cursor in range stays in range, so the provider's `selectedAlbums[index]`
      never fails while the selection is unchanged. */
  lemma NextCursorInRange(c: int32, total: int32)
    requires 0 <= c < total
    ensures 0 <= NextCursor(c, total) < total
  {
  }

  /** `ImmichPreferences`: the preference file `immich_prefs`. Writes take effect
      in memory at once (what `apply()` guarantees to later reads). The JSON
      codec is fixed per instance: `encode*` always succeeds, `decode*` may fail. */
  class ImmichPreferences {
    var store: Store
    const encodeAlbums: seq<AlbumUi> -> string
    const decodeAlbums: string -> Option<seq<AlbumUi>>
    const encodeTags: seq<TagUi> -> string
    const decodeTags: string -> Option<seq<TagUi>>

    ghost predicate Valid()
      reads this
    {
      WellTyped(store)
    }

    constructor (initial: Store,
                 encodeAlbums: seq<AlbumUi> -> string, decodeAlbums: string -> Option<seq<AlbumUi>>,
                 encodeTags: seq<TagUi> -> string, decodeTags: string -> Option<seq<TagUi>>)
      requires WellTyped(initial)
      ensures Valid() && store == initial
      ensures this.encodeAlbums == encodeAlbums && this.decodeAlbums == decodeAlbums
      ensures this.encodeTags == encodeTags && this.decodeTags == decodeTags
    {
      store := initial;
      this.encodeAlbums := encodeAlbums;
      this.decodeAlbums := decodeAlbums;
      this.encodeTags := encodeTags;
      this.decodeTags := decodeTags;
    }

    /** `updateServer`: stores the trimmed URL and the trimmed key. */
    method UpdateServer(serverUrl: string, apiKey: string)
      requires Valid()
      modifies this
      ensures Valid()
      ensures store == old(store)[KeyServerUrl := StringValue(Trim(serverUrl))][KeyApiKey := StringValue(Trim(apiKey))]
    {
      store := store[KeyServerUrl := StringValue(Trim(serverUrl))][KeyApiKey := StringValue(Trim(apiKey))];
    }

    /** `updateSelectedAlbums`: stores exactly `ids` and resets the cursor to 0. */
    method UpdateSelectedAlbums(ids: set<string>)
      requires Valid() && |ids| <= MaxInt32
      modifies this
      ensures Valid()
      ensures store == old(store)[KeySelectedAlbums := StringSetValue(ids)][KeyLastAlbumIndex := IntValue(0)]
      ensures ConfigOf(store).selectedAlbumIds == ids && CursorOf(store) == 0
    {
      store := store[KeySelectedAlbums := StringSetValue(ids)][KeyLastAlbumIndex := IntValue(0)];
    }

    /** The deprecated `updateSelectedAlbum`: `{id}`, or no album for `null`. */
    method UpdateSelectedAlbum(id: Option<string>)
      requires Valid()
      modifies this
      ensures Valid()
      ensures store == old(store)[KeySelectedAlbums := StringSetValue(if id.Some? then {id.value} else {})]
                                 [KeyLastAlbumIndex := IntValue(0)]
    {
      var albums: set<string> := if id.Some? then {id.value} else {};
      UpdateSelectedAlbums(albums);
    }

    method UpdateSelectedTags(ids: set<string>)
      requires Valid() && |ids| <= MaxInt32
      modifies this
      ensures Valid()
      ensures store == old(store)[KeySelectedTags := StringSetValue(ids)]
      ensures ConfigOf(store).selectedTagIds == ids
    {
      store := store[KeySelectedTags := StringSetValue(ids)];
    }

    method UpdateFavoritesOnly(enabled: bool)
      requires Valid()
      modifies this
      ensures Valid()
      ensures store == old(store)[KeyFavoritesOnly := BoolValue(enabled)]
      ensures ConfigOf(store).favoritesOnly == enabled
    {
      store := store[KeyFavoritesOnly := BoolValue(enabled)];
    }

    /** `getNextAlbumIndex`: returns the stored cursor and stores the next one. */
    method GetNextAlbumIndex(total: int32) returns (index: int32)
      requires Valid()
      modifies this
      ensures Valid()
      ensures (index, store) == NextAlbumIndexOf(old(store), total)
    {
      if total <= 0 {
        return 0;
      }
      var current := GetInt(store, KeyLastAlbumIndex, 0);
      var next := Rem(Wrap32(current as int + 1), total);
      store := store[KeyLastAlbumIndex := IntValue(next)];
      index := current;
    }

    method SaveCachedAlbums(albums: seq<AlbumUi>)
      requires Valid()
      modifies this
      ensures Valid()
      ensures store == old(store)[KeyCachedAlbums := StringValue(encodeAlbums(albums))]
    {
      store := store[KeyCachedAlbums := StringValue(encodeAlbums(albums))];
    }

    /** `getCachedAlbums`: never fails; missing or undecodable text gives `[]`. */
    method GetCachedAlbums() returns (albums: seq<AlbumUi>)
      ensures albums == CachedListOf(store, KeyCachedAlbums, decodeAlbums)
    {
      var json := GetString(store, KeyCachedAlbums);
      if json.None? {
        return [];
      }
      var decoded := decodeAlbums(json.value);
      albums := if decoded.Some? then decoded.value else [];
    }

    method SaveCachedTags(tags: seq<TagUi>)
      requires Valid()
      modifies this
      ensures Valid()
      ensures store == old(store)[KeyCachedTags := StringValue(encodeTags(tags))]
    {
      store := store[KeyCachedTags := StringValue(encodeTags(tags))];
    }

    /** `getCachedTags`: never fails; missing or undecodable text gives `[]`. */
    method GetCachedTags() returns (tags: seq<TagUi>)
      ensures tags == CachedListOf(store, KeyCachedTags, decodeTags)
    {
      var json := GetString(store, KeyCachedTags);
      if json.None? {
        return [];
      }
      var decoded := decodeTags(json.value);
      tags := if decoded.Some? then decoded.value else [];
    }

    /** `readConfig` (what `current()` and every emission of `configFlow` return):
        migrates the legacy album key, then reports the configuration. */
    method ReadConfig() returns (config: Config)
      requires Valid()
      modifies this
      ensures Valid()
      ensures store == MigrateStore(old(store))
      ensures config == ConfigOf(old(store))
    {
      var oldAlbumId := GetString(store, KeySelectedAlbum);
      var newAlbums := GetStringSet(store, KeySelectedAlbums);
      var selectedAlbums: set<string>;
      if newAlbums.Some? {
        selectedAlbums := newAlbums.value;
      } else if oldAlbumId.Some? {
        selectedAlbums := {oldAlbumId.value};
        store := store[KeySelectedAlbums := StringSetValue(selectedAlbums)] - {KeySelectedAlbum};
        assert store == MigrateStore(old(store));
        MigrationIdempotent(old(store));
      } else {
        selectedAlbums := {};
      }
      assert ConfigOf(store) == ConfigOf(old(store));
      assert selectedAlbums == ConfigOf(old(store)).selectedAlbumIds;
      var url := GetString(store, KeyServerUrl);
      config := Config(
        serverUrl := if url.Some? then Some(NormalizeUrl(url.value)) else None,
        apiKey := NormalizeApiKey(GetString(store, KeyApiKey)),
        selectedAlbumIds := selectedAlbums,
        selectedTagIds := GetStringSet(store, KeySelectedTags).GetOr({}),
        favoritesOnly := GetBool(store, KeyFavoritesOnly, false));
    }
  }
}
