/** provider/ImmichArtProvider.kt: what a wallpaper refresh asks the server for
    (the album and tag filters, with the round-robin cursor), the artwork it
    builds from the answer, the two command actions, and the favourite receiver. */
module ArtProvider {
  import opened Common
  import opened Text
  import opened Models
  import opened Preferences

  /** `s.toList()`: some order of the set's elements, each once. Set iteration
      order is unspecified, so the provider is modelled for an arbitrary but
      fixed `enumerate`. */
  ghost predicate IsListing(l: seq<string>, s: set<string>) {
    |l| == |s| && forall x :: x in l <==> x in s
  }

  ghost predicate ListsSets(enumerate: set<string> -> seq<string>) {
    forall s :: IsListing(enumerate(s), s)
  }

  /** The arguments of the random-asset fetch: album filter, tag filter
      (`None` meaning no filter) and the favourites flag. */
  datatype AssetQuery = AssetQuery(albumIds: Option<seq<string>>, tagIds: Option<seq<string>>, favoritesOnly: bool)

  /** What the fetch produced: it threw, it found nothing, or one asset. */
  datatype FetchOutcome = FetchFailed | NoAsset | Fetched(asset: Asset)

  /** The fields of the Muzei `Artwork` the provider sets. */
  datatype Artwork = Artwork(token: string, title: Option<string>, byline: Option<string>,
                             persistentUri: string, webUri: string)

  /** `selectedTagIds.toList().ifEmpty { null }`. */
  function TagFilter(tags: seq<string>): (r: Option<seq<string>>)
    ensures r.None? <==> tags == []
    ensures r.Some? ==> r.value == tags
  {
    if tags == [] then None else Some(tags)
  }

  /** The album filter of the `when` in `onLoadRequested`, for the selection as
      listed and the cursor `getNextAlbumIndex` returns: `Some(None)` (all
      albums) for no selection, the selection itself for one album, and the
      album under the cursor for more; `None` when that index throws. */
  function AlbumFilter(selected: seq<string>, cursor: int32): (r: Option<Option<seq<string>>>)
    ensures |selected| == 0 ==> r == Some(None)
    ensures |selected| == 1 ==> r == Some(Some(selected))
    ensures |selected| >= 2 ==> (r.Some? <==> 0 <= cursor < |selected|)
    ensures |selected| >= 2 && r.Some? ==> r.value == Some([selected[cursor]])
    ensures r.Some? && r.value.Some? ==> |r.value.value| == 1 && r.value.value[0] in selected
  {
    if |selected| == 0 then Some(None)
    else if |selected| == 1 then Some(Some(selected))
    else if 0 <= cursor < |selected| as int then Some(Some([selected[cursor]]))
    else None
  }

  /** The store after one `onLoadRequested` that got past the configuration
      check: migrated, and with the cursor advanced only for two or more albums. */
  function StoreAfterLoad(store: Store, albumCount: nat): (r: Store)
    requires albumCount <= MaxInt32
    ensures albumCount < 2 ==> r == MigrateStore(store)
    ensures albumCount >= 2 ==> CursorOf(r) == NextCursor(CursorOf(store), albumCount as int32)
    ensures forall k :: k != KeyLastAlbumIndex ==> (k in r <==> k in MigrateStore(store)) && (k in r ==> r[k] == MigrateStore(store)[k])
  {
    assert CursorOf(MigrateStore(store)) == CursorOf(store);
    if albumCount >= 2 then NextAlbumIndexOf(MigrateStore(store), albumCount as int32).1 else MigrateStore(store)
  }

  /** One `onLoadRequested`: the query sent (`None` when it returns early or
      throws before fetching) and the store afterwards. `serviceCreated` is
      whether `ImmichService.create` accepted the base URL. */
  function LoadRequestOf(store: Store, enumerate: set<string> -> seq<string>, serviceCreated: bool): (r: (Option<AssetQuery>, Store))
    requires WellTyped(store) && ListsSets(enumerate)
    ensures !ConfigOf(store).IsConfigured() || !serviceCreated ==> r == (None, MigrateStore(store))
    ensures ConfigOf(store).IsConfigured() && serviceCreated ==>
      var config := ConfigOf(store);
      var selected := enumerate(config.selectedAlbumIds);
      && |selected| == |config.selectedAlbumIds| <= MaxInt32
      && r.1 == StoreAfterLoad(store, |selected|)
      && (r.0.Some? <==> AlbumFilter(selected, CursorOf(store)).Some?)
      && (r.0.Some? ==> r.0.value == AssetQuery(AlbumFilter(selected, CursorOf(store)).value,
                                                TagFilter(enumerate(config.selectedTagIds)), config.favoritesOnly))
  {
    var config := ConfigOf(store);
    if !config.IsConfigured() || !serviceCreated then (None, MigrateStore(store))
    else
      var selected := enumerate(config.selectedAlbumIds);
      assert IsListing(selected, config.selectedAlbumIds);
      var after := StoreAfterLoad(store, |selected|);
      match AlbumFilter(selected, CursorOf(store))
      case None => (None, after)
      case Some(albums) => (Some(AssetQuery(albums, TagFilter(enumerate(config.selectedTagIds)), config.favoritesOnly)), after)
  }

  lemma StoreAfterLoadKeepsWellTyped(store: Store, albumCount: nat)
    requires WellTyped(store) && albumCount <= MaxInt32
    ensures WellTyped(StoreAfterLoad(store, albumCount))
  {
    MigratePreservesWellTyped(store);
    if albumCount >= 2 {
      CursorWriteKeepsWellTyped(MigrateStore(store), NextCursor(CursorOf(store), albumCount as int32));
    }
  }

  /** A refresh keeps the store well typed. */
  lemma LoadKeepsWellTyped(store: Store, enumerate: set<string> -> seq<string>, serviceCreated: bool)
    requires WellTyped(store) && ListsSets(enumerate)
    ensures WellTyped(LoadRequestOf(store, enumerate, serviceCreated).1)
  {
    MigratePreservesWellTyped(store);
    var config := ConfigOf(store);
    if config.IsConfigured() && serviceCreated {
      var selected := enumerate(config.selectedAlbumIds);
      assert IsListing(selected, config.selectedAlbumIds);
      StoreAfterLoadKeepsWellTyped(store, |selected|);
      assert LoadRequestOf(store, enumerate, serviceCreated).1 == StoreAfterLoad(store, |selected|);
    }
  }

  predicate IsAsciiDigit(c: char) {
    '0' <= c <= '9'
  }

  /** The regular expression `^(\d{4}-\d{2}-\d{2})` matches (Java's `\d` is ASCII). */
  predicate HasDatePrefix(s: string) {
    && |s| >= 10
    && IsAsciiDigit(s[0]) && IsAsciiDigit(s[1]) && IsAsciiDigit(s[2]) && IsAsciiDigit(s[3])
    && s[4] == '-' && IsAsciiDigit(s[5]) && IsAsciiDigit(s[6])
    && s[7] == '-' && IsAsciiDigit(s[8]) && IsAsciiDigit(s[9])
  }

  /** The byline: the matched date prefix, else the first ten characters, else
      nothing. Both branches give the same text, so the regular expression
      changes nothing. */
  function Byline(fileCreatedAt: Option<string>): (r: Option<string>)
    ensures r.Some? <==> fileCreatedAt.Some? && |fileCreatedAt.value| >= 10
    ensures r.Some? ==> r.value == fileCreatedAt.value[..10]
    ensures fileCreatedAt.Some? && HasDatePrefix(fileCreatedAt.value) ==> r == Some(fileCreatedAt.value[..10])
  {
    match fileCreatedAt
    case None => None
    case Some(raw) =>
      if HasDatePrefix(raw) then Some(raw[..10])
      else if |raw| >= 10 then Some(raw[..10])
      else None
  }

  /** `buildAssetUrl`: one trailing `/` of the server dropped, then the original
      image path with the key as a query parameter. */
  function BuildAssetUrl(server: string, assetId: string, apiKey: string): (r: string)
    ensures !EndsWith(server, "/") ==> r == server + "/api/assets/" + assetId + "/original?apiKey=" + apiKey
    ensures EndsWith(server, "/") ==> r == server[..|server| - 1] + "/api/assets/" + assetId + "/original?apiKey=" + apiKey
  {
    RemoveSuffix(server, "/") + "/api/assets/" + assetId + "/original?apiKey=" + apiKey
  }

  /** The artwork added for a fetch outcome: none unless an asset came back;
      otherwise keyed by the asset id, titled by its file name, and pointing
      at its original image on the configured server. */
  function ArtworkFor(config: Config, outcome: FetchOutcome): (r: Option<Artwork>)
    requires config.IsConfigured()
    ensures r.Some? <==> outcome.Fetched?
    ensures r.Some? ==> r.value.token == outcome.asset.id && r.value.title == outcome.asset.originalFileName
    ensures r.Some? ==> r.value.byline == Byline(outcome.asset.fileCreatedAt)
    ensures r.Some? ==> r.value.persistentUri == r.value.webUri == BuildAssetUrl(config.serverUrl.value, outcome.asset.id, config.apiKey.value)
  {
    match outcome
    case Fetched(asset) =>
      var url := BuildAssetUrl(config.serverUrl.value, asset.id, config.apiKey.value);
      Some(Artwork(asset.id, asset.originalFileName, Byline(asset.fileCreatedAt), url, url))
    case _ => None
  }

  /** `onLoadRequested` with the fetch as a parameter: reads the configuration
      (migrating it), returns when not configured or when the service cannot be
      created, picks the album filter (advancing the cursor only with two or
      more albums), fetches, and builds the artwork. An index outside the
      selection throws, which the handler catches: no fetch, no artwork. */
  method OnLoadRequested(prefs: ImmichPreferences, enumerate: set<string> -> seq<string>,
                         serviceCreated: bool, fetch: AssetQuery -> FetchOutcome)
    returns (query: Option<AssetQuery>, artwork: Option<Artwork>)
    requires prefs.Valid() && ListsSets(enumerate)
    modifies prefs
    ensures prefs.Valid()
    ensures (query, prefs.store) == LoadRequestOf(old(prefs.store), enumerate, serviceCreated)
    ensures query.None? ==> artwork.None?
    ensures query.Some? ==> ConfigOf(old(prefs.store)).IsConfigured() && artwork == ArtworkFor(ConfigOf(old(prefs.store)), fetch(query.value))
  {
    ghost var before := prefs.store;
    ghost var expected := LoadRequestOf(before, enumerate, serviceCreated);
    var config := prefs.ReadConfig();
    if !config.IsConfigured() || !serviceCreated {
      assert expected == (None, MigrateStore(before));
      return None, None;
    }
    var selected := enumerate(config.selectedAlbumIds);
    assert |selected| <= MaxInt32 && expected.1 == StoreAfterLoad(before, |selected|);
    ghost var filter := AlbumFilter(selected, CursorOf(before));
    var albumList: Option<seq<string>>;
    if |selected| == 0 {
      albumList := None;
    } else if |selected| == 1 {
      albumList := Some(selected);
    } else {
      var index := prefs.GetNextAlbumIndex(|selected| as int32);
      assert index == CursorOf(before);
      if index < 0 || index >= |selected| as int32 {
        assert expected == (None, prefs.store);
        return None, None;
      }
      albumList := Some([selected[index]]);
    }
    assert prefs.store == expected.1 && filter == Some(albumList);
    var tagList := TagFilter(enumerate(config.selectedTagIds));
    query := Some(AssetQuery(albumList, tagList, config.favoritesOnly));
    assert expected.0 == query;
    var outcome := fetch(query.value);
    if outcome.Fetched? {
      var asset := outcome.asset;
      var imageUrl := BuildAssetUrl(config.serverUrl.value, asset.id, config.apiKey.value);
      artwork := Some(Artwork(asset.id, asset.originalFileName, Byline(asset.fileCreatedAt), imageUrl, imageUrl));
    } else {
      artwork := None;
    }
  }

  /** Writing the cursor leaves the configuration as it was. */
  lemma ConfigIgnoresCursor(store: Store, v: int32)
    ensures ConfigOf(store[KeyLastAlbumIndex := IntValue(v)]) == ConfigOf(store)
  {
    var s := store[KeyLastAlbumIndex := IntValue(v)];
    assert GetString(s, KeyServerUrl) == GetString(store, KeyServerUrl);
    assert GetString(s, KeyApiKey) == GetString(store, KeyApiKey);
    assert GetString(s, KeySelectedAlbum) == GetString(store, KeySelectedAlbum);
    assert GetStringSet(s, KeySelectedAlbums) == GetStringSet(store, KeySelectedAlbums);
    assert GetStringSet(s, KeySelectedTags) == GetStringSet(store, KeySelectedTags);
    assert GetBool(s, KeyFavoritesOnly, false) == GetBool(store, KeyFavoritesOnly, false);
  }

  /** One refresh with two or more albums and the cursor in range: the album
      under the cursor is asked for, and the store keeps its configuration
      while the cursor moves on by one. */
  lemma LoadStep(store: Store, enumerate: set<string> -> seq<string>)
    requires WellTyped(store) && ListsSets(enumerate)
    requires ConfigOf(store).IsConfigured()
    requires |ConfigOf(store).selectedAlbumIds| >= 2
    requires 0 <= CursorOf(store) < |ConfigOf(store).selectedAlbumIds|
    ensures var config := ConfigOf(store);
      var albums := enumerate(config.selectedAlbumIds);
      var r := LoadRequestOf(store, enumerate, true);
      && |albums| == |config.selectedAlbumIds|
      && r.0 == Some(AssetQuery(Some([albums[CursorOf(store)]]), TagFilter(enumerate(config.selectedTagIds)), config.favoritesOnly))
      && WellTyped(r.1) && ConfigOf(r.1) == config
      && CursorOf(r.1) == NextCursor(CursorOf(store), |albums| as int32)
  {
    var config := ConfigOf(store);
    var albums := enumerate(config.selectedAlbumIds);
    assert IsListing(albums, config.selectedAlbumIds);
    var n := |albums| as int32;
    var next := LoadRequestOf(store, enumerate, true).1;
    assert next == StoreAfterLoad(store, |albums|);
    assert next == MigrateStore(store)[KeyLastAlbumIndex := IntValue(NextCursor(CursorOf(store), n))];
    ConfigIgnoresCursor(MigrateStore(store), NextCursor(CursorOf(store), n));
    MigrationIdempotent(store);
    MigratePreservesWellTyped(store);
    CursorWriteKeepsWellTyped(MigrateStore(store), NextCursor(CursorOf(store), n));
  }

  /** A Muzei command action. */
  datatype CommandAction = OpenInImmich(uri: string) | FavoriteAction(assetId: string)

  /** `getCommandActions`: "open in Immich" and "favourite", exactly when the
      configured server and the artwork's token are both known. */
  function CommandActions(server: Option<string>, token: Option<string>): (r: seq<CommandAction>)
    ensures |r| == 2 <==> server.Some? && token.Some?
    ensures |r| != 2 ==> r == []
    ensures |r| == 2 ==> r[0] == OpenInImmich(server.value + "/photos/" + token.value) && r[1] == FavoriteAction(token.value)
  {
    if server.Some? && token.Some? then
      [OpenInImmich(server.value + "/photos/" + token.value), FavoriteAction(token.value)]
    else []
  }

  /** The two toasts the receiver shows. */
  datatype FavoriteToast = FavoriteSuccess | FavoriteError

  /** What `FavoriteReceiver.onReceive` does: the update it sends and the toast
      it shows. */
  datatype ReceiverOutcome = ReceiverOutcome(update: Option<UpdateAssetsRequest>, toast: Option<FavoriteToast>)

  /** `FavoriteReceiver.onReceive`: ignored without an asset id; an error toast
      when not configured or when the service cannot be created; otherwise one
      favourite update for that asset, then a success or error toast by outcome. */
  function FavoriteReceiverOutcome(assetId: Option<string>, config: Config,
                                   serviceCreated: bool, updateSucceeded: bool): (r: ReceiverOutcome)
    ensures assetId.None? ==> r == ReceiverOutcome(None, None)
    ensures r.update.Some? <==> assetId.Some? && config.IsConfigured() && serviceCreated
    ensures r.update.Some? ==> r.update.value == UpdateAssetsRequest([assetId.value], Some(true))
    ensures assetId.Some? ==> r.toast == Some(if r.update.Some? && updateSucceeded then FavoriteSuccess else FavoriteError)
  {
    match assetId
    case None => ReceiverOutcome(None, None)
    case Some(id) =>
      if !config.IsConfigured() then ReceiverOutcome(None, Some(FavoriteError))
      else if !serviceCreated then ReceiverOutcome(None, Some(FavoriteError))
      else
        var request := UpdateAssetsRequest([id], Some(true));
        ReceiverOutcome(Some(request), Some(if updateSucceeded then FavoriteSuccess else FavoriteError))
  }
}
