/** ui/ImmichSettingsViewModel.kt: the album and tag lists behind the settings
    screen, how they are sorted, and how a refresh from the server replaces them. */
module ImmichSettings {
  import opened Common
  import opened Text
  import opened Lists
  import opened Models
  import opened Preferences
  import opened UiState
  import opened AlbumMapper
  import opened ViewModels

  function TitleKey(a: AlbumUi): Key { TextKey(a.title) }
  function CountKey(a: AlbumUi): Key { IntKey(a.assetCount) }

  /** The selector `applySorting` uses for each order. `UPDATED_AT` keeps the
      server's order; the `when` has no `MOST_RECENT_PHOTO` branch, and here that
      order keeps the server's order too. */
  function SortKey(sortBy: AlbumSortBy): Option<AlbumUi -> Key> {
    match sortBy
    case Name => Some(TitleKey)
    case AssetCount => Some(CountKey)
    case UpdatedAt => None
    case MostRecentPhoto => None
  }

  /** The album list `applySorting` leaves in the state. */
  function Sorted(albums: seq<AlbumUi>, sortBy: AlbumSortBy, reversed: bool): seq<AlbumUi> {
    SortAlbums(albums, SortKey(sortBy), reversed)
  }

  /** Sorting never adds or drops an album; by name the titles ascend (descend
      when reversed), by count the counts ascend (descend when reversed), and
      the other orders keep the list as it came, reversed on request. */
  lemma SortedSpec(albums: seq<AlbumUi>, sortBy: AlbumSortBy, reversed: bool)
    ensures var r := Sorted(albums, sortBy, reversed);
      && multiset(r) == multiset(albums)
      && (sortBy == Name && !reversed ==> forall i :: 0 <= i < |r| - 1 ==> LexLe(r[i].title, r[i + 1].title))
      && (sortBy == Name && reversed ==> forall i :: 0 <= i < |r| - 1 ==> LexLe(r[i + 1].title, r[i].title))
      && (sortBy == AssetCount && !reversed ==> forall i :: 0 <= i < |r| - 1 ==> r[i].assetCount <= r[i + 1].assetCount)
      && (sortBy == AssetCount && reversed ==> forall i :: 0 <= i < |r| - 1 ==> r[i].assetCount >= r[i + 1].assetCount)
      && (sortBy == UpdatedAt || sortBy == MostRecentPhoto ==> r == (if reversed then Reversed(albums) else albums))
  {
    var r := Sorted(albums, sortBy, reversed);
    if sortBy == Name {
      forall i | 0 <= i < |r| - 1
        ensures !reversed ==> LexLe(r[i].title, r[i + 1].title)
        ensures reversed ==> LexLe(r[i + 1].title, r[i].title)
      {
        assert !reversed ==> KeyLe(TitleKey(r[i]), TitleKey(r[i + 1]));
        assert reversed ==> KeyLe(TitleKey(r[i + 1]), TitleKey(r[i]));
      }
    } else if sortBy == AssetCount {
      forall i | 0 <= i < |r| - 1
        ensures !reversed ==> r[i].assetCount <= r[i + 1].assetCount
        ensures reversed ==> r[i].assetCount >= r[i + 1].assetCount
      {
        assert !reversed ==> KeyLe(CountKey(r[i]), CountKey(r[i + 1]));
        assert reversed ==> KeyLe(CountKey(r[i + 1]), CountKey(r[i]));
      }
    }
  }

  /** `ImmichSettingsViewModel`. `clearRequests` counts `clearPhotos` calls. */
  class ImmichSettingsViewModel {
    const prefs: ImmichPreferences
    var state: ImmichUiState
    var clearRequests: nat

    ghost predicate Valid()
      reads this, prefs
    {
      prefs.Valid()
    }

    /** The initial state with the cached lists loaded and sorted. */
    constructor (prefs: ImmichPreferences)
      requires prefs.Valid()
      ensures Valid() && this.prefs == prefs && clearRequests == 0
      ensures state == DefaultUiState().(
                albums := Sorted(CachedListOf(prefs.store, KeyCachedAlbums, prefs.decodeAlbums), AssetCount, true),
                tags := CachedListOf(prefs.store, KeyCachedTags, prefs.decodeTags))
    {
      this.prefs := prefs;
      clearRequests := 0;
      var albums := prefs.GetCachedAlbums();
      var tags := prefs.GetCachedTags();
      state := DefaultUiState().(albums := albums, tags := tags);
      new;
      ApplySorting();
    }

    /** The private `applySorting`: only the album list changes. */
    method ApplySorting()
      modifies this
      ensures state == old(state).(albums := Sorted(old(state).albums, old(state).sortBy, old(state).sortReversed))
      ensures clearRequests == old(clearRequests)
    {
      var key := SortKey(state.sortBy);
      var sorted := if key.Some? then SortByKey(state.albums, key.value) else state.albums;
      state := state.(albums := if state.sortReversed then Reversed(sorted) else sorted);
    }

    /** One emission of `configFlow`. */
    method OnConfigChanged(config: Config)
      modifies this
      ensures state == WithConfig(old(state), config) && clearRequests == old(clearRequests)
    {
      var oldConfig := state.config;
      state := state.(config := config);
      if config.serverUrl != oldConfig.serverUrl || config.apiKey != oldConfig.apiKey {
        if !config.IsConfigured() {
          state := state.(albums := [], tags := []);
        }
      }
    }

    method UpdateCredentials(serverUrl: string, apiKey: string)
      requires Valid()
      modifies prefs
      ensures Valid()
      ensures prefs.store == old(prefs.store)[KeyServerUrl := StringValue(Trim(serverUrl))][KeyApiKey := StringValue(Trim(apiKey))]
    {
      prefs.UpdateServer(serverUrl, apiKey);
    }

    /** The deprecated `selectAlbum`. */
    method SelectAlbum(id: Option<string>)
      requires Valid()
      modifies prefs
      ensures Valid()
      ensures prefs.store == old(prefs.store)[KeySelectedAlbums := StringSetValue(if id.Some? then {id.value} else {})]
                                             [KeyLastAlbumIndex := IntValue(0)]
    {
      prefs.UpdateSelectedAlbum(id);
    }

    method ToggleAlbum(id: string)
      requires Valid() && |state.config.selectedAlbumIds| < MaxInt32
      modifies prefs
      ensures Valid()
      ensures prefs.store == old(prefs.store)[KeySelectedAlbums := StringSetValue(Toggle(state.config.selectedAlbumIds, id))]
                                             [KeyLastAlbumIndex := IntValue(0)]
    {
      ToggleSize(state.config.selectedAlbumIds, id);
      prefs.UpdateSelectedAlbums(Toggle(state.config.selectedAlbumIds, id));
    }

    method ToggleTag(id: string)
      requires Valid() && |state.config.selectedTagIds| < MaxInt32
      modifies prefs
      ensures Valid()
      ensures prefs.store == old(prefs.store)[KeySelectedTags := StringSetValue(Toggle(state.config.selectedTagIds, id))]
    {
      ToggleSize(state.config.selectedTagIds, id);
      prefs.UpdateSelectedTags(Toggle(state.config.selectedTagIds, id));
    }

    method ToggleFavoritesOnly()
      requires Valid()
      modifies prefs
      ensures Valid()
      ensures prefs.store == old(prefs.store)[KeyFavoritesOnly := BoolValue(!state.config.favoritesOnly)]
    {
      prefs.UpdateFavoritesOnly(!state.config.favoritesOnly);
    }

    /** `setSortBy`: the new order, then the list re-sorted; nothing else changes. */
    method SetSortBy(sortBy: AlbumSortBy)
      modifies this
      ensures state == old(state).(sortBy := sortBy, albums := Sorted(old(state).albums, sortBy, old(state).sortReversed))
      ensures clearRequests == old(clearRequests)
    {
      state := state.(sortBy := sortBy);
      ApplySorting();
    }

    /** `toggleSortReversed`: the flag flipped, then the list re-sorted. */
    method ToggleSortReversed()
      modifies this
      ensures state == old(state).(sortReversed := !old(state).sortReversed,
                                   albums := Sorted(old(state).albums, old(state).sortBy, !old(state).sortReversed))
      ensures clearRequests == old(clearRequests)
    {
      state := state.(sortReversed := !state.sortReversed);
      ApplySorting();
    }

    method ClearPhotos()
      modifies this
      ensures state == old(state) && clearRequests == old(clearRequests) + 1
    {
      clearRequests := clearRequests + 1;
    }

    /** The first step of a load: loading, no error. */
    method BeginLoad()
      modifies this
      ensures state == old(state).(isLoading := true, errorMessage := None)
      ensures clearRequests == old(clearRequests)
    {
      state := state.(isLoading := true, errorMessage := None);
    }

    /** The rest of `loadAlbumsAndTags` once the two requests have answered
        (`albums` also stands for a failure to create the service). On success
        both lists are cached and shown, the albums sorted; on the first failure
        the lists and the cache stay as they were and its message is shown. */
    method CompleteLoad(config: Config, albums: Result<seq<ApiAlbum>>, tags: Result<seq<ApiTag>>)
      requires Valid() && config.IsConfigured()
      modifies this, prefs
      ensures Valid() && clearRequests == old(clearRequests)
      ensures albums.Failure? ==>
                prefs.store == old(prefs.store) && state == old(state).(isLoading := false, errorMessage := albums.message)
      ensures albums.Success? && tags.Failure? ==>
                prefs.store == old(prefs.store) && state == old(state).(isLoading := false, errorMessage := tags.message)
      ensures albums.Success? && tags.Success? ==>
                var shown := MapAlbums(albums.value, config.serverUrl.value, config.apiKey.value);
                && prefs.store == old(prefs.store)[KeyCachedAlbums := StringValue(prefs.encodeAlbums(shown))]
                                                  [KeyCachedTags := StringValue(prefs.encodeTags(MapTags(tags.value)))]
                && state == old(state).(albums := Sorted(shown, old(state).sortBy, old(state).sortReversed),
                                        tags := MapTags(tags.value), isLoading := false, errorMessage := None)
    {
      if albums.Failure? {
        state := state.(isLoading := false, errorMessage := albums.message);
        return;
      }
      if tags.Failure? {
        state := state.(isLoading := false, errorMessage := tags.message);
        return;
      }
      var uiAlbums := MapAlbums(albums.value, config.serverUrl.value, config.apiKey.value);
      var uiTags := MapTags(tags.value);
      prefs.SaveCachedAlbums(uiAlbums);
      prefs.SaveCachedTags(uiTags);
      state := state.(albums := uiAlbums, tags := uiTags, isLoading := false, errorMessage := None);
      ApplySorting();
    }

    /** `refreshFromApi`: nothing at all without a usable configuration;
        otherwise a load with the shown configuration. */
    method RefreshFromApi(albums: Result<seq<ApiAlbum>>, tags: Result<seq<ApiTag>>)
      requires Valid()
      modifies this, prefs
      ensures Valid() && clearRequests == old(clearRequests)
      ensures !old(state).config.IsConfigured() ==> state == old(state) && prefs.store == old(prefs.store)
      ensures old(state).config.IsConfigured() ==> !state.isLoading && state.config == old(state).config
      ensures old(state).config.IsConfigured() && albums.Failure? ==>
                prefs.store == old(prefs.store) && state == old(state).(isLoading := false, errorMessage := albums.message)
      ensures old(state).config.IsConfigured() && albums.Success? && tags.Failure? ==>
                prefs.store == old(prefs.store) && state == old(state).(isLoading := false, errorMessage := tags.message)
      ensures old(state).config.IsConfigured() && albums.Success? && tags.Success? ==>
                var config := old(state).config;
                var shown := MapAlbums(albums.value, config.serverUrl.value, config.apiKey.value);
                && prefs.store == old(prefs.store)[KeyCachedAlbums := StringValue(prefs.encodeAlbums(shown))]
                                                  [KeyCachedTags := StringValue(prefs.encodeTags(MapTags(tags.value)))]
                && state == old(state).(albums := Sorted(shown, old(state).sortBy, old(state).sortReversed),
                                        tags := MapTags(tags.value), isLoading := false, errorMessage := None)
    {
      var config := state.config;
      if !config.IsConfigured() {
        return;
      }
      BeginLoad();
      CompleteLoad(config, albums, tags);
    }
  }
}
