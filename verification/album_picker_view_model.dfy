/** ui/AlbumPickerViewModel.kt: the album picker's list, its four sort orders,
    and the selection toggle that restarts the wallpaper rotation. */
module AlbumPicker {
  import opened Common
  import opened Lists
  import opened Models
  import opened Preferences
  import opened UiState
  import opened AlbumMapper
  import opened ViewModels

  /** `AlbumPickerUiState`. */
  datatype AlbumPickerUiState = AlbumPickerUiState(
    config: Config,
    albums: seq<AlbumUi>,
    isLoading: bool,
    errorMessage: Option<string>,
    sortBy: AlbumSortBy,
    sortReversed: bool)

  /** `AlbumPickerUiState()`: nothing configured, no albums, largest first. */
  function DefaultPickerState(): (s: AlbumPickerUiState)
    ensures s.config == EmptyConfig && !s.config.IsConfigured()
    ensures s.albums == [] && !s.isLoading && s.errorMessage.None?
    ensures s.sortBy == AssetCount && s.sortReversed
  {
    AlbumPickerUiState(EmptyConfig, [], false, None, AssetCount, true)
  }

  /** The state after a configuration emission: the album list is emptied
      exactly when `ClearsCachedLists` holds. */
  function WithPickerConfig(s: AlbumPickerUiState, config: Config): (r: AlbumPickerUiState)
    ensures r.config == config
    ensures ClearsCachedLists(s.config, config) ==> r.albums == []
    ensures !ClearsCachedLists(s.config, config) ==> r.albums == s.albums
    ensures r.(config := s.config, albums := s.albums) == s
  {
    var next := s.(config := config);
    if ClearsCachedLists(s.config, config) then next.(albums := []) else next
  }

  function TitleKey(a: AlbumUi): Key { TextKey(a.title) }
  function CountKey(a: AlbumUi): Key { IntKey(a.assetCount) }
  function UpdatedKey(a: AlbumUi): Key { TextKey(a.updatedAt.GetOr("")) }
  function RecentKey(a: AlbumUi): Key { TextKey(a.lastModifiedAssetTimestamp.GetOr("")) }

  /** The selector of each order; every order has one here. */
  function SortKey(sortBy: AlbumSortBy): AlbumUi -> Key {
    match sortBy
    case Name => TitleKey
    case AssetCount => CountKey
    case UpdatedAt => UpdatedKey
    case MostRecentPhoto => RecentKey
  }

  /** The album list `applySorting` leaves in the state. */
  function Sorted(albums: seq<AlbumUi>, sortBy: AlbumSortBy, reversed: bool): seq<AlbumUi> {
    SortAlbums(albums, Some(SortKey(sortBy)), reversed)
  }

  /** Sorting is a permutation; by name the titles ascend, by count the counts,
      by update time the `updatedAt` texts (absent read as empty), by recent
      photo the `lastModifiedAssetTimestamp` texts; all descend when reversed. */
  lemma SortedSpec(albums: seq<AlbumUi>, sortBy: AlbumSortBy, reversed: bool)
    ensures var r := Sorted(albums, sortBy, reversed);
      && multiset(r) == multiset(albums)
      && (sortBy == Name ==> forall i :: 0 <= i < |r| - 1 ==>
            if reversed then LexLe(r[i + 1].title, r[i].title) else LexLe(r[i].title, r[i + 1].title))
      && (sortBy == AssetCount ==> forall i :: 0 <= i < |r| - 1 ==>
            if reversed then r[i].assetCount >= r[i + 1].assetCount else r[i].assetCount <= r[i + 1].assetCount)
      && (sortBy == UpdatedAt ==> forall i :: 0 <= i < |r| - 1 ==>
            if reversed then LexLe(r[i + 1].updatedAt.GetOr(""), r[i].updatedAt.GetOr(""))
            else LexLe(r[i].updatedAt.GetOr(""), r[i + 1].updatedAt.GetOr("")))
      && (sortBy == MostRecentPhoto ==> forall i :: 0 <= i < |r| - 1 ==>
            if reversed then LexLe(r[i + 1].lastModifiedAssetTimestamp.GetOr(""), r[i].lastModifiedAssetTimestamp.GetOr(""))
            else LexLe(r[i].lastModifiedAssetTimestamp.GetOr(""), r[i + 1].lastModifiedAssetTimestamp.GetOr("")))
  {
    var r := Sorted(albums, sortBy, reversed);
    var key := SortKey(sortBy);
    assert forall i :: 0 <= i < |r| - 1 ==>
      if reversed then KeyLe(key(r[i + 1]), key(r[i])) else KeyLe(key(r[i]), key(r[i + 1]));
    match sortBy
    case Name =>
      forall i | 0 <= i < |r| - 1
        ensures if reversed then LexLe(r[i + 1].title, r[i].title) else LexLe(r[i].title, r[i + 1].title)
      {
      }
    case AssetCount =>
      forall i | 0 <= i < |r| - 1
        ensures if reversed then r[i].assetCount >= r[i + 1].assetCount else r[i].assetCount <= r[i + 1].assetCount
      {
      }
    case UpdatedAt =>
      forall i | 0 <= i < |r| - 1
        ensures if reversed then LexLe(r[i + 1].updatedAt.GetOr(""), r[i].updatedAt.GetOr(""))
                else LexLe(r[i].updatedAt.GetOr(""), r[i + 1].updatedAt.GetOr(""))
      {
      }
    case MostRecentPhoto =>
      forall i | 0 <= i < |r| - 1
        ensures if reversed then LexLe(r[i + 1].lastModifiedAssetTimestamp.GetOr(""), r[i].lastModifiedAssetTimestamp.GetOr(""))
                else LexLe(r[i].lastModifiedAssetTimestamp.GetOr(""), r[i + 1].lastModifiedAssetTimestamp.GetOr(""))
      {
      }
  }

  /** The albums the mapper builds carry no update time, so ordering them by
      update time keeps the server's order (the sort is stable). */
  lemma UpdatedAtKeepsMappedOrder(albums: seq<AlbumUi>)
    requires forall a :: a in albums ==> a.updatedAt.None?
    ensures Sorted(albums, UpdatedAt, false) == albums
  {
    var r := Sorted(albums, UpdatedAt, false);
    var k := TextKey("");
    SortAlbumsStable(albums, UpdatedKey, false, k);
    WithKeyOfUniform(albums, UpdatedKey, k);
    forall x | x in r ensures UpdatedKey(x) == k {
      assert x in multiset(r);
    }
    WithKeyOfUniform(r, UpdatedKey, k);
  }

  /** `AlbumPickerViewModel`. `clearRequests` counts the `clearPhotos` calls. */
  class AlbumPickerViewModel {
    const prefs: ImmichPreferences
    var state: AlbumPickerUiState
    var clearRequests: nat

    ghost predicate Valid()
      reads this, prefs
    {
      prefs.Valid()
    }

    /** The initial state with the cached albums loaded and sorted. */
    constructor (prefs: ImmichPreferences)
      requires prefs.Valid()
      ensures Valid() && this.prefs == prefs && clearRequests == 0
      ensures state == DefaultPickerState().(
                albums := Sorted(CachedListOf(prefs.store, KeyCachedAlbums, prefs.decodeAlbums), AssetCount, true))
    {
      this.prefs := prefs;
      clearRequests := 0;
      var albums := prefs.GetCachedAlbums();
      state := DefaultPickerState().(albums := albums);
      new;
      ApplySorting();
    }

    method ApplySorting()
      modifies this
      ensures state == old(state).(albums := Sorted(old(state).albums, old(state).sortBy, old(state).sortReversed))
      ensures clearRequests == old(clearRequests)
    {
      var sorted := SortByKey(state.albums, SortKey(state.sortBy));
      state := state.(albums := if state.sortReversed then Reversed(sorted) else sorted);
    }

    /** One emission of `configFlow`. */
    method OnConfigChanged(config: Config)
      modifies this
      ensures state == WithPickerConfig(old(state), config) && clearRequests == old(clearRequests)
    {
      var oldConfig := state.config;
      state := state.(config := config);
      if config.serverUrl != oldConfig.serverUrl || config.apiKey != oldConfig.apiKey {
        if !config.IsConfigured() {
          state := state.(albums := []);
        }
      }
    }

    /** `toggleAlbum`: stores the toggled selection, which rewinds the rotation
        cursor to 0, and requests one photo clear. */
    method ToggleAlbum(id: string)
      requires Valid() && |state.config.selectedAlbumIds| < MaxInt32
      modifies this, prefs
      ensures Valid()
      ensures prefs.store == old(prefs.store)[KeySelectedAlbums := StringSetValue(Toggle(old(state).config.selectedAlbumIds, id))]
                                             [KeyLastAlbumIndex := IntValue(0)]
      ensures ConfigOf(prefs.store).selectedAlbumIds == Toggle(old(state).config.selectedAlbumIds, id)
      ensures CursorOf(prefs.store) == 0
      ensures state == old(state) && clearRequests == old(clearRequests) + 1
    {
      var newSelection := Toggle(state.config.selectedAlbumIds, id);
      ToggleSize(state.config.selectedAlbumIds, id);
      prefs.UpdateSelectedAlbums(newSelection);
      clearRequests := clearRequests + 1;
    }

    method SetSortBy(sortBy: AlbumSortBy)
      modifies this
      ensures state == old(state).(sortBy := sortBy, albums := Sorted(old(state).albums, sortBy, old(state).sortReversed))
      ensures clearRequests == old(clearRequests)
    {
      state := state.(sortBy := sortBy);
      ApplySorting();
    }

    /** `toggleSortReversed`: only the flag, then the list re-sorted. */
    method ToggleSortReversed()
      modifies this
      ensures state == old(state).(sortReversed := !old(state).sortReversed,
                                   albums := Sorted(old(state).albums, old(state).sortBy, !old(state).sortReversed))
      ensures clearRequests == old(clearRequests)
    {
      state := state.(sortReversed := !state.sortReversed);
      ApplySorting();
    }

    /** The first step of `loadAlbums`: loading, no error. */
    method BeginLoad()
      modifies this
      ensures state == old(state).(isLoading := true, errorMessage := None)
      ensures clearRequests == old(clearRequests)
    {
      state := state.(isLoading := true, errorMessage := None);
    }

    /** The rest of `loadAlbums` once the request has answered (`albums` also
        stands for a failure to create the service). */
    method CompleteLoad(config: Config, albums: Result<seq<ApiAlbum>>)
      requires Valid() && config.IsConfigured()
      modifies this, prefs
      ensures Valid() && clearRequests == old(clearRequests)
      ensures albums.Failure? ==>
                prefs.store == old(prefs.store) && state == old(state).(isLoading := false, errorMessage := albums.message)
      ensures albums.Success? ==>
                var shown := MapAlbums(albums.value, config.serverUrl.value, config.apiKey.value);
                && prefs.store == old(prefs.store)[KeyCachedAlbums := StringValue(prefs.encodeAlbums(shown))]
                && state == old(state).(albums := Sorted(shown, old(state).sortBy, old(state).sortReversed),
                                        isLoading := false, errorMessage := None)
    {
      if albums.Failure? {
        state := state.(isLoading := false, errorMessage := albums.message);
        return;
      }
      var uiAlbums := MapAlbums(albums.value, config.serverUrl.value, config.apiKey.value);
      prefs.SaveCachedAlbums(uiAlbums);
      state := state.(albums := uiAlbums, isLoading := false, errorMessage := None);
      ApplySorting();
    }

    /** `refreshFromApi`: nothing at all without a usable configuration;
        otherwise a load with the shown configuration. */
    method RefreshFromApi(albums: Result<seq<ApiAlbum>>)
      requires Valid()
      modifies this, prefs
      ensures Valid() && clearRequests == old(clearRequests)
      ensures !old(state).config.IsConfigured() ==> state == old(state) && prefs.store == old(prefs.store)
      ensures old(state).config.IsConfigured() ==> !state.isLoading && state.config == old(state).config
      ensures old(state).config.IsConfigured() && albums.Failure? ==>
                prefs.store == old(prefs.store) && state == old(state).(isLoading := false, errorMessage := albums.message)
      ensures old(state).config.IsConfigured() && albums.Success? ==>
                var config := old(state).config;
                var shown := MapAlbums(albums.value, config.serverUrl.value, config.apiKey.value);
                && prefs.store == old(prefs.store)[KeyCachedAlbums := StringValue(prefs.encodeAlbums(shown))]
                && state == old(state).(albums := Sorted(shown, old(state).sortBy, old(state).sortReversed),
                                        isLoading := false, errorMessage := None)
    {
      var config := state.config;
      if !config.IsConfigured() {
        return;
      }
      BeginLoad();
      CompleteLoad(config, albums);
    }
  }
}
