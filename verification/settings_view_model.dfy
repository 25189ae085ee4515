/** ui/SettingsViewModel.kt: the settings screen's state, its writes to the
    preference store, and the one photo clear owed when the user leaves after
    changing something. */
module Settings {
  import opened Common
  import opened Text
  import opened Models
  import opened Preferences
  import opened UiState
  import opened ViewModels

  /** `SettingsViewModel`. `clearRequests` counts the calls of `clearPhotos`
      (each launches one `MuzeiProvider.clearPhotos`). */
  class SettingsViewModel {
    const prefs: ImmichPreferences
    var state: ImmichUiState
    var hasPendingChanges: bool
    var clearRequests: nat

    ghost predicate Valid()
      reads this, prefs
    {
      prefs.Valid()
    }

    /** The initial state with the cached album and tag lists loaded
        (`loadCachedData` in `init`), and nothing pending. */
    constructor (prefs: ImmichPreferences)
      requires prefs.Valid()
      ensures Valid() && this.prefs == prefs
      ensures state == DefaultUiState().(albums := CachedListOf(prefs.store, KeyCachedAlbums, prefs.decodeAlbums),
                                         tags := CachedListOf(prefs.store, KeyCachedTags, prefs.decodeTags))
      ensures !hasPendingChanges && clearRequests == 0
    {
      this.prefs := prefs;
      var albums := prefs.GetCachedAlbums();
      var tags := prefs.GetCachedTags();
      state := DefaultUiState().(albums := albums, tags := tags);
      hasPendingChanges := false;
      clearRequests := 0;
    }

    /** `loadCachedData` / `reloadCachedData`: the cached lists replace the
        shown ones; nothing else changes. */
    method LoadCachedData()
      requires Valid()
      modifies this
      ensures Valid()
      ensures state == old(state).(albums := CachedListOf(prefs.store, KeyCachedAlbums, prefs.decodeAlbums),
                                   tags := CachedListOf(prefs.store, KeyCachedTags, prefs.decodeTags))
      ensures hasPendingChanges == old(hasPendingChanges) && clearRequests == old(clearRequests)
    {
      var albums := prefs.GetCachedAlbums();
      var tags := prefs.GetCachedTags();
      state := state.(albums := albums, tags := tags);
    }

    /** One emission of `configFlow`. */
    method OnConfigChanged(config: Config)
      modifies this
      ensures state == WithConfig(old(state), config)
      ensures hasPendingChanges == old(hasPendingChanges) && clearRequests == old(clearRequests)
    {
      var oldConfig := state.config;
      state := state.(config := config);
      if config.serverUrl != oldConfig.serverUrl || config.apiKey != oldConfig.apiKey {
        if !config.IsConfigured() {
          state := state.(albums := [], tags := []);
        }
      }
    }

    method UpdateCredentials(serverUrl: string, apiKey: string)
      requires Valid()
      modifies this, prefs
      ensures Valid()
      ensures prefs.store == old(prefs.store)[KeyServerUrl := StringValue(Trim(serverUrl))][KeyApiKey := StringValue(Trim(apiKey))]
      ensures state == old(state) && hasPendingChanges && clearRequests == old(clearRequests)
    {
      prefs.UpdateServer(serverUrl, apiKey);
      MarkPendingChanges();
    }

    /** `toggleAlbum`: stores the toggled selection (which also rewinds the
        round-robin cursor). */
    method ToggleAlbum(id: string)
      requires Valid() && |state.config.selectedAlbumIds| < MaxInt32
      modifies this, prefs
      ensures Valid()
      ensures prefs.store == old(prefs.store)[KeySelectedAlbums := StringSetValue(Toggle(old(state).config.selectedAlbumIds, id))]
                                             [KeyLastAlbumIndex := IntValue(0)]
      ensures state == old(state) && hasPendingChanges && clearRequests == old(clearRequests)
    {
      var newSelection := Toggle(state.config.selectedAlbumIds, id);
      ToggleSize(state.config.selectedAlbumIds, id);
      prefs.UpdateSelectedAlbums(newSelection);
      MarkPendingChanges();
    }

    method ToggleTag(id: string)
      requires Valid() && |state.config.selectedTagIds| < MaxInt32
      modifies this, prefs
      ensures Valid()
      ensures prefs.store == old(prefs.store)[KeySelectedTags := StringSetValue(Toggle(old(state).config.selectedTagIds, id))]
      ensures state == old(state) && hasPendingChanges && clearRequests == old(clearRequests)
    {
      var newSelection := Toggle(state.config.selectedTagIds, id);
      ToggleSize(state.config.selectedTagIds, id);
      prefs.UpdateSelectedTags(newSelection);
      MarkPendingChanges();
    }

    /** `toggleFavoritesOnly`: writes the negation of the shown flag. */
    method ToggleFavoritesOnly()
      requires Valid()
      modifies this, prefs
      ensures Valid()
      ensures prefs.store == old(prefs.store)[KeyFavoritesOnly := BoolValue(!old(state).config.favoritesOnly)]
      ensures state == old(state) && hasPendingChanges && clearRequests == old(clearRequests)
    {
      prefs.UpdateFavoritesOnly(!state.config.favoritesOnly);
      MarkPendingChanges();
    }

    /** `updateFilterDaysBack`: the store write it calls is not part of this
        model; what remains is that the change is pending. */
    method UpdateFilterDaysBack(days: Option<int32>)
      modifies this
      ensures state == old(state) && hasPendingChanges && clearRequests == old(clearRequests)
    {
      MarkPendingChanges();
    }

    method ClearPhotos()
      modifies this
      ensures state == old(state) && hasPendingChanges == old(hasPendingChanges)
      ensures clearRequests == old(clearRequests) + 1
    {
      clearRequests := clearRequests + 1;
    }

    /** `applyPendingChangesIfAny`: one clear, and the flag reset, exactly when
        clearing is wanted and something changed; otherwise nothing. */
    method ApplyPendingChangesIfAny(clearIfChanged: bool := true)
      modifies this
      ensures state == old(state)
      ensures clearIfChanged && old(hasPendingChanges) ==> !hasPendingChanges && clearRequests == old(clearRequests) + 1
      ensures !(clearIfChanged && old(hasPendingChanges)) ==>
                hasPendingChanges == old(hasPendingChanges) && clearRequests == old(clearRequests)
    {
      if clearIfChanged && hasPendingChanges {
        ClearPhotos();
        hasPendingChanges := false;
      }
    }

    method MarkPendingChanges()
      modifies this
      ensures state == old(state) && hasPendingChanges && clearRequests == old(clearRequests)
    {
      hasPendingChanges := true;
    }
  }

  /** However many changes were made, leaving the screen twice clears the photos
      once: the second `applyPendingChangesIfAny` finds nothing pending. */
  method LeaveTwice(vm: SettingsViewModel)
    modifies vm
    ensures vm.clearRequests <= old(vm.clearRequests) + 1
    ensures old(vm.hasPendingChanges) ==> vm.clearRequests == old(vm.clearRequests) + 1
    ensures !vm.hasPendingChanges
  {
    vm.ApplyPendingChangesIfAny();
    vm.ApplyPendingChangesIfAny();
  }
}
