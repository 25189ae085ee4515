/** ui/TagPickerViewModel.kt: the tag picker's list, the selection toggle, and
    a refresh of the tags from the server. */
module TagPicker {
  import opened Common
  import opened Models
  import opened Preferences
  import opened UiState
  import opened AlbumMapper
  import opened ViewModels

  /** `TagPickerUiState`. */
  datatype TagPickerUiState = TagPickerUiState(
    config: Config,
    tags: seq<TagUi>,
    isLoading: bool,
    errorMessage: Option<string>)

  /** `TagPickerUiState()`: nothing configured, no tags, not loading, no error. */
  function DefaultTagState(): (s: TagPickerUiState)
    ensures s.config == EmptyConfig && !s.config.IsConfigured()
    ensures s.tags == [] && !s.isLoading && s.errorMessage.None?
  {
    TagPickerUiState(EmptyConfig, [], false, None)
  }

  /** The state after a configuration emission: the tag list is emptied exactly
      when `ClearsCachedLists` holds. */
  function WithTagConfig(s: TagPickerUiState, config: Config): (r: TagPickerUiState)
    ensures r.config == config
    ensures ClearsCachedLists(s.config, config) ==> r.tags == []
    ensures !ClearsCachedLists(s.config, config) ==> r.tags == s.tags
    ensures r.(config := s.config, tags := s.tags) == s
  {
    var next := s.(config := config);
    if ClearsCachedLists(s.config, config) then next.(tags := []) else next
  }

  /** `TagPickerViewModel`. `clearRequests` counts the `clearPhotos` calls. */
  class TagPickerViewModel {
    const prefs: ImmichPreferences
    var state: TagPickerUiState
    var clearRequests: nat

    ghost predicate Valid()
      reads this, prefs
    {
      prefs.Valid()
    }

    /** The initial state with the cached tags loaded. */
    constructor (prefs: ImmichPreferences)
      requires prefs.Valid()
      ensures Valid() && this.prefs == prefs && clearRequests == 0
      ensures state == DefaultTagState().(tags := CachedListOf(prefs.store, KeyCachedTags, prefs.decodeTags))
    {
      this.prefs := prefs;
      clearRequests := 0;
      var tags := prefs.GetCachedTags();
      state := DefaultTagState().(tags := tags);
    }

    /** One emission of `configFlow`. */
    method OnConfigChanged(config: Config)
      modifies this
      ensures state == WithTagConfig(old(state), config) && clearRequests == old(clearRequests)
    {
      var oldConfig := state.config;
      state := state.(config := config);
      if config.serverUrl != oldConfig.serverUrl || config.apiKey != oldConfig.apiKey {
        if !config.IsConfigured() {
          state := state.(tags := []);
        }
      }
    }

    /** `toggleTag`: stores the toggled selection and requests one photo clear. */
    method ToggleTag(id: string)
      requires Valid() && |state.config.selectedTagIds| < MaxInt32
      modifies this, prefs
      ensures Valid()
      ensures prefs.store == old(prefs.store)[KeySelectedTags := StringSetValue(Toggle(old(state).config.selectedTagIds, id))]
      ensures state == old(state) && clearRequests == old(clearRequests) + 1
    {
      var newSelection := Toggle(state.config.selectedTagIds, id);
      ToggleSize(state.config.selectedTagIds, id);
      prefs.UpdateSelectedTags(newSelection);
      clearRequests := clearRequests + 1;
    }

    /** `updateCreatedAfter` and `updateCreatedBefore`: the store writes they call
        are not part of this model; what remains is the photo clear. */
    method UpdateCreatedBound(value: Option<string>)
      modifies this
      ensures state == old(state) && clearRequests == old(clearRequests) + 1
    {
      clearRequests := clearRequests + 1;
    }

    /** The first step of `loadTags`: loading, no error. */
    method BeginLoad()
      modifies this
      ensures state == old(state).(isLoading := true, errorMessage := None)
      ensures clearRequests == old(clearRequests)
    {
      state := state.(isLoading := true, errorMessage := None);
    }

    /** The rest of `loadTags` once the request has answered (`tags` also stands
        for a failure to create the service): on success each server tag becomes
        `(id, name)` in the same order, cached and shown. */
    method CompleteLoad(tags: Result<seq<ApiTag>>)
      requires Valid()
      modifies this, prefs
      ensures Valid() && clearRequests == old(clearRequests)
      ensures tags.Failure? ==>
                prefs.store == old(prefs.store) && state == old(state).(isLoading := false, errorMessage := tags.message)
      ensures tags.Success? ==>
                && prefs.store == old(prefs.store)[KeyCachedTags := StringValue(prefs.encodeTags(MapTags(tags.value)))]
                && state == old(state).(tags := MapTags(tags.value), isLoading := false, errorMessage := None)
    {
      if tags.Failure? {
        state := state.(isLoading := false, errorMessage := tags.message);
        return;
      }
      var uiTags := MapTags(tags.value);
      prefs.SaveCachedTags(uiTags);
      state := state.(tags := uiTags, isLoading := false, errorMessage := None);
    }

    /** `refreshFromApi`: nothing at all without a usable configuration;
        otherwise a load. */
    method RefreshFromApi(tags: Result<seq<ApiTag>>)
      requires Valid()
      modifies this, prefs
      ensures Valid() && clearRequests == old(clearRequests)
      ensures !old(state).config.IsConfigured() ==> state == old(state) && prefs.store == old(prefs.store)
      ensures old(state).config.IsConfigured() ==> !state.isLoading && state.config == old(state).config
      ensures old(state).config.IsConfigured() && tags.Success? ==>
                && prefs.store == old(prefs.store)[KeyCachedTags := StringValue(prefs.encodeTags(MapTags(tags.value)))]
                && state == old(state).(tags := MapTags(tags.value), isLoading := false, errorMessage := None)
      ensures old(state).config.IsConfigured() && tags.Failure? ==>
                prefs.store == old(prefs.store) && state == old(state).(isLoading := false, errorMessage := tags.message)
    {
      if !state.config.IsConfigured() {
        return;
      }
      BeginLoad();
      CompleteLoad(tags);
    }
  }
}
