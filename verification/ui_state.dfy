/** data/ImmichState.kt: the settings screens' view state and the album sort keys. */
module UiState {
  import opened Common
  import opened Models
  import opened Preferences

  /** `AlbumSortBy`. */
  datatype AlbumSortBy = Name | UpdatedAt | AssetCount | MostRecentPhoto

  /** `ImmichUiState`. */
  datatype ImmichUiState = ImmichUiState(
    config: Config,
    albums: seq<AlbumUi>,
    tags: seq<TagUi>,
    isLoading: bool,
    errorMessage: Option<string>,
    sortBy: AlbumSortBy,
    sortReversed: bool)

  /** `ImmichUiState()` with every default: nothing configured, no lists, not
      loading, no error, largest albums first. */
  function DefaultUiState(): (s: ImmichUiState)
    ensures s.config == EmptyConfig && !s.config.IsConfigured() && s.config.ApiBaseUrl().None?
    ensures s.albums == [] && s.tags == [] && !s.isLoading && s.errorMessage.None?
    ensures s.sortBy == AssetCount && s.sortReversed
  {
    ImmichUiState(EmptyConfig, [], [], false, None, AssetCount, true)
  }

  /** The rule every view-model applies to a new configuration: the cached lists
      are dropped only when the server URL or the API key changed and the new
      configuration is not usable. */
  predicate ClearsCachedLists(previous: Config, next: Config) {
    (next.serverUrl != previous.serverUrl || next.apiKey != previous.apiKey) && !next.IsConfigured()
  }

  /** The state after a configuration emission: the new configuration, and
      empty album and tag lists exactly when `ClearsCachedLists` holds. */
  function WithConfig(s: ImmichUiState, config: Config): (r: ImmichUiState)
    ensures r.config == config
    ensures ClearsCachedLists(s.config, config) ==> r.albums == [] && r.tags == []
    ensures !ClearsCachedLists(s.config, config) ==> r.albums == s.albums && r.tags == s.tags
    ensures r.(config := s.config, albums := s.albums, tags := s.tags) == s
  {
    var next := s.(config := config);
    if ClearsCachedLists(s.config, config) then next.(albums := [], tags := []) else next
  }

  /** A configured emission never empties the lists, and one that keeps the
      server URL and the API key changes nothing but the configuration. */
  lemma WithConfigKeepsLists(s: ImmichUiState, config: Config)
    ensures config.IsConfigured() ==> WithConfig(s, config) == s.(config := config)
    ensures config.serverUrl == s.config.serverUrl && config.apiKey == s.config.apiKey
            ==> WithConfig(s, config) == s.(config := config)
  {
  }

  /** `AlbumSortBy` has exactly four cases. */
  lemma SortByCases(s: AlbumSortBy)
    ensures s == Name || s == UpdatedAt || s == AssetCount || s == MostRecentPhoto
  {
  }
}
