# immich-muzei, modelled in Dafny

This project models the core of the Immich source for Muzei, an Android app
that shows random photos from an Immich server as the Muzei wallpaper. It
covers:

- the preference store: credentials, album and tag selection, the favourites
  flag, the round-robin album cursor, the cached album and tag lists, and the
  migration from the old single-album key;
- how a wallpaper refresh builds its random-asset query from the stored
  configuration and advances the cursor;
- the artwork it adds, its byline and image URL, its command actions, and the
  favourite receiver;
- the four settings view-models: the selection toggles, the sort orders, the
  reaction to configuration changes, the load from the server with its
  success and failure paths, and the one photo clear owed on leaving the
  settings screen;
- the list filtering and sectioning done by the album and tag picker screens;
- the "taken since" date filter;
- the favourite-shortcut receiver with its ordered checks.

Each Kotlin core file is one Dafny module, with these helpers:

- `Common`: Option, Result, `Int` wrap-around and Kotlin's `%`.
- `Text`: trim, blank, suffixes, case-insensitive contains, decimal text.
- `Lists`: `sortedBy` as a stable insertion sort, `reversed`, `filter` and
  `partition`.
- `Models`: the API and UI records.
- `ViewModels`: the toggle, sorting and test URL that the view-models share.

Classes model the objects whose state changes:

- `ImmichPreferences`, over a map from keys to typed values;
- the four view-models, each over its UI state record;
- the date filter.

Everything a view-model or the provider computes without side effects is a
function.

The model leaves these outside and takes them as parameters:

- The server. Each call is a `Result` input; a failure carries the
  exception's message.
- The JSON codecs of the cached lists. They are functions given to the
  preferences.
- The order Kotlin iterates a `Set` in. It is a function `enumerate` that
  lists a set without repeats.
- The Unicode case folding used by `contains(..., ignoreCase = true)`. It is
  a parameter `fold`.
- Muzei's `clearPhotos`. It is a counter, `clearRequests`, of the clears
  requested.

A coroutine that loads from the server is split in two:

- `BeginLoad`: the state before the first suspension.
- `CompleteLoad`: the state once the requests have answered.

`RefreshFromApi` runs both.

## Model

| member | source | states |
|---|---|---|
| Text.LeadingBlanks | immich/src/main/java/dev/abdus/apps/immich/data/ImmichPreferences.kt:36 | counts the leading whitespace: every character before the count is whitespace, and the one at the count (if any) is not |
| Text.TrailingBlanks | immich/src/main/java/dev/abdus/apps/immich/data/ImmichPreferences.kt:37 | counts the trailing whitespace: every character in the counted tail is whitespace, and the one just before it (if any) is not |
| Text.TrimStart | immich/src/main/java/dev/abdus/apps/immich/data/ImmichPreferences.kt:36 | the result is a suffix of the input, starts with a non-whitespace character (or is empty), and only whitespace was dropped |
| Text.TrimEnd | immich/src/main/java/dev/abdus/apps/immich/data/ImmichPreferences.kt:37 | the result is a prefix of the input, ends with a non-whitespace character (or is empty), and only whitespace was dropped |
| Text.Trim | immich/src/main/java/dev/abdus/apps/immich/data/ImmichPreferences.kt:36-37 | a trimmed string is no longer than the input and neither starts nor ends with whitespace |
| Text.TrimIsInfix | immich/src/main/java/dev/abdus/apps/immich/data/ImmichPreferences.kt:36-37 | `trim()` returns the contiguous part of the input after its leading whitespace, and all it drops before and after is whitespace |
| Text.TrimIdempotent | immich/src/main/java/dev/abdus/apps/immich/data/ImmichPreferences.kt:138 | trimming the stored (already trimmed) key again changes nothing |
| Text.BlankIffTrimEmpty | immich/src/main/java/dev/abdus/apps/immich/data/ImmichPreferences.kt:138 | `isBlank()` holds exactly when trimming leaves the empty string |
| Text.RemoveSuffix | immich/src/main/java/dev/abdus/apps/immich/data/ImmichPreferences.kt:145 | when the string ends with the suffix, result + suffix is the string; otherwise the string is unchanged |
| Text.ContainsEmpty | immich/src/main/java/dev/abdus/apps/immich/ui/screens/AlbumPickerScreen.kt:67 | every title contains the empty text, ignoring case |
| Text.NatToString | immich/src/main/java/dev/abdus/apps/immich/ui/screens/AlbumPickerScreen.kt:136 | the decimal form of a count is non-empty, all digits, with no leading zero |
| Text.NatToStringRoundTrip | immich/src/main/java/dev/abdus/apps/immich/ui/screens/AlbumPickerScreen.kt:136 | reading the decimal form back gives the count |
| Lists.SortByKey | immich/src/main/java/dev/abdus/apps/immich/ui/ImmichSettingsViewModel.kt:147-148 | `sortedBy` returns a permutation of its input in ascending key order |
| Lists.Insert | immich/src/main/java/dev/abdus/apps/immich/ui/ImmichSettingsViewModel.kt:147-148 | one step of `sortedBy`: the list with exactly the element added, placed first or after the first element |
| Lists.InsertSorted | immich/src/main/java/dev/abdus/apps/immich/ui/ImmichSettingsViewModel.kt:147-148 | inserting into a sorted list keeps it sorted |
| Lists.SortByKeyStable | immich/src/main/java/dev/abdus/apps/immich/ui/AlbumPickerViewModel.kt:106-109 | `sortedBy` is stable: elements with equal keys keep their input order |
| Lists.WithKeyOfUniform | immich/src/main/java/dev/abdus/apps/immich/ui/AlbumPickerViewModel.kt:108 | when every key is equal, the elements with that key are the whole list |
| Lists.Reversed | immich/src/main/java/dev/abdus/apps/immich/ui/ImmichSettingsViewModel.kt:152 | `reversed()` puts element i at position n-1-i and keeps the multiset |
| Lists.ReversedTwice | immich/src/main/java/dev/abdus/apps/immich/ui/ImmichSettingsViewModel.kt:152 | reversing twice restores the list |
| Lists.ReversedSortedDescending | immich/src/main/java/dev/abdus/apps/immich/ui/ImmichSettingsViewModel.kt:152 | an ascending list reversed is descending |
| Lists.Filter | immich/src/main/java/dev/abdus/apps/immich/ui/screens/AlbumPickerScreen.kt:66-68 | `filter` keeps exactly the elements that satisfy the predicate and never grows the list |
| Lists.FilterIsSubsequence | immich/src/main/java/dev/abdus/apps/immich/ui/screens/AlbumPickerScreen.kt:66-68 | `filter` keeps the order of the elements it keeps |
| Lists.FilterCount | immich/src/main/java/dev/abdus/apps/immich/ui/screens/TagPickerScreen.kt:65 | each kept element keeps its multiplicity; dropped ones occur zero times |
| Lists.FilterSplit | immich/src/main/java/dev/abdus/apps/immich/ui/screens/TagPickerScreen.kt:65 | filtering by p and by not-p together lose and add nothing |
| Lists.Partition | immich/src/main/java/dev/abdus/apps/immich/ui/screens/TagPickerScreen.kt:65 | `partition` puts the matching elements first and the others second, each side in its original order, losing nothing |
| Common.Wrap32 | immich/src/main/java/dev/abdus/apps/immich/data/ImmichPreferences.kt:72 | `current + 1` in Kotlin `Int` arithmetic: unchanged in range, congruent modulo 2^32 always |
| Common.Rem | immich/src/main/java/dev/abdus/apps/immich/data/ImmichPreferences.kt:72 | Kotlin's `%` for a positive divisor: sign of the dividend, magnitude below the divisor, and congruent to the dividend modulo the divisor |
| Preferences.Config.ApiBaseUrl | immich/src/main/java/dev/abdus/apps/immich/data/ImmichPreferences.kt:156-160 | no server gives no base URL; otherwise the base URL always ends in `/api/`, adding `/` or `/api/` as needed |
| Preferences.NormalizeUrl | immich/src/main/java/dev/abdus/apps/immich/data/ImmichPreferences.kt:145 | the trimmed URL, with its one trailing `/` removed when it has one and unchanged otherwise |
| Preferences.NormalizeApiKey | immich/src/main/java/dev/abdus/apps/immich/data/ImmichPreferences.kt:138 | a key is present exactly when the stored value trims to something non-blank, and then it is that trimmed value |
| Preferences.MigrateStore | immich/src/main/java/dev/abdus/apps/immich/data/ImmichPreferences.kt:119-134 | a store with the new key, or with neither key, is unchanged; an old single album becomes a one-element set and the old key is removed; every other key keeps its value |
| Preferences.ConfigOf | immich/src/main/java/dev/abdus/apps/immich/data/ImmichPreferences.kt:117-143 | the URL is present iff stored, and normalised; the key is the stored key normalised; the albums are the new set, else the one legacy album, else none; a stored tag set and a stored flag read back as stored, and absent or mistyped ones read as empty and false |
| Preferences.MigrationIdempotent | immich/src/main/java/dev/abdus/apps/immich/data/ImmichPreferences.kt:122-134 | migrating twice equals migrating once, and migration does not change the configuration read |
| Preferences.MigratePreservesWellTyped | immich/src/main/java/dev/abdus/apps/immich/data/ImmichPreferences.kt:127-130 | migration keeps every key holding a value of its type |
| Preferences.EmptyStoreConfig | immich/src/main/java/dev/abdus/apps/immich/data/ImmichPreferences.kt:136-142 | an empty store reads as the default configuration, which is not configured |
| Preferences.StoredApiKeyReadsBack | immich/src/main/java/dev/abdus/apps/immich/data/ImmichPreferences.kt:37 | a key stored trimmed reads back as itself, or as absent when blank |
| Preferences.UpdateServerThenRead | immich/src/main/java/dev/abdus/apps/immich/data/ImmichPreferences.kt:34-39 | after `updateServer`, the configuration shows the normalised URL and the trimmed key (absent if blank) |
| Preferences.ConfiguredIffCredentials | immich/src/main/java/dev/abdus/apps/immich/data/ImmichPreferences.kt:155 | `isConfigured` holds exactly when a URL and a key are stored that do not trim to empty |
| Preferences.CachedListOf | immich/src/main/java/dev/abdus/apps/immich/data/ImmichPreferences.kt:88-95 | a missing or undecodable cache reads as the empty list; a non-empty result is what the decoder produced |
| Preferences.CacheRoundTrip | immich/src/main/java/dev/abdus/apps/immich/data/ImmichPreferences.kt:80-95 | a list saved with a codec that round-trips reads back unchanged |
| Preferences.NextCursor | immich/src/main/java/dev/abdus/apps/immich/data/ImmichPreferences.kt:72 | from a cursor in range, the next one is the following index, wrapping to 0 after the last |
| Preferences.NextAlbumIndexOf | immich/src/main/java/dev/abdus/apps/immich/data/ImmichPreferences.kt:68-75 | with no albums returns 0 and writes nothing; otherwise returns the stored cursor and stores the next one, touching no other key |
| Preferences.RotationAt | immich/src/main/java/dev/abdus/apps/immich/data/ImmichPreferences.kt:68-75 | call i of a run of `getNextAlbumIndex` returns the cursor advanced i steps |
| Preferences.CursorAfterAdd | immich/src/main/java/dev/abdus/apps/immich/data/ImmichPreferences.kt:72 | advancing a+b steps is advancing a steps, then b |
| Preferences.CursorAfterCounts | immich/src/main/java/dev/abdus/apps/immich/data/ImmichPreferences.kt:72 | below the end, j steps add j to the cursor |
| Preferences.CursorAfterFullTurn | immich/src/main/java/dev/abdus/apps/immich/data/ImmichPreferences.kt:72 | from a cursor in range, `total` steps return to it |
| Preferences.CursorAfterInRange | immich/src/main/java/dev/abdus/apps/immich/data/ImmichPreferences.kt:72 | a cursor in range stays in range however many steps it takes |
| Preferences.NextCursorInRange | immich/src/main/java/dev/abdus/apps/immich/data/ImmichPreferences.kt:72 | one step keeps a cursor in range |
| Preferences.RoundRobinFromZero | immich/src/main/java/dev/abdus/apps/immich/data/ImmichPreferences.kt:64-75 | from a reset cursor, successive calls return 0, 1, ..., total-1 and then repeat with period total |
| Preferences.ImmichPreferences.constructor | immich/src/main/java/dev/abdus/apps/immich/data/ImmichPreferences.kt:24-26 | the preferences start from a well-typed store with the given list codecs |
| Preferences.ImmichPreferences.UpdateServer | immich/src/main/java/dev/abdus/apps/immich/data/ImmichPreferences.kt:34-39 | stores the trimmed URL and key and nothing else |
| Preferences.ImmichPreferences.UpdateSelectedAlbums | immich/src/main/java/dev/abdus/apps/immich/data/ImmichPreferences.kt:48-54 | stores the selection and resets the round-robin cursor to 0; the configuration then shows exactly that selection |
| Preferences.ImmichPreferences.UpdateSelectedAlbum | immich/src/main/java/dev/abdus/apps/immich/data/ImmichPreferences.kt:41-46 | stores the one-element (or empty) set and resets the cursor |
| Preferences.ImmichPreferences.UpdateSelectedTags | immich/src/main/java/dev/abdus/apps/immich/data/ImmichPreferences.kt:56-58 | stores the tag set and nothing else; the configuration then reads that set back |
| Preferences.ImmichPreferences.UpdateFavoritesOnly | immich/src/main/java/dev/abdus/apps/immich/data/ImmichPreferences.kt:60-62 | stores the flag and nothing else; the configuration then reads that flag back |
| Preferences.ImmichPreferences.GetNextAlbumIndex | immich/src/main/java/dev/abdus/apps/immich/data/ImmichPreferences.kt:68-75 | the index returned and the store left are those of `NextAlbumIndexOf` |
| Preferences.ImmichPreferences.SaveCachedAlbums | immich/src/main/java/dev/abdus/apps/immich/data/ImmichPreferences.kt:80-83 | stores the encoded album list under the album cache key only |
| Preferences.ImmichPreferences.GetCachedAlbums | immich/src/main/java/dev/abdus/apps/immich/data/ImmichPreferences.kt:88-95 | returns the decoded cache, or the empty list when absent or undecodable |
| Preferences.ImmichPreferences.SaveCachedTags | immich/src/main/java/dev/abdus/apps/immich/data/ImmichPreferences.kt:100-103 | stores the encoded tag list under the tag cache key only |
| Preferences.ImmichPreferences.GetCachedTags | immich/src/main/java/dev/abdus/apps/immich/data/ImmichPreferences.kt:108-115 | returns the decoded cache, or the empty list when absent or undecodable |
| Preferences.ImmichPreferences.ReadConfig | immich/src/main/java/dev/abdus/apps/immich/data/ImmichPreferences.kt:117-143 | returns the configuration of the store as it was and leaves the store migrated |
| UiState.DefaultUiState | immich/src/main/java/dev/abdus/apps/immich/data/ImmichState.kt:3-11 | the default state: the empty configuration (no URL, no key, no albums or tags, not favourites-only), so unconfigured, empty lists, not loading, no error, sorted by count reversed |
| UiState.WithConfig | immich/src/main/java/dev/abdus/apps/immich/ui/SettingsViewModel.kt:41-52 | the new configuration is shown; the lists are emptied exactly when the credentials changed to an unusable pair; nothing else changes |
| UiState.WithConfigKeepsLists | immich/src/main/java/dev/abdus/apps/immich/ui/ImmichSettingsViewModel.kt:50-57 | a configured emission, or one with the same URL and key, keeps both lists |
| UiState.SortByCases | immich/src/main/java/dev/abdus/apps/immich/data/ImmichState.kt:13-18 | the four sort orders are the only ones |
| AlbumMapper.CoverBase | immich/src/main/java/dev/abdus/apps/immich/data/ImmichAlbumMapper.kt:9 | one trailing `/api` is dropped if present, and then one trailing `/` is dropped if present |
| AlbumMapper.CoverBaseKeepsApiBeforeSlash | immich/src/main/java/dev/abdus/apps/immich/data/ImmichAlbumMapper.kt:9 | a URL ending in `/api/` loses only the slash, since `/api` is not its suffix |
| AlbumMapper.ToUiModel | immich/src/main/java/dev/abdus/apps/immich/data/ImmichAlbumMapper.kt:6-18 | id, title and count are copied; a cover URL exists exactly when the album has a thumbnail, and is the thumbnail URL |
| AlbumMapper.MapAlbums | immich/src/main/java/dev/abdus/apps/immich/ui/ImmichSettingsViewModel.kt:171-175 | each album is mapped in place, in order |
| AlbumMapper.MapTags | immich/src/main/java/dev/abdus/apps/immich/ui/ImmichSettingsViewModel.kt:180-185 | each tag becomes its id and name, in order |
| Repository.RandomRequestFor | immich/src/main/java/dev/abdus/apps/immich/data/ImmichRepository.kt:28-35 | size 10; `isFavorite` is `true` when favourites only and absent otherwise, never `false`; filters and dates passed through |
| Repository.RandomRequestDefaults | immich/src/main/java/dev/abdus/apps/immich/data/ImmichRepository.kt:24-26 | by default no dates and no favourite filter; favourites only sets exactly `isFavorite = true` |
| Repository.FetchRandomAssets | immich/src/main/java/dev/abdus/apps/immich/data/ImmichRepository.kt:20-41 | the service is called with exactly that request and its answer returned |
| ArtProvider.TagFilter | immich/src/main/java/dev/abdus/apps/immich/provider/ImmichArtProvider.kt:78 | no tags gives no filter; otherwise the tag list itself |
| ArtProvider.AlbumFilter | immich/src/main/java/dev/abdus/apps/immich/provider/ImmichArtProvider.kt:57-76 | no albums means all albums; one album is used directly; with more, the album at the cursor, and no query at all when the cursor is out of range |
| ArtProvider.StoreAfterLoad | immich/src/main/java/dev/abdus/apps/immich/provider/ImmichArtProvider.kt:41-76 | the migrated store, with the cursor advanced exactly when two or more albums are selected |
| ArtProvider.LoadRequestOf | immich/src/main/java/dev/abdus/apps/immich/provider/ImmichArtProvider.kt:41-80 | unconfigured or no service: no query and only the migration; otherwise the album and tag filters and the favourite flag of the configuration |
| ArtProvider.LoadKeepsWellTyped | immich/src/main/java/dev/abdus/apps/immich/provider/ImmichArtProvider.kt:41-76 | a refresh keeps the store well typed |
| ArtProvider.Byline | immich/src/main/java/dev/abdus/apps/immich/provider/ImmichArtProvider.kt:91-97 | the first ten characters of the creation time when it has that many, else none; the regex branch gives the same answer |
| ArtProvider.BuildAssetUrl | immich/src/main/java/dev/abdus/apps/immich/provider/ImmichArtProvider.kt:189-190 | the server with one trailing `/` dropped, then the original-image path with the key |
| ArtProvider.ArtworkFor | immich/src/main/java/dev/abdus/apps/immich/provider/ImmichArtProvider.kt:82-107 | an artwork exactly when an asset came back, with its id, file name, byline and image URL |
| ArtProvider.OnLoadRequested | immich/src/main/java/dev/abdus/apps/immich/provider/ImmichArtProvider.kt:34-115 | the query and store are those of `LoadRequestOf`; without a query no artwork; with one, the artwork of what the fetch returns |
| ArtProvider.ConfigIgnoresCursor | immich/src/main/java/dev/abdus/apps/immich/provider/ImmichArtProvider.kt:71 | writing the cursor does not change the configuration read |
| ArtProvider.LoadStep | immich/src/main/java/dev/abdus/apps/immich/provider/ImmichArtProvider.kt:69-75 | with two or more albums and the cursor in range, a refresh asks for the album at the cursor, keeps the configuration and advances the cursor one step |
| ArtProvider.CommandActions | immich/src/main/java/dev/abdus/apps/immich/provider/ImmichArtProvider.kt:123-139 | two actions (open the photo page, favourite) exactly when both server and token exist, otherwise none |
| ArtProvider.FavoriteReceiverOutcome | immich/src/main/java/dev/abdus/apps/immich/provider/ImmichArtProvider.kt:192-226 | no asset id: nothing; otherwise an update marking the asset favourite exactly when configured and a service exists, and a success toast only if it succeeded |
| ViewModels.Toggle | immich/src/main/java/dev/abdus/apps/immich/ui/SettingsViewModel.kt:81-84 | the toggled id changes membership; every other id keeps its membership |
| ViewModels.ToggleTwice | immich/src/main/java/dev/abdus/apps/immich/ui/SettingsViewModel.kt:81-84 | toggling the same id twice restores the selection |
| ViewModels.ToggleSize | immich/src/main/java/dev/abdus/apps/immich/ui/SettingsViewModel.kt:81-84 | a toggle grows or shrinks the selection by exactly one |
| ViewModels.SortAlbums | immich/src/main/java/dev/abdus/apps/immich/ui/ImmichSettingsViewModel.kt:145-154 | a permutation; ascending by the key, descending when reversed; without a key the list as it came, reversed on request |
| ViewModels.SortAlbumsStable | immich/src/main/java/dev/abdus/apps/immich/ui/ImmichSettingsViewModel.kt:145-154 | albums with equal keys keep their order; reversed output is exactly the ascending sort reversed |
| ViewModels.TestCredentialsUrl | immich/src/main/java/dev/abdus/apps/immich/ui/SettingsViewModel.kt:129-137 | the test URL always ends in `/api/` |
| ViewModels.TestCredentialsUrlIsApiBase | immich/src/main/java/dev/abdus/apps/immich/ui/ImmichSettingsViewModel.kt:215-221 | the test URL equals the base URL the stored configuration will use for the same server URL |
| Settings.SettingsViewModel.constructor | immich/src/main/java/dev/abdus/apps/immich/ui/SettingsViewModel.kt:23-36 | starts from the default state with the cached lists loaded and nothing pending |
| Settings.SettingsViewModel.LoadCachedData | immich/src/main/java/dev/abdus/apps/immich/ui/SettingsViewModel.kt:57-72 | the cached album and tag lists replace the shown ones; nothing else changes |
| Settings.SettingsViewModel.OnConfigChanged | immich/src/main/java/dev/abdus/apps/immich/ui/SettingsViewModel.kt:39-53 | the state becomes `WithConfig` of the emission |
| Settings.SettingsViewModel.UpdateCredentials | immich/src/main/java/dev/abdus/apps/immich/ui/SettingsViewModel.kt:74-78 | stores trimmed URL and key and marks a pending change |
| Settings.SettingsViewModel.ToggleAlbum | immich/src/main/java/dev/abdus/apps/immich/ui/SettingsViewModel.kt:80-88 | stores the toggled selection with the cursor reset and marks a pending change |
| Settings.SettingsViewModel.ToggleTag | immich/src/main/java/dev/abdus/apps/immich/ui/SettingsViewModel.kt:90-98 | stores the toggled tag set and marks a pending change |
| Settings.SettingsViewModel.ToggleFavoritesOnly | immich/src/main/java/dev/abdus/apps/immich/ui/SettingsViewModel.kt:100-105 | stores the negated flag and marks a pending change |
| Settings.SettingsViewModel.UpdateFilterDaysBack | immich/src/main/java/dev/abdus/apps/immich/ui/SettingsViewModel.kt:160-164 | marks a pending change |
| Settings.SettingsViewModel.ClearPhotos | immich/src/main/java/dev/abdus/apps/immich/ui/SettingsViewModel.kt:107-123 | requests one photo clear and changes nothing else |
| Settings.SettingsViewModel.ApplyPendingChangesIfAny | immich/src/main/java/dev/abdus/apps/immich/ui/SettingsViewModel.kt:170-178 | one clear and the flag reset exactly when clearing is wanted and a change is pending; otherwise nothing |
| Settings.SettingsViewModel.MarkPendingChanges | immich/src/main/java/dev/abdus/apps/immich/ui/SettingsViewModel.kt:180-182 | sets the pending flag only |
| Settings.LeaveTwice | immich/src/main/java/dev/abdus/apps/immich/ui/SettingsViewModel.kt:170-178 | leaving twice clears at most once, exactly once when something was pending, and leaves nothing pending |
| ImmichSettings.SortedSpec | immich/src/main/java/dev/abdus/apps/immich/ui/ImmichSettingsViewModel.kt:145-154 | a permutation; titles ascend (or descend) by name, counts by count; updated-at keeps the server order, reversed on request |
| ImmichSettings.ImmichSettingsViewModel.constructor | immich/src/main/java/dev/abdus/apps/immich/ui/ImmichSettingsViewModel.kt:38-71 | the default state with the cached lists loaded and the albums sorted by the default order |
| ImmichSettings.ImmichSettingsViewModel.ApplySorting | immich/src/main/java/dev/abdus/apps/immich/ui/ImmichSettingsViewModel.kt:145-154 | only the album list changes, to its sorted form |
| ImmichSettings.ImmichSettingsViewModel.OnConfigChanged | immich/src/main/java/dev/abdus/apps/immich/ui/ImmichSettingsViewModel.kt:43-58 | the state becomes `WithConfig` of the emission |
| ImmichSettings.ImmichSettingsViewModel.UpdateCredentials | immich/src/main/java/dev/abdus/apps/immich/ui/ImmichSettingsViewModel.kt:82-85 | stores trimmed URL and key |
| ImmichSettings.ImmichSettingsViewModel.SelectAlbum | immich/src/main/java/dev/abdus/apps/immich/ui/ImmichSettingsViewModel.kt:87-91 | stores the one-element or empty selection with the cursor reset |
| ImmichSettings.ImmichSettingsViewModel.ToggleAlbum | immich/src/main/java/dev/abdus/apps/immich/ui/ImmichSettingsViewModel.kt:93-100 | stores the toggled selection with the cursor reset |
| ImmichSettings.ImmichSettingsViewModel.ToggleTag | immich/src/main/java/dev/abdus/apps/immich/ui/ImmichSettingsViewModel.kt:102-111 | stores the toggled tag set |
| ImmichSettings.ImmichSettingsViewModel.ToggleFavoritesOnly | immich/src/main/java/dev/abdus/apps/immich/ui/ImmichSettingsViewModel.kt:113-117 | stores the negated flag |
| ImmichSettings.ImmichSettingsViewModel.SetSortBy | immich/src/main/java/dev/abdus/apps/immich/ui/ImmichSettingsViewModel.kt:119-122 | the new order, and the list re-sorted by it |
| ImmichSettings.ImmichSettingsViewModel.ToggleSortReversed | immich/src/main/java/dev/abdus/apps/immich/ui/ImmichSettingsViewModel.kt:124-127 | the flag flipped, and the list re-sorted |
| ImmichSettings.ImmichSettingsViewModel.ClearPhotos | immich/src/main/java/dev/abdus/apps/immich/ui/ImmichSettingsViewModel.kt:129-143 | requests one photo clear |
| ImmichSettings.ImmichSettingsViewModel.BeginLoad | immich/src/main/java/dev/abdus/apps/immich/ui/ImmichSettingsViewModel.kt:160 | loading, with the error cleared |
| ImmichSettings.ImmichSettingsViewModel.CompleteLoad | immich/src/main/java/dev/abdus/apps/immich/ui/ImmichSettingsViewModel.kt:161-205 | on the first failure the cache and lists are unchanged and its message shown; on success both lists are cached and shown, the albums sorted |
| ImmichSettings.ImmichSettingsViewModel.RefreshFromApi | immich/src/main/java/dev/abdus/apps/immich/ui/ImmichSettingsViewModel.kt:76-80 | nothing without a usable configuration; otherwise the albums failure, the tags failure and the success each give `CompleteLoad`'s exact state and store |
| AlbumPicker.DefaultPickerState | immich/src/main/java/dev/abdus/apps/immich/ui/AlbumPickerViewModel.kt:21-28 | the empty configuration (no URL, no key, no albums or tags, not favourites-only), no albums, not loading, no error, largest albums first |
| AlbumPicker.WithPickerConfig | immich/src/main/java/dev/abdus/apps/immich/ui/AlbumPickerViewModel.kt:51-59 | the configuration shown; albums emptied exactly when the credentials changed to an unusable pair |
| AlbumPicker.SortedSpec | immich/src/main/java/dev/abdus/apps/immich/ui/AlbumPickerViewModel.kt:104-114 | a permutation, ordered by title, count, update time or newest photo (missing times as empty), descending when reversed |
| AlbumPicker.UpdatedAtKeepsMappedOrder | immich/src/main/java/dev/abdus/apps/immich/ui/AlbumPickerViewModel.kt:108 | albums with no update time (all freshly mapped ones) keep their order under that sort |
| AlbumPicker.AlbumPickerViewModel.constructor | immich/src/main/java/dev/abdus/apps/immich/ui/AlbumPickerViewModel.kt:44-69 | the default state with the cached albums sorted |
| AlbumPicker.AlbumPickerViewModel.ApplySorting | immich/src/main/java/dev/abdus/apps/immich/ui/AlbumPickerViewModel.kt:104-114 | only the album list changes, to its sorted form |
| AlbumPicker.AlbumPickerViewModel.OnConfigChanged | immich/src/main/java/dev/abdus/apps/immich/ui/AlbumPickerViewModel.kt:49-61 | the state becomes `WithPickerConfig` of the emission |
| AlbumPicker.AlbumPickerViewModel.ToggleAlbum | immich/src/main/java/dev/abdus/apps/immich/ui/AlbumPickerViewModel.kt:77-85 | stores the toggled selection, the configuration shows it with the cursor at 0, and one photo clear is requested |
| AlbumPicker.AlbumPickerViewModel.SetSortBy | immich/src/main/java/dev/abdus/apps/immich/ui/AlbumPickerViewModel.kt:87-90 | the new order, and the list re-sorted by it |
| AlbumPicker.AlbumPickerViewModel.ToggleSortReversed | immich/src/main/java/dev/abdus/apps/immich/ui/AlbumPickerViewModel.kt:92-95 | the flag flipped, and the list re-sorted |
| AlbumPicker.AlbumPickerViewModel.BeginLoad | immich/src/main/java/dev/abdus/apps/immich/ui/AlbumPickerViewModel.kt:120 | loading, with the error cleared |
| AlbumPicker.AlbumPickerViewModel.CompleteLoad | immich/src/main/java/dev/abdus/apps/immich/ui/AlbumPickerViewModel.kt:121-151 | on failure the cache and list are unchanged and the message shown; on success the albums are cached and shown sorted |
| AlbumPicker.AlbumPickerViewModel.RefreshFromApi | immich/src/main/java/dev/abdus/apps/immich/ui/AlbumPickerViewModel.kt:71-75 | nothing without a usable configuration; otherwise a failure keeps the list and cache and shows its message, and a success caches the mapped albums and shows them sorted |
| TagPicker.DefaultTagState | immich/src/main/java/dev/abdus/apps/immich/ui/TagPickerViewModel.kt:19-24 | the empty configuration (no URL, no key, no albums or tags, not favourites-only), no tags shown, not loading, no error |
| TagPicker.WithTagConfig | immich/src/main/java/dev/abdus/apps/immich/ui/TagPickerViewModel.kt:47-55 | the configuration shown; tags emptied exactly when the credentials changed to an unusable pair |
| TagPicker.TagPickerViewModel.constructor | immich/src/main/java/dev/abdus/apps/immich/ui/TagPickerViewModel.kt:40-64 | the default state with the cached tags |
| TagPicker.TagPickerViewModel.OnConfigChanged | immich/src/main/java/dev/abdus/apps/immich/ui/TagPickerViewModel.kt:45-57 | the state becomes `WithTagConfig` of the emission |
| TagPicker.TagPickerViewModel.ToggleTag | immich/src/main/java/dev/abdus/apps/immich/ui/TagPickerViewModel.kt:72-80 | stores the toggled tag set and requests one photo clear |
| TagPicker.TagPickerViewModel.UpdateCreatedBound | immich/src/main/java/dev/abdus/apps/immich/ui/TagPickerViewModel.kt:82-92 | requests one photo clear |
| TagPicker.TagPickerViewModel.BeginLoad | immich/src/main/java/dev/abdus/apps/immich/ui/TagPickerViewModel.kt:105 | loading, with the error cleared |
| TagPicker.TagPickerViewModel.CompleteLoad | immich/src/main/java/dev/abdus/apps/immich/ui/TagPickerViewModel.kt:106-136 | on failure the cache and list are unchanged and the message shown; on success the tags are cached and shown |
| TagPicker.TagPickerViewModel.RefreshFromApi | immich/src/main/java/dev/abdus/apps/immich/ui/TagPickerViewModel.kt:66-70 | nothing without a usable configuration; otherwise a failure keeps the list and cache and shows its message, and a success caches and shows the mapped tags |
| Screens.FilterByText | immich/src/main/java/dev/abdus/apps/immich/ui/screens/AlbumPickerScreen.kt:62-70 | blank text shows everything; otherwise exactly the items whose field contains the text ignoring case, in their order, each kept item as many times as in the input |
| Screens.AlbumRows | immich/src/main/java/dev/abdus/apps/immich/ui/screens/AlbumPickerScreen.kt:143-155 | one row per filtered album, in order, selected exactly when its id is selected |
| Screens.SelectionLabel | immich/src/main/java/dev/abdus/apps/immich/ui/screens/AlbumPickerScreen.kt:131-137 | the none, one and many wordings by selection size |
| Screens.SelectionLabelCount | immich/src/main/java/dev/abdus/apps/immich/ui/screens/AlbumPickerScreen.kt:136 | the many-wording starts with the selection size in decimal |
| Screens.Rows | immich/src/main/java/dev/abdus/apps/immich/ui/screens/TagPickerScreen.kt:138-148 | one row per tag, in order, with the given selected mark |
| Screens.TagSplit | immich/src/main/java/dev/abdus/apps/immich/ui/screens/TagPickerScreen.kt:63-69 | the filtered tags split without loss into selected and unselected, each sorted by name |
| Screens.TagSections | immich/src/main/java/dev/abdus/apps/immich/ui/screens/TagPickerScreen.kt:120-180 | the Picked section lists the selected tags marked selected, Available the others unmarked, each headed with its count |
| Screens.TagSectionsSplit | immich/src/main/java/dev/abdus/apps/immich/ui/screens/TagPickerScreen.kt:63-69 | no tag is in both sections; every shown tag is in the section its selection says |
| Filters.IndexOf | immich/src/main/java/dev/abdus/apps/immich/ui/components/FiltersComponent.kt:40 | `indexOf`: the first position holding the value, or -1 exactly when absent |
| Filters.InitialIndex | immich/src/main/java/dev/abdus/apps/immich/ui/components/FiltersComponent.kt:37-48 | the preset index of a stored value, or 1 (last week) when none or unknown |
| Filters.InitialIndexOfPreset | immich/src/main/java/dev/abdus/apps/immich/ui/components/FiltersComponent.kt:34-48 | every preset value maps back to its own index |
| Filters.DaysAt | immich/src/main/java/dev/abdus/apps/immich/ui/components/FiltersComponent.kt:81 | the days of a preset index, or 7 out of range; always a preset value |
| Filters.CoerceIn | immich/src/main/java/dev/abdus/apps/immich/ui/components/FiltersComponent.kt:98 | `coerceIn`: inside the bounds, and the value itself when already inside |
| Filters.DateFilter.constructor | immich/src/main/java/dev/abdus/apps/immich/ui/components/FiltersComponent.kt:50-52 | slider and pending index start at the initial index; enabled exactly when a value is stored |
| Filters.DateFilter.OnSwitchChanged | immich/src/main/java/dev/abdus/apps/immich/ui/components/FiltersComponent.kt:72-84 | off: clears the filter and resets to index 1; on: emits the pending preset's days |
| Filters.DateFilter.OnSliderMoved | immich/src/main/java/dev/abdus/apps/immich/ui/components/FiltersComponent.kt:91-95 | only the slider position moves |
| Filters.DateFilter.OnSliderFinished | immich/src/main/java/dev/abdus/apps/immich/ui/components/FiltersComponent.kt:96-101 | when enabled, the position clamped to the presets becomes pending and its days are emitted; otherwise nothing |
| FavoriteShortcut.FirstFailure | immich/src/main/java/dev/abdus/apps/immich/shortcuts/FavoriteShortcutReceiver.kt:83-128 | no failure exactly when every check passes; otherwise the message of the first failing check |
| FavoriteShortcut.FavoriteCurrentArtwork | immich/src/main/java/dev/abdus/apps/immich/shortcuts/FavoriteShortcutReceiver.kt:57-155 | a toast always; the specific message for no artwork, no id, another provider; an update exactly when all checks pass, then the success or `API error:` toast |
| FavoriteShortcut.FirstFailingCheckIsShown | immich/src/main/java/dev/abdus/apps/immich/shortcuts/FavoriteShortcutReceiver.kt:83-128 | no update exactly when a check fails, and then the first failing check's message is shown |
| FavoriteShortcut.OnReceive | immich/src/main/java/dev/abdus/apps/immich/shortcuts/FavoriteShortcutReceiver.kt:29-43 | any other action does nothing; the favourite action runs the favourite flow |

## Left out

- I/O and platform calls are not modelled. This covers Android `Context`, `SharedPreferences` persistence, change listeners, Retrofit/OkHttp, JSON encoding, logging, toasts as UI, `PendingIntent`s and Compose rendering. Only the values they carry and decide are kept.
- Coroutines, `loadJob` cancellation and `collectLatest` are not modelled. A load is two atomic steps, and a configuration emission is one call.
- `fetchRandomAsset` is not part of this model, because the repository file defines only `fetchRandomAssets`. A refresh's fetch is a parameter returning no asset, an asset, or a failure.
- Several fields and preference operations are missing from the data classes and `ImmichPreferences`: `fileCreatedAt`, `updatedAt`, `lastModifiedAssetTimestamp`, the request's date bounds, `updateFilterDaysBack` and `updateCreatedAfter/Before`. The fields are modelled as optional record fields. The store writes of those operations are left out, and only their pending-change or photo-clear effect is kept.
- ImmichSettings.SortKey: the Kotlin `when` in `ImmichSettingsViewModel.applySorting` has no `MOST_RECENT_PHOTO` branch. The model keeps the server order for that order, as it does for `UPDATED_AT`.
- Settings.SettingsViewModel.UpdateFilterDaysBack: the preference write it calls is not part of this model. Only the pending-change mark is stated.
- TagPicker.TagPickerViewModel.UpdateCreatedBound: the preference writes are not part of this model. Only the photo clear is stated.
- `testCredentials` is modelled only for the URL it builds. The server-info call, the pretty JSON and the error text are I/O.
- `isImmichActiveSource`, `getDescription` and `MuzeiProvider` are not modelled. They are queries of Muzei.
- The 32-bit bound on set sizes is stated as a precondition. The toggles require a selection below `Int.MAX_VALUE` and the store keeps sets no larger, since `List.size` is an `Int`.
- `prefs.current()` is modelled as `ReadConfig` only in the provider's `onLoadRequested`, where its migration write matters. `getCommandActions`, the favourite receivers and the shortcut take the configuration read as an input.
- A failure to create the service is folded into the first request's `Result`. On the provider side it is a `serviceCreated` flag.
- The shortcut's outer `catch` is left out. It turns an exception from the content-resolver queries into the generic error toast. The Muzei queries for the current artwork and the last token are inputs.
- FavoriteShortcut.FavoriteCurrentArtwork: `getAssetIdFromProvider` ignores the artwork id and returns the provider's last token. The model takes that token as an input.
- The slider position is a `Float` in Compose. The model keeps the integer position, and `toInt()` on a non-negative value is the identity there.
- Strings are sequences of Dafny `char`s, which are Unicode scalar values. Kotlin strings are sequences of UTF-16 code units, so the model counts a character above U+FFFF once where Kotlin counts it twice. This affects the ten-character cut in `ArtProvider.Byline` (`substring(0, 10)` and the length test). It also affects the order `Lists.LexLe` gives, when a character above U+FFFF is compared with one from U+E000 to U+FFFF. Lone surrogates cannot be represented at all.
- Case folding is a parameter, not Unicode's tables.
- Text.Trim: its own contract gives only the ends and the length. The fact that the result is the input minus its leading and trailing whitespace is the separate lemma `Text.TrimIsInfix`. Putting it in the function's contract would make every proof that uses `Trim` too expensive.
- ArtProvider.LoadStep: the round robin is proved for one refresh, plus the cursor arithmetic over any number of `getNextAlbumIndex` calls (`Preferences.RotationAt`, `Preferences.RoundRobinFromZero`). It is not stated as one lemma over a run of whole refreshes.
- The date-filter card appears in the settings screen as well as in `FiltersComponent.kt`. It is modelled once.
