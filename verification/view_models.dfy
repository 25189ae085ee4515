/** What the four settings view-models (ui/SettingsViewModel.kt,
    ui/ImmichSettingsViewModel.kt, ui/AlbumPickerViewModel.kt and
    ui/TagPickerViewModel.kt) compute the same way: the selection toggle, the
    sort-then-maybe-reverse of the album list, and the URL `testCredentials`
    calls. */
module ViewModels {
  import opened Common
  import opened Text
  import opened Lists
  import opened Models
  import opened Preferences

  /** `toMutableSet().apply { if (!add(id)) remove(id) }`: `id` changes
      membership, every other id keeps it. */
  function Toggle(ids: set<string>, id: string): (r: set<string>)
    ensures id in r <==> id !in ids
    ensures forall x :: x != id ==> (x in r <==> x in ids)
  {
    if id in ids then ids - {id} else ids + {id}
  }

  /** Toggling the same id twice restores the selection. */
  lemma ToggleTwice(ids: set<string>, id: string)
    ensures Toggle(Toggle(ids, id), id) == ids
  {
    assert forall x :: x in Toggle(Toggle(ids, id), id) <==> x in ids;
  }

  /** A toggle grows or shrinks the selection by exactly one id. */
  lemma ToggleSize(ids: set<string>, id: string)
    ensures id !in ids ==> |Toggle(ids, id)| == |ids| + 1
    ensures id in ids ==> |Toggle(ids, id)| == |ids| - 1
  {
  }

  /** The `applySorting` pipeline: `sortedBy(key)` when the sort order has a
      key, the list as it is otherwise, then `reversed()` when asked. */
  function SortAlbums(albums: seq<AlbumUi>, key: Option<AlbumUi -> Key>, reversed: bool): (r: seq<AlbumUi>)
    ensures multiset(r) == multiset(albums)
    ensures key.Some? && !reversed ==> SortedBy(r, key.value)
    ensures key.Some? && reversed ==> SortedDescendingBy(r, key.value)
    ensures key.None? ==> r == (if reversed then Reversed(albums) else albums)
  {
    var sorted := if key.Some? then SortByKey(albums, key.value) else albums;
    if !reversed then sorted
    else if key.None? then Reversed(sorted)
    else ReversedSortedDescending(sorted, key.value); Reversed(sorted)
  }

  /** Albums that share a sort key keep their order from the input (the sort is
      stable), and under `reversed` come out in the opposite order. */
  lemma SortAlbumsStable(albums: seq<AlbumUi>, key: AlbumUi -> Key, reversed: bool, k: Key)
    ensures !reversed ==> WithKey(SortAlbums(albums, Some(key), reversed), key, k) == WithKey(albums, key, k)
    ensures reversed ==> Reversed(SortAlbums(albums, Some(key), reversed)) == SortByKey(albums, key)
  {
    SortByKeyStable(albums, key, k);
    ReversedTwice(SortByKey(albums, key));
  }

  /** The URL `testCredentials` builds: trimmed, one trailing `/` dropped, `/api`
      appended unless already there, and a final `/`. */
  function TestCredentialsUrl(serverUrl: string): (r: string)
    ensures EndsWith(r, "/api/")
  {
    var normalized := RemoveSuffix(Trim(serverUrl), "/");
    var base := if EndsWith(normalized, "/api") then normalized else normalized + "/api";
    WithApiSuffix(normalized);
    ApiSlashSuffix(base);
    if EndsWith(base, "/") then base else base + "/"
  }

  /** That URL is the `apiBaseUrl` of the configuration the same server URL
      would produce once stored. */
  lemma TestCredentialsUrlIsApiBase(serverUrl: string, config: Config)
    requires config.serverUrl == Some(NormalizeUrl(serverUrl))
    ensures config.ApiBaseUrl() == Some(TestCredentialsUrl(serverUrl))
  {
  }
}
