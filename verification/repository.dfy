/** data/ImmichRepository.kt: the body of `POST /search/random`. */
module Repository {
  import opened Common
  import opened Models

  /** `ImmichService.RandomRequest` as `fetchRandomAssets` fills it in. The record
      declared in api/ImmichService.kt lacks `createdAfter` and `createdBefore`;
      they are kept here because the repository passes them. */
  datatype RandomRequest = RandomRequest(
    albumIds: Option<seq<string>>,
    tagIds: Option<seq<string>>,
    size: int32,
    isFavorite: Option<bool>,
    createdAfter: Option<string>,
    createdBefore: Option<string>)

  /** The request `fetchRandomAssets` builds: ten assets, the filters passed
      through untouched (`null` meaning no filter), and the favourite flag sent
      only as `true` — never as `false`. */
  function RandomRequestFor(albumIds: Option<seq<string>>, tagIds: Option<seq<string>>,
                            favoritesOnly: bool := false,
                            createdAfter: Option<string> := None,
                            createdBefore: Option<string> := None): (r: RandomRequest)
    ensures r.size == 10
    ensures r.isFavorite != Some(false)
    ensures r.isFavorite.Some? <==> favoritesOnly
    ensures r.albumIds == albumIds && r.tagIds == tagIds
    ensures r.createdAfter == createdAfter && r.createdBefore == createdBefore
  {
    RandomRequest(albumIds, tagIds, 10, if favoritesOnly then Some(true) else None, createdAfter, createdBefore)
  }

  /** Left at their defaults, the date bounds are absent and favourites are not
      requested; switching favourites on changes the favourite flag and nothing else. */
  lemma RandomRequestDefaults(albumIds: Option<seq<string>>, tagIds: Option<seq<string>>)
    ensures RandomRequestFor(albumIds, tagIds).createdAfter.None?
    ensures RandomRequestFor(albumIds, tagIds).createdBefore.None?
    ensures RandomRequestFor(albumIds, tagIds).isFavorite.None?
    ensures RandomRequestFor(albumIds, tagIds, true) == RandomRequestFor(albumIds, tagIds).(isFavorite := Some(true))
  {
  }

  /** `fetchRandomAssets`: the service's answer to that request, unchanged (the
      call itself, `service`, is opaque and may fail). */
  function FetchRandomAssets(service: RandomRequest -> Result<seq<Asset>>,
                             albumIds: Option<seq<string>>, tagIds: Option<seq<string>>,
                             favoritesOnly: bool := false,
                             createdAfter: Option<string> := None,
                             createdBefore: Option<string> := None): (r: Result<seq<Asset>>)
    ensures r == service(RandomRequest(albumIds, tagIds, 10, if favoritesOnly then Some(true) else None, createdAfter, createdBefore))
  {
    service(RandomRequestFor(albumIds, tagIds, favoritesOnly, createdAfter, createdBefore))
  }
}
