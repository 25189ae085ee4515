/** data/ImmichAlbumMapper.kt: turning a server album into its cached UI summary. */
module AlbumMapper {
  import opened Common
  import opened Text
  import opened Models

  /** The server root the thumbnail URL is built on: one `/api` suffix removed,
      then one `/` suffix removed, in that order. */
  function CoverBase(serverUrl: string): (r: string)
    ensures var b := if EndsWith(serverUrl, "/api") then serverUrl[..|serverUrl| - 4] else serverUrl;
      && (EndsWith(b, "/") ==> r + "/" == b)
      && (!EndsWith(b, "/") ==> r == b)
  {
    RemoveSuffix(RemoveSuffix(serverUrl, "/api"), "/")
  }

  /** Because the `/api` suffix is looked for first, a URL ending in `/api/`
      keeps its `/api`: only the final `/` goes. */
  lemma CoverBaseKeepsApiBeforeSlash(serverUrl: string)
    requires EndsWith(serverUrl, "/api/")
    ensures CoverBase(serverUrl) + "/" == serverUrl
    ensures EndsWith(CoverBase(serverUrl), "/api")
  {
    assert serverUrl[|serverUrl| - 1] == '/';
    assert !EndsWith(serverUrl, "/api");
    var r := CoverBase(serverUrl);
    assert r == serverUrl[..|serverUrl| - 1];
    assert r[|r| - 4..] == serverUrl[|serverUrl| - 5..|serverUrl| - 1];
  }

  /** The thumbnail URL of one asset. */
  function ThumbnailUrl(serverUrl: string, assetId: string, apiKey: string): string {
    CoverBase(serverUrl) + "/api/assets/" + assetId + "/thumbnail?size=thumbnail&apiKey=" + apiKey
  }

  /** `toUiModel`: id, name and count copied; a cover URL exactly when the album has
      a thumbnail asset. */
  function ToUiModel(album: ApiAlbum, serverUrl: string, apiKey: string): (r: AlbumUi)
    ensures r.id == album.id && r.title == album.albumName && r.assetCount == album.assetCount
    ensures r.coverUrl.None? <==> album.albumThumbnailAssetId.None?
    ensures r.coverUrl.Some? ==> r.coverUrl == Some(ThumbnailUrl(serverUrl, album.albumThumbnailAssetId.value, apiKey))
    ensures r.updatedAt.None? && r.lastModifiedAssetTimestamp.None?
  {
    var cover := match album.albumThumbnailAssetId {
      case Some(assetId) => Some(ThumbnailUrl(serverUrl, assetId, apiKey))
      case None => None
    };
    AlbumUi(album.id, album.albumName, cover, album.assetCount, None, None)
  }

  /** `albums.map { toUiModel(it, serverUrl, apiKey) }`: one summary per album, in order. */
  function MapAlbums(albums: seq<ApiAlbum>, serverUrl: string, apiKey: string): (r: seq<AlbumUi>)
    ensures |r| == |albums|
    ensures forall i :: 0 <= i < |albums| ==> r[i] == ToUiModel(albums[i], serverUrl, apiKey)
  {
    if albums == [] then [] else [ToUiModel(albums[0], serverUrl, apiKey)] + MapAlbums(albums[1..], serverUrl, apiKey)
  }

  /** `tags.map { ImmichTagUiModel(it.id, it.name) }`: one summary per tag, in order. */
  function MapTags(tags: seq<ApiTag>): (r: seq<TagUi>)
    ensures |r| == |tags|
    ensures forall i :: 0 <= i < |tags| ==> r[i] == TagUi(tags[i].id, tags[i].name)
  {
    if tags == [] then [] else [TagUi(tags[0].id, tags[0].name)] + MapTags(tags[1..])
  }
}
