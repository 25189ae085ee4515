/** The records the core passes around: the server's JSON resources
    (api/ImmichService.kt) and the cached UI summaries (data/ImmichAlbumUiModel.kt
    and ImmichTagUiModel, whose file is not part of this model). */
module Models {
  import opened Common

  /** `ImmichAlbum` as returned by `GET /albums`. */
  datatype ApiAlbum = ApiAlbum(id: string, albumName: string, albumThumbnailAssetId: Option<string>, assetCount: int32)

  /** `ImmichService.UpdateAssetsRequest`, the body of `PUT /assets`. */
  datatype UpdateAssetsRequest = UpdateAssetsRequest(ids: seq<string>, isFavorite: Option<bool>)

  /** `ImmichTag` as returned by `GET /tags`. */
  datatype ApiTag = ApiTag(id: string, name: string, value: string)

  /** The asset the wallpaper refresh receives. `fileCreatedAt` is read by the
      provider but is not a field of the `ImmichAsset` record shown, so here it is
      simply part of what the fetch returns. */
  datatype Asset = Asset(id: string, originalFileName: Option<string>, fileCreatedAt: Option<string>)

  /** `ImmichAlbumUiModel`. The album picker sorts on `updatedAt` and
      `lastModifiedAssetTimestamp`, which the record shown does not declare; they
      are kept here as nullable fields that the mapper leaves `null`. */
  datatype AlbumUi = AlbumUi(
    id: string,
    title: string,
    coverUrl: Option<string>,
    assetCount: int32,
    updatedAt: Option<string>,
    lastModifiedAssetTimestamp: Option<string>)

  /** `ImmichTagUiModel(id, name)`. */
  datatype TagUi = TagUi(id: string, name: string)
}
