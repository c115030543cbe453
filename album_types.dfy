/**
 * The album screen's records: the photo item, the screen state with its
 * defaults, the intents the screen accepts and the one-shot effects it emits.
 */
module AlbumTypes {
  import opened Text

  /** The six orders the album can be sorted in (`SortOrder.DATE_ASC` … `SIZE_DESC`). */
  datatype SortOrder = DateAsc | DateDesc | NameAsc | NameDesc | SizeAsc | SizeDesc

  /** How the album lays its photos out (`ViewMode.GRID`, `ViewMode.LIST`). */
  datatype ViewMode = Grid | List

  /** The album's own edit tag of a photo (`EditMode.ORIGINAL`, `EditMode.EDITED`). */
  datatype EditMode = Original | Edited

  /** An inclusive range of creation timestamps, in milliseconds. */
  datatype DateRange = DateRange(startDate: int, endDate: int)

  datatype PhotoItem = PhotoItem(
    id: string,
    name: string,
    uri: string,
    thumbnailUri: string,
    createdAt: int,
    editMode: EditMode,
    size: string,
    improvements: seq<string>)

  /** `AlbumState`; every field has the default the screen starts from. */
  datatype AlbumState = AlbumState(
    isLoading: bool := false,
    photos: seq<PhotoItem> := [],
    filteredPhotos: seq<PhotoItem> := [],
    searchQuery: string := "",
    selectedDateRange: Option<DateRange> := None,
    selectedEditMode: Option<EditMode> := None,
    viewMode: ViewMode := Grid,
    selectedPhotoId: Option<string> := None,
    isRefreshing: bool := false,
    error: Option<string> := None,
    showFilters: bool := false,
    totalPhotos: int := 0,
    sortOrder: SortOrder := DateDesc)

  datatype AlbumIntent =
    | LoadPhotos
    | SearchPhotos(query: string)
    | FilterByDate(dateRange: DateRange)
    | FilterByEditMode(editMode: Option<EditMode>)
    | ClearFilters
    | SelectPhoto(photoId: string)
    | DeletePhoto(photoId: string)
    | SharePhoto(photoId: string)
    | ToggleViewMode
    | RefreshPhotos
    | OnPhotosLoaded(loaded: seq<PhotoItem>)
    | OnError(error: string)

  datatype AlbumEffect =
    | ShowMessage(message: string)
    | ShowError(error: string)
    | ShowPhotoDetails(photoId: string)
    | SharePhotoWith(uri: string, name: string)
}
