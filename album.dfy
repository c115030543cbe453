/**
 * The album screen's controller: one `AlbumState` register replaced by copy
 * in response to intents, and a channel of one-shot effects, modelled as the
 * ordered sequence of everything sent into it.
 *
 * A handler that launches a coroutine with a `delay` is split in two: the
 * `…Begin` method is the synchronous part before the launch, the
 * `…Complete` method is the body after the delay. Delete has no synchronous
 * part, so its intent changes nothing until DeletePhotoComplete runs.
 */
module Album {
  import opened Text
  import opened AlbumTypes
  import opened AlbumFilter

  const DeletedMessage: string := "Photo deleted successfully"

  /** `it.id != photoId`, the predicate delete filters by. */
  function IdIsNot(photoId: string): PhotoItem -> bool {
    (p: PhotoItem) => p.id != photoId
  }

  /** Kotlin `photos.find { it.id == photoId }`: the first photo with that id, if any. */
  function FindById(photos: seq<PhotoItem>, photoId: string): (r: Option<PhotoItem>)
    ensures r.None? <==> forall i :: 0 <= i < |photos| ==> photos[i].id != photoId
    ensures r.Some? ==> exists i :: 0 <= i < |photos| && photos[i] == r.value && r.value.id == photoId
                                    && forall j :: 0 <= j < i ==> photos[j].id != photoId
  {
    if photos == [] then
      None
    else if photos[0].id == photoId then
      Some(photos[0])
    else
      var r := FindById(photos[1..], photoId);
      assert r.Some? ==> exists i :: 0 < i < |photos| && photos[i] == r.value && r.value.id == photoId
                                     && forall j :: 0 <= j < i ==> photos[j].id != photoId
      by {
        if r.Some? {
          var i :| 0 <= i < |photos[1..]| && photos[1..][i] == r.value && r.value.id == photoId
                   && forall j :: 0 <= j < i ==> photos[1..][j].id != photoId;
          assert photos[i + 1] == r.value;
          assert forall j :: 1 <= j < i + 1 ==> photos[j].id == photos[1..][j - 1].id;
        }
      }
      r
  }

  /** The effect `sharePhoto` sends: the uri and name of the first photo with the id, or nothing. */
  function ShareEffects(photos: seq<PhotoItem>, photoId: string): (r: seq<AlbumEffect>)
    ensures |r| <= 1
    ensures r == [] <==> forall i :: 0 <= i < |photos| ==> photos[i].id != photoId
    ensures r != [] ==> exists i :: 0 <= i < |photos| && photos[i].id == photoId
                                    && r[0] == SharePhotoWith(photos[i].uri, photos[i].name)
  {
    match FindById(photos, photoId)
    case Some(p) => [SharePhotoWith(p.uri, p.name)]
    case None => []
  }

  /** The layout `toggleViewMode` switches to. */
  function OtherViewMode(v: ViewMode): (r: ViewMode)
    ensures r != v
  {
    match v
    case Grid => List
    case List => Grid
  }

  lemma OtherViewModeInvolution(v: ViewMode)
    ensures OtherViewMode(OtherViewMode(v)) == v
  {
  }

  /** Deleting keeps every photo with another id, as often as it occurs, and no photo with the id. */
  lemma DeleteSpec(photos: seq<PhotoItem>, photoId: string)
    ensures forall x :: multiset(Filter(photos, IdIsNot(photoId)))[x]
                        == if x.id == photoId then 0 else multiset(photos)[x]
    ensures forall i :: 0 <= i < |Filter(photos, IdIsNot(photoId))| ==> Filter(photos, IdIsNot(photoId))[i].id != photoId
    ensures (forall i :: 0 <= i < |photos| ==> photos[i].id != photoId) ==> Filter(photos, IdIsNot(photoId)) == photos
  {
    FilterCount(photos, IdIsNot(photoId));
    if forall i :: 0 <= i < |photos| ==> photos[i].id != photoId {
      FilterAll(photos, IdIsNot(photoId));
    }
  }

  /** Deleting the same id twice removes nothing more. */
  lemma DeleteIdempotent(photos: seq<PhotoItem>, photoId: string)
    ensures Filter(Filter(photos, IdIsNot(photoId)), IdIsNot(photoId)) == Filter(photos, IdIsNot(photoId))
  {
    FilterTwice(photos, IdIsNot(photoId), IdIsNot(photoId), IdIsNot(photoId));
  }

  /** With every criterion cleared, every photo is selected, in stored order. */
  lemma ClearedSelectsAll(st: AlbumState)
    requires st.searchQuery == "" && st.selectedDateRange == None && st.selectedEditMode == None
    ensures Filter(st.photos, SelectedBy(st)) == st.photos
  {
    FilterAll(st.photos, SelectedBy(st));
  }

  /**
   * The filtering half of `applyFilters`: narrow `photos` stage by stage,
   * by query, date range and edit mode, each only when it is set.
   */
  method FilterStages(current: AlbumState) returns (filtered: seq<PhotoItem>)
    ensures filtered == Filter(current.photos, SelectedBy(current))
  {
    filtered := current.photos;
    ghost var passed: PhotoItem -> bool := (p: PhotoItem) => true;
    FilterAll(filtered, passed);

    if !IsBlank(current.searchQuery) {
      ghost var next := (p: PhotoItem) => passed(p) && NameContains(current.searchQuery)(p);
      FilterTwice(current.photos, passed, NameContains(current.searchQuery), next);
      filtered := Filter(filtered, NameContains(current.searchQuery));
      passed := next;
    }
    assert forall x :: passed(x) == (IsBlank(current.searchQuery) || ContainsIgnoreCase(x.name, current.searchQuery));

    ghost var afterQuery := passed;
    if current.selectedDateRange.Some? {
      var dateRange := current.selectedDateRange.value;
      ghost var next := (p: PhotoItem) => passed(p) && CreatedWithin(dateRange)(p);
      FilterTwice(current.photos, passed, CreatedWithin(dateRange), next);
      filtered := Filter(filtered, CreatedWithin(dateRange));
      passed := next;
    }
    assert forall x :: passed(x) == (afterQuery(x) && (current.selectedDateRange.Some? ==>
        current.selectedDateRange.value.startDate <= x.createdAt <= current.selectedDateRange.value.endDate));

    ghost var afterDate := passed;
    if current.selectedEditMode.Some? {
      var editMode := current.selectedEditMode.value;
      ghost var next := (p: PhotoItem) => passed(p) && HasEditMode(editMode)(p);
      FilterTwice(current.photos, passed, HasEditMode(editMode), next);
      filtered := Filter(filtered, HasEditMode(editMode));
      passed := next;
    }
    assert forall x :: passed(x) == (afterDate(x) && (current.selectedEditMode.Some? ==> x.editMode == current.selectedEditMode.value));
    assert forall x :: passed(x) == Selected(current, x);
    FilterExtensional(current.photos, passed, SelectedBy(current));
  }

  class AlbumViewModel {
    var state: AlbumState
    var effects: seq<AlbumEffect>

    /** `filteredPhotos` never holds a photo more often than `photos` does. */
    ghost predicate Valid()
      reads this
    {
      multiset(state.filteredPhotos) <= multiset(state.photos)
    }

    /** `init { handleIntent(AlbumIntent.LoadPhotos) }`: the default state, already loading. */
    constructor ()
      ensures Valid()
      ensures state == AlbumState(isLoading := true) && effects == []
    {
      state := AlbumState();
      effects := [];
      new;
      HandleIntent(AlbumIntent.LoadPhotos);
    }

    /** `handleIntent`: the synchronous part of the handler each intent selects. */
    method HandleIntent(intent: AlbumIntent)
      requires Valid()
      modifies this
      ensures Valid()
      ensures match intent
        case LoadPhotos => state == old(state).(isLoading := true, error := None) && effects == old(effects)
        case SearchPhotos(q) => state == Refiltered(old(state).(searchQuery := q)) && effects == old(effects)
        case FilterByDate(r) => state == Refiltered(old(state).(selectedDateRange := Some(r))) && effects == old(effects)
        case FilterByEditMode(m) => state == Refiltered(old(state).(selectedEditMode := m)) && effects == old(effects)
        case ClearFilters =>
          && state == old(state).(searchQuery := "", selectedDateRange := None, selectedEditMode := None,
                                  filteredPhotos := old(state).photos)
          && effects == old(effects)
        case SelectPhoto(id) =>
          state == old(state).(selectedPhotoId := Some(id)) && effects == old(effects) + [ShowPhotoDetails(id)]
        case DeletePhoto(_) => state == old(state) && effects == old(effects)
        case SharePhoto(id) => state == old(state) && effects == old(effects) + ShareEffects(old(state).photos, id)
        case ToggleViewMode => state == old(state).(viewMode := OtherViewMode(old(state).viewMode)) && effects == old(effects)
        case RefreshPhotos => state == old(state).(isRefreshing := true) && effects == old(effects)
        case OnPhotosLoaded(l) =>
          && state == old(state).(photos := l, filteredPhotos := l, totalPhotos := |l|, isLoading := false)
          && effects == old(effects)
        case OnError(e) =>
          state == old(state).(error := Some(e), isLoading := false, isRefreshing := false) && effects == old(effects)
    {
      match intent
      case LoadPhotos => LoadPhotosBegin();
      case SearchPhotos(q) => SearchPhotos(q);
      case FilterByDate(r) => FilterByDate(r);
      case FilterByEditMode(m) => FilterByEditMode(m);
      case ClearFilters => ClearFilters();
      case SelectPhoto(id) => SelectPhoto(id);
      case DeletePhoto(_) =>
      case SharePhoto(id) => SharePhoto(id);
      case ToggleViewMode => ToggleViewMode();
      case RefreshPhotos => RefreshPhotosBegin();
      case OnPhotosLoaded(l) => OnPhotosLoaded(l);
      case OnError(e) => HandleError(e);
    }

    /** `loadPhotos`, before the delay. */
    method LoadPhotosBegin()
      requires Valid()
      modifies this
      ensures Valid()
      ensures state == old(state).(isLoading := true, error := None) && effects == old(effects)
    {
      state := state.(isLoading := true, error := None);
    }

    /**
     * `loadPhotos`, after the delay, with `loaded` in place of the generated
     * list: both lists become `loaded` as it is, with no filtering or sorting.
     */
    method LoadPhotosComplete(loaded: seq<PhotoItem>)
      modifies this
      ensures Valid()
      ensures state == old(state).(isLoading := false, photos := loaded, filteredPhotos := loaded, totalPhotos := |loaded|)
      ensures effects == old(effects)
    {
      state := state.(isLoading := false, photos := loaded, filteredPhotos := loaded, totalPhotos := |loaded|);
    }

    method SearchPhotos(query: string)
      requires Valid()
      modifies this
      ensures Valid()
      ensures state == Refiltered(old(state).(searchQuery := query)) && effects == old(effects)
    {
      state := state.(searchQuery := query);
      ApplyFilters();
    }

    method FilterByDate(dateRange: DateRange)
      requires Valid()
      modifies this
      ensures Valid()
      ensures state == Refiltered(old(state).(selectedDateRange := Some(dateRange))) && effects == old(effects)
    {
      state := state.(selectedDateRange := Some(dateRange));
      ApplyFilters();
    }

    method FilterByEditMode(editMode: Option<EditMode>)
      requires Valid()
      modifies this
      ensures Valid()
      ensures state == Refiltered(old(state).(selectedEditMode := editMode)) && effects == old(effects)
    {
      state := state.(selectedEditMode := editMode);
      ApplyFilters();
    }

    /** Clears every criterion and shows `photos` exactly as stored: no filter, no sort. */
    method ClearFilters()
      requires Valid()
      modifies this
      ensures Valid()
      ensures state == old(state).(searchQuery := "", selectedDateRange := None, selectedEditMode := None,
                                   filteredPhotos := old(state).photos)
      ensures effects == old(effects)
    {
      state := state.(searchQuery := "", selectedDateRange := None, selectedEditMode := None,
                      filteredPhotos := state.photos);
    }

    /**
     * `applyFilters`: filter, sort by the current order, and store the result
     * in `filteredPhotos`; nothing else changes.
     */
    method ApplyFilters()
      modifies this
      ensures Valid()
      ensures state == Refiltered(old(state)) && effects == old(effects)
    {
      var current := state;
      var filtered := FilterStages(current);
      filtered := SortPhotos(current.sortOrder, filtered);
      state := state.(filteredPhotos := filtered);
      ArrangedWithinPhotos(current);
    }

    /** `selectPhoto`: remember the selection and ask for its details screen. */
    method SelectPhoto(photoId: string)
      requires Valid()
      modifies this
      ensures Valid()
      ensures state == old(state).(selectedPhotoId := Some(photoId))
      ensures effects == old(effects) + [ShowPhotoDetails(photoId)]
    {
      state := state.(selectedPhotoId := Some(photoId));
      effects := effects + [ShowPhotoDetails(photoId)];
    }

    /**
     * `deletePhoto`, after the delay: drop every photo with the id, clear the
     * selection, re-apply the filters and report success, whether or not the
     * id was present. `totalPhotos` is left as it was.
     */
    method DeletePhotoComplete(photoId: string)
      requires Valid()
      modifies this
      ensures Valid()
      ensures state == Refiltered(old(state).(photos := Filter(old(state).photos, IdIsNot(photoId)), selectedPhotoId := None))
      ensures effects == old(effects) + [ShowMessage(DeletedMessage)]
    {
      var updatedPhotos := Filter(state.photos, IdIsNot(photoId));
      state := state.(photos := updatedPhotos, selectedPhotoId := None);
      ApplyFilters();
      effects := effects + [ShowMessage(DeletedMessage)];
    }

    /** `sharePhoto`: share the first photo with the id; nothing when there is none. */
    method SharePhoto(photoId: string)
      requires Valid()
      modifies this
      ensures Valid()
      ensures state == old(state)
      ensures effects == old(effects) + ShareEffects(old(state).photos, photoId)
    {
      var photo := FindById(state.photos, photoId);
      if photo.Some? {
        effects := effects + [SharePhotoWith(photo.value.uri, photo.value.name)];
      }
    }

    method ToggleViewMode()
      requires Valid()
      modifies this
      ensures Valid()
      ensures state == old(state).(viewMode := OtherViewMode(old(state).viewMode)) && effects == old(effects)
    {
      var newViewMode := OtherViewMode(state.viewMode);
      state := state.(viewMode := newViewMode);
    }

    /** `refreshPhotos`, before the delay. */
    method RefreshPhotosBegin()
      requires Valid()
      modifies this
      ensures Valid()
      ensures state == old(state).(isRefreshing := true) && effects == old(effects)
    {
      state := state.(isRefreshing := true);
    }

    /** `refreshPhotos`, after the delay, with `loaded` in place of the generated list; unlike load, it re-applies the filters. */
    method RefreshPhotosComplete(loaded: seq<PhotoItem>)
      modifies this
      ensures Valid()
      ensures state == Refiltered(old(state).(isRefreshing := false, photos := loaded, totalPhotos := |loaded|))
      ensures effects == old(effects)
    {
      state := state.(isRefreshing := false, photos := loaded, totalPhotos := |loaded|);
      ApplyFilters();
    }

    method OnPhotosLoaded(loaded: seq<PhotoItem>)
      modifies this
      ensures Valid()
      ensures state == old(state).(photos := loaded, filteredPhotos := loaded, totalPhotos := |loaded|, isLoading := false)
      ensures effects == old(effects)
    {
      state := state.(photos := loaded, filteredPhotos := loaded, totalPhotos := |loaded|, isLoading := false);
    }

    method HandleError(error: string)
      requires Valid()
      modifies this
      ensures Valid()
      ensures state == old(state).(error := Some(error), isLoading := false, isRefreshing := false)
      ensures effects == old(effects)
    {
      state := state.(error := Some(error), isLoading := false, isRefreshing := false);
    }

    method ToggleFilters()
      requires Valid()
      modifies this
      ensures Valid()
      ensures state == old(state).(showFilters := !old(state).showFilters) && effects == old(effects)
    {
      state := state.(showFilters := !state.showFilters);
    }

    method SetSortOrder(sortOrder: SortOrder)
      requires Valid()
      modifies this
      ensures Valid()
      ensures state == Refiltered(old(state).(sortOrder := sortOrder)) && effects == old(effects)
    {
      state := state.(sortOrder := sortOrder);
      ApplyFilters();
    }
  }
}
