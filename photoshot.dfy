/**
 * The camera screen's controller: initialise the camera, capture a photo
 * (only once the camera is ready), toggle flash and lens, and pick or drop a
 * face filter. The clock reading that names a captured photo is a parameter.
 */
module PhotoShot {
  import opened Text

  /** The filters the camera offers; no handler ever changes this list. */
  const DefaultFilters: seq<string> := ["dog", "cat", "bunny", "crown", "glasses"]

  /** `PhotoShotState`; every field has the default the screen starts from. */
  datatype PhotoShotState = PhotoShotState(
    isLoading: bool := false,
    isCameraReady: bool := false,
    currentFilter: Option<string> := None,
    isFlashOn: bool := false,
    isFrontCamera: bool := false,
    capturedPhotoUri: Option<string> := None,
    availableFilters: seq<string> := DefaultFilters,
    error: Option<string> := None,
    permissionGranted: bool := false)

  datatype PhotoShotIntent =
    | InitializeCamera
    | TakePhoto
    | SwitchCamera
    | ApplyFilter(filterType: string)
    | RemoveFilter
    | ToggleFlash
    | OnPhotoTaken(photoUri: string)
    | OnError(error: string)

  datatype PhotoShotEffect = NavigateToAnalyze(photoUri: string) | ShowError(message: string)

  /** `"content://photo_${System.currentTimeMillis()}.jpg"` for the clock reading `millis`. */
  function CapturedUri(millis: int): string {
    "content://photo_" + DecimalString(millis) + ".jpg"
  }

  /** Photos captured at different milliseconds get different uris. */
  lemma CapturedUriInjective(a: int, b: int)
    requires CapturedUri(a) == CapturedUri(b)
    ensures a == b
  {
    EmbeddedDecimalInjective("content://photo_", ".jpg", a, b);
  }

  class PhotoShotViewModel {
    var state: PhotoShotState
    var effects: seq<PhotoShotEffect>

    /** The filter list is the fixed one, and a ready camera has its permission. */
    ghost predicate Valid()
      reads this
    {
      && state.availableFilters == DefaultFilters
      && (state.isCameraReady ==> state.permissionGranted)
    }

    constructor ()
      ensures Valid()
      ensures state == PhotoShotState() && effects == []
    {
      state := PhotoShotState();
      effects := [];
    }

    /** `handleIntent`: the synchronous part of the handler each intent selects. */
    method HandleIntent(intent: PhotoShotIntent)
      requires Valid()
      modifies this
      ensures Valid()
      ensures effects == old(effects)
      ensures match intent
        case InitializeCamera => state == old(state).(isLoading := true, error := None)
        case TakePhoto => state == if old(state).isCameraReady then old(state).(isLoading := true) else old(state)
        case SwitchCamera => state == old(state).(isFrontCamera := !old(state).isFrontCamera)
        case ApplyFilter(f) => state == old(state).(currentFilter := Some(f))
        case RemoveFilter => state == old(state).(currentFilter := None)
        case ToggleFlash => state == old(state).(isFlashOn := !old(state).isFlashOn)
        case OnPhotoTaken(u) => state == old(state).(capturedPhotoUri := Some(u))
        case OnError(e) => state == old(state).(error := Some(e), isLoading := false)
    {
      match intent
      case InitializeCamera => InitializeCameraBegin();
      case TakePhoto => var _ := TakePhotoBegin();
      case SwitchCamera => SwitchCamera();
      case ApplyFilter(f) => ApplyFilter(f);
      case RemoveFilter => RemoveFilter();
      case ToggleFlash => ToggleFlash();
      case OnPhotoTaken(u) => OnPhotoTaken(u);
      case OnError(e) => HandleError(e);
    }

    /** `initializeCamera`, before the delay. */
    method InitializeCameraBegin()
      requires Valid()
      modifies this
      ensures Valid()
      ensures state == old(state).(isLoading := true, error := None) && effects == old(effects)
    {
      state := state.(isLoading := true, error := None);
    }

    /** `initializeCamera`, after the delay: the camera is ready and permitted. */
    method InitializeCameraComplete()
      requires Valid()
      modifies this
      ensures Valid()
      ensures state == old(state).(isLoading := false, isCameraReady := true, permissionGranted := true)
      ensures effects == old(effects)
    {
      state := state.(isLoading := false, isCameraReady := true, permissionGranted := true);
    }

    /**
     * `takePhoto`, before the launch: nothing at all happens while the camera
     * is not ready; otherwise only `isLoading` is raised.
     */
    method TakePhotoBegin() returns (launched: bool)
      requires Valid()
      modifies this
      ensures Valid()
      ensures launched <==> old(state).isCameraReady
      ensures state == if launched then old(state).(isLoading := true) else old(state)
      ensures effects == old(effects)
    {
      if !state.isCameraReady {
        return false;
      }
      state := state.(isLoading := true);
      launched := true;
    }

    /**
     * `takePhoto`, after the delay: the photo named after the clock reading
     * `millis` is recorded, and the screen is sent to analyse that same uri.
     */
    method TakePhotoComplete(millis: int)
      requires Valid()
      modifies this
      ensures Valid()
      ensures state == old(state).(isLoading := false, capturedPhotoUri := Some(CapturedUri(millis)))
      ensures effects == old(effects) + [NavigateToAnalyze(state.capturedPhotoUri.value)]
    {
      var photoUri := CapturedUri(millis);
      state := state.(isLoading := false, capturedPhotoUri := Some(photoUri));
      effects := effects + [NavigateToAnalyze(photoUri)];
    }

    method SwitchCamera()
      requires Valid()
      modifies this
      ensures Valid()
      ensures state == old(state).(isFrontCamera := !old(state).isFrontCamera) && effects == old(effects)
    {
      state := state.(isFrontCamera := !state.isFrontCamera);
    }

    /** `applyFilter`: any name is accepted, listed in `availableFilters` or not. */
    method ApplyFilter(filterType: string)
      requires Valid()
      modifies this
      ensures Valid()
      ensures state == old(state).(currentFilter := Some(filterType)) && effects == old(effects)
    {
      state := state.(currentFilter := Some(filterType));
    }

    method RemoveFilter()
      requires Valid()
      modifies this
      ensures Valid()
      ensures state == old(state).(currentFilter := None) && effects == old(effects)
    {
      state := state.(currentFilter := None);
    }

    method ToggleFlash()
      requires Valid()
      modifies this
      ensures Valid()
      ensures state == old(state).(isFlashOn := !old(state).isFlashOn) && effects == old(effects)
    {
      state := state.(isFlashOn := !state.isFlashOn);
    }

    method OnPhotoTaken(photoUri: string)
      requires Valid()
      modifies this
      ensures Valid()
      ensures state == old(state).(capturedPhotoUri := Some(photoUri)) && effects == old(effects)
    {
      state := state.(capturedPhotoUri := Some(photoUri));
    }

    method HandleError(error: string)
      requires Valid()
      modifies this
      ensures Valid()
      ensures state == old(state).(error := Some(error), isLoading := false) && effects == old(effects)
    {
      state := state.(error := Some(error), isLoading := false);
    }
  }
}
