/**
 * The analyze screen's controller: load a captured photo, run the mocked
 * analysis (ten progress steps, then a result keyed by the edit mode), and
 * save under the user's name or a generated one.
 *
 * `progress` counts tenths: the source's `i / 10f` is stored as `i`, so the
 * value runs from 0 to 10. The clock reading that names the processed image
 * and the random identifier used for a blank name are parameters.
 */
module Analyze {
  import opened Text

  /** The analyze screen's edit mode (`EditMode.CLEAN_MODE`, `EditMode.FIX_MODE`). */
  datatype EditMode = CleanMode | FixMode

  datatype AnalysisResult = AnalysisResult(
    processedImageUri: string,
    improvements: seq<string>,
    originalSize: string,
    processedSize: string,
    processingTime: int)

  /** `AnalyzeState`; every field has the default the screen starts from. */
  datatype AnalyzeState = AnalyzeState(
    isLoading: bool := false,
    originalPhotoUri: Option<string> := None,
    processedPhotoUri: Option<string> := None,
    photoName: string := "",
    selectedEditMode: EditMode := CleanMode,
    isAnalyzing: bool := false,
    isSaving: bool := false,
    analysisResult: Option<AnalysisResult> := None,
    showBeforeAfter: bool := false,
    progress: int := 0,
    error: Option<string> := None,
    isPhotoSaved: bool := false)

  datatype AnalyzeIntent =
    | LoadPhoto(photoUri: string)
    | SetPhotoName(name: string)
    | SelectEditMode(mode: EditMode)
    | AnalyzePhoto
    | SavePhoto
    | RetakePhoto
    | OnAnalysisComplete(result: AnalysisResult)
    | OnError(error: string)

  datatype AnalyzeEffect = NavigateToPhotoShot | NavigateToAlbum | ShowAnalysisComplete | ShowError(message: string)

  /** The number of progress steps; `progress == ProgressSteps` stands for `1f`. */
  const ProgressSteps: int := 10

  /** The improvement list the mocked analysis reports for each edit mode. */
  function Improvements(mode: EditMode): seq<string> {
    match mode
    case CleanMode => ["Noise reduction applied", "Brightness optimized", "Color saturation enhanced"]
    case FixMode => ["Blemishes removed", "Red-eye correction applied", "Skin smoothing applied", "Background blur enhanced"]
  }

  /** `"content://processed_${System.currentTimeMillis()}.jpg"` for the clock reading `millis`. */
  function ProcessedUri(millis: int): string {
    "content://processed_" + DecimalString(millis) + ".jpg"
  }

  /** Analyses finished at different milliseconds name different processed images. */
  lemma ProcessedUriInjective(a: int, b: int)
    requires ProcessedUri(a) == ProcessedUri(b)
    ensures a == b
  {
    EmbeddedDecimalInjective("content://processed_", ".jpg", a, b);
  }

  /** The result the mocked analysis builds at clock reading `millis` in edit mode `mode`. */
  function MockAnalysis(mode: EditMode, millis: int): AnalysisResult {
    AnalysisResult(ProcessedUri(millis), Improvements(mode), "2.4 MB", "2.1 MB", 2000)
  }

  /** The name save keeps: the user's, unless it is blank, else the generated one. */
  function FinalName(photoName: string, generatedId: string): (r: string)
    ensures !IsBlank(photoName) ==> r == photoName
    ensures IsBlank(photoName) ==> r == generatedId
    ensures !IsBlank(generatedId) ==> !IsBlank(r)
  {
    if IsBlank(photoName) then generatedId else photoName
  }

  class AnalyzeViewModel {
    var state: AnalyzeState
    var effects: seq<AnalyzeEffect>

    /**
     * Progress stays within its ten steps; the processed uri is always the
     * uri of the stored analysis result; saving, or having saved, implies a
     * processed photo; analysing implies a loaded photo.
     */
    ghost predicate Valid()
      reads this
    {
      && 0 <= state.progress <= ProgressSteps
      && state.processedPhotoUri == (if state.analysisResult.Some? then Some(state.analysisResult.value.processedImageUri) else None)
      && (state.isSaving ==> state.processedPhotoUri.Some?)
      && (state.isPhotoSaved ==> state.processedPhotoUri.Some?)
      && (state.isAnalyzing ==> state.originalPhotoUri.Some?)
    }

    constructor ()
      ensures Valid()
      ensures state == AnalyzeState() && effects == []
    {
      state := AnalyzeState();
      effects := [];
    }

    /** `handleIntent`: the synchronous part of the handler each intent selects. */
    method HandleIntent(intent: AnalyzeIntent)
      requires Valid()
      modifies this
      ensures Valid()
      ensures match intent
        case LoadPhoto(u) => state == old(state).(isLoading := true, originalPhotoUri := Some(u), error := None) && effects == old(effects)
        case SetPhotoName(n) => state == old(state).(photoName := n) && effects == old(effects)
        case SelectEditMode(m) => state == old(state).(selectedEditMode := m) && effects == old(effects)
        case AnalyzePhoto =>
          && state == (if old(state).originalPhotoUri.None? then old(state)
                       else old(state).(isAnalyzing := true, progress := 0, error := None))
          && effects == old(effects)
        case SavePhoto =>
          && state == (if old(state).processedPhotoUri.None? then old(state) else old(state).(isSaving := true))
          && effects == old(effects)
        case RetakePhoto => state == old(state) && effects == old(effects) + [NavigateToPhotoShot]
        case OnAnalysisComplete(r) =>
          && state == old(state).(analysisResult := Some(r), processedPhotoUri := Some(r.processedImageUri), isAnalyzing := false)
          && effects == old(effects)
        case OnError(e) =>
          && state == old(state).(error := Some(e), isLoading := false, isAnalyzing := false, isSaving := false)
          && effects == old(effects)
    {
      match intent
      case LoadPhoto(u) => LoadPhotoBegin(u);
      case SetPhotoName(n) => SetPhotoName(n);
      case SelectEditMode(m) => SelectEditMode(m);
      case AnalyzePhoto => var _ := AnalyzeBegin();
      case SavePhoto => var _ := SaveBegin();
      case RetakePhoto => RetakePhoto();
      case OnAnalysisComplete(r) => OnAnalysisComplete(r);
      case OnError(e) => HandleError(e);
    }

    /** `loadPhoto`, before the delay. */
    method LoadPhotoBegin(photoUri: string)
      requires Valid()
      modifies this
      ensures Valid()
      ensures state == old(state).(isLoading := true, originalPhotoUri := Some(photoUri), error := None)
      ensures effects == old(effects)
    {
      state := state.(isLoading := true, originalPhotoUri := Some(photoUri), error := None);
    }

    /** `loadPhoto`, after the delay. */
    method LoadPhotoComplete(photoUri: string)
      requires Valid()
      modifies this
      ensures Valid()
      ensures state == old(state).(isLoading := false, originalPhotoUri := Some(photoUri)) && effects == old(effects)
    {
      state := state.(isLoading := false, originalPhotoUri := Some(photoUri));
    }

    method SetPhotoName(name: string)
      requires Valid()
      modifies this
      ensures Valid()
      ensures state == old(state).(photoName := name) && effects == old(effects)
    {
      state := state.(photoName := name);
    }

    method SelectEditMode(mode: EditMode)
      requires Valid()
      modifies this
      ensures Valid()
      ensures state == old(state).(selectedEditMode := mode) && effects == old(effects)
    {
      state := state.(selectedEditMode := mode);
    }

    /**
     * `analyzePhoto`, before the launch: nothing at all happens without a
     * loaded photo; otherwise analysis starts from progress 0 with the error
     * cleared. `launched` tells whether the progress coroutine was started.
     */
    method AnalyzeBegin() returns (launched: bool)
      requires Valid()
      modifies this
      ensures Valid()
      ensures launched <==> old(state).originalPhotoUri.Some?
      ensures !launched ==> state == old(state)
      ensures launched ==> state == old(state).(isAnalyzing := true, progress := 0, error := None)
      ensures effects == old(effects)
    {
      if state.originalPhotoUri.None? {
        return false;
      }
      state := state.(isAnalyzing := true, progress := 0, error := None);
      launched := true;
    }

    /**
     * One pass of the analysis coroutine's `for (i in 1..10)` loop: after its
     * delay, step `step` publishes its tenth and changes nothing else. Other
     * intents may run between two steps.
     */
    method AnalyzeStep(step: int)
      requires Valid()
      requires 1 <= step <= ProgressSteps
      modifies this
      ensures Valid()
      ensures state == old(state).(progress := step) && effects == old(effects)
    {
      state := state.(progress := step);
    }

    /**
     * The whole loop run without interruption. `observed` lists the progress
     * values published, in order: 1, 2, …, 10.
     */
    method AnalyzeProgress() returns (observed: seq<int>)
      requires Valid()
      modifies this
      ensures Valid()
      ensures |observed| == ProgressSteps
      ensures forall k :: 0 <= k < |observed| ==> observed[k] == k + 1
      ensures forall k, l :: 0 <= k < l < |observed| ==> observed[k] < observed[l]
      ensures state == old(state).(progress := ProgressSteps) && effects == old(effects)
    {
      observed := [];
      for i := 1 to ProgressSteps + 1
        invariant |observed| == i - 1
        invariant forall k :: 0 <= k < |observed| ==> observed[k] == k + 1
        invariant state == if i == 1 then old(state) else old(state).(progress := i - 1)
        invariant Valid()
        invariant effects == old(effects)
      {
        AnalyzeStep(i);
        observed := observed + [state.progress];
      }
    }

    /**
     * The analysis coroutine after its loop: the improvements follow the edit
     * mode selected at this moment, the processed uri is named after the
     * clock reading `millis`, progress is complete, and the screen is told once.
     */
    method AnalyzeComplete(millis: int)
      requires Valid()
      modifies this
      ensures Valid()
      ensures state == old(state).(isAnalyzing := false,
                                   processedPhotoUri := Some(ProcessedUri(millis)),
                                   analysisResult := Some(MockAnalysis(old(state).selectedEditMode, millis)),
                                   progress := ProgressSteps)
      ensures state.analysisResult.value.processingTime == 2000
      ensures state.analysisResult.value.improvements == Improvements(old(state).selectedEditMode)
      ensures state.processedPhotoUri == Some(state.analysisResult.value.processedImageUri)
      ensures effects == old(effects) + [ShowAnalysisComplete]
    {
      var result := MockAnalysis(state.selectedEditMode, millis);
      state := state.(isAnalyzing := false, processedPhotoUri := Some(result.processedImageUri),
                      analysisResult := Some(result), progress := ProgressSteps);
      effects := effects + [ShowAnalysisComplete];
    }

    /**
     * `savePhoto`, before the launch: nothing at all happens without a
     * processed photo; otherwise only `isSaving` is raised.
     */
    method SaveBegin() returns (launched: bool)
      requires Valid()
      modifies this
      ensures Valid()
      ensures launched <==> old(state).processedPhotoUri.Some?
      ensures state == if launched then old(state).(isSaving := true) else old(state)
      ensures effects == old(effects)
    {
      if state.processedPhotoUri.None? {
        return false;
      }
      state := state.(isSaving := true);
      launched := true;
    }

    /**
     * `savePhoto`, after the delay: a blank name is replaced by
     * `generatedId` (the source's random UUID), the photo is marked saved and
     * the screen is sent to the album. The save coroutine is only launched
     * once a processed photo exists, and nothing ever clears it again.
     */
    method SaveComplete(generatedId: string)
      requires Valid()
      requires state.processedPhotoUri.Some?
      modifies this
      ensures Valid()
      ensures state == old(state).(isSaving := false, isPhotoSaved := true, photoName := FinalName(old(state).photoName, generatedId))
      ensures effects == old(effects) + [NavigateToAlbum]
    {
      state := state.(isSaving := false, isPhotoSaved := true, photoName := FinalName(state.photoName, generatedId));
      effects := effects + [NavigateToAlbum];
    }

    /** `retakePhoto`: only asks to go back to the camera. */
    method RetakePhoto()
      requires Valid()
      modifies this
      ensures Valid()
      ensures state == old(state) && effects == old(effects) + [NavigateToPhotoShot]
    {
      effects := effects + [NavigateToPhotoShot];
    }

    method OnAnalysisComplete(result: AnalysisResult)
      requires Valid()
      modifies this
      ensures Valid()
      ensures state == old(state).(analysisResult := Some(result), processedPhotoUri := Some(result.processedImageUri),
                                   isAnalyzing := false)
      ensures effects == old(effects)
    {
      state := state.(analysisResult := Some(result), processedPhotoUri := Some(result.processedImageUri), isAnalyzing := false);
    }

    /** `handleError`: record the error and stop every activity. */
    method HandleError(error: string)
      requires Valid()
      modifies this
      ensures Valid()
      ensures state == old(state).(error := Some(error), isLoading := false, isAnalyzing := false, isSaving := false)
      ensures effects == old(effects)
    {
      state := state.(error := Some(error), isLoading := false, isAnalyzing := false, isSaving := false);
    }

    method ToggleBeforeAfter()
      requires Valid()
      modifies this
      ensures Valid()
      ensures state == old(state).(showBeforeAfter := !old(state).showBeforeAfter) && effects == old(effects)
    {
      state := state.(showBeforeAfter := !state.showBeforeAfter);
    }
  }

  /**
   * An error arriving while the analysis coroutine is between steps: the
   * error stops the spinner at once, but the coroutine is not cancelled, so
   * its remaining steps and its result still arrive and the error stays shown
   * beside the finished analysis.
   */
  method ErrorDuringAnalysisScenario(photoUri: string, error: string, millis: int)
    returns (atError: AnalyzeState, final: AnalyzeState)
    ensures atError.progress == 4 && !atError.isAnalyzing && atError.error == Some(error)
    ensures final.analysisResult == Some(MockAnalysis(CleanMode, millis))
    ensures final.progress == ProgressSteps && !final.isAnalyzing
    ensures final.error == Some(error)
  {
    var vm := new AnalyzeViewModel();
    vm.HandleIntent(LoadPhoto(photoUri));
    vm.LoadPhotoComplete(photoUri);
    vm.HandleIntent(AnalyzePhoto);
    vm.AnalyzeStep(1);
    vm.AnalyzeStep(2);
    vm.AnalyzeStep(3);
    vm.AnalyzeStep(4);
    vm.HandleIntent(OnError(error));
    atError := vm.state;
    var step := 5;
    while step <= ProgressSteps
      invariant 5 <= step <= ProgressSteps + 1
      invariant vm.Valid()
      invariant vm.state == atError.(progress := step - 1)
    {
      vm.AnalyzeStep(step);
      step := step + 1;
    }
    vm.AnalyzeComplete(millis);
    final := vm.state;
  }
}
