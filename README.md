# AnalyzePhotoApp controllers in Dafny

This project models the screen controllers of AnalyzePhotoApp, an Android
photo editor, and the repository behind its photo table. Each controller
holds one immutable state record. It replaces that record by copy in
response to a closed set of intents, and some handlers send one-shot effects
into a channel.

In the model:

- each controller is a Dafny `class`;
- the state record is a `datatype` field, `state`;
- the effect channel is a field `effects: seq<…>`, and each send appends to it.

A handler that launches a coroutine with a `delay` becomes two methods. The
`…Begin` method is the synchronous part before the launch. The `…Complete`
method is the body after the delay. Other intents may run between the two
calls. The analysis loop is split further: `AnalyzeStep` is one pass of its
body, so intents may also run between any two progress steps.

Modules:

- `Text`: the Kotlin string primitives the controllers use:
  - `isBlank`;
  - `contains(…, ignoreCase = true)`;
  - `String.compareTo`, the order behind `sortedBy { it.name }`;
  - `Long.toString`, which names generated content URIs, with its inverse.
- `AlbumTypes`: the album's photo item, state, intents and effects.
- `AlbumFilter`: the pure half of `applyFilters`. It filters by the three
  optional criteria and sorts with a stable insertion sort under one of six
  orders. It proves:
  - the result holds exactly the selected photos, with multiplicity;
  - the result is ordered;
  - photos with equal keys keep their stored relative order.
- `Album`: the album controller:
  - search, filter, clear, sort order;
  - delete, select, share;
  - view-mode and filter-panel toggles;
  - load and refresh;
  - errors.
- `Analyze`: the analyze controller:
  - load;
  - analysis as a ten-step progress loop, then a result keyed by edit mode;
  - save, with a generated name substituted for a blank one.
- `PhotoShot`: the camera controller. Capture is guarded by camera readiness.
- `Register`: the sign-up controller and its three ordered checks.
- `Login`: the sign-in controller, which replaces its whole state through
  the base controller's `setState`.
- `Repository`: `PhotoEntity` ⇄ `Photo` conversion. It also covers the
  repository's forwarding of saves and deletes to the photo table, seen as
  a map keyed by primary key.

Behaviour that follows the code and is easy to misread:

- Album delete removes every photo carrying the id, not just one.
- Album load (`loadPhotos`, `onPhotosLoaded`) and `clearFilters` store the
  list as given. They neither filter nor sort. Only `applyFilters` sorts,
  and refresh, delete, search, the two filters and a sort-order change all
  run it. So right after a load, `filteredPhotos` is in load order, not in
  the default date-descending order. The invariant the album keeps is only
  that `filteredPhotos` never holds a photo more often than `photos` does.
- `DESC` orders use Kotlin's stable `sortedByDescending`, so photos with
  equal keys keep their stored order. With ties, the result is not the
  reverse of the ascending sort. When no two photos share the key, it is.
- Room's `@Insert` aborts on a primary-key conflict. `InsertPhoto` reports
  this as `ok == false` and leaves the table unchanged.

Source paths below are relative to the repository root. Rows for the
controllers cite the handler each method models.

## Model

| member | source | states |
|---|---|---|
| `Text.IsBlank` | app/src/main/java/com/example/analyzephoto/presentation/analyze/AnalyzeViewModel.kt:152 | a string is blank exactly when every character is whitespace; the empty string is blank |
| `Text.ContainsIgnoreCase` | app/src/main/java/com/example/analyzephoto/presentation/album/AlbumViewModel.kt:126-130 | true exactly when the query occurs at some offset of the name, character by character, ignoring case |
| `Text.ContainsIgnoreCaseExample` | app/src/main/java/com/example/analyzephoto/presentation/album/AlbumViewModel.kt:128 | the name "Mountain View" matches the query "mountain" |
| `Text.CompareTo` | app/src/main/java/com/example/analyzephoto/presentation/album/AlbumViewModel.kt:150-153 | `String.compareTo`: the difference of the first differing characters, or of the lengths when one string is a prefix of the other |
| `Text.CompareToZero` | app/src/main/java/com/example/analyzephoto/presentation/album/AlbumViewModel.kt:150-153 | string comparison gives 0 exactly for equal strings |
| `Text.CompareToAntisymmetric` | app/src/main/java/com/example/analyzephoto/presentation/album/AlbumViewModel.kt:150-153 | swapping the operands negates the comparison |
| `Text.LexLessTransitive` | app/src/main/java/com/example/analyzephoto/presentation/album/AlbumViewModel.kt:150-153 | the string order is transitive |
| `Text.LexLessTrichotomy` | app/src/main/java/com/example/analyzephoto/presentation/album/AlbumViewModel.kt:150-153 | any two strings are equal or strictly ordered one way, and never both ways |
| `Text.NatDigits` | app/src/main/java/com/example/analyzephoto/presentation/analyze/AnalyzeViewModel.kt:116 | the decimal form of a number is non-empty and all digits |
| `Text.DecimalString` | app/src/main/java/com/example/analyzephoto/presentation/photoshot/PhotoShotViewModel.kt:82 | the decimal form of a `Long` is non-empty and starts with a minus sign exactly when the number is negative |
| `Text.DecimalRoundTrip` | app/src/main/java/com/example/analyzephoto/presentation/analyze/AnalyzeViewModel.kt:116 | every number's decimal form, sign included, parses back to the number |
| `Text.EmbeddedDecimalInjective` | app/src/main/java/com/example/analyzephoto/presentation/photoshot/PhotoShotViewModel.kt:82 | two names built from the same prefix and suffix around two numbers are equal only if the numbers are |
| `AlbumFilter.Filter` | app/src/main/java/com/example/analyzephoto/presentation/album/AlbumViewModel.kt:127-129 | a filtered list is no longer than its input and every kept photo passes the predicate |
| `AlbumFilter.NameContains` | app/src/main/java/com/example/analyzephoto/presentation/album/AlbumViewModel.kt:126-130 | the search stage keeps a photo when its name contains the query, ignoring case |
| `AlbumFilter.CreatedWithin` | app/src/main/java/com/example/analyzephoto/presentation/album/AlbumViewModel.kt:133-137 | the date stage keeps a photo created within the range, both ends included |
| `AlbumFilter.HasEditMode` | app/src/main/java/com/example/analyzephoto/presentation/album/AlbumViewModel.kt:140-144 | the edit-mode stage keeps a photo with exactly that edit mode |
| `AlbumFilter.Selected` | app/src/main/java/com/example/analyzephoto/presentation/album/AlbumViewModel.kt:126-144 | a photo is selected when it passes the query (if not blank), the date range and the edit mode (each if set) |
| `AlbumFilter.SelectedBy` | app/src/main/java/com/example/analyzephoto/presentation/album/AlbumViewModel.kt:126-144 | the three stages as one predicate over photos |
| `AlbumFilter.Precedes` | app/src/main/java/com/example/analyzephoto/presentation/album/AlbumViewModel.kt:147-154 | the six sort orders: by creation time, name or size, ascending or descending |
| `AlbumFilter.FilterCount` | app/src/main/java/com/example/analyzephoto/presentation/album/AlbumViewModel.kt:134-136 | filtering keeps each passing photo as often as the input holds it and drops every failing one |
| `AlbumFilter.FilterAppend` | app/src/main/java/com/example/analyzephoto/presentation/album/AlbumViewModel.kt:141-143 | filtering a concatenation is the concatenation of the filtered parts, so relative order is kept |
| `AlbumFilter.FilterAll` | app/src/main/java/com/example/analyzephoto/presentation/album/AlbumViewModel.kt:123 | a filter every photo passes returns the list unchanged, in order |
| `AlbumFilter.FilterTwice` | app/src/main/java/com/example/analyzephoto/presentation/album/AlbumViewModel.kt:123-144 | narrowing the list stage after stage equals filtering once by the conjunction of the stages |
| `AlbumFilter.PrecedesOrder` | app/src/main/java/com/example/analyzephoto/presentation/album/AlbumViewModel.kt:147-154 | each of the six orders is irreflexive, asymmetric and transitive, and two photos are unordered exactly when their keys are equal |
| `AlbumFilter.Insert` | app/src/main/java/com/example/analyzephoto/presentation/album/AlbumViewModel.kt:147-154 | one insertion step of the stable sort adds exactly one photo |
| `AlbumFilter.SortPhotos` | app/src/main/java/com/example/analyzephoto/presentation/album/AlbumViewModel.kt:147-154 | `sortedBy` / `sortedByDescending`: the sorted list has the input's length |
| `AlbumFilter.SortPhotosPermutation` | app/src/main/java/com/example/analyzephoto/presentation/album/AlbumViewModel.kt:147-154 | sorting is a permutation: the same photos with the same multiplicities |
| `AlbumFilter.InsertSorted` | app/src/main/java/com/example/analyzephoto/presentation/album/AlbumViewModel.kt:147-154 | inserting a photo into an ordered list keeps it ordered |
| `AlbumFilter.SortPhotosSorted` | app/src/main/java/com/example/analyzephoto/presentation/album/AlbumViewModel.kt:147-154 | the sorted list is ordered by the chosen key, ascending or descending |
| `AlbumFilter.SortPhotosStable` | app/src/main/java/com/example/analyzephoto/presentation/album/AlbumViewModel.kt:147-154 | the photos sharing any given key appear in the sorted list in their original relative order |
| `AlbumFilter.Reverse` | app/src/main/java/com/example/analyzephoto/presentation/album/AlbumViewModel.kt:149-153 | the list read back to front, position by position |
| `AlbumFilter.ReverseCount` | app/src/main/java/com/example/analyzephoto/presentation/album/AlbumViewModel.kt:149-153 | reversing keeps the same photos with the same multiplicities |
| `AlbumFilter.SortedUnique` | app/src/main/java/com/example/analyzephoto/presentation/album/AlbumViewModel.kt:147-154 | two ordered arrangements of the same photos, no two sharing a key, are the same list |
| `AlbumFilter.OppositeOrdersReverse` | app/src/main/java/com/example/analyzephoto/presentation/album/AlbumViewModel.kt:147-154 | when no two photos share the key, each descending sort is exactly the reverse of its ascending sort |
| `AlbumFilter.NameOrdersReverse` | app/src/main/java/com/example/analyzephoto/presentation/album/AlbumViewModel.kt:150-151 | with pairwise different names, `NAME_DESC` gives the `NAME_ASC` list reversed |
| `AlbumFilter.Arranged` | app/src/main/java/com/example/analyzephoto/presentation/album/AlbumViewModel.kt:121-156 | the list `applyFilters` stores: the selected photos, in stored order, then sorted |
| `AlbumFilter.Refiltered` | app/src/main/java/com/example/analyzephoto/presentation/album/AlbumViewModel.kt:156 | recomputing the shown list changes no field other than `filteredPhotos` |
| `AlbumFilter.ArrangedSpec` | app/src/main/java/com/example/analyzephoto/presentation/album/AlbumViewModel.kt:121-156 | the shown list holds exactly the photos passing every active criterion, with their multiplicities; each is one of `photos` and passes the query (when not blank), the inclusive date range and the edit mode (when set); it is ordered by the sort order and stable on ties |
| `AlbumFilter.ArrangedWithinPhotos` | app/src/main/java/com/example/analyzephoto/presentation/album/AlbumViewModel.kt:121-156 | the shown list never holds a photo more often than `photos` does |
| `Album.FindById` | app/src/main/java/com/example/analyzephoto/presentation/album/AlbumViewModel.kt:188 | nothing is found exactly when no photo has the id; otherwise the first photo with the id is found |
| `Album.IdIsNot` | app/src/main/java/com/example/analyzephoto/presentation/album/AlbumViewModel.kt:172 | the delete filter keeps exactly the photos with another id |
| `Album.ShareEffects` | app/src/main/java/com/example/analyzephoto/presentation/album/AlbumViewModel.kt:186-193 | at most one share is sent; none exactly when no photo has the id; otherwise the uri and name of a photo with the id |
| `Album.OtherViewMode` | app/src/main/java/com/example/analyzephoto/presentation/album/AlbumViewModel.kt:196-199 | toggling always changes the layout |
| `Album.OtherViewModeInvolution` | app/src/main/java/com/example/analyzephoto/presentation/album/AlbumViewModel.kt:195-201 | toggling the layout twice restores it |
| `Album.DeleteSpec` | app/src/main/java/com/example/analyzephoto/presentation/album/AlbumViewModel.kt:172 | delete keeps every photo with another id, as often as it occurs, and none with the id; an absent id changes nothing |
| `Album.DeleteIdempotent` | app/src/main/java/com/example/analyzephoto/presentation/album/AlbumViewModel.kt:172 | deleting the same id again removes nothing more |
| `Album.ClearedSelectsAll` | app/src/main/java/com/example/analyzephoto/presentation/album/AlbumViewModel.kt:112-119 | with every criterion cleared, every photo is selected, in stored order |
| `Album.AlbumViewModel.constructor` | app/src/main/java/com/example/analyzephoto/presentation/album/AlbumViewModel.kt:19-27 | a new controller has the default state, already loading, and no effects |
| `Album.AlbumViewModel.HandleIntent` | app/src/main/java/com/example/analyzephoto/presentation/album/AlbumViewModel.kt:29-68 | each intent has exactly the synchronous effect of its handler; delete has none until it completes |
| `Album.AlbumViewModel.LoadPhotosBegin` | app/src/main/java/com/example/analyzephoto/presentation/album/AlbumViewModel.kt:70-74 | loading starts and the error is cleared; nothing else changes |
| `Album.AlbumViewModel.LoadPhotosComplete` | app/src/main/java/com/example/analyzephoto/presentation/album/AlbumViewModel.kt:76-88 | both lists become the loaded list as given, the total is its length and loading stops |
| `Album.AlbumViewModel.SearchPhotos` | app/src/main/java/com/example/analyzephoto/presentation/album/AlbumViewModel.kt:97-100 | only the query changes, then the shown list is recomputed |
| `Album.AlbumViewModel.FilterByDate` | app/src/main/java/com/example/analyzephoto/presentation/album/AlbumViewModel.kt:102-105 | only the date range changes, then the shown list is recomputed |
| `Album.AlbumViewModel.FilterByEditMode` | app/src/main/java/com/example/analyzephoto/presentation/album/AlbumViewModel.kt:107-110 | only the edit mode changes, then the shown list is recomputed |
| `Album.AlbumViewModel.ClearFilters` | app/src/main/java/com/example/analyzephoto/presentation/album/AlbumViewModel.kt:112-119 | the three criteria are cleared and the shown list is `photos` in stored order, unsorted |
| `Album.FilterStages` | app/src/main/java/com/example/analyzephoto/presentation/album/AlbumViewModel.kt:121-145 | the three optional filter stages together keep exactly the photos passing every active criterion, in stored order |
| `Album.AlbumViewModel.ApplyFilters` | app/src/main/java/com/example/analyzephoto/presentation/album/AlbumViewModel.kt:121-157 | only `filteredPhotos` changes, to the selected photos sorted by the current order; no effect is sent |
| `Album.AlbumViewModel.SelectPhoto` | app/src/main/java/com/example/analyzephoto/presentation/album/AlbumViewModel.kt:159-164 | the selection becomes the id and one details effect for that id is sent |
| `Album.AlbumViewModel.DeletePhotoComplete` | app/src/main/java/com/example/analyzephoto/presentation/album/AlbumViewModel.kt:166-184 | every photo with the id is dropped and the rest keep their order; the selection is cleared; the shown list is recomputed; the total is unchanged; the success message is sent even when the id was absent |
| `Album.AlbumViewModel.SharePhoto` | app/src/main/java/com/example/analyzephoto/presentation/album/AlbumViewModel.kt:186-193 | the state is unchanged; the uri and name of the first photo with the id are shared, or nothing is sent when there is none |
| `Album.AlbumViewModel.ToggleViewMode` | app/src/main/java/com/example/analyzephoto/presentation/album/AlbumViewModel.kt:195-201 | only the layout changes, to the other one |
| `Album.AlbumViewModel.RefreshPhotosBegin` | app/src/main/java/com/example/analyzephoto/presentation/album/AlbumViewModel.kt:203-204 | only `isRefreshing` is raised |
| `Album.AlbumViewModel.RefreshPhotosComplete` | app/src/main/java/com/example/analyzephoto/presentation/album/AlbumViewModel.kt:205-214 | refreshing stops, `photos` and the total become the loaded list and its length, and the shown list is recomputed |
| `Album.AlbumViewModel.OnPhotosLoaded` | app/src/main/java/com/example/analyzephoto/presentation/album/AlbumViewModel.kt:224-231 | both lists become the given list, the total is its length and loading stops |
| `Album.AlbumViewModel.HandleError` | app/src/main/java/com/example/analyzephoto/presentation/album/AlbumViewModel.kt:233-239 | the error is recorded and loading and refreshing stop |
| `Album.AlbumViewModel.ToggleFilters` | app/src/main/java/com/example/analyzephoto/presentation/album/AlbumViewModel.kt:241-245 | only the filter panel flag flips, so toggling twice restores the state |
| `Album.AlbumViewModel.SetSortOrder` | app/src/main/java/com/example/analyzephoto/presentation/album/AlbumViewModel.kt:247-250 | only the sort order changes, then the shown list is recomputed |
| `Analyze.Improvements` | app/src/main/java/com/example/analyzephoto/presentation/analyze/AnalyzeViewModel.kt:101-113 | the fixed improvement list of each edit mode |
| `Analyze.ProcessedUri` | app/src/main/java/com/example/analyzephoto/presentation/analyze/AnalyzeViewModel.kt:116 | the processed image is named after the clock reading |
| `Analyze.MockAnalysis` | app/src/main/java/com/example/analyzephoto/presentation/analyze/AnalyzeViewModel.kt:115-121 | the mocked result: the processed uri, the improvements of the mode, fixed sizes and 2000 ms |
| `Analyze.ProcessedUriInjective` | app/src/main/java/com/example/analyzephoto/presentation/analyze/AnalyzeViewModel.kt:116 | analyses finished at different milliseconds name different processed images |
| `Analyze.FinalName` | app/src/main/java/com/example/analyzephoto/presentation/analyze/AnalyzeViewModel.kt:152-156 | a non-blank name is kept, a blank one is replaced by the generated id, and a non-blank id gives a non-blank name |
| `Analyze.AnalyzeViewModel.constructor` | app/src/main/java/com/example/analyzephoto/presentation/analyze/AnalyzeViewModel.kt:17-21 | a new controller has the default state and no effects |
| `Analyze.AnalyzeViewModel.HandleIntent` | app/src/main/java/com/example/analyzephoto/presentation/analyze/AnalyzeViewModel.kt:23-50 | each intent has exactly the synchronous effect of its handler |
| `Analyze.AnalyzeViewModel.LoadPhotoBegin` | app/src/main/java/com/example/analyzephoto/presentation/analyze/AnalyzeViewModel.kt:52-57 | loading starts, the photo uri is set and the error is cleared |
| `Analyze.AnalyzeViewModel.LoadPhotoComplete` | app/src/main/java/com/example/analyzephoto/presentation/analyze/AnalyzeViewModel.kt:59-66 | loading stops with the photo uri set |
| `Analyze.AnalyzeViewModel.SetPhotoName` | app/src/main/java/com/example/analyzephoto/presentation/analyze/AnalyzeViewModel.kt:76-78 | only the name changes |
| `Analyze.AnalyzeViewModel.SelectEditMode` | app/src/main/java/com/example/analyzephoto/presentation/analyze/AnalyzeViewModel.kt:80-82 | only the edit mode changes |
| `Analyze.AnalyzeViewModel.AnalyzeBegin` | app/src/main/java/com/example/analyzephoto/presentation/analyze/AnalyzeViewModel.kt:84-91 | with no loaded photo nothing changes and nothing is launched; otherwise analysis starts at progress 0 with the error cleared |
| `Analyze.AnalyzeViewModel.AnalyzeStep` | app/src/main/java/com/example/analyzephoto/presentation/analyze/AnalyzeViewModel.kt:97-98 | one step publishes its tenth as the progress and changes nothing else |
| `Analyze.AnalyzeViewModel.AnalyzeProgress` | app/src/main/java/com/example/analyzephoto/presentation/analyze/AnalyzeViewModel.kt:96-99 | progress takes the values 1, 2, …, 10 tenths in that strictly increasing order and ends at 10; nothing else changes |
| `Analyze.AnalyzeViewModel.AnalyzeComplete` | app/src/main/java/com/example/analyzephoto/presentation/analyze/AnalyzeViewModel.kt:101-130 | the result lists the improvements of the edit mode read at completion and takes 2000 ms; the processed uri is the result's uri; analysis stops at full progress; one completion effect is sent |
| `Analyze.AnalyzeViewModel.SaveBegin` | app/src/main/java/com/example/analyzephoto/presentation/analyze/AnalyzeViewModel.kt:142-145 | with no processed photo nothing changes; otherwise only `isSaving` is raised |
| `Analyze.AnalyzeViewModel.SaveComplete` | app/src/main/java/com/example/analyzephoto/presentation/analyze/AnalyzeViewModel.kt:150-167 | the name is kept if non-blank, else replaced by the generated id; saving stops, the photo is marked saved, and the screen is sent to the album |
| `Analyze.AnalyzeViewModel.RetakePhoto` | app/src/main/java/com/example/analyzephoto/presentation/analyze/AnalyzeViewModel.kt:178-182 | the state is unchanged and the screen is sent back to the camera |
| `Analyze.AnalyzeViewModel.OnAnalysisComplete` | app/src/main/java/com/example/analyzephoto/presentation/analyze/AnalyzeViewModel.kt:184-190 | the result is stored, the processed uri becomes its uri and analysis stops |
| `Analyze.AnalyzeViewModel.HandleError` | app/src/main/java/com/example/analyzephoto/presentation/analyze/AnalyzeViewModel.kt:192-199 | the error is recorded and loading, analysing and saving stop |
| `Analyze.AnalyzeViewModel.ToggleBeforeAfter` | app/src/main/java/com/example/analyzephoto/presentation/analyze/AnalyzeViewModel.kt:201-205 | only the before/after flag flips |
| `Analyze.ErrorDuringAnalysisScenario` | app/src/main/java/com/example/analyzephoto/presentation/analyze/AnalyzeViewModel.kt:93-130 | an error arriving after four steps stops the spinner at progress 4, but the coroutine is not cancelled: progress still reaches 10 and the result arrives, with the error still shown |
| `PhotoShot.CapturedUri` | app/src/main/java/com/example/analyzephoto/presentation/photoshot/PhotoShotViewModel.kt:82 | the captured photo is named after the clock reading |
| `PhotoShot.CapturedUriInjective` | app/src/main/java/com/example/analyzephoto/presentation/photoshot/PhotoShotViewModel.kt:82 | photos captured at different milliseconds get different uris |
| `PhotoShot.PhotoShotViewModel.constructor` | app/src/main/java/com/example/analyzephoto/presentation/photoshot/PhotoShotViewModel.kt:14-18 | a new controller has the default state, with the five fixed filters, and no effects |
| `PhotoShot.PhotoShotViewModel.HandleIntent` | app/src/main/java/com/example/analyzephoto/presentation/photoshot/PhotoShotViewModel.kt:20-47 | each intent has exactly the synchronous effect of its handler, and no intent changes the available filters |
| `PhotoShot.PhotoShotViewModel.InitializeCameraBegin` | app/src/main/java/com/example/analyzephoto/presentation/photoshot/PhotoShotViewModel.kt:49-53 | loading starts and the error is cleared |
| `PhotoShot.PhotoShotViewModel.InitializeCameraComplete` | app/src/main/java/com/example/analyzephoto/presentation/photoshot/PhotoShotViewModel.kt:55-63 | loading stops and the camera is ready and permitted |
| `PhotoShot.PhotoShotViewModel.TakePhotoBegin` | app/src/main/java/com/example/analyzephoto/presentation/photoshot/PhotoShotViewModel.kt:73-76 | with the camera not ready nothing changes and nothing is launched; otherwise only loading starts |
| `PhotoShot.PhotoShotViewModel.TakePhotoComplete` | app/src/main/java/com/example/analyzephoto/presentation/photoshot/PhotoShotViewModel.kt:78-87 | loading stops, the captured uri is recorded, and the screen is sent to analyse that same uri |
| `PhotoShot.PhotoShotViewModel.SwitchCamera` | app/src/main/java/com/example/analyzephoto/presentation/photoshot/PhotoShotViewModel.kt:97-101 | only the lens flag flips |
| `PhotoShot.PhotoShotViewModel.ApplyFilter` | app/src/main/java/com/example/analyzephoto/presentation/photoshot/PhotoShotViewModel.kt:103-107 | the current filter becomes the given name, whether or not it is offered |
| `PhotoShot.PhotoShotViewModel.RemoveFilter` | app/src/main/java/com/example/analyzephoto/presentation/photoshot/PhotoShotViewModel.kt:109-113 | the current filter is cleared |
| `PhotoShot.PhotoShotViewModel.ToggleFlash` | app/src/main/java/com/example/analyzephoto/presentation/photoshot/PhotoShotViewModel.kt:115-119 | only the flash flag flips |
| `PhotoShot.PhotoShotViewModel.OnPhotoTaken` | app/src/main/java/com/example/analyzephoto/presentation/photoshot/PhotoShotViewModel.kt:121-125 | only the captured uri changes |
| `PhotoShot.PhotoShotViewModel.HandleError` | app/src/main/java/com/example/analyzephoto/presentation/photoshot/PhotoShotViewModel.kt:127-132 | the error is recorded and loading stops |
| `Register.Validate` | app/src/main/java/com/example/analyzephoto/presentation/register/RegisterViewModel.kt:21-48 | no message exactly when all fields are filled, the passwords match and are at least 6 long; the empty-fields message whenever a field is empty; the mismatch message only with all filled; the too-short message only with all filled and matching |
| `Register.RegisterViewModel.constructor` | app/src/main/java/com/example/analyzephoto/presentation/register/RegisterViewModel.kt:5 | a new controller has the default state |
| `Register.RegisterViewModel.ProcessIntent` | app/src/main/java/com/example/analyzephoto/presentation/register/RegisterViewModel.kt:8-13 | sign-up starts loading with the error cleared; navigation leaves the state unchanged |
| `Register.RegisterViewModel.RegisterBegin` | app/src/main/java/com/example/analyzephoto/presentation/register/RegisterViewModel.kt:15-16 | loading starts and the error is cleared; nothing else changes |
| `Register.RegisterViewModel.RegisterComplete` | app/src/main/java/com/example/analyzephoto/presentation/register/RegisterViewModel.kt:18-49 | loading stops; a failing input records the first failing check's message; an acceptable one marks success and leaves the error as it was; the entered fields of the state are never written |
| `Register.RegisterViewModel.NavigateToLogin` | app/src/main/java/com/example/analyzephoto/presentation/register/RegisterViewModel.kt:52-54 | the state is unchanged |
| `Register.RegisterScenario` | app/src/main/java/com/example/analyzephoto/presentation/register/RegisterViewModel.kt:8-49 | a full sign-up from a new controller succeeds exactly when the input is acceptable, and then shows no error |
| `Login.Outcome` | app/src/main/java/com/example/analyzephoto/presentation/login/LoginViewModel.kt:18-22 | success exactly when both fields are non-empty, otherwise exactly the one error; never loading, never both |
| `Login.LoginViewModel.constructor` | app/src/main/java/com/example/analyzephoto/presentation/base/BaseViewModel.kt:8-9 | a new controller has no state at all |
| `Login.LoginViewModel.SetState` | app/src/main/java/com/example/analyzephoto/presentation/base/BaseViewModel.kt:11-13 | the whole state is replaced |
| `Login.LoginViewModel.ProcessIntent` | app/src/main/java/com/example/analyzephoto/presentation/login/LoginViewModel.kt:7-12 | sign-in replaces the state by the loading state; navigation leaves it unchanged |
| `Login.LoginViewModel.LoginBegin` | app/src/main/java/com/example/analyzephoto/presentation/login/LoginViewModel.kt:14-15 | the state becomes exactly the loading state, discarding any earlier success or error |
| `Login.LoginViewModel.LoginComplete` | app/src/main/java/com/example/analyzephoto/presentation/login/LoginViewModel.kt:16-22 | the state becomes exactly the outcome for the credentials |
| `Login.LoginViewModel.NavigateToRegister` | app/src/main/java/com/example/analyzephoto/presentation/login/LoginViewModel.kt:26-28 | the state is unchanged |
| `Login.LoginTwiceScenario` | app/src/main/java/com/example/analyzephoto/presentation/login/LoginViewModel.kt:14-22 | after two sign-ins the state is the second attempt's outcome alone, and it is settled |
| `Repository.ToDomain` | app/src/main/java/com/example/analyzephoto/data/repository/PhotoRepository.kt:25-32 | a row becomes the photo with the same four fields |
| `Repository.ToEntity` | app/src/main/java/com/example/analyzephoto/data/repository/PhotoRepository.kt:34-41 | a photo becomes the row with the same four fields |
| `Repository.DomainRoundTrip` | app/src/main/java/com/example/analyzephoto/data/repository/PhotoRepository.kt:25-41 | storing a photo and reading it back gives the same photo |
| `Repository.EntityRoundTrip` | app/src/main/java/com/example/analyzephoto/data/repository/PhotoRepository.kt:25-41 | reading a row and storing it again gives the same row |
| `Repository.ToDomainList` | app/src/main/java/com/example/analyzephoto/data/repository/PhotoRepository.kt:12-14 | the mapped list has the listing's length and order, converted element by element |
| `Repository.ToEntityList` | app/src/main/java/com/example/analyzephoto/data/repository/PhotoRepository.kt:34-41 | converting photos back to rows keeps length and order, element by element |
| `Repository.ListRoundTrip` | app/src/main/java/com/example/analyzephoto/data/repository/PhotoRepository.kt:11-15 | mapping a listing to photos loses nothing: mapping back restores the rows |
| `Repository.Listing` | app/src/main/java/com/example/analyzephoto/data/local/dao/PhotoDao.kt:9-10 | the listing query's answer: every row of the table exactly once, newest first |
| `Repository.PhotoDao.constructor` | app/src/main/java/com/example/analyzephoto/data/local/dao/PhotoDao.kt:8-17 | a new table is empty and every row is keyed by its own id |
| `Repository.PhotoDao.InsertPhoto` | app/src/main/java/com/example/analyzephoto/data/local/dao/PhotoDao.kt:12-13 | a new key is added with the row; a taken key is refused and the table is unchanged; every row stays under its own id |
| `Repository.PhotoDao.DeletePhoto` | app/src/main/java/com/example/analyzephoto/data/local/dao/PhotoDao.kt:15-16 | exactly the row with the id is removed, if there is one; every row stays under its own id |
| `Repository.PhotoRepository.constructor` | app/src/main/java/com/example/analyzephoto/data/repository/PhotoRepository.kt:9 | the repository works on the given table |
| `Repository.PhotoRepository.GetPhotos` | app/src/main/java/com/example/analyzephoto/data/repository/PhotoRepository.kt:11-15 | given the table's current listing, the photos returned convert back to exactly that listing: each is stored under its id as its row, every stored id appears, and they come newest first |
| `Repository.PhotoRepository.SavePhoto` | app/src/main/java/com/example/analyzephoto/data/repository/PhotoRepository.kt:17-19 | exactly the photo's entity is inserted, under the same conflict rule |
| `Repository.PhotoRepository.DeletePhoto` | app/src/main/java/com/example/analyzephoto/data/repository/PhotoRepository.kt:21-23 | the same id is deleted from the table |
| `Repository.SavedPhotoListed` | app/src/main/java/com/example/analyzephoto/data/local/dao/PhotoDao.kt:9-10 | a photo whose row is stored appears unchanged in every listing the repository maps |
| `Repository.DeletedPhotoUnlisted` | app/src/main/java/com/example/analyzephoto/data/local/dao/PhotoDao.kt:9-16 | after deleting an id, no listed photo carries it |

## Left out

- Coroutines, delays, cancellation and channel back-pressure. Each delay is
  the boundary between a `…Begin` and a `…Complete` method. Sends in a
  coroutine with no delay (album select and share, analyze retake) are
  appended at once.
- `generateMockPhotos` (AlbumViewModel.kt:252-296) as written. It evaluates
  `TODO()` for `thumbnailUri` and `improvements` (lines 262-263, 272-273,
  282-283, 292-293). `TODO()` throws `NotImplementedError`, a Kotlin `Error`,
  which the `catch (e: Exception)` at lines 88 and 215 does not catch. As
  written, load and refresh therefore never complete: `isLoading` or
  `isRefreshing` stays raised and the failure escapes the coroutine.
  `LoadPhotosComplete` and `RefreshPhotosComplete` model the completion the
  code evidently intends (lines 82-87 and 209-214), with the loaded list as
  a parameter.
- The other `catch (e: Exception)` branches. The remaining simulated bodies
  raise nothing except cancellation, so the `ShowError` effects exist only
  as datatype alternatives.
- `System.currentTimeMillis` and `UUID.randomUUID`: their results are
  method parameters.
- Float progress: `i / 10f` is the integer `i`, and `1f` is 10.
- The Compose screens, navigation graph, dependency injection, use-case
  wrappers and the Room database class.
- The SQL of the listing query is not executed. `Listing` states what its
  result holds: every row once, newest first. Room's re-emission of the
  listing on every table change is also not modelled.
- Room reports a key conflict by throwing. The model returns `ok == false`
  instead.
- `Text.ContainsIgnoreCase`: case is ignored for the ASCII letters only.
  Kotlin also folds the rest of Unicode.
- `Text.CompareTo`: compares Unicode scalar values. Java compares UTF-16
  code units, and the two orders differ when characters outside the Basic
  Multilingual Plane are involved.
- `Register.Validate`: the six-character minimum counts Unicode scalar
  values. Kotlin's `length` counts UTF-16 code units.
- 64-bit `Long` timestamps are unbounded integers. The source only compares
  them and prints them, so no overflow arises.
