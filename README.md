# react-viewer core, in Dafny

react-viewer is a browser viewer for DICOM images and radiotherapy (RT)
objects. This project models its ingestion and bookkeeping core and proves
properties of that model:

- **Tag accessors and RT decoding** (`DicomTags`, `RTParser`). The accessors
  read a parsed DICOM dataset and never throw; the RT Dose decoder makes one
  library call outside them, which can. Backslash-separated numbers are
  decoded two ways: leniently, dropping values that do not parse, and strictly,
  where any bad value makes the result undefined. RT structure sets, doses and
  plans and image records are built from them. Contour data becomes points,
  DVH data becomes pairs, and each ROI is joined to its contour item.
- **Hierarchy builders** (`RTHierarchy`, `DicomHierarchy`). `readDicomRT`
  finds or creates patients and studies, placing or replacing RT objects and
  bucketing image instances. It then builds image series sorted by instance
  number. It records a file that fails to decode, or an RT Dose whose decoder
  throws, as an error, and lists it at most once as unrecognized. `parseDicomHierarchy` files series groups into
  patients, studies and series, one per ID.
- **Slice–contour intersector** (`SliceIntersect`). It picks the contours of a
  region of interest that lie on the displayed slice. It builds the flat point
  array and the VTK-style connectivity arrays (a count, then that many point
  ids) for outlines and fills.
- **Stores** (`Rulers`, `RulerWidget`, `Slicing`, `RoiVisibility`,
  `Windowing`, `Images`, `Ids`, `FileStore`). These are classes whose methods
  update their fields as the store actions do. Each is specified by functions
  of the old state.
- **Selection and format helpers** (`DicomStore`, `DataSources`,
  `ImportCommon`, `LoadFiles`, `Chains`, `Camera`, `Utils`, `Strings`,
  `OrderedMaps`). These cover window/level parsing, display-name cleanup,
  data-source naming and provenance, and the handler chain. They also cover
  base data-source selection, the camera's axis table and parallel scale,
  `partition`/`pick`, JavaScript's `trim`/`split`/decimal rendering, and
  insertion-ordered `Map`s.

Conventions:
- A DICOM dataset is a map from tag key to an element. An element holds its
  value text, whether the parsing library can read it, and its sequence items.
- `parseFloat` and `parseInt` are parameters that return `None` where
  JavaScript gives `NaN`. A single number read from a dataset is a `Number`:
  a real, or `NaN`, which `===` never matches.
- Coordinates and measurements are `real`.
- Where the source mutates a node nested in a list, the model rebuilds the list
  that holds it.

## Model

| member | source | states |
|---|---|---|
| Ids.IdStore.constructor | src/store/id.ts:9 | the counter starts at 0 |
| Ids.IdStore.NextID | src/store/id.ts:10-15 | the counter goes up by one and the id returned is its new value written in decimal, which reads back as that value |
| Ids.FirstId | src/store/id.ts:9-15 | a fresh store hands out "1" first |
| Ids.TwoIds | src/store/id.ts:10-15 | two calls in a row give different ids, the second naming a larger number, and advance the counter by two |
| FileStore.SourcesIn | src/store/file.ts:34 | `byDataID[dataID] ?? []`: the stored list, or the empty list when the id is missing |
| FileStore.FilesOf | src/store/file.ts:37 | one file per data source, each the source's own file, in order |
| FileStore.FileStore.constructor | src/store/file.ts:16 | the store starts with no data ids |
| FileStore.FileStore.AddFiles | src/store/file.ts:18-21 | the list is stored under the id, replacing any earlier one and leaving other ids alone; the readers over the current state then return it and its files |
| FileStore.FileStore.RemoveFiles | src/store/file.ts:22-27 | the id's entry is removed when present and nothing else changes; the reader then returns the empty list |
| FileStore.AsWrittenSeesNothing | src/store/file.ts:31-38 | the readers as written, over the state object captured at module load, return nothing for every id |
| FileStore.AsWrittenMissesAddedFiles | src/store/file.ts:31-38 | after a non-empty `addFiles`, the readers over the current state return the files while the readers as written do not |
| Windowing.Patched | src/store/windowing.ts:34-38 | `{...config, ...patch}`: each field is the patch's when given, the config's otherwise |
| Windowing.PatchedIdempotent | src/store/windowing.ts:34-38 | patching twice with the same patch is patching once; the empty patch changes nothing |
| Windowing.WindowingStore.constructor | src/store/windowing.ts:30 | there is no configuration until the first `setConfig` |
| Windowing.WindowingStore.SetConfig | src/store/windowing.ts:32-39 | the configuration becomes the patch over the current one, or over the defaults (level 40, width 400, min 0, max 1000) when none was set |
| Chains.FirstAnswerWins | src/utils/evaluateChain.ts:15-20 | when handler k is the first that does not skip, exactly k+1 handlers are called and the chain resolves to k's response or rejects with k's error |
| Chains.AllSkipUnhandled | src/utils/evaluateChain.ts:15-22 | when every handler skips, all are called and the chain rejects with "Unhandled request"; this includes the empty list |
| Chains.AnswerComesFromACalledHandler | src/utils/evaluateChain.ts:15-20 | a successful answer is the response of the last handler called, and every handler before it skipped |
| Chains.EvaluateChain | src/utils/evaluateChain.ts:10-23 | the loop gives the chain's outcome and calls exactly as many handlers as the chain specification says |
| RoiVisibility.Visible | src/store/roi.ts:39-41 | an ROI never set reads as hidden; a set ROI reads as its stored value |
| RoiVisibility.SetAllSpec | src/store/roi.ts:47-55 | after setting a list of ROIs, every listed ROI reads as the value, and every unlisted number keeps its entry or stays absent |
| RoiVisibility.RoiStore.constructor | src/store/roi.ts:20 | the store starts with an empty map |
| RoiVisibility.RoiStore.SetRoiVisibility | src/store/roi.ts:22-28 | that ROI gets the value and every other entry is kept |
| RoiVisibility.RoiStore.ToggleRoiVisibility | src/store/roi.ts:30-37 | the ROI's value is flipped, an unknown ROI counting as hidden; every other entry is kept |
| RoiVisibility.RoiStore.ClearAllVisibility | src/store/roi.ts:43-45 | the map is emptied and every ROI then reads as hidden |
| RoiVisibility.RoiStore.SetAllRoiVisibility | src/store/roi.ts:47-55 | the loop over the list leaves the map that setting each listed ROI, in order, gives |
| RoiVisibility.ToggleTwice | src/store/roi.ts:30-37 | toggling the same ROI twice restores what it read before |
| Slicing.Patched | src/store/slicing.ts:33-36 | `{...entry, ...patch}`: each given field replaces the entry's and the rest are kept |
| Slicing.Clamp | src/store/slicing.ts:44 | `max(min, min(max, x))`: within the bounds when they are ordered, `x` itself when it is already within them, the lower bound below it, the upper bound above it |
| Slicing.ClampIdempotent | src/store/slicing.ts:44 | clamping a clamped value changes nothing |
| Slicing.WithSlice | src/store/slicing.ts:43-48 | only the slice changes; it lies within the view's bounds, and equals the requested slice when that is already in range |
| Slicing.Incremented | src/store/slicing.ts:55-58 | one step up below the top, nothing at or above it; the bounds are kept and an in-range slice stays in range |
| Slicing.Decremented | src/store/slicing.ts:65-68 | one step down above the bottom, nothing at or below it; the bounds are kept and an in-range slice stays in range |
| Slicing.IncrementDecrement | src/store/slicing.ts:51-69 | inside the bounds and below the top, a step up then a step down returns the entry it started from |
| Slicing.Initialized | src/store/slicing.ts:78-84 | the view gets bounds 0 to `maxSlice`, the given mode, and the middle slice `floor(maxSlice / 2)`, which is in range when `maxSlice` is not negative |
| Slicing.FloorHalf | src/store/slicing.ts:78 | `Math.floor(n / 2)`: the largest r with 2r <= n |
| Slicing.SlicingStore.constructor | src/store/slicing.ts:26 | no view has an entry at first |
| Slicing.SlicingStore.UpdateSlice | src/store/slicing.ts:28-37 | a missing view first gets slice 0 with bounds 0 to 1 and mode 0; the patch is then merged into the view's entry and other views are untouched |
| Slicing.SlicingStore.SetSliceValue | src/store/slicing.ts:39-49 | an unknown view changes nothing; otherwise the view's slice becomes the requested one clamped into its bounds |
| Slicing.SlicingStore.IncrementSlice | src/store/slicing.ts:51-59 | an unknown view changes nothing; otherwise the view's entry takes one step up |
| Slicing.SlicingStore.DecrementSlice | src/store/slicing.ts:61-69 | an unknown view changes nothing; otherwise the view's entry takes one step down |
| Slicing.SlicingStore.ResetView | src/store/slicing.ts:71-74 | the view's slice, bounds and mode are all set back to 0 |
| Slicing.SlicingStore.InitializeView | src/store/slicing.ts:76-85 | the view's entry becomes the initialized entry for its mode and `maxSlice` |
| Images.IndexOf | src/store/image.ts:27 | `arr.indexOf(el)`: absent exactly when the element is not in the array; otherwise the index of its first occurrence |
| Images.RemoveFromArray | src/store/image.ts:26-31 | an absent element leaves the array unchanged; otherwise its first occurrence is spliced out and the rest keep their order |
| Images.RemoveFromArrayCount | src/store/image.ts:26-31 | removal takes exactly one copy of the element out of the array's contents when it has one, and none otherwise |
| Images.RemoveFromArrayKeepsOthers | src/store/image.ts:26-31 | no element other than the removed one appears or disappears |
| Images.Rebuilt | src/store/image.ts:70-80 | the rebuilt metadata keeps the stored name and takes all its geometry from the image |
| Images.ImageStore.constructor | src/store/image.ts:47-49 | the store starts with no ids, image objects or metadata, and its invariant holds |
| Images.ImageStore.AddVTKImageData | src/store/image.ts:51-66 | the id is `useId` when given and otherwise the id store's next id; it is appended to the id list, the image is registered under it, and its metadata is the given name with the image's geometry; the invariant is kept |
| Images.ImageStore.UpdateData | src/store/image.ts:67-87 | the image object is always stored; the metadata is rebuilt from the image only when the id already has metadata, and otherwise left alone; the id list is untouched |
| Images.ImageStore.DeleteData | src/store/image.ts:88-93 | the id is dropped from the image objects and the metadata, and its first listing is removed from the id list; the invariant is kept |
| Images.AddVTKImageDataAsWritten | src/store/image.ts:51-66 | as the middleware runs it, the id is appended and the image stored, but the id's metadata is the default geometry with the name |
| Images.AsWrittenLosesGeometry | src/store/image.ts:51-66 | for an image whose geometry is not the default one, the metadata as written is not the name with the image's geometry |
| Rulers.RulerIdInjective | src/store/ruler.ts:53 | two counter values give the same `ruler-N` id exactly when they are equal |
| Rulers.NewRuler | src/store/ruler.ts:54-66 | the new ruler has the given id; each field is the one the initial data supplies, and otherwise the default: slice 0, no points, no distance, colour (1, 1, 0), label, handles and line visible, not complete |
| Rulers.WithPoint | src/store/ruler.ts:77-97 | only the chosen point changes; the ruler is complete exactly when both points are set, and it then has the points' distance; otherwise it has none; every other field is kept |
| Rulers.Completed | src/store/ruler.ts:110-118 | the second point is set, the distance is from the first point to it, the ruler is complete, and every other field is kept |
| Rulers.Merged | src/store/ruler.ts:130 | every given property replaces the ruler's; the id, the points, the distance and completeness are kept |
| Rulers.NextIdIsNew | src/store/ruler.ts:53-69 | when every stored ruler's id came from an earlier counter value, the id the counter gives next is not yet taken |
| Rulers.SelectRulerById | src/store/ruler.ts:163-164 | a ruler is selected exactly when the id is given, not empty, and stored, and it is the stored ruler |
| Rulers.RulerStore.constructor | src/store/ruler.ts:47-50 | no rulers, no active ruler, the counter at 1, the tool off; the invariant holds |
| Rulers.RulerStore.AddRuler | src/store/ruler.ts:52-73 | the id is `ruler-` and the counter, and it is not yet taken; the new ruler is stored under it and made active, and the counter goes up by one; the invariant that every ruler sits under its own issued id is kept |
| Rulers.RulerStore.UpdateRulerPoint | src/store/ruler.ts:75-103 | an unknown id changes nothing; otherwise only that ruler takes the new point, and the other fields of the store are kept |
| Rulers.RulerStore.CompleteRulerPlacement | src/store/ruler.ts:105-124 | an unknown ruler, or one without a first point, changes nothing; otherwise the ruler is completed with the second point and no ruler is active any more |
| Rulers.RulerStore.UpdateRulerProperties | src/store/ruler.ts:126-135 | an unknown id changes nothing; otherwise only that ruler takes the properties |
| Rulers.RulerStore.RemoveRuler | src/store/ruler.ts:137-147 | the id is deleted, and the active ruler is cleared only when it was that one |
| Rulers.RulerStore.ClearAllRulers | src/store/ruler.ts:149-151 | no rulers and no active ruler remain; the counter keeps its value, so ids are never reused |
| Rulers.RulerStore.SetActiveRulerId | src/store/ruler.ts:153-155 | the active ruler becomes the given id and nothing else changes |
| Rulers.RulerStore.SetRulerToolActive | src/store/ruler.ts:157-159 | the tool switch takes the given value and nothing else changes |
| RulerWidget.HandleId | src/vtk/RulerWidget/behavior.ts:78-79 | the handle id is 1 exactly for the name "handle1", and 2 for any other name |
| RulerWidget.PlacedRulerPointCount | src/vtk/RulerWidget/index.js:131-137 | for a ruler the store updated with a point, the point count `setData` derives is 2 exactly when the ruler is complete, 1 exactly when it has only its first point, and 0 exactly when it has no first point |
| RulerWidget.Midpoint | src/vtk/RulerWidget/index.js:125-127 | the label anchor lies halfway between the two points on every axis |
| RulerWidget.LabelText | src/vtk/RulerWidget/index.js:121-123 | the label shows the formatted distance, or nothing when the distance is missing or zero |
| RulerWidget.Widget.constructor | src/vtk/RulerWidget/index.js:158-159 | a new widget starts with no points placed and every part hidden, as the constructor's reset leaves it |
| RulerWidget.Widget.ResetInternalInteractionState | src/vtk/RulerWidget/index.js:142-153 | the point count goes back to 0, the handles, line and label are hidden, and the label text is emptied; positions and colours are kept |
| RulerWidget.Widget.HandleLeftButtonPress | src/vtk/RulerWidget/behavior.ts:6-50 | no pick lets the event through unchanged; the first press places both handles at the point, shows them and the line, and reports the first point; the second press moves handle 2, reports the second point and ends the interaction; with both placed, a press on an active handle only starts an interaction; the point count never passes 2 |
| RulerWidget.Widget.HandleMouseMove | src/vtk/RulerWidget/behavior.ts:52-87 | while the second point is being placed, handle 2 follows the pick and a drag of point 2 is reported; with both placed, dragging an active handle reports that handle's position; the event is consumed exactly in those two cases and nothing else changes |
| RulerWidget.Widget.HandleLeftButtonRelease | src/vtk/RulerWidget/behavior.ts:89-107 | the event is consumed exactly when both points are placed and a state is active; a handle's final position is reported only when the active state is one of the two handles |
| RulerWidget.Widget.GrabFocus | src/vtk/RulerWidget/behavior.ts:109-114 | the widget has focus and nothing else changes |
| RulerWidget.Widget.LoseFocus | src/vtk/RulerWidget/behavior.ts:116-121 | the widget loses focus and keeps its point count and parts, so an interrupted placement resumes |
| RulerWidget.Widget.SetData | src/vtk/RulerWidget/index.js:62-138 | without a ruler the widget is reset and forgets its ruler id; with one, each handle is placed at its point and shown when the ruler shows handles; handle 2 without a point is shown only while placement is under way; the line and label are shown exactly when both points exist and the ruler shows them; the label shows the distance at the midpoint; the point count follows the ruler |
| RulerWidget.ResumePlacement | src/vtk/RulerWidget/index.js:131-137 | a widget showing a ruler with only its first point places the second point at the next press and reports it under the ruler's id |
| Utils.Identity | src/utils/index.ts:1-3 | the argument comes back unchanged |
| Utils.SideMembers | src/utils/index.ts:58-68 | an element is on a side exactly when it is in the list and the predicate puts it on that side |
| Utils.SidesCover | src/utils/index.ts:62-67 | the two sides together hold every element exactly as often as the list does, and their lengths add up to the list's length |
| Utils.Partition | src/utils/index.ts:58-68 | the loop puts exactly the elements satisfying the predicate on the left and the rest on the right, each in input order |
| Utils.NarrowedIsLeftSide | src/utils/index.ts:70-79 | the elements of `partitionByType`'s left side are the guard's left side, element by element, seen at the narrower type |
| Utils.PartitionByType | src/utils/index.ts:70-79 | the loop puts the accepted elements, narrowed, on the left and the rest on the right, each in input order, so the split laws of `partition` hold under the guard |
| Utils.Pick | src/utils/index.ts:81-83 | the record has exactly the listed keys, each mapped to the object's value, or `undefined` where the object has none |
| Utils.PickByKeySet | src/utils/index.ts:81-83 | the result depends only on which keys are listed, not on their order or repetition |
| DataSources.FileToDataSource | src/io/import/dataSource.ts:64-69 | the source holds only a file source, whose type is the file's MIME type |
| DataSources.UriToDataSource | src/io/import/dataSource.ts:76-81 | the source holds only a URI source with the given URI and name |
| DataSources.RemoteFileToDataSource | src/io/import/dataSource.ts:88-94 | the source holds both the file source and a URI source named after the file, and nothing else |
| DataSources.IsRemoteSpec | src/io/import/dataSource.ts:101-103 | a source is remote exactly when it or some ancestor on its parent chain has a URI source |
| DataSources.RemoteAncestor | src/io/import/dataSource.ts:101-103 | a remote source has an ancestor, possibly itself, with a URI source |
| DataSources.AncestorMakesRemote | src/io/import/dataSource.ts:101-103 | an ancestor with a URI source makes the source remote |
| DataSources.RemoteFileIsRemote | src/io/import/dataSource.ts:88-103 | a downloaded file is remote and a plain local file is not |
| DataSources.MoreSuffix | src/io/import/dataSource.ts:116 | the suffix is ` (+k more)` with k one less than the bundle's size when the bundle has more than one source, and empty otherwise |
| DataSources.GetDataSourceName | src/io/import/dataSource.ts:108-121 | a source with a file is named after the file; no source, or one with neither a file nor a non-empty DICOM bundle, has no name |
| DataSources.DicomBundleName | src/io/import/dataSource.ts:113-118 | a bundle without a file of its own is named after its first source, followed by ` (+k more)` exactly when k > 0 further sources follow |
| ImportCommon.VolumeResultSpec | src/io/import/common.ts:39-52 | a volume result is loadable, and a loadable result is a volume exactly when its type is not a model |
| ImportCommon.FileArchiveByType | src/io/import/common.ts:33-37 | a source made from a file is an archive exactly when the file's MIME type is in the archive type set |
| LoadFiles.ModalityPriority | src/core/loadFiles.ts:19-24 | exactly CT, MR, US and DX have a priority: 3 for CT and MR, 2 for US, 1 for DX |
| LoadFiles.FindBaseDicomSpec | src/core/loadFiles.ts:26-59 | there is a base DICOM exactly when some DICOM result has a recorded base modality; it is such a candidate, no candidate sorts before it (lower priority value first, then more slices, a missing count last), and every candidate ahead of it in the list sorts after it, as the first element of a stable sort |
| LoadFiles.SegmentationBySuffix | src/core/loadFiles.ts:61-65 | a name ending in a dot and a non-empty, dot-free extension is a segmentation for that extension |
| LoadFiles.NoDotNoSegmentation | src/core/loadFiles.ts:61-65 | a name without a dot has no extensions after the first part, so it is never a segmentation |
| LoadFiles.FindBaseImage | src/core/loadFiles.ts:67-81 | the result is the first image result with a non-empty name that is not a segmentation, and there is none exactly when no result qualifies |
| LoadFiles.FilterLoadableSpec | src/core/loadFiles.ts:84-90 | a result is kept exactly when it is loadable and one of the successes produced it |
| LoadFiles.FindBaseDataSourceSpec | src/core/loadFiles.ts:92-103 | the choice is a loadable result of one of the successes, and there is none only when nothing loadable was produced; when a base DICOM exists it is the one `findBaseDicom` picks, which no candidate sorts before; otherwise, when a base image exists, it is the first base image; otherwise it is the first loadable result |
| Camera.EyeFrameDimIndices | src/utils/camera.ts:10-18 | for different axes, the height index is the up axis and the width index is the remaining third axis, `3 - look - up`; equal axes give the error naming both axes |
| Camera.EyeFramePermutes | src/utils/camera.ts:10-16 | the viewing axis, the width axis and the height axis are the three image axes, each once |
| Camera.ComputeParallelScale | src/utils/camera.ts:20-37 | for different axes, twice the scale covers the image's height and, times the view aspect, its width, and equals one of them exactly, so the image fits the view and touches two of its edges; equal axes give the error |
| Camera.FitsView | src/utils/camera.ts:29-34 | `width / 2 / viewAspect` when the image is wider than the view, `height / 2` otherwise, covers both extents and meets one |
| Camera.FitScaleHomogeneous | src/utils/camera.ts:29-34 | scaling both extents by a positive factor scales the fitted scale by the same factor |
| Camera.FitScaleOfScaled | src/utils/camera.ts:29-34 | the same, for extents already multiplied by the factor |
| Camera.ScaleOfAxes | src/utils/camera.ts:26-36 | the parallel scale is the fit of the extents along the eye frame's width and height axes |
| Camera.ScaleIsHomogeneous | src/utils/camera.ts:20-37 | multiplying every image extent by a positive factor multiplies the parallel scale by the same factor |
| Camera.DimsWithSpacing | src/utils/camera.ts:101-105 | the physical extent along each axis is the dimension times the spacing |
| Camera.PositiveExtent | src/utils/camera.ts:101-105 | positive dimensions and spacings give a positive extent, which is what the scale computation needs |
| DicomStore.NonSpaceAppend | src/store/dicom.ts:90-92 | the non-space characters of a concatenation are those of each part, in order |
| DicomStore.NonSpaceOfSpaces | src/store/dicom.ts:90-92 | a run of white space has no non-space characters |
| DicomStore.NonSpaceEmpty | src/store/dicom.ts:90-92 | a string has no non-space character exactly when it is all white space |
| DicomStore.TrimStartNonSpace | src/store/dicom.ts:91 | skipping leading white space keeps every non-space character |
| DicomStore.TrimEndNonSpace | src/store/dicom.ts:91 | dropping trailing white space keeps every non-space character |
| DicomStore.TrimNonSpace | src/store/dicom.ts:91 | `trim` keeps every non-space character |
| DicomStore.CollapseKeepsNonSpace | src/store/dicom.ts:91 | replacing each white-space run by one space keeps every non-space character, in order |
| DicomStore.CollapseEnds | src/store/dicom.ts:91 | collapsing gives the empty string only for the empty string, and starts or ends with white space exactly when its input does |
| DicomStore.ConsSingleSpaced | src/store/dicom.ts:91 | a single space in front of a single-spaced string that does not start with white space keeps it single-spaced |
| DicomStore.CollapseSingles | src/store/dicom.ts:91 | after collapsing, every white-space character is a plain space and no two are adjacent |
| DicomStore.CleanupNameSpec | src/store/dicom.ts:90-92 | `cleanupName` keeps the name's non-space characters in order, neither starts nor ends with white space, has single plain spaces only, and is empty exactly when the name is all white space |
| DicomStore.DisplayNameSpec | src/store/dicom.ts:94-99 | a description with a visible character names the series after cleanup; an empty description defers to the series number; when the chosen text cleans to nothing the series instance UID is used, which is the case for a description of white space only |
| DicomStore.ParseList | src/store/dicom.ts:110-111 | one parse per backslash-separated part, in order, and at least one part |
| DicomStore.GetWindowLevels | src/store/dicom.ts:101-120 | width and level are present together; they are present exactly when both tags are given and non-empty and every part of each parses; they are then the first width and the first level |
| DicomStore.SingleWindowValues | src/store/dicom.ts:101-120 | single-valued tags parse to their two values, or to neither when one fails to parse |
| DicomStore.TagOr | src/store/dicom.ts:168-177 | a missing or all-white-space tag gives the fallback; any other gives its text without surrounding white space, non-empty, neither starting nor ending with white space, with every other character kept; a non-empty fallback always gives a non-empty result |
| DicomStore.PatientInfoOf | src/store/dicom.ts:172-177 | the patient ID falls back to "ANONYMOUS", the name to "Anonymous", birth date and sex to the empty string, so the ID and the name are never empty |
| DicomStore.StoredWindow | src/store/dicom.ts:197-201 | the store takes the first parsed width and level exactly when both tags are present and non-empty, every value of each parses, and neither first value is zero; otherwise the stored values stay |
| DicomStore.StoredWindowIdempotent | src/store/dicom.ts:197-201 | loading the same tags a second time leaves the window the first load left |
| DicomStore.StoredWindowSingleValues | src/store/dicom.ts:197-201 | with one value per tag, the store takes the two parsed numbers exactly when both parse and neither is zero, and keeps its values otherwise |
| Strings.TrimStartSpec | src/store/dicom.ts:91 | `trimStart` removes a prefix made of white space only and leaves a string that is empty or starts with a non-space character |
| Strings.TrimEndSpec | src/store/dicom.ts:91 | `trimEnd` removes a suffix made of white space only and leaves a string that is empty or ends with a non-space character |
| Strings.TrimSpec | src/store/dicom.ts:91 | `trim` yields a piece of its input with only white space on either side, and no white space at either end |
| Strings.TrimStartFixed | src/store/dicom.ts:169 | a string not starting with white space is its own `trimStart` |
| Strings.TrimEndFixed | src/store/dicom.ts:169 | a string not ending with white space is its own `trimEnd` |
| Strings.TrimIdempotent | src/store/dicom.ts:169 | trimming an already trimmed tag changes nothing |
| Strings.Split | src/store/dicom.ts:110-111 | `split` on one character always yields at least one piece |
| Strings.SplitPiecesLackSeparator | src/io/dicomRTParser.ts:112 | no piece of a split contains the separator |
| Strings.SplitJoin | src/io/dicomRTParser.ts:112 | joining the pieces with the separator gives back the input |
| Strings.SplitConcat | src/io/dicomRTParser.ts:112 | a separator between two strings splits into the pieces of each side |
| Strings.SplitWithoutSeparator | src/store/dicom.ts:110-111 | a string without the separator splits into itself alone |
| Strings.DigitChar | src/store/id.ts:14 | a digit's character is the decimal digit of that value |
| Strings.NatToDecimal | src/store/id.ts:14 | `toString` of a non-negative integer is a non-empty string of decimal digits |
| Strings.DecimalRoundTrip | src/store/id.ts:14 | reading the decimal string back gives the number |
| Strings.DecimalInjective | src/store/id.ts:14 | distinct numbers give distinct strings |
| OrderedMaps.Get | src/io/dicomHierarchy.ts:106 | `get` finds nothing exactly when no entry has the key, and otherwise returns a value stored under it |
| OrderedMaps.Put | src/io/dicomHierarchy.ts:116 | `set` replaces the value of an existing key where it stands and otherwise appends one entry; keys and all other entries stay |
| OrderedMaps.GetAt | src/io/dicomHierarchy.ts:106 | with distinct keys, `get` of an entry's key is that entry's value |
| OrderedMaps.PutSpec | src/io/dicomHierarchy.ts:106-116 | after `set(k, v)` keys stay distinct, `get(k)` is `v` and every other key keeps its value |
| OrderedMaps.Values | src/io/dicomHierarchy.ts:163 | the values in entry order, one per entry |
| OrderedMaps.FirstIndex | src/io/dicomRTParser.ts:1290-1292 | `findIndex` gives the first position satisfying the predicate, or none when no position does |
| DicomTags.GetString | src/io/dicomRTParser.ts:31-41 | `getString` never throws: a missing, empty or unreadable element gives the default, otherwise the trimmed text |
| DicomTags.GetOptionalString | src/io/dicomRTParser.ts:43-53 | `getOptionalString` is undefined exactly when the element is missing, empty or unreadable, and otherwise agrees with `getString` |
| DicomTags.GetNumber | src/io/dicomRTParser.ts:55-73 | `getNumber` gives the default for a missing, empty or unreadable element; otherwise the float reading of the first value, which is `NaN` exactly when that value does not parse, so the integer reading never decides |
| DicomTags.GetOptionalNumber | src/io/dicomRTParser.ts:75-87 | `getOptionalNumber` is undefined exactly for a missing, empty or unreadable element; otherwise it is the float reading of the first value, `NaN` included, as `getNumber` gives it |
| DicomTags.ParseFloat | src/io/dicomRTParser.ts:61 | `parseFloat` as a JavaScript number: `NaN` exactly when the text does not parse, otherwise the parsed number |
| DicomTags.ParseInt | src/io/dicomRTParser.ts:63 | `parseInt` as a JavaScript number: `NaN` exactly when the text does not parse, otherwise an integer |
| DicomTags.StrictEquals | src/io/dicomRTParser.ts:704-706 | `===` on numbers holds exactly for two equal values; `NaN` equals nothing, itself included |
| DicomTags.ValueTokens | src/io/dicomRTParser.ts:95-112 | the values of an element that is present, readable and not blank after trimming: at least one |
| DicomTags.ParsedTokens | src/io/dicomRTParser.ts:114-122 | one reading per value |
| DicomTags.GetNumberArray | src/io/dicomRTParser.ts:89-127 | the lenient loop computes the lenient decoding of the values, or the default when it is empty or the element gives no values |
| DicomTags.GetOptionalNumberArray | src/io/dicomRTParser.ts:129-177 | the strict loop computes the strict decoding, giving up on the first blank or unparsable value |
| DicomTags.StrictNoneExtends | src/io/dicomRTParser.ts:156-173 | once a prefix of the values fails the strict decoding, the whole list fails, which justifies the early return |
| DicomTags.StrictNumbersSpec | src/io/dicomRTParser.ts:156-173 | the strict decoding succeeds exactly when every value was read, and then holds one number per value, in order |
| DicomTags.LenientNumbersSpec | src/io/dicomRTParser.ts:113-123 | the lenient decoding is exactly the numbers that were read, in their order |
| DicomTags.StrictAgreesWithLenient | src/io/dicomRTParser.ts:89-177 | when the strict decoding succeeds the lenient one gives the same numbers |
| DicomTags.OptionalArrayAgreesWithArray | src/io/dicomRTParser.ts:89-177 | where `getOptionalNumberArray` finds numbers, `getNumberArray` finds the same ones whatever its default |
| DicomTags.OptionalArraySpec | src/io/dicomRTParser.ts:129-177 | `getOptionalNumberArray` is undefined exactly when there are no values or one is blank or unparsable; otherwise one number per value |
| DicomTags.NumberArraySpec | src/io/dicomRTParser.ts:89-127 | `getNumberArray` gives its default when no value parses, and otherwise exactly the parsed values in order |
| RTParser.NonEmpty | src/io/dicomRTParser.ts:740-741 | a list is kept exactly when it is non-empty, and is then unchanged |
| RTParser.GetSOPCommonData | src/io/dicomRTParser.ts:575-601 | identifying strings fall back to the empty string and optional ones are present exactly when their element is readable |
| RTParser.ContourPointsIndexed | src/io/dicomRTParser.ts:725-733 | point k of a contour is (data[3k], data[3k+1], data[3k+2]) and there are length / 3 points |
| RTParser.ContourPointsCount | src/io/dicomRTParser.ts:725-733 | contour data whose length is a multiple of three loses no number |
| RTParser.DecodeContourPoints | src/io/dicomRTParser.ts:725-733 | the point loop builds exactly the complete triples, in order |
| RTParser.ContourPointsAsWritten | src/io/dicomRTParser.ts:727-733 | the loop as written yields ceil(length / 3) points, the last one reading past the end of the data |
| RTParser.ContourTailPointUndefined | src/io/dicomRTParser.ts:727-733 | four numbers of contour data give a second point with undefined y and z, where the complete-triple decoding gives one point |
| RTParser.FindRoiContour | src/io/dicomRTParser.ts:704-706 | `find` returns the first ROI-contour item whose referenced ROI number is `===` the ROI's, or nothing exactly when none is |
| RTParser.ParseRTStruct | src/io/dicomRTParser.ts:603-778 | one ROI per structure-set ROI item, one observation per observation item, one frame of reference per item; a missing series description becomes the empty string and a missing series number 0 |
| RTParser.RoiContoursJoin | src/io/dicomRTParser.ts:685-761 | ROI k carries the number of ROI item k and the contours of the first ROI-contour item whose referenced number is `===` it, and none when no item is |
| RTParser.NaNRoiHasNoContours | src/io/dicomRTParser.ts:686-706 | an ROI whose number does not parse, or a structure set whose ROI-contour items' referenced numbers all do not parse, leaves the ROI without contours |
| RTParser.ContourDataDecoded | src/io/dicomRTParser.ts:716-748 | each contour's points are the complete triples of its lenient contour data, and an empty contour-image list becomes undefined |
| RTParser.DvhPairsIndexed | src/io/dicomRTParser.ts:790-794 | pair k is (data[2k], data[2k+1]) and there are length / 2 pairs, so a dangling last number is dropped |
| RTParser.DecodeDvhPairs | src/io/dicomRTParser.ts:789-794 | the DVH loop builds exactly the complete pairs, in order |
| RTParser.FixedLength | src/io/dicomRTParser.ts:813-833 | the decoded array when it has the expected length, and the fallback otherwise; either way the expected length |
| RTParser.TissueHeterogeneityCorrection | src/io/dicomRTParser.ts:853-861 | the block throws exactly when the element is present and non-empty but unreadable; otherwise it keeps the trimmed non-blank values of a readable element in order, undefined when none is kept or the element is missing or empty |
| RTParser.NonBlankValuesSpec | src/io/dicomRTParser.ts:858-861 | every kept value is non-blank, and no more values are kept than there are |
| RTParser.ParseRTDose | src/io/dicomRTParser.ts:780-880 | the decoder throws, with the library's message, exactly when the tissue heterogeneity correction element cannot be read; otherwise pixel spacing, position and orientation always have 2, 3 and 6 numbers, with their fallbacks when the data has another length; samples per pixel defaults to 1; the DVH list is undefined exactly when there are no DVH items and otherwise has one entry per item; the correction values are the trimmed non-blank values |
| RTParser.DvhDataDecoded | src/io/dicomRTParser.ts:786-809 | every histogram's data are the complete pairs of its lenient number array |
| RTParser.Isocenter | src/io/dicomRTParser.ts:941-948 | the isocenter is kept exactly when the strict decoding gives three numbers |
| RTParser.ParseRTPlan | src/io/dicomRTParser.ts:882-1059 | one beam per beam item and one fraction group per group item, one control point per control-point item of each beam; dose references and tolerance tables are undefined exactly when their sequences are empty |
| RTParser.SplitValues | src/io/dicomRTParser.ts:1068-1069 | a non-empty string is split into its backslash-separated values, which join back to it; absent and empty strings give undefined |
| RTParser.WindowValueOf | src/io/dicomRTParser.ts:1072-1081 | one window value becomes a number, several stay a list, none stays undefined |
| RTParser.WithLength | src/io/dicomRTParser.ts:1083-1113 | an optional array is kept exactly when it has the expected length |
| RTParser.IsCompressed | src/io/dicomRTParser.ts:1136-1143 | compressed exactly when a non-empty transfer syntax is given and it is none of the three uncompressed ones |
| RTParser.ParseImage | src/io/dicomRTParser.ts:1061-1216 | instance and series UIDs come from their tags, a missing instance number is 0, pixel data is flagged exactly when its element is present, geometry arrays have their fixed lengths, and a compressed image has a transfer syntax |
| RTHierarchy.FillIfEmpty | src/io/dicomRTParser.ts:1255-1260 | a field keeps a non-empty value, and an empty one takes a non-empty incoming value |
| RTHierarchy.UpsertPatient | src/io/dicomRTParser.ts:1241-1261 | a file's patient is the first with its ID, whose empty name, birth date and sex are filled in and nothing else changes; without one, a new patient is appended |
| RTHierarchy.UpsertStudy | src/io/dicomRTParser.ts:1264-1284 | a file's study is the first with its UID, whose empty study ID is filled in; without one, a new study is appended |
| RTHierarchy.PlaceRT | src/io/dicomRTParser.ts:1287-1337 | an RT object replaces the first series entry of the same kind with the same series UID, and is otherwise appended |
| RTHierarchy.PlaceRTKeepsUnique | src/io/dicomRTParser.ts:1287-1337 | placing an RT object keeps at most one entry per kind and series UID, and the object ends up in the list |
| RTHierarchy.GetAllValues | src/io/dicomRTParser.ts:1364-1370 | a value read from a map all of whose values have a property has it |
| RTHierarchy.PutAllValues | src/io/dicomRTParser.ts:1356-1371 | storing a value with a property in a map all of whose values have it keeps that so |
| RTHierarchy.AddToBucketsSpec | src/io/dicomRTParser.ts:1351-1371 | bucketing an image creates its study and series buckets when missing, keeps every key unique, and leaves the image under its instance UID |
| RTHierarchy.UnsupportedMessage | src/io/dicomRTParser.ts:1373-1375 | the message names the missing SOP class exactly when the class UID is empty |
| RTHierarchy.Classify | src/io/dicomRTParser.ts:1287-1380 | the three RT SOP classes give RT objects of their kind, except that an RT Dose whose decoder throws is a failure carrying the library's message; otherwise a known image SOP class or image modality gives an image, and anything else is unsupported with its message |
| RTHierarchy.AddObject | src/io/dicomRTParser.ts:1238-1395 | a decoder failure adds one parse error and lists the file as unrecognized unless it already is, with the patient and study already created; otherwise errors never change and only an unsupported file is listed; only an image goes into the buckets |
| RTHierarchy.InsertPermutes | src/io/dicomRTParser.ts:1452-1454 | inserting an instance into a sorted list adds exactly that instance |
| RTHierarchy.InsertSorted | src/io/dicomRTParser.ts:1452-1454 | inserting into a list sorted by instance number keeps it sorted |
| RTHierarchy.SortBySpec | src/io/dicomRTParser.ts:1452-1454 | the instances are sorted by instance number and are a permutation of the bucket's |
| RTHierarchy.MakeImageSeries | src/io/dicomRTParser.ts:1416-1457 | an image series carries its series UID and the first instance's file name, and its instances are the bucket's, sorted by instance number |
| RTHierarchy.BuildImageSeries | src/io/dicomRTParser.ts:1415-1461 | the series loop builds one image series per bucket of the study, in bucket order |
| RTHierarchy.ReadDicomRT | src/io/dicomRTParser.ts:1218-1467 | `readDicomRT` builds hierarchy, unrecognized files and errors with phase one over the files and phase two over the image buckets |
| RTHierarchy.ProcessAllFiles | src/io/dicomRTParser.ts:1233-1396 | the file loop computes the phase-one state of all files, in order |
| RTHierarchy.AttachAllImages | src/io/dicomRTParser.ts:1399-1464 | the bucket loop attaches every study's image series to the first patient holding that study |
| RTHierarchy.AttachStudyImages | src/io/dicomRTParser.ts:1401-1462 | the image series of one study are appended to that study of the first patient that has it; with no such patient nothing changes |
| RTHierarchy.UpsertPatientKeepsWellFormed | src/io/dicomRTParser.ts:1241-1261 | finding or creating the patient keeps patient IDs unique, study UIDs unique per patient and at most one RT entry per kind and series UID per study |
| RTHierarchy.UpsertStudyKeepsUnique | src/io/dicomRTParser.ts:1264-1284 | finding or creating the study keeps the patient's study UIDs unique |
| RTHierarchy.ReplacePatientKeepsWellFormed | src/io/dicomRTParser.ts:1241-1261 | writing back an updated patient with the same ID keeps the hierarchy well formed |
| RTHierarchy.ReplaceStudyKeepsUnique | src/io/dicomRTParser.ts:1264-1284 | writing back an updated study with the same UID keeps the patient well formed |
| RTHierarchy.AddObjectKeepsWellFormed | src/io/dicomRTParser.ts:1238-1380 | handling one decoded file keeps the hierarchy well formed |
| RTHierarchy.ProcessFilesWellFormed | src/io/dicomRTParser.ts:1233-1396 | after phase one the hierarchy is well formed, whatever the files |
| RTHierarchy.ImageSeriesEntriesAreImages | src/io/dicomRTParser.ts:1423-1460 | phase two only adds image series |
| RTHierarchy.AttachStudyKeepsWellFormed | src/io/dicomRTParser.ts:1401-1462 | appending image series to a study keeps the hierarchy well formed |
| RTHierarchy.AppendImagesKeepsUniqueRT | src/io/dicomRTParser.ts:1460 | appending image series keeps at most one RT entry per kind and series UID |
| RTHierarchy.AttachImagesKeepsWellFormed | src/io/dicomRTParser.ts:1399-1464 | phase two keeps the hierarchy well formed |
| RTHierarchy.ReadDicomRTWellFormed | src/io/dicomRTParser.ts:1218-1467 | the hierarchy `readDicomRT` returns has unique patient IDs, unique study UIDs per patient and at most one RT object per kind and series UID per study |
| RTHierarchy.ProcessFilesUniqueBuckets | src/io/dicomRTParser.ts:1356-1371 | the image buckets never hold a study, series or instance UID twice |
| RTHierarchy.ProcessFileErrors | src/io/dicomRTParser.ts:1233-1395 | one file adds a parse error exactly when it cannot be decoded or is an RT Dose whose tissue heterogeneity correction element cannot be read, carrying the thrown message or "Unknown parsing error" |
| RTHierarchy.ErrorsAreFailures | src/io/dicomRTParser.ts:1233-1396 | the errors are exactly those of the failing files, undecodable files and RT Doses whose decoder throws, in input order, each with its message |
| RTHierarchy.CountListedSpec | src/io/dicomRTParser.ts:1389 | a file is listed as unrecognized exactly when some entry carries its name |
| RTHierarchy.FailureRecordedOnce | src/io/dicomRTParser.ts:1381-1395 | a failing file adds one error, is listed as unrecognized only when not yet listed, and buckets no image; an undecodable file changes no patient, and an RT Dose that throws leaves its patient and study created |
| DicomHierarchy.GetTag | src/io/dicomHierarchy.ts:46-53 | a present tag gives its trimmed value, a missing one the default |
| DicomHierarchy.FindOrCreateStudy | src/io/dicomHierarchy.ts:120-134 | the patient's study with the group's UID is found, and a new study is appended only when none has it |
| DicomHierarchy.ParseDicomHierarchy | src/io/dicomHierarchy.ts:38-164 | the group loop computes the hierarchy: skipped groups leave the patients unchanged, and the patients come out in first-seen order |
| DicomHierarchy.FoundPatient | src/io/dicomHierarchy.ts:106-117 | the patient looked up or created for an ID carries that ID and has unique study UIDs |
| DicomHierarchy.FiledPatientUnique | src/io/dicomHierarchy.ts:119-151 | filing a new series into the found or created study keeps the patient's study UIDs and the study's series UIDs unique |
| DicomHierarchy.PutKeepsWellKeyed | src/io/dicomHierarchy.ts:116 | storing a patient under its own ID keeps every entry keyed by its patient's ID, with unique keys |
| DicomHierarchy.AddSeriesKeepsWellKeyed | src/io/dicomHierarchy.ts:105-160 | filing one series keeps the map well keyed, with unique studies and series |
| DicomHierarchy.StepsWellKeyed | src/io/dicomHierarchy.ts:67-161 | after any sequence of groups the map is well keyed |
| DicomHierarchy.HierarchyUnique | src/io/dicomHierarchy.ts:38-164 | the returned patients have distinct IDs, and each patient's studies distinct UIDs and each study's series distinct UIDs |
| DicomHierarchy.RepeatedSeriesChangesNothing | src/io/dicomHierarchy.ts:138-160 | a series UID already filed under the study changes nothing |
| DicomHierarchy.UnusableGroupSkipped | src/io/dicomHierarchy.ts:69-103 | an empty group, a group whose tags could not be read, or one without study or series UID changes nothing |
| DicomHierarchy.AddSeriesKeepsPatients | src/io/dicomHierarchy.ts:105-117 | filing a series adds at most one patient, keeps the order of the others, never changes an existing patient's name, birth date or sex, and changes no other patient |
| DicomHierarchy.AddSeriesFiles | src/io/dicomHierarchy.ts:136-151 | whenever filing a series changes the hierarchy, the series appears under the group's study of the group's patient |
| DicomHierarchy.NewSeriesCountsFiles | src/io/dicomHierarchy.ts:142-150 | a new series holds the group's files, and its slice count is their number |
| DicomHierarchy.EmptyInput | src/io/dicomHierarchy.ts:41-43 | no files give no patients |
| SliceIntersect.AxisOf | src/components/SliceViewerROI.tsx:29-37 | superior and inferior views fix the z coordinate, posterior and anterior the y coordinate, and the others the x coordinate |
| SliceIntersect.SlicePosition | src/components/SliceViewerROI.tsx:39-46 | with origin and spacing the slice index maps to origin + index × spacing along the fixed axis, and otherwise it is taken as the position |
| SliceIntersect.MinDistanceSpec | src/components/SliceViewerROI.tsx:52-66 | the running minimum is at most every point's distance from the slice and equals one of them |
| SliceIntersect.OnSliceSpec | src/components/SliceViewerROI.tsx:49-71 | a contour is on the slice exactly when some point lies within the tolerance of it, so an empty contour never is |
| SliceIntersect.ContoursNearSpec | src/components/SliceViewerROI.tsx:48-72 | a point list is in the result exactly when it is the data of one of the ROI's contours and lies on the slice |
| SliceIntersect.FindContoursForSlice | src/components/SliceViewerROI.tsx:20-75 | the contour loop computes the on-slice contours, in order |
| SliceIntersect.Plane | src/components/SliceViewerROI.tsx:92-101 | the plane lists the two free axes in increasing order, then the fixed axis |
| SliceIntersect.Project | src/components/SliceViewerROI.tsx:118-126 | a point becomes its two in-plane coordinates followed by the slice position |
| SliceIntersect.ProjectAll | src/components/SliceViewerROI.tsx:118-126 | three numbers per point |
| SliceIntersect.ProjectAllAt | src/components/SliceViewerROI.tsx:118-126 | numbers 3j to 3j+2 are the projection of point j |
| SliceIntersect.Kept | src/components/SliceViewerROI.tsx:115 | only contours of at least three points are drawn |
| SliceIntersect.Range | src/components/SliceViewerROI.tsx:134-136 | n consecutive point ids |
| SliceIntersect.RangeAt | src/components/SliceViewerROI.tsx:134-136 | id i of the run is start + i |
| SliceIntersect.Snoc | src/components/SliceViewerROI.tsx:111-140 | one more contour adds nothing when it has fewer than three points, and otherwise its projected points and one cell over them |
| SliceIntersect.Step | src/components/SliceViewerROI.tsx:111-140 | one iteration of the contour loop: the next point id is the number of points so far, and the arrays grow as for one more contour |
| SliceIntersect.PushPoints | src/components/SliceViewerROI.tsx:118-126 | the point loop appends the projection of every contour point, in order |
| SliceIntersect.PushIds | src/components/SliceViewerROI.tsx:134-136 | the id loop appends n consecutive ids from the start index |
| SliceIntersect.PushLineCell | src/components/SliceViewerROI.tsx:112-139 | an outline appends the contour's points and a cell of point count + 1 ids that returns to the first point |
| SliceIntersect.PushFillCell | src/components/SliceViewerROI.tsx:185-204 | a fill appends the contour's points and a cell of point count ids |
| SliceIntersect.CreateContourLines | src/components/SliceViewerROI.tsx:78-146 | the outline arrays are the projected points of the drawn contours and their closed cells |
| SliceIntersect.CreateContourFills | src/components/SliceViewerROI.tsx:149-213 | the fill arrays are the projected points of the drawn contours and their open cells |
| SliceIntersect.DecodeAppend | src/components/SliceViewerROI.tsx:128-139 | reading cells back from two concatenated cell arrays reads each in turn |
| SliceIntersect.DecodeOneCell | src/components/SliceViewerROI.tsx:131-138 | a count followed by that many ids reads back as one cell |
| SliceIntersect.ExpectedSnoc | src/components/SliceViewerROI.tsx:111-140 | the expected cells of one more contour are those before plus its own cell when it is drawn |
| SliceIntersect.CellsDecode | src/components/SliceViewerROI.tsx:128-139 | the connectivity array reads back, count by count, as one cell per drawn contour, whose ids run over that contour's points (closing on its first for outlines) |
| SliceIntersect.TotalPrefix | src/components/SliceViewerROI.tsx:112 | the points before a contour plus its own never exceed the total |
| SliceIntersect.CellIdsInRange | src/components/SliceViewerROI.tsx:111-140 | every id of every cell names a point of the point array |
| SliceIntersect.PointsLength | src/components/SliceViewerROI.tsx:111-126 | the point array has three numbers per point of the drawn contours |
| SliceIntersect.SliceOfConcat | src/components/SliceViewerROI.tsx:125 | a triple of a concatenation lies in one part or the other |
| SliceIntersect.PointsAt | src/components/SliceViewerROI.tsx:111-126 | point j of drawn contour k sits at its offset in the point array, projected |
| SliceIntersect.PointsAtEarlier | src/components/SliceViewerROI.tsx:111-126 | one more contour leaves the earlier points where they were |
| SliceIntersect.PointsAtLast | src/components/SliceViewerROI.tsx:111-126 | a drawn last contour's points follow all the earlier ones |


Each row names a member whose own contract states the property. The
specification functions below carry no contract of their own; the rows
named after each state their properties:

- `Strings.Trim`, `Strings.TrimStart`, `Strings.TrimEnd` (src/store/dicom.ts:91): `Strings.TrimSpec`, `Strings.TrimStartSpec`, `Strings.TrimEndSpec`, `Strings.TrimIdempotent`.
- `DicomStore.CollapseSpaces`, `DicomStore.CleanupName` (src/store/dicom.ts:90-92): `DicomStore.CollapseKeepsNonSpace`, `DicomStore.CollapseEnds`, `DicomStore.CollapseSingles`, `DicomStore.CleanupNameSpec`.
- `DicomStore.GetDisplayName` (src/store/dicom.ts:94-99): `DicomStore.DisplayNameSpec`.
- `LoadFiles.FindBaseDicom` (src/core/loadFiles.ts:26-59): `LoadFiles.FindBaseDicomSpec`.
- `LoadFiles.IsSegmentation` (src/core/loadFiles.ts:61-65): `LoadFiles.SegmentationBySuffix`, `LoadFiles.NoDotNoSegmentation`.
- `LoadFiles.FilterLoadableDataSources` (src/core/loadFiles.ts:84-90): `LoadFiles.FilterLoadableSpec`.
- `LoadFiles.FindBaseDataSource` (src/core/loadFiles.ts:92-103): `LoadFiles.FindBaseDataSourceSpec`.
- `ImportCommon.IsLoadableResult`, `ImportCommon.IsVolumeResult` (src/io/import/common.ts:39-52): `ImportCommon.VolumeResultSpec`.
- `ImportCommon.IsArchive` (src/io/import/common.ts:33-37): `ImportCommon.FileArchiveByType`.
- `DataSources.IsRemoteDataSource` (src/io/import/dataSource.ts:101-103): `DataSources.IsRemoteSpec`, `DataSources.RemoteAncestor`, `DataSources.AncestorMakesRemote`, `DataSources.RemoteFileIsRemote`.
- `Chains.Evaluate` (src/utils/evaluateChain.ts:10-23): `Chains.FirstAnswerWins`, `Chains.AllSkipUnhandled`, `Chains.AnswerComesFromACalledHandler`, `Chains.EvaluateChain`.
- `RoiVisibility.SetAll` (src/store/roi.ts:47-55): `RoiVisibility.SetAllSpec`, `RoiVisibility.RoiStore.SetAllRoiVisibility`.
- `RTParser.ContourPoints` (src/io/dicomRTParser.ts:725-733): `RTParser.ContourPointsIndexed`, `RTParser.ContourPointsCount`, `RTParser.DecodeContourPoints`.
- `RTParser.DvhPairs` (src/io/dicomRTParser.ts:789-794): `RTParser.DvhPairsIndexed`, `RTParser.DecodeDvhPairs`.
- `RTParser.ThcValues`, `RTParser.NonBlankValues` (src/io/dicomRTParser.ts:853-861): `RTParser.TissueHeterogeneityCorrection`, `RTParser.ParseRTDose`, `RTParser.NonBlankValuesSpec`.
- `RTHierarchy.ProcessFile`, `RTHierarchy.RecordFailure`, `RTHierarchy.FileErrors`, `RTHierarchy.Failures` (src/io/dicomRTParser.ts:1233-1395): `RTHierarchy.ProcessFileErrors`, `RTHierarchy.ErrorsAreFailures`, `RTHierarchy.FailureRecordedOnce`, `RTHierarchy.AddObjectKeepsWellFormed`.
- `RTHierarchy.SortBy` (src/io/dicomRTParser.ts:1452-1454): `RTHierarchy.SortBySpec`, `RTHierarchy.MakeImageSeries`.
- `RTHierarchy.AttachStudy` (src/io/dicomRTParser.ts:1401-1462): `RTHierarchy.AttachStudyImages`, `RTHierarchy.AttachStudyKeepsWellFormed`.
- `DicomHierarchy.AddSeries`, `DicomHierarchy.Step`, `DicomHierarchy.Hierarchy` (src/io/dicomHierarchy.ts:38-164): `DicomHierarchy.AddSeriesKeepsWellKeyed`, `DicomHierarchy.AddSeriesKeepsPatients`, `DicomHierarchy.AddSeriesFiles`, `DicomHierarchy.StepsWellKeyed`, `DicomHierarchy.HierarchyUnique`, `DicomHierarchy.ParseDicomHierarchy`.
- `SliceIntersect.ContoursNear`, `SliceIntersect.MinDistance` (src/components/SliceViewerROI.tsx:48-72): `SliceIntersect.ContoursNearSpec`, `SliceIntersect.MinDistanceSpec`, `SliceIntersect.FindContoursForSlice`.
- `SliceIntersect.Points`, `SliceIntersect.Cells` (src/components/SliceViewerROI.tsx:111-140): `SliceIntersect.PointsLength`, `SliceIntersect.PointsAt`, `SliceIntersect.CellsDecode`, `SliceIntersect.CellIdsInRange`, `SliceIntersect.CreateContourLines`, `SliceIntersect.CreateContourFills`.

## Left out

- Byte-level DICOM parsing (`dicomParser.parseDicom`, `TextDecoder`, element offsets) belongs to an external library. A dataset is an abstract tag map. A file that fails to decode is an input variant carrying the thrown message.
- An element the library cannot read makes every library call on it throw. The model also makes the two array readers treat it as unusable: they fall back just as they do on a thrown error.
- ITK calls are external: `readDicomTagsFromItk`, `DICOM.splitAndSort` and `DICOM.buildImage`. The series groups of `parseDicomHierarchy` and their tags are inputs, and a tag read that throws is a group without tags.
- Geometric slice sorting, spacing inference and volume construction happen inside ITK and are not part of this model.
- vtk.js objects are not modelled: polydata, actors, widget representations and the image object. The intersector returns the plain arrays it would hand to `vtkPolyData`.
- The `Float32Array`/`Uint32Array` conversion of the intersector's arrays is not modelled. Point coordinates stay exact reals.
- Images.AddVTKImageData: it runs the nested `updateData` in sequence, so the metadata carries the image's geometry, as evidently intended. What the store's middleware does instead is modelled on values by `Images.AddVTKImageDataAsWritten` (see Findings); the zustand and immer machinery itself is not modelled.
- The `lpsOrientation` field of image metadata is not modelled. It comes from `getLPSDirections` in src/utils/lps.ts, which is not part of this model.
- Camera.ComputeParallelScale: requires positive dimensions and a positive view size. The source computes with any numbers, including zero or negative sizes, which can divide by zero.
- The camera-moving wrappers (`resizeToFit`, `positionCamera`, `resetCameraToImage`) drive vtk.js cameras and are left out. From `resizeToFitImage` only the extent computation is kept.
- `isFulfilled`, `Deferred` and `defer` in src/utils/index.ts are promise helpers and are left out.
- `loadDataSoruces` in src/core/loadFiles.ts and the store actions of src/store/dicom.ts (`loadFiles`, `buildVolume`) are asynchronous orchestration and are left out. The helpers and decisions inside them are modelled.
- `parseFloat`, `parseInt`, `vec3.distance` and `toFixed` are abstract function parameters. A decoded single number is a `Number`, a real or `NaN`; IEEE rounding, infinities and arithmetic on `NaN` are not modelled.
- What the parsing library throws when it cannot read an element is a parameter (`RTParser.Runtime.readError`), since the library is not part of this model.
- `console.warn` and `console.error` are not modelled.
- The volume information `findBaseDicom` reads from the DICOM store is a map parameter. Modality priorities are looked up in the source's own table; keys inherited from `Object.prototype` are not modelled.
- The comparator of `findBaseDicom` is inconsistent when both slice counts are missing: each side sorts after the other. The model keeps such candidates in input order, as a stable sort would.
- `Array.prototype.sort` is modelled as a stable insertion sort by instance number. A missing instance number counts as 0.
- RTHierarchy.InstanceNumber: a `NaN` instance number is sorted as 0. In the source the comparator then returns `NaN`, which the sort reads as "equal" to every other instance; that comparator is inconsistent and the order it gives is implementation-defined.
- Slicing.Patched: the slice, its bounds and the slice mode are integers where the source's are JavaScript numbers, so a fractional slice such as 2.5 is not modelled; and a patch field that is absent and one that is explicitly `undefined` are both `None`, which keeps the entry's value. In the source `{...entry, ...patch}` copies an explicit `undefined` over the entry's value.
- RulerWidget: the manipulator's pick and the widget manager's active state are parameters. The callbacks a handler would invoke are returned as a list of notices.
- Chains.EvaluateChain: handlers are pure functions of the request and the context. Asynchronous handlers are not modelled.

## Findings

| source | as written | input that shows it | evidently intended | confidence | as-written member | corrected member |
|---|---|---|---|---|---|---|
| src/io/dicomRTParser.ts:727-733 | the contour loop steps by three while `i < length`, so when the length is not a multiple of three the last point reads past the end and gets `undefined` coordinates | contour data `1\2\3\4` gives a second point (4, undefined, undefined) | one point per complete (x, y, z) triple | not executed | RTParser.ContourTailPointUndefined | RTParser.DecodeContourPoints |
| src/store/file.ts:31-38 | `getDataSources` and `getFiles` read `fileStore`, the state captured once when the module loads; immer replaces the state object on every update, so they always see the empty initial store | `addFiles("a", [s])` then `getDataSources("a")` gives `[]` | read the store's current state and return `[s]` | not executed | FileStore.AsWrittenMissesAddedFiles | FileStore.FileStore.AddFiles |
| src/store/image.ts:57-62 | the producer calls `state.updateData`, whose nested `set` commits on the state from before the call, where the new id has no metadata; the enclosing producer's result then replaces every record, so the image's geometry is never stored | `addVTKImageData("ct", img)` for an image whose dimensions are not (1, 1, 1) stores metadata with dimensions (1, 1, 1) | store the name with the image's geometry | not executed | Images.AsWrittenLosesGeometry | Images.ImageStore.AddVTKImageData |
