/**
 * Choosing the primary data source after an import: a DICOM volume of a
 * base modality first, then a plain image that is not a segmentation, then
 * the first loadable result.
 */
module LoadFiles {
  import opened Wrappers
  import Strings
  import Utils
  import OrderedMaps
  import opened DataSources
  import opened ImportCommon

  /** What the DICOM store records for a loaded DICOM volume. A slice count of 0 stands for a missing or zero `NumberOfSlices`. */
  datatype VolumeRecord = VolumeRecord(modality: string, numberOfSlices: nat)

  /** A successful pipeline result: the import results it produced. */
  datatype PipelineSuccess = PipelineSuccess(data: seq<ImportResult>)

  /** `BASE_MODALITY_TYPES`: the priority of each base modality. */
  function ModalityPriority(modality: string): (r: Option<nat>)
    ensures r.Some? <==> modality in {"CT", "MR", "US", "DX"}
    ensures modality == "CT" || modality == "MR" ==> r == Some(3)
    ensures modality == "US" ==> r == Some(2)
    ensures modality == "DX" ==> r == Some(1)
  {
    if modality == "CT" || modality == "MR" then Some(3)
    else if modality == "US" then Some(2)
    else if modality == "DX" then Some(1)
    else None
  }

  /** A DICOM result whose volume is recorded with a base modality. */
  predicate IsBaseDicom(r: ImportResult, volumeInfo: map<string, VolumeRecord>)
  {
    r.dataType == Some(Dicom) && r.dataID.Some? && r.dataID.value in volumeInfo &&
    ModalityPriority(volumeInfo[r.dataID.value].modality).Some?
  }

  /** The position the comparator gives a slice count: more slices first, a missing count after every present one. */
  function SliceRank(slices: nat): int
  {
    if slices > 0 then -(slices as int) else 1
  }

  /** The comparator of `findBaseDicom`: lower priority value first, then by slice rank. */
  predicate SortsBefore(a: ImportResult, b: ImportResult, volumeInfo: map<string, VolumeRecord>)
    requires IsBaseDicom(a, volumeInfo) && IsBaseDicom(b, volumeInfo)
  {
    var ia, ib := volumeInfo[a.dataID.value], volumeInfo[b.dataID.value];
    var pa, pb := ModalityPriority(ia.modality).value, ModalityPriority(ib.modality).value;
    pa < pb || (pa == pb && SliceRank(ia.numberOfSlices) < SliceRank(ib.numberOfSlices))
  }

  /**
   * `findBaseDicom`: the first candidate after a stable sort by the
   * comparator, that is, the earliest of the candidates nothing sorts before.
   */
  function FindBaseDicom(loadables: seq<ImportResult>, volumeInfo: map<string, VolumeRecord>): Option<ImportResult>
  {
    if |loadables| == 0 then None
    else
      var rest := FindBaseDicom(loadables[1..], volumeInfo);
      if !IsBaseDicom(loadables[0], volumeInfo) then rest
      else if rest.Some? && IsBaseDicom(rest.value, volumeInfo) && SortsBefore(rest.value, loadables[0], volumeInfo) then rest
      else Some(loadables[0])
  }

  /**
   * The base DICOM is a candidate that no candidate sorts before, and every
   * candidate ahead of it in the list sorts after it; without candidates
   * there is none.
   */
  lemma {:induction false} FindBaseDicomSpec(loadables: seq<ImportResult>, volumeInfo: map<string, VolumeRecord>)
    ensures FindBaseDicom(loadables, volumeInfo).None? <==>
      forall i :: 0 <= i < |loadables| ==> !IsBaseDicom(loadables[i], volumeInfo)
    ensures FindBaseDicom(loadables, volumeInfo).Some? ==>
      var b := FindBaseDicom(loadables, volumeInfo).value;
      IsBaseDicom(b, volumeInfo) &&
      exists k :: 0 <= k < |loadables| && loadables[k] == b &&
        (forall j :: 0 <= j < |loadables| && IsBaseDicom(loadables[j], volumeInfo) ==> !SortsBefore(loadables[j], b, volumeInfo)) &&
        (forall j :: 0 <= j < k && IsBaseDicom(loadables[j], volumeInfo) ==> SortsBefore(b, loadables[j], volumeInfo))
  {
    if |loadables| > 0 {
      var tail := loadables[1..];
      FindBaseDicomSpec(tail, volumeInfo);
      assert forall i :: 1 <= i < |loadables| ==> loadables[i] == tail[i - 1];
      var rest := FindBaseDicom(tail, volumeInfo);
      var b := FindBaseDicom(loadables, volumeInfo);
      if b.Some? {
        if b == rest {
          var k' :| 0 <= k' < |tail| && tail[k'] == rest.value &&
            (forall j :: 0 <= j < |tail| && IsBaseDicom(tail[j], volumeInfo) ==> !SortsBefore(tail[j], rest.value, volumeInfo)) &&
            (forall j :: 0 <= j < k' && IsBaseDicom(tail[j], volumeInfo) ==> SortsBefore(rest.value, tail[j], volumeInfo));
          assert loadables[k' + 1] == b.value;
        } else {
          assert loadables[0] == b.value;
          if rest.Some? {
            forall j | 0 <= j < |loadables| && IsBaseDicom(loadables[j], volumeInfo)
              ensures !SortsBefore(loadables[j], b.value, volumeInfo)
            {
              if j > 0 {
                assert tail[j - 1] == loadables[j];
              }
            }
          }
        }
      }
    }
  }

  /** `isSegmentation`: a non-empty extension that is one of the name's dot-separated parts after the first. */
  function IsSegmentation(extension: string, name: string): bool
  {
    if extension == "" then false
    else extension in Strings.Split(name, '.')[1..]
  }

  /** A name ending in `.` and the extension is a segmentation of it, whatever comes before. */
  lemma SegmentationBySuffix(extension: string, stem: string)
    requires extension != "" && '.' !in extension
    ensures IsSegmentation(extension, stem + "." + extension)
  {
    Strings.SplitConcat(stem, extension, '.');
    Strings.SplitWithoutSeparator(extension, '.');
    var parts := Strings.Split(stem, '.') + [extension];
    assert stem + "." + extension == stem + ['.'] + extension;
    assert parts[|parts| - 1] == extension;
  }

  /** A name without a dot has no extensions, so it is never a segmentation. */
  lemma NoDotNoSegmentation(extension: string, name: string)
    requires '.' !in name
    ensures !IsSegmentation(extension, name)
  {
    Strings.SplitWithoutSeparator(name, '.');
  }

  /** An image result with a non-empty name that is not a segmentation. */
  predicate IsBaseImage(segmentGroupExtension: string, r: ImportResult)
  {
    r.dataType == Some(Image) &&
    var name := GetDataSourceName(Some(r.dataSource));
    name.Some? && name.value != "" && !IsSegmentation(segmentGroupExtension, name.value)
  }

  /** `findBaseImage`: the first base image in the list. */
  function FindBaseImage(loadables: seq<ImportResult>, segmentGroupExtension: string): (r: Option<ImportResult>)
    ensures r.Some? ==> IsBaseImage(segmentGroupExtension, r.value)
    ensures r.Some? ==> exists k :: 0 <= k < |loadables| && loadables[k] == r.value &&
                                    (forall j :: 0 <= j < k ==> !IsBaseImage(segmentGroupExtension, loadables[j]))
    ensures r.None? <==> forall j :: 0 <= j < |loadables| ==> !IsBaseImage(segmentGroupExtension, loadables[j])
  {
    match OrderedMaps.FirstIndex(loadables, x => IsBaseImage(segmentGroupExtension, x))
      case Some(k) => Some(loadables[k])
      case None => None
  }

  /** `filterLoadableDataSources`: the loadable results of every success, flattened in order. */
  function FilterLoadableDataSources(succeeded: seq<PipelineSuccess>): seq<ImportResult>
  {
    if |succeeded| == 0 then []
    else
      var last := succeeded[|succeeded| - 1];
      FilterLoadableDataSources(succeeded[..|succeeded| - 1]) + Utils.Side(IsLoadableResult, last.data, true)
  }

  /** A result is kept exactly when it is loadable and came from one of the successes. */
  lemma {:induction false} FilterLoadableSpec(succeeded: seq<PipelineSuccess>, x: ImportResult)
    ensures x in FilterLoadableDataSources(succeeded) <==>
      IsLoadableResult(x) && exists i :: 0 <= i < |succeeded| && x in succeeded[i].data
  {
    if |succeeded| > 0 {
      var init := succeeded[..|succeeded| - 1];
      FilterLoadableSpec(init, x);
      Utils.SideMembers(IsLoadableResult, succeeded[|succeeded| - 1].data, true, x);
      assert forall i :: 0 <= i < |init| ==> init[i] == succeeded[i];
      if x in FilterLoadableDataSources(succeeded) && x !in FilterLoadableDataSources(init) {
        assert x in succeeded[|succeeded| - 1].data;
      }
    }
  }

  /** `findBaseDataSource`: the base DICOM if there is one, else the base image, else the first loadable result. */
  function FindBaseDataSource(succeeded: seq<PipelineSuccess>, segmentGroupExtension: string, volumeInfo: map<string, VolumeRecord>): Option<ImportResult>
  {
    var loadables := FilterLoadableDataSources(succeeded);
    var baseDicom := FindBaseDicom(loadables, volumeInfo);
    if baseDicom.Some? then baseDicom
    else
      var baseImage := FindBaseImage(loadables, segmentGroupExtension);
      if baseImage.Some? then baseImage
      else if |loadables| > 0 then Some(loadables[0])
      else None
  }

  /**
   * The chosen source is always a loadable result of one of the successes,
   * and there is none only when nothing loadable was produced. When there
   * is a base DICOM it is the one `findBaseDicom` picks, a candidate no
   * candidate sorts before; otherwise, when there is a base image, it is
   * the first base image; otherwise it is the first loadable result.
   */
  lemma FindBaseDataSourceSpec(succeeded: seq<PipelineSuccess>, segmentGroupExtension: string, volumeInfo: map<string, VolumeRecord>)
    ensures var r := FindBaseDataSource(succeeded, segmentGroupExtension, volumeInfo);
      var loadables := FilterLoadableDataSources(succeeded);
      var anyDicom := exists i :: 0 <= i < |loadables| && IsBaseDicom(loadables[i], volumeInfo);
      var anyImage := exists i :: 0 <= i < |loadables| && IsBaseImage(segmentGroupExtension, loadables[i]);
      && (r.None? <==> |loadables| == 0)
      && (r.Some? ==> IsLoadableResult(r.value) && exists i :: 0 <= i < |succeeded| && r.value in succeeded[i].data)
      && (anyDicom ==>
            (&& r == FindBaseDicom(loadables, volumeInfo) && r.Some? && IsBaseDicom(r.value, volumeInfo)
             && forall j :: 0 <= j < |loadables| && IsBaseDicom(loadables[j], volumeInfo) ==> !SortsBefore(loadables[j], r.value, volumeInfo)))
      && (!anyDicom && anyImage ==>
            (&& r == FindBaseImage(loadables, segmentGroupExtension) && r.Some?
             && IsBaseImage(segmentGroupExtension, r.value)
             && exists k :: 0 <= k < |loadables| && loadables[k] == r.value
                  && forall j :: 0 <= j < k ==> !IsBaseImage(segmentGroupExtension, loadables[j])))
      && (!anyDicom && !anyImage && |loadables| > 0 ==> r == Some(loadables[0]))
  {
    var loadables := FilterLoadableDataSources(succeeded);
    var r := FindBaseDataSource(succeeded, segmentGroupExtension, volumeInfo);
    FindBaseDicomSpec(loadables, volumeInfo);
    if r.Some? {
      assert r.value in loadables;
      FilterLoadableSpec(succeeded, r.value);
    }
  }
}
