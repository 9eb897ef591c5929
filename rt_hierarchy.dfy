/**
 * `readDicomRT`: builds the Patient → Study → Series hierarchy from a list
 * of files. Phase one decodes each file, finds or creates its patient and
 * study, and either places an RT object in the study, buckets an image
 * instance by study, series and instance UID, or records the file as
 * unrecognized; a file that fails to decode is recorded as an error. Phase
 * two turns each bucketed image series into a series entry of its study,
 * with its instances sorted by instance number.
 *
 * The hierarchy is a value: where the source updates a node in place, the
 * model rebuilds the sequence that holds it.
 */
module RTHierarchy {
  import opened Wrappers
  import opened DicomTags
  import opened RTParser
  import opened OrderedMaps

  /** A file as `dicomParser.parseDicom` leaves it: a dataset, or a throw (with the `Error`'s message, or `None` for a non-`Error` value). */
  datatype FileContent = Decoded(dataSet: DataSet) | Undecodable(thrown: Option<string>)
  datatype InputFile = InputFile(name: string, content: FileContent)

  datatype ImageSeries = ImageSeries(
    seriesInstanceUID: string, seriesDescription: string, seriesNumber: Number, modality: string,
    frameOfReferenceUID: Option<string>, seriesDate: Option<string>, seriesTime: Option<string>,
    rows: Number, columns: Number, samplesPerPixel: Number, photometricInterpretation: string,
    bitsAllocated: Number, bitsStored: Number, highBit: Number, pixelRepresentation: Number,
    pixelSpacing: Option<seq<real>>, sliceThickness: Option<Number>,
    windowCenter: Option<WindowValue>, windowWidth: Option<WindowValue>, voiLutFunction: Option<string>,
    instances: seq<ParsedImage>, fileName: string)

  /** The members of a study's series list, told apart the way the source does (by a field only that kind has). */
  datatype SeriesEntry =
    | StructSeries(rtStruct: RTStruct)
    | DoseSeries(rtDose: RTDose)
    | PlanSeries(rtPlan: RTPlan)
    | ImageSeriesEntry(imageSeries: ImageSeries)
  {
    function SeriesUID(): string
    {
      match this
      case StructSeries(s) => s.seriesInstanceUID
      case DoseSeries(d) => d.seriesInstanceUID
      case PlanSeries(p) => p.seriesInstanceUID
      case ImageSeriesEntry(i) => i.seriesInstanceUID
    }

    predicate IsRT()
    {
      !ImageSeriesEntry?
    }
  }

  datatype StudyNode = StudyNode(
    studyInstanceUID: string, studyID: Option<string>, studyDate: Option<string>, studyTime: Option<string>,
    accessionNumber: Option<string>, referringPhysicianName: Option<string>, studyDescription: Option<string>,
    series: seq<SeriesEntry>)

  datatype PatientNode = PatientNode(
    patientID: string, patientName: Option<string>, patientBirthDate: Option<string>,
    patientSex: Option<string>, studies: seq<StudyNode>)

  datatype UnrecognizedFile = UnrecognizedFile(fileName: string, error: string)
  datatype ParseError = ParseError(fileName: string, message: string)

  datatype Hierarchy = Hierarchy(patients: seq<PatientNode>, unrecognizedFiles: seq<UnrecognizedFile>, errors: seq<ParseError>)

  /** Image instances bucketed by study UID, then series UID, then instance UID. */
  type ImageBuckets = OrderedMap<OrderedMap<OrderedMap<ParsedImage>>>

  /** The state phase one carries from file to file. */
  datatype Build = Build(
    patients: seq<PatientNode>, unrecognizedFiles: seq<UnrecognizedFile>, errors: seq<ParseError>,
    images: ImageBuckets)

  const UnknownParsingError := "Unknown parsing error"
  const MissingSOPClassMessage := "SOP Class UID not found or unreadable"

  /** JavaScript truthiness of an optional string. */
  predicate Truthy(s: Option<string>)
  {
    s.Some? && s.value != ""
  }

  // ---- Patients and studies ----

  /** A field of an existing node takes the incoming value only when it is empty and the incoming one is not. */
  function FillIfEmpty(current: Option<string>, incoming: Option<string>): (r: Option<string>)
    ensures Truthy(current) ==> r == current
    ensures !Truthy(current) && Truthy(incoming) ==> r == incoming
    ensures !Truthy(incoming) ==> r == current
  {
    if Truthy(incoming) && !Truthy(current) then incoming else current
  }

  /** Finds the patient with the file's patient ID, or appends a new one; returns the list and the patient's position. */
  function UpsertPatient(patients: seq<PatientNode>, c: SOPCommon): (r: (seq<PatientNode>, nat))
    ensures r.1 < |r.0| && r.0[r.1].patientID == c.patientID
    ensures FirstIndex(patients, (p: PatientNode) => p.patientID == c.patientID).None? ==>
      r.0 == patients + [PatientNode(c.patientID, c.patientName, c.patientBirthDate, c.patientSex, [])]
    ensures FirstIndex(patients, (p: PatientNode) => p.patientID == c.patientID).Some? ==>
      && r.1 < |patients| && |r.0| == |patients|
      && (forall j :: 0 <= j < |patients| && j != r.1 ==> r.0[j] == patients[j])
      && r.0[r.1] == patients[r.1].(patientName := FillIfEmpty(patients[r.1].patientName, c.patientName),
                                    patientBirthDate := FillIfEmpty(patients[r.1].patientBirthDate, c.patientBirthDate),
                                    patientSex := FillIfEmpty(patients[r.1].patientSex, c.patientSex))
  {
    match FirstIndex(patients, (p: PatientNode) => p.patientID == c.patientID)
    case None =>
      (patients + [PatientNode(c.patientID, c.patientName, c.patientBirthDate, c.patientSex, [])], |patients|)
    case Some(i) =>
      var p := patients[i];
      (patients[i := p.(patientName := FillIfEmpty(p.patientName, c.patientName),
                        patientBirthDate := FillIfEmpty(p.patientBirthDate, c.patientBirthDate),
                        patientSex := FillIfEmpty(p.patientSex, c.patientSex))], i)
  }

  /** Finds the study with the file's study UID among a patient's studies, or appends a new one. */
  function UpsertStudy(studies: seq<StudyNode>, c: SOPCommon): (r: (seq<StudyNode>, nat))
    ensures r.1 < |r.0| && r.0[r.1].studyInstanceUID == c.studyInstanceUID
    ensures FirstIndex(studies, (s: StudyNode) => s.studyInstanceUID == c.studyInstanceUID).None? ==>
      r.0 == studies + [StudyNode(c.studyInstanceUID, c.studyID, c.studyDate, c.studyTime, c.accessionNumber,
                                  c.referringPhysicianName, c.studyDescription, [])]
    ensures FirstIndex(studies, (s: StudyNode) => s.studyInstanceUID == c.studyInstanceUID).Some? ==>
      var i := r.1;
      && |r.0| == |studies| && i < |studies|
      && (forall j :: 0 <= j < |studies| && j != i ==> r.0[j] == studies[j])
      && r.0[i] == studies[i].(studyID := FillIfEmpty(studies[i].studyID, c.studyID))
  {
    match FirstIndex(studies, (s: StudyNode) => s.studyInstanceUID == c.studyInstanceUID)
    case None =>
      (studies + [StudyNode(c.studyInstanceUID, c.studyID, c.studyDate, c.studyTime, c.accessionNumber,
                            c.referringPhysicianName, c.studyDescription, [])], |studies|)
    case Some(i) =>
      (studies[i := studies[i].(studyID := FillIfEmpty(studies[i].studyID, c.studyID))], i)
  }

  // ---- RT objects ----

  /** `item` is an RT object of the same kind as `e` with the same series UID. */
  predicate SameObject(item: SeriesEntry, e: SeriesEntry)
  {
    ((item.StructSeries? && e.StructSeries?) || (item.DoseSeries? && e.DoseSeries?) || (item.PlanSeries? && e.PlanSeries?))
    && item.SeriesUID() == e.SeriesUID()
  }

  /** Replaces the first RT object of the same kind and series UID in place, or appends. */
  function PlaceRT(series: seq<SeriesEntry>, e: SeriesEntry): (r: seq<SeriesEntry>)
    ensures FirstIndex(series, (item: SeriesEntry) => SameObject(item, e)).Some? ==>
      var i := FirstIndex(series, (item: SeriesEntry) => SameObject(item, e)).value;
      |r| == |series| && r[i] == e && forall j :: 0 <= j < |series| && j != i ==> r[j] == series[j]
    ensures FirstIndex(series, (item: SeriesEntry) => SameObject(item, e)).None? ==> r == series + [e]
  {
    match FirstIndex(series, (item: SeriesEntry) => SameObject(item, e))
    case Some(i) => series[i := e]
    case None => series + [e]
  }

  /** No two RT objects of one kind in a study share a series UID. */
  predicate UniqueRT(series: seq<SeriesEntry>)
  {
    forall i, j :: 0 <= i < j < |series| ==> !SameObject(series[i], series[j])
  }

  /** Placing an RT object keeps RT objects unique per kind and series UID, and the object is then in the study. */
  lemma PlaceRTKeepsUnique(series: seq<SeriesEntry>, e: SeriesEntry)
    requires e.IsRT() && UniqueRT(series)
    ensures UniqueRT(PlaceRT(series, e))
    ensures e in PlaceRT(series, e)
  {
    var r := PlaceRT(series, e);
    var f := FirstIndex(series, (item: SeriesEntry) => SameObject(item, e));
    if f.Some? {
      var i := f.value;
      forall a, b | 0 <= a < b < |r|
        ensures !SameObject(r[a], r[b])
      {
        if a == i {
          assert SameObject(series[i], series[b]) <==> SameObject(e, series[b]);
        } else if b == i {
          assert SameObject(series[a], series[i]) <==> SameObject(series[a], e);
        }
      }
    }
  }

  // ---- Image buckets ----

  /** Every value of the map satisfies `p`. */
  predicate AllValues<V>(m: OrderedMap<V>, p: V -> bool)
  {
    forall i :: 0 <= i < |m| ==> p(m[i].1)
  }

  lemma GetAllValues<V>(m: OrderedMap<V>, k: string, p: V -> bool)
    requires AllValues(m, p) && Get(m, k).Some?
    ensures p(Get(m, k).value)
  {
    var i :| 0 <= i < |m| && m[i] == (k, Get(m, k).value);
  }

  lemma PutAllValues<V>(m: OrderedMap<V>, k: string, v: V, p: V -> bool)
    requires AllValues(m, p) && p(v)
    ensures AllValues(Put(m, k, v), p)
  {
    var r := Put(m, k, v);
    forall i | 0 <= i < |r|
      ensures p(r[i].1)
    {
      if i < |m| && m[i].0 != k {
        assert r[i] == m[i];
      }
    }
  }

  function GetOrEmpty<V>(m: OrderedMap<OrderedMap<V>>, k: string): OrderedMap<V>
  {
    Get(m, k).GetOr([])
  }

  /** `imageSeriesMap.get(study).get(series).set(instance, image)`, creating the inner maps when missing. */
  function AddToBuckets<V>(images: OrderedMap<OrderedMap<OrderedMap<V>>>, studyUID: string, seriesUID: string, instanceUID: string, img: V)
    : OrderedMap<OrderedMap<OrderedMap<V>>>
  {
    var studyMap := GetOrEmpty(images, studyUID);
    var seriesMap := GetOrEmpty(studyMap, seriesUID);
    Put(images, studyUID, Put(studyMap, seriesUID, Put(seriesMap, instanceUID, img)))
  }

  /** A study's map and each of its series maps have distinct keys. */
  predicate UniqueStudyMap<V>(studyMap: OrderedMap<OrderedMap<V>>)
  {
    UniqueKeys(studyMap) && AllValues(studyMap, UniqueKeys)
  }

  /** Keys are distinct at all three levels. */
  predicate UniqueBuckets<V>(images: OrderedMap<OrderedMap<OrderedMap<V>>>)
  {
    UniqueKeys(images) && AllValues(images, UniqueStudyMap)
  }

  /**
   * Adding an instance keeps the buckets' keys distinct, and afterwards the
   * instance is the one stored under its study, series and instance UID:
   * a repeated instance UID overwrites.
   */
  lemma AddToBucketsSpec<V>(images: OrderedMap<OrderedMap<OrderedMap<V>>>, studyUID: string, seriesUID: string, instanceUID: string, img: V)
    requires UniqueBuckets(images)
    ensures var r := AddToBuckets(images, studyUID, seriesUID, instanceUID, img);
      && UniqueBuckets(r)
      && Get(r, studyUID).Some?
      && Get(Get(r, studyUID).value, seriesUID).Some?
      && Get(Get(Get(r, studyUID).value, seriesUID).value, instanceUID) == Some(img)
  {
    var studyMap := GetOrEmpty(images, studyUID);
    if Get(images, studyUID).Some? {
      GetAllValues(images, studyUID, UniqueStudyMap);
    }
    var seriesMap := GetOrEmpty(studyMap, seriesUID);
    if Get(studyMap, seriesUID).Some? {
      GetAllValues(studyMap, seriesUID, UniqueKeys);
    }
    var s3 := Put(seriesMap, instanceUID, img);
    PutSpec(seriesMap, instanceUID, img);
    var s2 := Put(studyMap, seriesUID, s3);
    PutSpec(studyMap, seriesUID, s3);
    PutAllValues(studyMap, seriesUID, s3, UniqueKeys);
    assert UniqueStudyMap(s2);
    PutSpec(images, studyUID, s2);
    PutAllValues(images, studyUID, s2, UniqueStudyMap);
  }

  // ---- Phase one ----

  /** The image condition: a known image SOP class, or one of the image modalities. */
  predicate IsImageObject(c: SOPCommon)
  {
    (exists i :: 0 <= i < |SOPClassToModality| && SOPClassToModality[i].0 == c.sopClassUID)
    || c.modality in ["CT", "MR", "PT", "CR", "US", "XA"]
  }

  function UnsupportedMessage(c: SOPCommon): (r: string)
    ensures c.sopClassUID == "" <==> r == MissingSOPClassMessage
  {
    if c.sopClassUID != "" then
      assert ("Unsupported SOP Class UID: " + c.sopClassUID + " for modality " + c.modality)[0] == 'U';
      "Unsupported SOP Class UID: " + c.sopClassUID + " for modality " + c.modality
    else MissingSOPClassMessage
  }

  /** What a decoded file turns out to hold, or the throw of its decoder. */
  datatype FileObject = RTObject(entry: SeriesEntry) | ImageObject(image: ParsedImage) | Unsupported(message: string)
    | Failed(thrown: Option<string>)

  /** The SOP class dispatch: the three RT classes, then the image condition, then unsupported. */
  function Classify(c: SOPCommon, ds: DataSet, name: string, np: Runtime): (r: FileObject)
    ensures r.Failed? <==> c.sopClassUID == RTDoseSOPClassUID && Unreadable(ds, "x30040014")
    ensures r.Failed? ==> r.thrown == np.readError
    ensures r.RTObject? <==> c.sopClassUID in [RTStructSOPClassUID, RTDoseSOPClassUID, RTPlanSOPClassUID] && !r.Failed?
    ensures r.RTObject? ==> (r.entry.IsRT() && r.entry.StructSeries? == (c.sopClassUID == RTStructSOPClassUID)
                             && r.entry.DoseSeries? == (c.sopClassUID == RTDoseSOPClassUID))
    ensures r.ImageObject? <==> c.sopClassUID !in [RTStructSOPClassUID, RTDoseSOPClassUID, RTPlanSOPClassUID] && IsImageObject(c)
    ensures r.Unsupported? ==> r.message == UnsupportedMessage(c)
  {
    if c.sopClassUID == RTStructSOPClassUID then RTObject(StructSeries(ParseRTStruct(ds, name, np)))
    else if c.sopClassUID == RTDoseSOPClassUID then
      match ParseRTDose(ds, name, np)
      case Parsed(d) => RTObject(DoseSeries(d))
      case Thrown(thrown) => Failed(thrown)
    else if c.sopClassUID == RTPlanSOPClassUID then RTObject(PlanSeries(ParseRTPlan(ds, name, np)))
    else if IsImageObject(c) then ImageObject(ParseImage(ds, name, np))
    else Unsupported(UnsupportedMessage(c))
  }

  predicate Listed(unrecognized: seq<UnrecognizedFile>, name: string)
  {
    exists u :: u in unrecognized && u.fileName == name
  }

  /** The catch block: the file goes to `errors`, and to `unrecognizedFiles` unless a file of that name is already there. */
  function RecordFailure(b: Build, name: string, thrown: Option<string>): Build
  {
    var message := thrown.GetOr(UnknownParsingError);
    b.(errors := b.errors + [ParseError(name, message)],
       unrecognizedFiles := if Listed(b.unrecognizedFiles, name) then b.unrecognizedFiles
                            else b.unrecognizedFiles + [UnrecognizedFile(name, message)])
  }

  /** The patients once the patient and the study of a decoded file have been found or created. */
  function FileStudy(patients: seq<PatientNode>, c: SOPCommon): seq<PatientNode>
  {
    var (patients', pi) := UpsertPatient(patients, c);
    var patient := patients'[pi];
    patients'[pi := patient.(studies := UpsertStudy(patient.studies, c).0)]
  }

  /**
   * Files the patient and study of a decoded file, then places what it
   * holds; a throw of its decoder reaches the catch block with the patient
   * and the study already in place.
   */
  function AddObject(b: Build, name: string, c: SOPCommon, obj: FileObject): (r: Build)
    ensures r.errors == b.errors + (if obj.Failed? then [ParseError(name, obj.thrown.GetOr(UnknownParsingError))] else [])
    ensures !obj.Failed? ==> r.unrecognizedFiles == if obj.Unsupported? then b.unrecognizedFiles + [UnrecognizedFile(name, obj.message)] else b.unrecognizedFiles
    ensures obj.Failed? ==> r.unrecognizedFiles == RecordFailure(b, name, obj.thrown).unrecognizedFiles
    ensures r.images == if obj.ImageObject? then AddToBuckets(b.images, c.studyInstanceUID, obj.image.seriesInstanceUID, obj.image.instanceUID, obj.image) else b.images
    ensures !obj.RTObject? ==> r.patients == FileStudy(b.patients, c)
  {
    var (patients, pi) := UpsertPatient(b.patients, c);
    var patient := patients[pi];
    var (studies, si) := UpsertStudy(patient.studies, c);
    match obj
    case RTObject(e) =>
      b.(patients := patients[pi := patient.(studies := studies[si := studies[si].(series := PlaceRT(studies[si].series, e))])])
    case ImageObject(img) =>
      b.(patients := patients[pi := patient.(studies := studies)],
         images := AddToBuckets(b.images, c.studyInstanceUID, img.seriesInstanceUID, img.instanceUID, img))
    case Unsupported(message) =>
      b.(patients := patients[pi := patient.(studies := studies)],
         unrecognizedFiles := b.unrecognizedFiles + [UnrecognizedFile(name, message)])
    case Failed(thrown) =>
      RecordFailure(b.(patients := patients[pi := patient.(studies := studies)]), name, thrown)
  }

  /** The body of the phase-one loop for one file. */
  function ProcessFile(b: Build, f: InputFile, np: Runtime): Build
  {
    match f.content
    case Undecodable(thrown) => RecordFailure(b, f.name, thrown)
    case Decoded(ds) =>
      var c := GetSOPCommonData(ds, np);
      AddObject(b, f.name, c, Classify(c, ds, f.name, np))
  }

  function ProcessFiles(files: seq<InputFile>, np: Runtime): Build
  {
    if |files| == 0 then Build([], [], [], [])
    else ProcessFile(ProcessFiles(files[..|files| - 1], np), files[|files| - 1], np)
  }

  // ---- Phase two ----

  /** Stable insertion of `x` after every element whose key is not larger. */
  function InsertBy<T>(sorted: seq<T>, x: T, key: T -> real): seq<T>
  {
    if |sorted| == 0 then [x]
    else if key(sorted[|sorted| - 1]) <= key(x) then sorted + [x]
    else InsertBy(sorted[..|sorted| - 1], x, key) + [sorted[|sorted| - 1]]
  }

  /** A stable sort by a numeric key, as `Array.prototype.sort` with `(a, b) => key(a) - key(b)` is. */
  function SortBy<T>(xs: seq<T>, key: T -> real): seq<T>
  {
    if |xs| == 0 then [] else InsertBy(SortBy(xs[..|xs| - 1], key), xs[|xs| - 1], key)
  }

  predicate SortedBy<T>(xs: seq<T>, key: T -> real)
  {
    forall i, j :: 0 <= i < j < |xs| ==> key(xs[i]) <= key(xs[j])
  }

  lemma {:induction false} InsertPermutes<T>(sorted: seq<T>, x: T, key: T -> real)
    ensures multiset(InsertBy(sorted, x, key)) == multiset(sorted) + multiset{x}
  {
    if |sorted| > 0 && key(sorted[|sorted| - 1]) > key(x) {
      InsertPermutes(sorted[..|sorted| - 1], x, key);
      assert sorted == sorted[..|sorted| - 1] + [sorted[|sorted| - 1]];
    }
  }

  lemma {:induction false} InsertSorted<T>(sorted: seq<T>, x: T, key: T -> real)
    requires SortedBy(sorted, key)
    ensures SortedBy(InsertBy(sorted, x, key), key)
  {
    if |sorted| > 0 && key(sorted[|sorted| - 1]) > key(x) {
      var init := sorted[..|sorted| - 1];
      var last := sorted[|sorted| - 1];
      InsertSorted(init, x, key);
      InsertPermutes(init, x, key);
      var r := InsertBy(init, x, key);
      forall k | 0 <= k < |r|
        ensures key(r[k]) <= key(last)
      {
        assert r[k] in multiset(init) + multiset{x};
        if r[k] != x {
          var m :| 0 <= m < |init| && init[m] == r[k];
          assert sorted[m] == r[k];
        }
      }
    }
  }

  /** The sort orders by the key and keeps exactly the elements it was given. */
  lemma {:induction false} SortBySpec<T>(xs: seq<T>, key: T -> real)
    ensures SortedBy(SortBy(xs, key), key)
    ensures multiset(SortBy(xs, key)) == multiset(xs)
  {
    if |xs| > 0 {
      var init := xs[..|xs| - 1];
      SortBySpec(init, key);
      InsertSorted(SortBy(init, key), xs[|xs| - 1], key);
      InsertPermutes(SortBy(init, key), xs[|xs| - 1], key);
      assert xs == init + [xs[|xs| - 1]];
    }
  }

  /**
   * The sort key `a.instanceNumber ?? 0`: a missing instance number already
   * reads as 0 in the parsed image; a `NaN` one is sorted as 0 too.
   */
  function InstanceNumber(img: ParsedImage): real
  {
    match img.instanceNumber
    case Number(v) => v
    case NaN => 0.0
  }

  /** An image series built from its bucket: series attributes from the first inserted instance, instances sorted. */
  function MakeImageSeries(seriesUID: string, bucket: OrderedMap<ParsedImage>): (r: ImageSeries)
    requires |bucket| > 0
    ensures r.seriesInstanceUID == seriesUID && r.fileName == bucket[0].1.fileName
    ensures SortedBy(r.instances, InstanceNumber)
    ensures multiset(r.instances) == multiset(Values(bucket))
  {
    var first := bucket[0].1;
    SortBySpec(Values(bucket), InstanceNumber);
    ImageSeries(
      seriesUID, first.seriesDescription, first.seriesNumber, first.modality, first.frameOfReferenceUID,
      first.sopCommon.seriesDate, first.sopCommon.seriesTime, first.rows, first.columns, first.samplesPerPixel,
      first.photometricInterpretation, first.bitsAllocated, first.bitsStored, first.highBit,
      first.pixelRepresentation, first.pixelSpacing, first.sliceThickness, first.windowCenter,
      first.windowWidth, first.voiLutFunction, SortBy(Values(bucket), InstanceNumber), first.fileName)
  }

  /** The series entries a study's buckets produce, skipping empty buckets, in bucket order. */
  function ImageSeriesEntries(studyMap: OrderedMap<OrderedMap<ParsedImage>>): seq<SeriesEntry>
  {
    if |studyMap| == 0 then []
    else
      var init := ImageSeriesEntries(studyMap[..|studyMap| - 1]);
      var (seriesUID, bucket) := studyMap[|studyMap| - 1];
      if |bucket| == 0 then init else init + [ImageSeriesEntry(MakeImageSeries(seriesUID, bucket))]
  }

  /** The inner loop of phase two: one series entry per non-empty bucket. */
  method BuildImageSeries(studyMap: OrderedMap<OrderedMap<ParsedImage>>) returns (entries: seq<SeriesEntry>)
    ensures entries == ImageSeriesEntries(studyMap)
  {
    entries := [];
    for j := 0 to |studyMap|
      invariant entries == ImageSeriesEntries(studyMap[..j])
    {
      assert studyMap[..j + 1][..j] == studyMap[..j];
      var (seriesUID, instanceMap) := studyMap[j];
      if |instanceMap| == 0 {
        continue;
      }
      entries := entries + [ImageSeriesEntry(MakeImageSeries(seriesUID, instanceMap))];
    }
    assert studyMap[..|studyMap|] == studyMap;
  }

  predicate HasStudy(p: PatientNode, studyUID: string)
  {
    exists s :: s in p.studies && s.studyInstanceUID == studyUID
  }

  /** Appends a study's image series to the first study with that UID in the first patient that has it. */
  function AttachStudy(patients: seq<PatientNode>, studyUID: string, entries: seq<SeriesEntry>): seq<PatientNode>
  {
    match FirstIndex(patients, (p: PatientNode) => HasStudy(p, studyUID))
    case None => patients
    case Some(pi) =>
      var patient := patients[pi];
      match FirstIndex(patient.studies, (s: StudyNode) => s.studyInstanceUID == studyUID)
      case None => patients
      case Some(si) =>
        var study := patient.studies[si];
        patients[pi := patient.(studies := patient.studies[si := study.(series := study.series + entries)])]
  }

  function AttachImages(patients: seq<PatientNode>, images: ImageBuckets): seq<PatientNode>
  {
    if |images| == 0 then patients
    else
      var (studyUID, studyMap) := images[|images| - 1];
      AttachStudy(AttachImages(patients, images[..|images| - 1]), studyUID, ImageSeriesEntries(studyMap))
  }

  /** What `readDicomRT` resolves to. */
  function ReadDicomRTSpec(files: seq<InputFile>, np: Runtime): Hierarchy
  {
    var b := ProcessFiles(files, np);
    Hierarchy(AttachImages(b.patients, b.images), b.unrecognizedFiles, b.errors)
  }

  /** `readDicomRT`: the two phases as the source runs them. */
  method ReadDicomRT(files: seq<InputFile>, np: Runtime) returns (h: Hierarchy)
    ensures h == ReadDicomRTSpec(files, np)
  {
    var b := ProcessAllFiles(files, np);
    var patients := AttachAllImages(b.patients, b.images);
    h := Hierarchy(patients, b.unrecognizedFiles, b.errors);
  }

  /** The first phase: every file read and filed, in order. */
  method ProcessAllFiles(files: seq<InputFile>, np: Runtime) returns (b: Build)
    ensures b == ProcessFiles(files, np)
  {
    b := Build([], [], [], []);
    for i := 0 to |files|
      invariant b == ProcessFiles(files[..i], np)
    {
      assert files[..i + 1][..i] == files[..i];
      b := ProcessFile(b, files[i], np);
    }
    assert files[..|files|] == files;
  }

  /** The second phase: each study's buffered image series attached, in the order the studies were first seen. */
  method AttachAllImages(patients0: seq<PatientNode>, images: ImageBuckets) returns (patients: seq<PatientNode>)
    ensures patients == AttachImages(patients0, images)
  {
    patients := patients0;
    for j := 0 to |images|
      invariant patients == AttachImages(patients0, images[..j])
    {
      assert images[..j + 1][..j] == images[..j];
      var (studyUID, studyMap) := images[j];
      patients := AttachStudyImages(patients, studyUID, studyMap);
    }
    assert images[..|images|] == images;
  }

  /** The second loop's body: one study's image series appended to the study, wherever it was created. */
  method AttachStudyImages(patients: seq<PatientNode>, studyUID: string, studyMap: OrderedMap<OrderedMap<ParsedImage>>)
    returns (r: seq<PatientNode>)
    ensures r == AttachStudy(patients, studyUID, ImageSeriesEntries(studyMap))
  {
    r := patients;
    var pi := FirstIndex(patients, (p: PatientNode) => HasStudy(p, studyUID));
    if pi.Some? {
      var patient := patients[pi.value];
      var si := FirstIndex(patient.studies, (s: StudyNode) => s.studyInstanceUID == studyUID);
      if si.Some? {
        var study := patient.studies[si.value];
        var entries := BuildImageSeries(studyMap);
        r := patients[pi.value := patient.(studies := patient.studies[si.value := study.(series := study.series + entries)])];
      }
    }
  }

  // ---- Properties ----

  predicate UniqueStudies(p: PatientNode)
  {
    (forall i, j :: 0 <= i < j < |p.studies| ==> p.studies[i].studyInstanceUID != p.studies[j].studyInstanceUID)
    && (forall i :: 0 <= i < |p.studies| ==> UniqueRT(p.studies[i].series))
  }

  /** No two patients share an ID, no patient has two studies with one UID, and no study holds two RT objects of one kind with one series UID. */
  predicate WellFormed(patients: seq<PatientNode>)
  {
    (forall i, j :: 0 <= i < j < |patients| ==> patients[i].patientID != patients[j].patientID)
    && (forall i :: 0 <= i < |patients| ==> UniqueStudies(patients[i]))
  }

  lemma UpsertPatientKeepsWellFormed(patients: seq<PatientNode>, c: SOPCommon)
    requires WellFormed(patients)
    ensures WellFormed(UpsertPatient(patients, c).0)
  {
  }

  lemma UpsertStudyKeepsUnique(p: PatientNode, c: SOPCommon)
    requires UniqueStudies(p)
    ensures UniqueStudies(p.(studies := UpsertStudy(p.studies, c).0))
  {
  }

  lemma ReplacePatientKeepsWellFormed(patients: seq<PatientNode>, i: nat, p: PatientNode)
    requires WellFormed(patients) && i < |patients|
    requires p.patientID == patients[i].patientID && UniqueStudies(p)
    ensures WellFormed(patients[i := p])
  {
  }

  lemma ReplaceStudyKeepsUnique(p: PatientNode, j: nat, s: StudyNode)
    requires UniqueStudies(p) && j < |p.studies|
    requires s.studyInstanceUID == p.studies[j].studyInstanceUID && UniqueRT(s.series)
    ensures UniqueStudies(p.(studies := p.studies[j := s]))
  {
  }

  /** Placing one decoded file keeps the hierarchy well formed. */
  lemma AddObjectKeepsWellFormed(b: Build, name: string, c: SOPCommon, obj: FileObject)
    requires WellFormed(b.patients)
    requires obj.RTObject? ==> obj.entry.IsRT()
    ensures WellFormed(AddObject(b, name, c, obj).patients)
  {
    var (patients, pi) := UpsertPatient(b.patients, c);
    UpsertPatientKeepsWellFormed(b.patients, c);
    var patient := patients[pi];
    var (studies, si) := UpsertStudy(patient.studies, c);
    UpsertStudyKeepsUnique(patient, c);
    var withStudy := patient.(studies := studies);
    if obj.RTObject? {
      PlaceRTKeepsUnique(studies[si].series, obj.entry);
      ReplaceStudyKeepsUnique(withStudy, si, studies[si].(series := PlaceRT(studies[si].series, obj.entry)));
      ReplacePatientKeepsWellFormed(patients, pi, patient.(studies := studies[si := studies[si].(series := PlaceRT(studies[si].series, obj.entry))]));
    } else {
      ReplacePatientKeepsWellFormed(patients, pi, withStudy);
    }
  }

  /** Phase one keeps the hierarchy well formed, file after file. */
  lemma {:induction false} ProcessFilesWellFormed(files: seq<InputFile>, np: Runtime)
    ensures WellFormed(ProcessFiles(files, np).patients)
  {
    if |files| > 0 {
      ProcessFilesWellFormed(files[..|files| - 1], np);
      var b := ProcessFiles(files[..|files| - 1], np);
      var f := files[|files| - 1];
      if f.content.Decoded? {
        var c := GetSOPCommonData(f.content.dataSet, np);
        AddObjectKeepsWellFormed(b, f.name, c, Classify(c, f.content.dataSet, f.name, np));
      }
    }
  }

  /** Image series entries never count as RT objects, so appending them keeps a study's RT objects unique. */
  lemma {:induction false} ImageSeriesEntriesAreImages(studyMap: OrderedMap<OrderedMap<ParsedImage>>)
    ensures forall e :: e in ImageSeriesEntries(studyMap) ==> e.ImageSeriesEntry?
  {
    if |studyMap| > 0 {
      ImageSeriesEntriesAreImages(studyMap[..|studyMap| - 1]);
    }
  }

  lemma AttachStudyKeepsWellFormed(patients: seq<PatientNode>, studyUID: string, entries: seq<SeriesEntry>)
    requires WellFormed(patients)
    requires forall e :: e in entries ==> e.ImageSeriesEntry?
    ensures WellFormed(AttachStudy(patients, studyUID, entries))
  {
    var pi := FirstIndex(patients, (p: PatientNode) => HasStudy(p, studyUID));
    if pi.Some? {
      var patient := patients[pi.value];
      var si := FirstIndex(patient.studies, (s: StudyNode) => s.studyInstanceUID == studyUID);
      if si.Some? {
        var study := patient.studies[si.value];
        AppendImagesKeepsUniqueRT(study.series, entries);
        var study' := study.(series := study.series + entries);
        ReplaceStudyKeepsUnique(patient, si.value, study');
        ReplacePatientKeepsWellFormed(patients, pi.value, patient.(studies := patient.studies[si.value := study']));
      }
    }
  }

  /** Appending image series to a study's entries adds no RT object. */
  lemma AppendImagesKeepsUniqueRT(series: seq<SeriesEntry>, entries: seq<SeriesEntry>)
    requires UniqueRT(series)
    requires forall e :: e in entries ==> e.ImageSeriesEntry?
    ensures UniqueRT(series + entries)
  {
    var all := series + entries;
    forall a, b | 0 <= a < b < |all|
      ensures !SameObject(all[a], all[b])
    {
      if b >= |series| {
        assert all[b] == entries[b - |series|];
        assert all[b] in entries;
      } else {
        assert all[a] == series[a] && all[b] == series[b];
      }
    }
  }

  lemma {:induction false} AttachImagesKeepsWellFormed(patients: seq<PatientNode>, images: ImageBuckets)
    requires WellFormed(patients)
    ensures WellFormed(AttachImages(patients, images))
  {
    if |images| > 0 {
      AttachImagesKeepsWellFormed(patients, images[..|images| - 1]);
      var (studyUID, studyMap) := images[|images| - 1];
      ImageSeriesEntriesAreImages(studyMap);
      AttachStudyKeepsWellFormed(AttachImages(patients, images[..|images| - 1]), studyUID, ImageSeriesEntries(studyMap));
    }
  }

  /** The finished hierarchy has one patient per ID, one study per UID within a patient, and one RT object per kind and series UID within a study. */
  lemma ReadDicomRTWellFormed(files: seq<InputFile>, np: Runtime)
    ensures WellFormed(ReadDicomRTSpec(files, np).patients)
  {
    var b := ProcessFiles(files, np);
    ProcessFilesWellFormed(files, np);
    AttachImagesKeepsWellFormed(b.patients, b.images);
  }

  /** Phase one keeps every bucket level free of repeated keys. */
  lemma {:induction false} ProcessFilesUniqueBuckets(files: seq<InputFile>, np: Runtime)
    ensures UniqueBuckets(ProcessFiles(files, np).images)
  {
    if |files| > 0 {
      ProcessFilesUniqueBuckets(files[..|files| - 1], np);
      var b := ProcessFiles(files[..|files| - 1], np);
      var f := files[|files| - 1];
      if f.content.Decoded? {
        var c := GetSOPCommonData(f.content.dataSet, np);
        var obj := Classify(c, f.content.dataSet, f.name, np);
        if obj.ImageObject? {
          AddToBucketsSpec(b.images, c.studyInstanceUID, obj.image.seriesInstanceUID, obj.image.instanceUID, obj.image);
        }
      }
    }
  }

  /**
   * The error a file should leave: one for a file that does not decode,
   * with its thrown message, and one for an RT Dose whose tissue
   * heterogeneity correction element cannot be read, with the library's
   * message; none for any other file.
   */
  function FileErrors(f: InputFile, np: Runtime): seq<ParseError>
  {
    match f.content
    case Undecodable(thrown) => [ParseError(f.name, thrown.GetOr(UnknownParsingError))]
    case Decoded(ds) =>
      if GetSOPCommonData(ds, np).sopClassUID == RTDoseSOPClassUID && Unreadable(ds, "x30040014")
      then [ParseError(f.name, np.readError.GetOr(UnknownParsingError))]
      else []
  }

  /** The errors of every file, in file order. */
  function Failures(files: seq<InputFile>, np: Runtime): seq<ParseError>
  {
    if |files| == 0 then []
    else Failures(files[..|files| - 1], np) + FileErrors(files[|files| - 1], np)
  }

  /** One file adds an error exactly when it fails to decode or its RT Dose decoder throws. */
  lemma ProcessFileErrors(b: Build, f: InputFile, np: Runtime)
    ensures ProcessFile(b, f, np).errors == b.errors + FileErrors(f, np)
  {
  }

  /** Exactly the failing files are recorded in `errors`, in file order, each with its thrown message. */
  lemma {:induction false} ErrorsAreFailures(files: seq<InputFile>, np: Runtime)
    ensures ProcessFiles(files, np).errors == Failures(files, np)
  {
    if |files| > 0 {
      var init := files[..|files| - 1];
      ErrorsAreFailures(init, np);
      ProcessFileErrors(ProcessFiles(init, np), files[|files| - 1], np);
    }
  }

  function CountListed(unrecognized: seq<UnrecognizedFile>, name: string): nat
  {
    if |unrecognized| == 0 then 0
    else CountListed(unrecognized[..|unrecognized| - 1], name) + (if unrecognized[|unrecognized| - 1].fileName == name then 1 else 0)
  }

  lemma {:induction false} CountListedSpec(unrecognized: seq<UnrecognizedFile>, name: string)
    ensures CountListed(unrecognized, name) > 0 <==> Listed(unrecognized, name)
  {
    if |unrecognized| > 0 {
      var init := unrecognized[..|unrecognized| - 1];
      CountListedSpec(init, name);
      assert unrecognized == init + [unrecognized[|unrecognized| - 1]];
    }
  }

  /**
   * A file that fails adds one error with its name and message, and leaves
   * its name listed exactly as often as before, or once if it was not
   * listed: a failing file never makes its name appear twice. No image is
   * bucketed; an undecodable file changes no patient, and an RT Dose that
   * throws leaves its patient and study created.
   */
  lemma FailureRecordedOnce(b: Build, f: InputFile, np: Runtime)
    requires FileErrors(f, np) != []
    ensures var r := ProcessFile(b, f, np);
      && r.errors == b.errors + FileErrors(f, np)
      && Listed(r.unrecognizedFiles, f.name)
      && CountListed(r.unrecognizedFiles, f.name) == (if Listed(b.unrecognizedFiles, f.name) then CountListed(b.unrecognizedFiles, f.name) else 1)
      && r.images == b.images
      && (f.content.Undecodable? ==> r.patients == b.patients)
      && (f.content.Decoded? ==> r.patients == FileStudy(b.patients, GetSOPCommonData(f.content.dataSet, np)))
  {
    var r := ProcessFile(b, f, np);
    CountListedSpec(b.unrecognizedFiles, f.name);
    if !Listed(b.unrecognizedFiles, f.name) {
      assert r.unrecognizedFiles[..|r.unrecognizedFiles| - 1] == b.unrecognizedFiles;
      assert r.unrecognizedFiles[|r.unrecognizedFiles| - 1] in r.unrecognizedFiles;
    }
  }
}
