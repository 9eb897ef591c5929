/**
 * Decoding of RT Structure Set, RT Dose, RT Plan and image datasets into
 * records (the parse functions of the RT parser). Every field is read with
 * the failure-tolerant accessors of `DicomTags`; the one library call made
 * outside them, in the RT Dose decoder's tissue heterogeneity correction
 * block, can throw, so that decoder returns a `Parse`.
 * The `.map` comprehensions of the source are sequence comprehensions here;
 * the loops that push contour points and DVH pairs are methods proved
 * against the functions the records use.
 */
module RTParser {
  import opened Wrappers
  import opened Strings
  import opened DicomTags

  /**
   * What the decoders take from the JavaScript runtime and the parsing
   * library: the two number parsers, and what the library throws when it
   * cannot read an element (an `Error`'s message, or `None` for a thrown
   * value that is not an `Error`).
   */
  datatype Runtime = Runtime(pf: FloatParser, pi: IntParser, readError: Option<string>)

  // ---- SOP Class UIDs ----
  const RTStructSOPClassUID := "1.2.840.10008.5.1.4.1.1.481.3"
  const RTDoseSOPClassUID := "1.2.840.10008.5.1.4.1.1.481.2"
  const RTPlanSOPClassUID := "1.2.840.10008.5.1.4.1.1.481.5"
  const CTImageSOPClassUID := "1.2.840.10008.5.1.4.1.1.2"
  const MRImageSOPClassUID := "1.2.840.10008.5.1.4.1.1.4"
  const PETImageSOPClassUID := "1.2.840.10008.5.1.4.1.1.128"
  const CRImageSOPClassUID := "1.2.840.10008.5.1.4.1.1.1"
  const EnhancedCTImageSOPClassUID := "1.2.840.10008.5.1.4.1.1.2.1"
  const EnhancedMRImageSOPClassUID := "1.2.840.10008.5.1.4.1.1.4.1"
  const USImageSOPClassUID := "1.2.840.10008.5.1.4.1.1.6.1"
  const XRayAngiographicImageSOPClassUID := "1.2.840.10008.5.1.4.1.1.12.1"

  /** The image SOP classes and the modality each stands for, in declaration order. */
  const SOPClassToModality: seq<(string, string)> := [
    (CTImageSOPClassUID, "CT"), (MRImageSOPClassUID, "MR"), (PETImageSOPClassUID, "PT"),
    (CRImageSOPClassUID, "CR"), (EnhancedCTImageSOPClassUID, "CT"), (EnhancedMRImageSOPClassUID, "MR"),
    (USImageSOPClassUID, "US"), (XRayAngiographicImageSOPClassUID, "XA")]

  /** The transfer syntaxes that are not compressed: implicit VR little endian, explicit little and big endian. */
  const UncompressedTransferSyntaxes: seq<string> := ["1.2.840.10008.1.2", "1.2.840.10008.1.2.1", "1.2.840.10008.1.2.2"]

  // ---- Records ----

  datatype SOPCommon = SOPCommon(
    sopClassUID: string, sopInstanceUID: string, seriesInstanceUID: string, studyInstanceUID: string,
    patientID: string, patientName: Option<string>, patientBirthDate: Option<string>, patientSex: Option<string>,
    studyID: Option<string>, studyDate: Option<string>, studyTime: Option<string>, accessionNumber: Option<string>,
    referringPhysicianName: Option<string>, studyDescription: Option<string>, seriesNumber: Option<Number>,
    seriesDate: Option<string>, seriesTime: Option<string>, seriesDescription: Option<string>, modality: string,
    instanceNumber: Option<Number>, bodyPartExamined: Option<string>, patientPosition: Option<string>,
    laterality: Option<string>)

  datatype StructureSetCommon = StructureSetCommon(
    base: SOPCommon, structureSetLabel: string, structureSetName: Option<string>,
    structureSetDate: Option<string>, structureSetTime: Option<string>)

  datatype ContourImage = ContourImage(
    referencedSOPClassUID: string, referencedSOPInstanceUID: string, referencedFrameNumber: Option<seq<real>>)

  datatype ReferencedSeries = ReferencedSeries(seriesInstanceUID: string, contourImageSequence: Option<seq<ContourImage>>)

  datatype ReferencedStudy = ReferencedStudy(
    referencedSOPClassUID: string, referencedSOPInstanceUID: string,
    rtReferencedSeriesSequence: Option<seq<ReferencedSeries>>)

  datatype ReferencedFrameOfReference = ReferencedFrameOfReference(
    frameOfReferenceUID: string, rtReferencedStudySequence: Option<seq<ReferencedStudy>>)

  datatype RoiObservation = RoiObservation(
    observationNumber: Number, referencedROINumber: Number, roiObservationLabel: Option<string>,
    rtroiInterpretedType: Option<string>, roiInterpreter: Option<string>)

  datatype ContourPoint = ContourPoint(x: real, y: real, z: real)

  datatype RoiContour = RoiContour(
    contourNumber: Option<Number>, contourGeometricType: string, numberOfContourPoints: Number,
    contourData: seq<ContourPoint>, contourImageSequence: Option<seq<ContourImage>>,
    attachedContours: Option<Number>, contourSlabThickness: Option<Number>)

  datatype Roi = Roi(
    roiNumber: Number, referencedFrameOfReferenceUID: string, roiName: Option<string>,
    roiDescription: Option<string>, roiGenerationAlgorithm: Option<string>,
    roiGenerationDescription: Option<string>, roiVolume: Option<Number>, rtroiContours: seq<RoiContour>)

  datatype RTStruct = RTStruct(
    sopCommon: StructureSetCommon, seriesInstanceUID: string, seriesDescription: string, seriesNumber: Number,
    modality: string, referencedFrameOfReferences: seq<ReferencedFrameOfReference>,
    roiObservations: seq<RoiObservation>, rois: seq<Roi>, fileName: string)

  datatype Dvh = Dvh(dvhType: string, doseUnits: string, dvhData: seq<(real, real)>, dvhReferencedROISequence: Option<seq<Number>>)

  datatype PixelData = PixelData(
    rows: Number, columns: Number, pixelSpacing: seq<real>, imagePositionPatient: seq<real>,
    imageOrientationPatient: seq<real>, sliceThickness: Option<Number>, frameOfReferenceUID: string,
    samplesPerPixel: Number, photometricInterpretation: string, bitsAllocated: Number, bitsStored: Number,
    highBit: Number, pixelRepresentation: Number, numberOfFrames: Option<Number>,
    frameIncrementPointer: Option<string>, gridFrameOffsetVector: Option<seq<real>>)

  datatype RTDose = RTDose(
    seriesInstanceUID: string, seriesDescription: string, seriesNumber: Number, modality: string,
    sopCommon: SOPCommon, doseUnits: string, doseType: string, doseSummationType: string,
    doseGridScaling: Option<Number>, tissueHeterogeneityCorrection: Option<seq<string>>,
    dvhs: Option<seq<Dvh>>, pixelDataInfo: PixelData, fileName: string)

  datatype PlanCommon = PlanCommon(
    base: SOPCommon, rtPlanLabel: string, rtPlanName: Option<string>, rtPlanDate: Option<string>,
    rtPlanTime: Option<string>)

  datatype DoseReference = DoseReference(
    doseReferenceNumber: Number, doseReferenceUID: string, doseReferenceStructureType: string,
    doseReferenceType: string, targetPrescriptionDose: Option<Number>, referencedROINumber: Option<Number>)

  datatype FractionGroup = FractionGroup(
    fractionGroupNumber: Number, numberOfFractionsPlanned: Option<Number>, numberOfBeams: Number,
    numberOfBrachyApplicationSetups: Option<Number>, referencedBeams: seq<Number>)

  datatype BeamLimitingDevicePosition = BeamLimitingDevicePosition(rtBeamLimitingDeviceType: string, leafJawPositions: seq<real>)

  datatype ControlPoint = ControlPoint(
    controlPointIndex: Number, nominalBeamEnergy: Option<Number>, doseRateSet: Option<Number>,
    gantryAngle: Option<Number>, beamLimitingDeviceAngle: Option<Number>, patientSupportAngle: Option<Number>,
    tableTopEccentricAngle: Option<Number>, tableTopPitchAngle: Option<Number>, tableTopRollAngle: Option<Number>,
    tableTopVerticalPosition: Option<Number>, tableTopLongitudinalPosition: Option<Number>,
    tableTopLateralPosition: Option<Number>, isocenterPosition: Option<seq<real>>,
    beamLimitingDevicePositionSequence: Option<seq<BeamLimitingDevicePosition>>,
    cumulativeMetersetWeight: Number)

  datatype BeamLimitingDevice = BeamLimitingDevice(
    rtBeamLimitingDeviceType: string, numberOfLeafJawPairs: Option<Number>, leafPositionBoundaries: Option<seq<real>>)

  datatype FluenceMode = FluenceMode(fluenceMode: string, fluenceModeID: Option<string>)

  datatype Beam = Beam(
    beamNumber: Number, beamName: Option<string>, beamDescription: Option<string>, beamType: string,
    radiationType: string, treatmentMachineName: Option<string>, manufacturer: Option<string>,
    institutionName: Option<string>, primaryDosimeterUnit: Option<string>, sourceAxisDistance: Option<Number>,
    beamLimitingDeviceSequence: Option<seq<BeamLimitingDevice>>, numberOfControlPoints: Number,
    controlPointSequence: seq<ControlPoint>, finalCumulativeMetersetWeight: Option<Number>,
    primaryFluenceModeSequence: Option<seq<FluenceMode>>)

  datatype ToleranceTable = ToleranceTable(toleranceTableNumber: Number, toleranceTableLabel: Option<string>, gantryAngleTolerance: Option<Number>)

  datatype RTPlan = RTPlan(
    seriesInstanceUID: string, seriesDescription: string, seriesNumber: Number, modality: string,
    sopCommon: PlanCommon, rtPlanGeometry: string, doseReferenceSequence: Option<seq<DoseReference>>,
    fractionGroups: seq<FractionGroup>, beams: seq<Beam>, toleranceTables: Option<seq<ToleranceTable>>,
    fileName: string)

  /** A decoding that either gives its record or throws (with the `Error`'s message, or `None` for another thrown value). */
  datatype Parse<T> = Parsed(value: T) | Thrown(thrown: Option<string>)

  /** A window centre or width: one number when the element holds one value, the list otherwise. */
  datatype WindowValue = Single(value: real) | Multiple(values: seq<real>)

  datatype ParsedImage = ParsedImage(
    seriesInstanceUID: string, seriesDescription: string, seriesNumber: Number, modality: string,
    sopCommon: SOPCommon, acquisitionNumber: Option<Number>, acquisitionDate: Option<string>,
    acquisitionTime: Option<string>, imageType: Option<seq<string>>, lossyImageCompression: Option<string>,
    frameOfReferenceUID: Option<string>, instanceUID: string, instanceNumber: Number,
    rows: Number, columns: Number, samplesPerPixel: Number, photometricInterpretation: string,
    bitsAllocated: Number, bitsStored: Number, highBit: Number, pixelRepresentation: Number,
    pixelSpacing: Option<seq<real>>, sliceThickness: Option<Number>, sliceLocation: Option<Number>,
    imagePositionPatient: Option<seq<real>>, imageOrientationPatient: Option<seq<real>>,
    rescaleIntercept: Option<Number>, rescaleSlope: Option<Number>, rescaleType: Option<string>,
    windowCenter: Option<WindowValue>, windowWidth: Option<WindowValue>, voiLutFunction: Option<string>,
    numberOfFrames: Option<Number>, frameIncrementPointer: Option<string>, gridFrameOffsetVector: Option<seq<real>>,
    kvp: Option<Number>, exposureTime: Option<Number>, xRayTubeCurrent: Option<Number>, exposure: Option<Number>,
    scanningSequence: Option<seq<string>>, sequenceVariant: Option<seq<string>>, scanOptions: Option<seq<string>>,
    repetitionTime: Option<Number>, echoTime: Option<Number>, inversionTime: Option<Number>, flipAngle: Option<Number>,
    transferSyntaxUID: Option<string>, isCompressed: bool, hasPixelData: bool, fileName: string)

  // ---- Shorthands over the accessors ----

  function Num(ds: DataSet, tag: string, np: Runtime, default: real := 0.0): Number
  {
    GetNumber(ds, tag, np.pf, np.pi, default)
  }

  function OptNum(ds: DataSet, tag: string, np: Runtime): Option<Number>
  {
    GetOptionalNumber(ds, tag, np.pf, np.pi)
  }

  /** `list.length > 0 ? list : undefined`. */
  function NonEmpty<T>(xs: seq<T>): (r: Option<seq<T>>)
    ensures r.None? <==> |xs| == 0
    ensures r.Some? ==> r.value == xs
  {
    if |xs| > 0 then Some(xs) else None
  }

  /** `getSOPCommonData`: the identifying and descriptive attributes every object carries. */
  function GetSOPCommonData(ds: DataSet, np: Runtime): (r: SOPCommon)
    ensures !Readable(ds, "x00100020") ==> r.patientID == ""
    ensures !Readable(ds, "x0020000d") ==> r.studyInstanceUID == ""
    ensures !Readable(ds, "x00080016") ==> r.sopClassUID == ""
    ensures r.patientName.Some? <==> Readable(ds, "x00100010")
    ensures r.studyID.Some? <==> Readable(ds, "x00200010")
  {
    SOPCommon(
      GetString(ds, "x00080016"), GetString(ds, "x00080018"), GetString(ds, "x0020000e"),
      GetString(ds, "x0020000d"), GetString(ds, "x00100020"), GetOptionalString(ds, "x00100010"),
      GetOptionalString(ds, "x00100030"), GetOptionalString(ds, "x00100040"),
      GetOptionalString(ds, "x00200010"), GetOptionalString(ds, "x00080020"),
      GetOptionalString(ds, "x00080030"), GetOptionalString(ds, "x00080050"),
      GetOptionalString(ds, "x00080090"), GetOptionalString(ds, "x00081030"),
      OptNum(ds, "x00200011", np), GetOptionalString(ds, "x00080021"),
      GetOptionalString(ds, "x00080031"), GetOptionalString(ds, "x0008103e"),
      GetString(ds, "x00080060"), OptNum(ds, "x00200013", np),
      GetOptionalString(ds, "x00180015"), GetOptionalString(ds, "x00185100"),
      GetOptionalString(ds, "x00200060"))
  }

  // ---- Contour points ----

  /** Contour data read three numbers at a time: every complete (x, y, z) triple, in order. */
  function ContourPoints(raw: seq<real>): seq<ContourPoint>
  {
    if |raw| < 3 then [] else [ContourPoint(raw[0], raw[1], raw[2])] + ContourPoints(raw[3..])
  }

  /** Point k of the decoded contour is (raw[3k], raw[3k+1], raw[3k+2]); there are |raw| / 3 points. */
  lemma {:induction false} ContourPointsIndexed(raw: seq<real>)
    ensures |ContourPoints(raw)| == |raw| / 3
    ensures forall k :: 0 <= k < |raw| / 3 ==>
      ContourPoints(raw)[k] == ContourPoint(raw[3 * k], raw[3 * k + 1], raw[3 * k + 2])
  {
    if |raw| >= 3 {
      var rest := raw[3..];
      ContourPointsIndexed(rest);
      forall k | 1 <= k < |raw| / 3
        ensures ContourPoints(raw)[k] == ContourPoint(raw[3 * k], raw[3 * k + 1], raw[3 * k + 2])
      {
        assert ContourPoints(raw)[k] == ContourPoints(rest)[k - 1];
        assert rest[3 * (k - 1)] == raw[3 * k];
      }
    }
  }

  /** A contour whose data length is a multiple of three has exactly a third as many points: none is lost. */
  lemma ContourPointsCount(raw: seq<real>)
    requires |raw| % 3 == 0
    ensures 3 * |ContourPoints(raw)| == |raw|
  {
    ContourPointsIndexed(raw);
  }

  /** The point loop of the structure-set decoder: one point per complete triple, in order. */
  method DecodeContourPoints(raw: seq<real>) returns (points: seq<ContourPoint>)
    ensures points == ContourPoints(raw)
  {
    points := [];
    var i := 0;
    while i + 2 < |raw|
      invariant i % 3 == 0 && i <= |raw|
      invariant |points| == i / 3
      invariant forall k :: 0 <= k < |points| ==> points[k] == ContourPoint(raw[3 * k], raw[3 * k + 1], raw[3 * k + 2])
      decreases |raw| - i
    {
      points := points + [ContourPoint(raw[i], raw[i + 1], raw[i + 2])];
      i := i + 3;
    }
    ContourPointsIndexed(raw);
  }

  /** A contour point as the source's loop builds it: `y` and `z` are `undefined` past the end of the data. */
  datatype RawContourPoint = RawContourPoint(x: real, y: Option<real>, z: Option<real>)

  function At(raw: seq<real>, i: nat): Option<real>
  {
    if i < |raw| then Some(raw[i]) else None
  }

  /** The loop as written: it steps by three while `i < length`, so an incomplete last triple still yields a point. */
  function ContourPointsAsWritten(raw: seq<real>): (r: seq<RawContourPoint>)
    ensures |r| == (|raw| + 2) / 3
    ensures forall k :: 0 <= k < |r| ==> r[k] == RawContourPoint(raw[3 * k], At(raw, 3 * k + 1), At(raw, 3 * k + 2))
  {
    seq((|raw| + 2) / 3, k requires 0 <= k < (|raw| + 2) / 3 => RawContourPoint(raw[3 * k], At(raw, 3 * k + 1), At(raw, 3 * k + 2)))
  }

  /** Four numbers of contour data: the loop as written emits a second point whose `y` and `z` are `undefined`. */
  lemma ContourTailPointUndefined()
    ensures var raw := [1.0, 2.0, 3.0, 4.0]; var r := ContourPointsAsWritten(raw);
      |r| == 2 && r[1].y.None? && r[1].z.None? && |ContourPoints(raw)| == 1
  {
    var raw := [1.0, 2.0, 3.0, 4.0];
    ContourPointsIndexed(raw);
  }

  // ---- RT Structure Set ----

  function ContourImageOf(img: DataSet, np: Runtime): ContourImage
  {
    ContourImage(GetString(img, "x00081150"), GetString(img, "x00081155"), OptionalNumberArrayOf(img, "x00081160", np.pf))
  }

  function ContourImagesOf(items: seq<DataSet>, np: Runtime): seq<ContourImage>
  {
    seq(|items|, i requires 0 <= i < |items| => ContourImageOf(items[i], np))
  }

  function ReferencedSeriesOf(series: DataSet, np: Runtime): ReferencedSeries
  {
    ReferencedSeries(GetString(series, "x0020000e"), NonEmpty(ContourImagesOf(Items(series, "x30060016"), np)))
  }

  function ReferencedStudyOf(study: DataSet, np: Runtime): ReferencedStudy
  {
    var series := Items(study, "x30060014");
    ReferencedStudy(
      GetString(study, "x00081150"), GetString(study, "x00081155"),
      NonEmpty(seq(|series|, i requires 0 <= i < |series| => ReferencedSeriesOf(series[i], np))))
  }

  function FrameOfReferenceOf(item: DataSet, np: Runtime): ReferencedFrameOfReference
  {
    var studies := Items(item, "x30060012");
    ReferencedFrameOfReference(
      GetString(item, "x00200052"),
      NonEmpty(seq(|studies|, i requires 0 <= i < |studies| => ReferencedStudyOf(studies[i], np))))
  }

  function ObservationOf(item: DataSet, np: Runtime): RoiObservation
  {
    RoiObservation(
      Num(item, "x30060082", np), Num(item, "x30060084", np), GetOptionalString(item, "x30060085"),
      GetOptionalString(item, "x300600a4"), GetOptionalString(item, "x300600a6"))
  }

  function ContourOf(contour: DataSet, np: Runtime): RoiContour
  {
    RoiContour(
      OptNum(contour, "x30060048", np), GetString(contour, "x30060042"), Num(contour, "x30060046", np),
      ContourPoints(NumberArrayOf(contour, "x30060050", np.pf)),
      NonEmpty(ContourImagesOf(Items(contour, "x30060016"), np)),
      OptNum(contour, "x30060049", np), OptNum(contour, "x30060044", np))
  }

  /** The contours of one ROI-contour item, in sequence order. */
  function ContoursOf(item: DataSet, np: Runtime): seq<RoiContour>
  {
    var contours := Items(item, "x30060040");
    seq(|contours|, i requires 0 <= i < |contours| => ContourOf(contours[i], np))
  }

  /** The ROI number an ROI-contour item refers to. */
  function ReferencedRoiNumber(item: DataSet, np: Runtime): Number
  {
    Num(item, "x30060084", np)
  }

  /** Whether an ROI-contour item refers to `roiNumber` (`===`, so a `NaN` on either side never matches). */
  predicate RefersTo(item: DataSet, roiNumber: Number, np: Runtime)
  {
    StrictEquals(ReferencedRoiNumber(item, np), roiNumber)
  }

  /** `Array.prototype.find` on the ROI-contour items: the first whose referenced ROI number equals `roiNumber`. */
  function FindRoiContour(items: seq<DataSet>, roiNumber: Number, np: Runtime): (r: Option<DataSet>)
    ensures r.None? <==> forall j :: 0 <= j < |items| ==> !RefersTo(items[j], roiNumber, np)
    ensures r.Some? ==>
      exists j :: (0 <= j < |items| && items[j] == r.value
        && RefersTo(items[j], roiNumber, np)
        && forall i :: 0 <= i < j ==> !RefersTo(items[i], roiNumber, np))
  {
    if |items| == 0 then None
    else if RefersTo(items[0], roiNumber, np) then Some(items[0])
    else
      var r := FindRoiContour(items[1..], roiNumber, np);
      assert forall j :: 1 <= j < |items| ==> items[j] == items[1..][j - 1];
      r
  }

  function RoiOf(roiItem: DataSet, roiContours: seq<DataSet>, np: Runtime): Roi
  {
    var roiNumber := Num(roiItem, "x30060022", np);
    var matching := FindRoiContour(roiContours, roiNumber, np);
    Roi(
      roiNumber, GetString(roiItem, "x30060024"), GetOptionalString(roiItem, "x30060026"),
      GetOptionalString(roiItem, "x30060028"), GetOptionalString(roiItem, "x30060036"),
      GetOptionalString(roiItem, "x30060038"), OptNum(roiItem, "x3006002a", np),
      if matching.Some? then ContoursOf(matching.value, np) else [])
  }

  /** `parseRTStruct`. */
  function ParseRTStruct(ds: DataSet, fileName: string, np: Runtime): (r: RTStruct)
    ensures |r.rois| == |Items(ds, "x30060020")|
    ensures |r.roiObservations| == |Items(ds, "x30060080")|
    ensures |r.referencedFrameOfReferences| == |Items(ds, "x30060010")|
    ensures r.seriesDescription == GetOptionalString(ds, "x0008103e").GetOr("")
    ensures !Readable(ds, "x00200011") ==> r.seriesNumber == Number(0.0)
    ensures r.fileName == fileName
  {
    var rois := Items(ds, "x30060020");
    var roiContours := Items(ds, "x30060039");
    var observations := Items(ds, "x30060080");
    var refFoRs := Items(ds, "x30060010");
    RTStruct(
      StructureSetCommon(
        GetSOPCommonData(ds, np), GetString(ds, "x30060002"), GetOptionalString(ds, "x30060004"),
        GetOptionalString(ds, "x30060008"), GetOptionalString(ds, "x30060009")),
      GetString(ds, "x0020000e"), GetOptionalString(ds, "x0008103e").GetOr(""),
      OptNum(ds, "x00200011", np).GetOr(Number(0.0)), GetString(ds, "x00080060"),
      seq(|refFoRs|, i requires 0 <= i < |refFoRs| => FrameOfReferenceOf(refFoRs[i], np)),
      seq(|observations|, i requires 0 <= i < |observations| => ObservationOf(observations[i], np)),
      seq(|rois|, i requires 0 <= i < |rois| => RoiOf(rois[i], roiContours, np)),
      fileName)
  }

  /**
   * ROI k of the structure set carries the number of ROI item k, and its
   * contours come from the first ROI-contour item whose referenced ROI
   * number equals it; with no such item it has no contours.
   */
  lemma RoiContoursJoin(ds: DataSet, fileName: string, np: Runtime, k: nat)
    requires k < |Items(ds, "x30060020")|
    ensures var roi := ParseRTStruct(ds, fileName, np).rois[k]; var cs := Items(ds, "x30060039");
      && roi.roiNumber == Num(Items(ds, "x30060020")[k], "x30060022", np)
      && ((forall j :: 0 <= j < |cs| ==> !RefersTo(cs[j], roi.roiNumber, np)) ==> roi.rtroiContours == [])
      && (forall j :: 0 <= j < |cs| && RefersTo(cs[j], roi.roiNumber, np)
            && (forall i :: 0 <= i < j ==> !RefersTo(cs[i], roi.roiNumber, np))
            ==> roi.rtroiContours == ContoursOf(cs[j], np))
  {
    var roiItem := Items(ds, "x30060020")[k];
    var cs := Items(ds, "x30060039");
    var roiNumber := Num(roiItem, "x30060022", np);
    var m := FindRoiContour(cs, roiNumber, np);
    forall j | 0 <= j < |cs| && RefersTo(cs[j], roiNumber, np)
        && (forall i :: 0 <= i < j ==> !RefersTo(cs[i], roiNumber, np))
      ensures m == Some(cs[j])
    {
      var j' :| 0 <= j' < |cs| && cs[j'] == m.value && RefersTo(cs[j'], roiNumber, np)
        && forall i :: 0 <= i < j' ==> !RefersTo(cs[i], roiNumber, np);
      assert !(j' < j) && !(j < j');
    }
  }

  /**
   * An ROI whose number does not parse (`NaN`) gets no contours, and so
   * does every ROI when the ROI-contour items' referenced numbers do not
   * parse: `NaN` matches nothing.
   */
  lemma NaNRoiHasNoContours(ds: DataSet, fileName: string, np: Runtime, k: nat)
    requires k < |Items(ds, "x30060020")|
    requires ParseRTStruct(ds, fileName, np).rois[k].roiNumber.NaN?
      || forall j :: 0 <= j < |Items(ds, "x30060039")| ==> ReferencedRoiNumber(Items(ds, "x30060039")[j], np).NaN?
    ensures ParseRTStruct(ds, fileName, np).rois[k].rtroiContours == []
  {
    RoiContoursJoin(ds, fileName, np, k);
  }

  /** Each contour's points are the complete triples of its lenient contour data, and strict-parsed reference lists stay `undefined` when empty. */
  lemma ContourDataDecoded(contour: DataSet, np: Runtime)
    ensures var c := ContourOf(contour, np); var raw := NumberArrayOf(contour, "x30060050", np.pf);
      && |c.contourData| == |raw| / 3
      && (forall k :: 0 <= k < |raw| / 3 ==> c.contourData[k] == ContourPoint(raw[3 * k], raw[3 * k + 1], raw[3 * k + 2]))
      && (c.contourImageSequence.None? <==> |Items(contour, "x30060016")| == 0)
  {
    ContourPointsIndexed(NumberArrayOf(contour, "x30060050", np.pf));
  }

  // ---- RT Dose ----

  /** DVH data read two numbers at a time: every complete (dose, volume) pair, in order. */
  function DvhPairs(raw: seq<real>): seq<(real, real)>
  {
    if |raw| < 2 then [] else [(raw[0], raw[1])] + DvhPairs(raw[2..])
  }

  /** Pair k is (raw[2k], raw[2k+1]); there are |raw| / 2 pairs, so a dangling last number is dropped. */
  lemma {:induction false} DvhPairsIndexed(raw: seq<real>)
    ensures |DvhPairs(raw)| == |raw| / 2
    ensures forall k :: 0 <= k < |raw| / 2 ==> DvhPairs(raw)[k] == (raw[2 * k], raw[2 * k + 1])
  {
    if |raw| >= 2 {
      var rest := raw[2..];
      DvhPairsIndexed(rest);
      forall k | 1 <= k < |raw| / 2
        ensures DvhPairs(raw)[k] == (raw[2 * k], raw[2 * k + 1])
      {
        assert DvhPairs(raw)[k] == DvhPairs(rest)[k - 1];
        assert rest[2 * (k - 1)] == raw[2 * k];
      }
    }
  }

  /** The DVH loop: steps by two and pushes a pair only when its second number exists. */
  method DecodeDvhPairs(raw: seq<real>) returns (pairs: seq<(real, real)>)
    ensures pairs == DvhPairs(raw)
  {
    pairs := [];
    var i := 0;
    while i < |raw|
      invariant i % 2 == 0 && i <= |raw| + 1
      invariant |pairs| == (if i <= |raw| then i / 2 else |raw| / 2)
      invariant forall k :: 0 <= k < |pairs| ==> pairs[k] == (raw[2 * k], raw[2 * k + 1])
      decreases |raw| - i
    {
      if i + 1 < |raw| {
        pairs := pairs + [(raw[i], raw[i + 1])];
      }
      i := i + 2;
    }
    DvhPairsIndexed(raw);
  }

  function DvhOf(item: DataSet, np: Runtime): Dvh
  {
    var rois := Items(item, "x30040060");
    Dvh(
      GetString(item, "x30040052"), GetString(item, "x30040002"),
      DvhPairs(NumberArrayOf(item, "x30040058", np.pf)),
      NonEmpty(seq(|rois|, i requires 0 <= i < |rois| => Num(rois[i], "x30060084", np))))
  }

  /** A number array of a fixed length, or the given fallback when the decoded array has another length. */
  function FixedLength(arr: seq<real>, n: nat, fallback: seq<real>): (r: seq<real>)
    requires |fallback| == n
    ensures |r| == n
    ensures |arr| == n ==> r == arr
    ensures |arr| != n ==> r == fallback
  {
    if |arr| == n then arr else fallback
  }

  /** The non-blank values of a multi-valued text element (`numStringValues` and `string(tag, i)`). */
  function NonBlankValues(values: seq<string>): seq<string>
  {
    if |values| == 0 then []
    else
      var head := NonBlankValues(values[..|values| - 1]);
      var v := Trim(values[|values| - 1]);
      if v != "" then head + [v] else head
  }

  /**
   * `numStringValues` with `string(tag, i)`, the calls the tissue
   * heterogeneity correction block makes outside any `try`: the element's
   * backslash-separated values, `undefined` for an absent or empty element,
   * or a throw for one the library cannot read.
   */
  function ThcValues(ds: DataSet): Access<seq<string>>
  {
    if "x30040014" !in ds.elements || ds.elements["x30040014"].text == "" then Returned(None)
    else if !ds.elements["x30040014"].readable then Threw
    else Returned(Some(Split(ds.elements["x30040014"].text, Backslash)))
  }

  /**
   * The tissue heterogeneity correction block: keeps the trimmed non-blank
   * values, in order, and `undefined` for none; an unreadable element makes
   * it throw, and with it the whole RT Dose decoding.
   */
  method TissueHeterogeneityCorrection(ds: DataSet) returns (thc: Access<seq<string>>)
    ensures thc.Threw? <==> Unreadable(ds, "x30040014")
    ensures !Unreadable(ds, "x30040014") ==> thc == Returned(
      if Readable(ds, "x30040014") then NonEmpty(NonBlankValues(Split(ds.elements["x30040014"].text, Backslash))) else None)
  {
    var numThc := ThcValues(ds);
    if numThc.Threw? {
      return Threw;
    }
    var thcStrings: seq<string> := [];
    if numThc.value.Some? {
      var values := numThc.value.value;
      for i := 0 to |values|
        invariant thcStrings == NonBlankValues(values[..i])
      {
        assert values[..i + 1][..i] == values[..i];
        var val := Trim(values[i]);
        if val != "" {
          thcStrings := thcStrings + [val];
        }
      }
      assert values[..|values|] == values;
    }
    thc := Returned(NonEmpty(thcStrings));
  }

  /** Every kept value is non-blank, and none is longer than the value it came from. */
  lemma {:induction false} NonBlankValuesSpec(values: seq<string>)
    ensures |NonBlankValues(values)| <= |values|
    ensures forall k :: 0 <= k < |NonBlankValues(values)| ==> NonBlankValues(values)[k] != ""
  {
    if |values| > 0 {
      NonBlankValuesSpec(values[..|values| - 1]);
    }
  }

  function PixelDataOf(ds: DataSet, np: Runtime): PixelData
  {
    PixelData(
      Num(ds, "x00280010", np), Num(ds, "x00280011", np),
      FixedLength(NumberArrayOf(ds, "x00280030", np.pf), 2, [1.0, 1.0]),
      FixedLength(NumberArrayOf(ds, "x00200032", np.pf), 3, [0.0, 0.0, 0.0]),
      FixedLength(NumberArrayOf(ds, "x00200037", np.pf), 6, [1.0, 0.0, 0.0, 0.0, 1.0, 0.0]),
      OptNum(ds, "x00180050", np), GetString(ds, "x00200052"), Num(ds, "x00280002", np, 1.0),
      GetString(ds, "x00280004"), Num(ds, "x00280100", np), Num(ds, "x00280101", np),
      Num(ds, "x00280102", np), Num(ds, "x00280103", np), OptNum(ds, "x00280008", np),
      GetOptionalString(ds, "x00280009"), OptionalNumberArrayOf(ds, "x3004000c", np.pf))
  }

  /** `parseRTDose`: the dose record, or the throw of its tissue heterogeneity correction block. */
  function ParseRTDose(ds: DataSet, fileName: string, np: Runtime): (r: Parse<RTDose>)
    ensures r.Thrown? <==> Unreadable(ds, "x30040014")
    ensures r.Thrown? ==> r.thrown == np.readError
    ensures r.Parsed? ==> var d := r.value;
      && |d.pixelDataInfo.pixelSpacing| == 2 && |d.pixelDataInfo.imagePositionPatient| == 3
      && |d.pixelDataInfo.imageOrientationPatient| == 6
      && (|NumberArrayOf(ds, "x00280030", np.pf)| != 2 ==> d.pixelDataInfo.pixelSpacing == [1.0, 1.0])
      && (|NumberArrayOf(ds, "x00200032", np.pf)| != 3 ==> d.pixelDataInfo.imagePositionPatient == [0.0, 0.0, 0.0])
      && (|NumberArrayOf(ds, "x00200037", np.pf)| != 6 ==>
            d.pixelDataInfo.imageOrientationPatient == [1.0, 0.0, 0.0, 0.0, 1.0, 0.0])
      && (!Readable(ds, "x00280002") ==> d.pixelDataInfo.samplesPerPixel == Number(1.0))
      && (d.dvhs.None? <==> |Items(ds, "x30040050")| == 0)
      && (d.dvhs.Some? ==> |d.dvhs.value| == |Items(ds, "x30040050")|)
      && d.seriesDescription == GetOptionalString(ds, "x0008103e").GetOr("")
      && d.tissueHeterogeneityCorrection ==
           (if Readable(ds, "x30040014") then NonEmpty(NonBlankValues(Split(ds.elements["x30040014"].text, Backslash))) else None)
      && d.fileName == fileName
  {
    var dvhItems := Items(ds, "x30040050");
    match ThcValues(ds)
    case Threw => Thrown(np.readError)
    case Returned(thc) =>
      Parsed(RTDose(
        GetString(ds, "x0020000e"), GetOptionalString(ds, "x0008103e").GetOr(""),
        OptNum(ds, "x00200011", np).GetOr(Number(0.0)), GetString(ds, "x00080060"), GetSOPCommonData(ds, np),
        GetString(ds, "x30040002"), GetString(ds, "x30040004"), GetString(ds, "x3004000a"),
        OptNum(ds, "x3004000e", np),
        match thc case None => None case Some(vs) => NonEmpty(NonBlankValues(vs)),
        NonEmpty(seq(|dvhItems|, i requires 0 <= i < |dvhItems| => DvhOf(dvhItems[i], np))),
        PixelDataOf(ds, np), fileName))
  }

  /** The DVH data of every histogram are the complete pairs of its lenient number array. */
  lemma DvhDataDecoded(item: DataSet, np: Runtime)
    ensures var raw := NumberArrayOf(item, "x30040058", np.pf); var d := DvhOf(item, np).dvhData;
      |d| == |raw| / 2 && forall k :: 0 <= k < |d| ==> d[k] == (raw[2 * k], raw[2 * k + 1])
  {
    DvhPairsIndexed(NumberArrayOf(item, "x30040058", np.pf));
  }

  // ---- RT Plan ----

  function DoseReferenceOf(item: DataSet, np: Runtime): DoseReference
  {
    DoseReference(
      Num(item, "x300a0012", np), GetString(item, "x300a0013"), GetString(item, "x300a0014"),
      GetString(item, "x300a001a"), OptNum(item, "x300a0026", np), OptNum(item, "x30060084", np))
  }

  function FractionGroupOf(item: DataSet, np: Runtime): FractionGroup
  {
    var beams := Items(item, "x300a0080");
    FractionGroup(
      Num(item, "x300a0071", np), OptNum(item, "x300a0078", np), Num(item, "x300a007a", np),
      OptNum(item, "x300a007c", np),
      seq(|beams|, i requires 0 <= i < |beams| => Num(beams[i], "x300c0006", np)))
  }

  /** An isocenter is kept only when the strict decoding gives exactly three numbers. */
  function Isocenter(arr: Option<seq<real>>): (r: Option<seq<real>>)
    ensures r.Some? <==> arr.Some? && |arr.value| == 3
    ensures r.Some? ==> r == arr
  {
    if arr.Some? && |arr.value| == 3 then arr else None
  }

  function ControlPointOf(cp: DataSet, np: Runtime): ControlPoint
  {
    var blds := Items(cp, "x300a011a");
    ControlPoint(
      Num(cp, "x300a0112", np), OptNum(cp, "x300a0114", np), OptNum(cp, "x300a0115", np),
      OptNum(cp, "x300a011e", np), OptNum(cp, "x300a0120", np), OptNum(cp, "x300a0122", np),
      OptNum(cp, "x300a0124", np), OptNum(cp, "x300a0232", np), OptNum(cp, "x300a0234", np),
      OptNum(cp, "x300a0128", np), OptNum(cp, "x300a0129", np), OptNum(cp, "x300a012a", np),
      Isocenter(OptionalNumberArrayOf(cp, "x300a012c", np.pf)),
      NonEmpty(seq(|blds|, i requires 0 <= i < |blds| =>
        BeamLimitingDevicePosition(GetString(blds[i], "x300a00b8"), NumberArrayOf(blds[i], "x300a011c", np.pf)))),
      Num(cp, "x300a0134", np))
  }

  function BeamOf(beam: DataSet, np: Runtime): Beam
  {
    var cps := Items(beam, "x300a0111");
    var blds := Items(beam, "x300a00b6");
    var pfms := Items(beam, "x300a0611");
    Beam(
      Num(beam, "x300a00c0", np), GetOptionalString(beam, "x300a00c2"), GetOptionalString(beam, "x300a00c3"),
      GetString(beam, "x300a00c4"), GetString(beam, "x300a00c6"), GetOptionalString(beam, "x300a00b2"),
      GetOptionalString(beam, "x00080070"), GetOptionalString(beam, "x00080080"),
      GetOptionalString(beam, "x300a00b3"), OptNum(beam, "x300a00b4", np),
      NonEmpty(seq(|blds|, i requires 0 <= i < |blds| =>
        BeamLimitingDevice(GetString(blds[i], "x300a00b8"), OptNum(blds[i], "x300a00bc", np),
          OptionalNumberArrayOf(blds[i], "x300a00be", np.pf)))),
      Num(beam, "x300a0110", np),
      seq(|cps|, i requires 0 <= i < |cps| => ControlPointOf(cps[i], np)),
      OptNum(beam, "x300a010e", np),
      NonEmpty(seq(|pfms|, i requires 0 <= i < |pfms| =>
        FluenceMode(GetString(pfms[i], "x300a0612"), GetOptionalString(pfms[i], "x300a0613")))))
  }

  function ToleranceTableOf(item: DataSet, np: Runtime): ToleranceTable
  {
    ToleranceTable(Num(item, "x300a0042", np), GetOptionalString(item, "x300a0043"), OptNum(item, "x300a0044", np))
  }

  /** `parseRTPlan`. */
  function ParseRTPlan(ds: DataSet, fileName: string, np: Runtime): (r: RTPlan)
    ensures |r.beams| == |Items(ds, "x300a00b0")| && |r.fractionGroups| == |Items(ds, "x300a0070")|
    ensures r.doseReferenceSequence.None? <==> |Items(ds, "x300a0010")| == 0
    ensures r.toleranceTables.None? <==> |Items(ds, "x300a0040")| == 0
    ensures forall k :: 0 <= k < |r.beams| ==> |r.beams[k].controlPointSequence| == |Items(Items(ds, "x300a00b0")[k], "x300a0111")|
    ensures r.seriesDescription == GetOptionalString(ds, "x0008103e").GetOr("")
  {
    var doseRefs := Items(ds, "x300a0010");
    var groups := Items(ds, "x300a0070");
    var beams := Items(ds, "x300a00b0");
    var tolerances := Items(ds, "x300a0040");
    RTPlan(
      GetString(ds, "x0020000e"), GetOptionalString(ds, "x0008103e").GetOr(""),
      OptNum(ds, "x00200011", np).GetOr(Number(0.0)), GetString(ds, "x00080060"),
      PlanCommon(
        GetSOPCommonData(ds, np), GetString(ds, "x300a0002"), GetOptionalString(ds, "x300a0003"),
        GetOptionalString(ds, "x300a0006"), GetOptionalString(ds, "x300a0007")),
      GetString(ds, "x300a000c"),
      NonEmpty(seq(|doseRefs|, i requires 0 <= i < |doseRefs| => DoseReferenceOf(doseRefs[i], np))),
      seq(|groups|, i requires 0 <= i < |groups| => FractionGroupOf(groups[i], np)),
      seq(|beams|, i requires 0 <= i < |beams| => BeamOf(beams[i], np)),
      NonEmpty(seq(|tolerances|, i requires 0 <= i < |tolerances| => ToleranceTableOf(tolerances[i], np))),
      fileName)
  }

  // ---- Images ----

  /** A multi-valued text attribute: split on backslashes when present and non-empty. */
  function SplitValues(s: Option<string>): (r: Option<seq<string>>)
    ensures r.Some? <==> s.Some? && s.value != ""
    ensures r.Some? ==> Join(r.value, Backslash) == s.value
  {
    if s.Some? && s.value != "" then
      SplitJoin(s.value, Backslash);
      Some(Split(s.value, Backslash))
    else None
  }

  /** A window centre or width: a single number for a one-value list, the list otherwise. */
  function WindowValueOf(values: Option<seq<real>>): (r: Option<WindowValue>)
    ensures r.None? <==> values.None?
    ensures r.Some? && r.value.Single? <==> values.Some? && |values.value| == 1
    ensures r.Some? && r.value.Single? ==> r.value.value == values.value[0]
    ensures r.Some? && r.value.Multiple? ==> r.value.values == values.value
  {
    if values.None? then None
    else if |values.value| == 1 then Some(Single(values.value[0]))
    else Some(Multiple(values.value))
  }

  /** An optional array kept only when it has the expected length. */
  function WithLength(arr: Option<seq<real>>, n: nat): (r: Option<seq<real>>)
    ensures r.Some? <==> arr.Some? && |arr.value| == n
    ensures r.Some? ==> r == arr
  {
    if arr.Some? && |arr.value| == n then arr else None
  }

  /** `isCompressed`: a transfer syntax is present, non-empty and not one of the three uncompressed ones. */
  function IsCompressed(transferSyntaxUID: Option<string>): (r: bool)
    ensures r <==> (transferSyntaxUID.Some? && transferSyntaxUID.value != ""
      && transferSyntaxUID.value != "1.2.840.10008.1.2"
      && transferSyntaxUID.value != "1.2.840.10008.1.2.1"
      && transferSyntaxUID.value != "1.2.840.10008.1.2.2")
  {
    if transferSyntaxUID.Some? && transferSyntaxUID.value != "" then transferSyntaxUID.value !in UncompressedTransferSyntaxes
    else false
  }

  /** `parseImage`. */
  function ParseImage(ds: DataSet, fileName: string, np: Runtime): (r: ParsedImage)
    ensures r.instanceUID == GetString(ds, "x00080018") && r.seriesInstanceUID == GetString(ds, "x0020000e")
    ensures !Readable(ds, "x00200013") ==> r.instanceNumber == Number(0.0)
    ensures r.hasPixelData <==> "x7fe00010" in ds.elements
    ensures r.pixelSpacing.Some? ==> |r.pixelSpacing.value| == 2
    ensures r.imagePositionPatient.Some? ==> |r.imagePositionPatient.value| == 3
    ensures r.imageOrientationPatient.Some? ==> |r.imageOrientationPatient.value| == 6
    ensures r.isCompressed ==> r.transferSyntaxUID.Some?
    ensures r.fileName == fileName
  {
    var transferSyntaxUID := GetOptionalString(ds, "x00020010");
    ParsedImage(
      GetString(ds, "x0020000e"), GetOptionalString(ds, "x0008103e").GetOr(""),
      OptNum(ds, "x00200011", np).GetOr(Number(0.0)), GetString(ds, "x00080060"), GetSOPCommonData(ds, np),
      OptNum(ds, "x00200012", np), GetOptionalString(ds, "x00080022"), GetOptionalString(ds, "x00080032"),
      SplitValues(GetOptionalString(ds, "x00080008")), GetOptionalString(ds, "x00282110"),
      GetOptionalString(ds, "x00200052"), GetString(ds, "x00080018"), OptNum(ds, "x00200013", np).GetOr(Number(0.0)),
      Num(ds, "x00280010", np), Num(ds, "x00280011", np), Num(ds, "x00280002", np, 1.0),
      GetString(ds, "x00280004"), Num(ds, "x00280100", np), Num(ds, "x00280101", np),
      Num(ds, "x00280102", np), Num(ds, "x00280103", np),
      WithLength(OptionalNumberArrayOf(ds, "x00280030", np.pf), 2),
      OptNum(ds, "x00180050", np), OptNum(ds, "x00201041", np),
      WithLength(OptionalNumberArrayOf(ds, "x00200032", np.pf), 3),
      WithLength(OptionalNumberArrayOf(ds, "x00200037", np.pf), 6),
      OptNum(ds, "x00281052", np), OptNum(ds, "x00281053", np), GetOptionalString(ds, "x00281054"),
      WindowValueOf(OptionalNumberArrayOf(ds, "x00281050", np.pf)),
      WindowValueOf(OptionalNumberArrayOf(ds, "x00281051", np.pf)),
      GetOptionalString(ds, "x00281056"), OptNum(ds, "x00280008", np), GetOptionalString(ds, "x00280009"),
      OptionalNumberArrayOf(ds, "x3004000c", np.pf),
      OptNum(ds, "x00180060", np), OptNum(ds, "x00181150", np), OptNum(ds, "x00181151", np),
      OptNum(ds, "x00181152", np),
      SplitValues(GetOptionalString(ds, "x00180020")), SplitValues(GetOptionalString(ds, "x00180021")),
      SplitValues(GetOptionalString(ds, "x00180022")),
      OptNum(ds, "x00180080", np), OptNum(ds, "x00180081", np), OptNum(ds, "x00180084", np),
      OptNum(ds, "x00181314", np),
      transferSyntaxUID, IsCompressed(transferSyntaxUID), "x7fe00010" in ds.elements, fileName)
  }
}
