/**
 * `parseDicomHierarchy`: builds the Patient → Study → Series tree from
 * series groups. The grouping of files into series and the reading of
 * tags from a group's first file are done elsewhere and arrive here as the
 * input `groups`: each group carries its files and either the tag record
 * read from its first file, or `None` when reading the tags failed.
 */
module DicomHierarchy {
  import opened Wrappers
  import opened Strings
  import opened OrderedMaps

  /** The tag record of a group: tag name to string value; a name that is absent is not a string. */
  type Tags = map<string, string>

  datatype SeriesGroup<F> = SeriesGroup(files: seq<F>, tags: Option<Tags>)

  datatype Series<F> = Series(
    id: string, seriesInstanceUID: string, modality: string, seriesNumber: string,
    seriesDescription: string, numberOfSlices: nat, files: seq<F>)

  datatype Study<F> = Study(
    id: string, studyInstanceUID: string, studyDate: string, studyTime: string,
    studyDescription: string, accessionNumber: string, series: seq<Series<F>>)

  datatype Patient<F> = Patient(
    id: string, patientID: string, patientName: string, patientBirthDate: string,
    patientSex: string, studies: seq<Study<F>>)

  const AnonymousPatientID := "ANONYMOUS_PATIENT_ID"
  const AnonymousPatientName := "Anonymous"

  /** `getTag`: the trimmed value when the tag holds a string, the default otherwise. */
  function GetTag(tags: Tags, name: string, default: string := ""): (r: string)
    ensures name !in tags ==> r == default
    ensures name in tags ==> r == Trim(tags[name])
  {
    if name in tags then Trim(tags[name]) else default
  }

  function NewPatient<F>(tags: Tags, patientID: string): Patient<F>
  {
    Patient(patientID, patientID, GetTag(tags, "PatientName", AnonymousPatientName),
            GetTag(tags, "PatientBirthDate"), GetTag(tags, "PatientSex"), [])
  }

  function NewStudy<F>(tags: Tags, studyUID: string): Study<F>
  {
    Study(studyUID, studyUID, GetTag(tags, "StudyDate"), GetTag(tags, "StudyTime"),
          GetTag(tags, "StudyDescription"), GetTag(tags, "AccessionNumber"), [])
  }

  function NewSeries<F>(tags: Tags, seriesUID: string, files: seq<F>): Series<F>
  {
    Series(seriesUID, seriesUID, GetTag(tags, "Modality"), GetTag(tags, "SeriesNumber"),
           GetTag(tags, "SeriesDescription"), |files|, files)
  }

  /** The group is processed: it has files, its tags were read, and it names a study and a series. */
  predicate Usable<F>(g: SeriesGroup<F>)
  {
    |g.files| > 0 && g.tags.Some?
    && GetTag(g.tags.value, "StudyInstanceUID") != "" && GetTag(g.tags.value, "SeriesInstanceUID") != ""
  }

  function GroupPatientID<F>(g: SeriesGroup<F>): string
    requires g.tags.Some?
  {
    GetTag(g.tags.value, "PatientID", AnonymousPatientID)
  }

  predicate HasSeries<F>(study: Study<F>, seriesUID: string)
  {
    exists k :: 0 <= k < |study.series| && study.series[k].seriesInstanceUID == seriesUID
  }

  /** The position of the study with the UID of `newStudy`, or `newStudy` appended at the end. */
  function FindOrCreateStudy<F>(studies: seq<Study<F>>, newStudy: Study<F>): (r: (seq<Study<F>>, nat))
    ensures r.1 < |r.0| && r.0[r.1].studyInstanceUID == newStudy.studyInstanceUID
    ensures (exists s :: s in studies && s.studyInstanceUID == newStudy.studyInstanceUID) ==> r.0 == studies
    ensures (forall s :: s in studies ==> s.studyInstanceUID != newStudy.studyInstanceUID) ==> r.0 == studies + [newStudy]
  {
    match FirstIndex(studies, (s: Study<F>) => s.studyInstanceUID == newStudy.studyInstanceUID)
    case Some(si) => (studies, si)
    case None => (studies + [newStudy], |studies|)
  }

  /**
   * Files `series` under the patient with `patientID` (created as
   * `freshPatient` when missing) and the study with the UID of `freshStudy`
   * (created when missing); nothing changes when that study already has a
   * series with the same UID.
   */
  function AddSeries<F>(m: OrderedMap<Patient<F>>, patientID: string, freshPatient: Patient<F>, freshStudy: Study<F>, series: Series<F>)
    : OrderedMap<Patient<F>>
  {
    var patient := Get(m, patientID).GetOr(freshPatient);
    var (studies, si) := FindOrCreateStudy(patient.studies, freshStudy);
    var study := studies[si];
    if HasSeries(study, series.seriesInstanceUID) then m
    else Put(m, patientID, patient.(studies := studies[si := study.(series := study.series + [series])]))
  }

  /** One iteration of the loop over groups, on the patients map. */
  function Step<F>(m: OrderedMap<Patient<F>>, g: SeriesGroup<F>): OrderedMap<Patient<F>>
  {
    if !Usable(g) then m
    else
      var tags := g.tags.value;
      var patientID := GroupPatientID(g);
      AddSeries(m, patientID, NewPatient(tags, patientID), NewStudy(tags, GetTag(tags, "StudyInstanceUID")),
                NewSeries(tags, GetTag(tags, "SeriesInstanceUID"), g.files))
  }

  function Steps<F>(groups: seq<SeriesGroup<F>>): OrderedMap<Patient<F>>
  {
    if |groups| == 0 then [] else Step(Steps(groups[..|groups| - 1]), groups[|groups| - 1])
  }

  /** What `parseDicomHierarchy` resolves to. */
  function Hierarchy<F>(allFiles: seq<F>, groups: seq<SeriesGroup<F>>): seq<Patient<F>>
  {
    if |allFiles| == 0 then [] else Values(Steps(groups))
  }

  /** `parseDicomHierarchy`: the loop over series groups as the source runs it. */
  method ParseDicomHierarchy<F>(allFiles: seq<F>, groups: seq<SeriesGroup<F>>) returns (patients: seq<Patient<F>>)
    ensures patients == Hierarchy(allFiles, groups)
  {
    if |allFiles| == 0 {
      return [];
    }
    var patientsMap: OrderedMap<Patient<F>> := [];
    for i := 0 to |groups|
      invariant patientsMap == Steps(groups[..i])
    {
      assert groups[..i + 1][..i] == groups[..i];
      var g := groups[i];
      if |g.files| == 0 || g.tags.None? {
        continue;
      }
      var tags := g.tags.value;
      var patientID := GetTag(tags, "PatientID", AnonymousPatientID);
      var studyUID := GetTag(tags, "StudyInstanceUID");
      var seriesUID := GetTag(tags, "SeriesInstanceUID");
      if studyUID == "" || seriesUID == "" {
        continue;
      }
      var freshPatient := NewPatient(tags, patientID);
      var freshStudy := NewStudy(tags, studyUID);
      var series := NewSeries(tags, seriesUID, g.files);
      ghost var expected := AddSeries(patientsMap, patientID, freshPatient, freshStudy, series);
      assert Step(patientsMap, g) == expected;
      var found := Get(patientsMap, patientID);
      var patient := if found.Some? then found.value else freshPatient;
      var (studies, studyIndex) := FindOrCreateStudy(patient.studies, freshStudy);
      var study := studies[studyIndex];
      if !HasSeries(study, seriesUID) {
        study := study.(series := study.series + [series]);
        patientsMap := Put(patientsMap, patientID, patient.(studies := studies[studyIndex := study]));
      }
      assert patientsMap == expected;
    }
    assert groups[..|groups|] == groups;
    patients := Values(patientsMap);
  }

  // ---- Properties ----

  predicate UniqueSeries<F>(study: Study<F>)
  {
    forall i, j :: 0 <= i < j < |study.series| ==> study.series[i].seriesInstanceUID != study.series[j].seriesInstanceUID
  }

  predicate UniqueStudies<F>(p: Patient<F>)
  {
    (forall i, j :: 0 <= i < j < |p.studies| ==> p.studies[i].studyInstanceUID != p.studies[j].studyInstanceUID)
    && (forall i :: 0 <= i < |p.studies| ==> UniqueSeries(p.studies[i]))
  }

  /** Each patient is stored under its own ID, once, with distinct studies holding distinct series. */
  predicate WellKeyed<F>(m: OrderedMap<Patient<F>>)
  {
    UniqueKeys(m) && forall i :: 0 <= i < |m| ==> m[i].1.patientID == m[i].0 && UniqueStudies(m[i].1)
  }

  /** A new patient is created under its own ID with no studies. */
  predicate Fresh<F>(patientID: string, freshPatient: Patient<F>)
  {
    freshPatient.patientID == patientID && freshPatient.studies == []
  }

  lemma FoundPatient<F>(m: OrderedMap<Patient<F>>, patientID: string, freshPatient: Patient<F>)
    requires WellKeyed(m) && Fresh(patientID, freshPatient)
    ensures var p := Get(m, patientID).GetOr(freshPatient);
      p.patientID == patientID && UniqueStudies(p)
  {
    if Get(m, patientID).Some? {
      var i :| 0 <= i < |m| && m[i] == (patientID, Get(m, patientID).value);
    }
  }

  /** Appending a series with a new UID to a found or created study keeps the patient's UIDs distinct. */
  lemma FiledPatientUnique<F>(patient: Patient<F>, freshStudy: Study<F>, series: Series<F>)
    requires UniqueStudies(patient) && freshStudy.series == []
    ensures var (studies, si) := FindOrCreateStudy(patient.studies, freshStudy);
      !HasSeries(studies[si], series.seriesInstanceUID) ==>
        UniqueStudies(patient.(studies := studies[si := studies[si].(series := studies[si].series + [series])]))
  {
    var (studies, si) := FindOrCreateStudy(patient.studies, freshStudy);
    var study := studies[si];
    if !HasSeries(study, series.seriesInstanceUID) {
      var study' := study.(series := study.series + [series]);
      assert UniqueSeries(study');
    }
  }

  /** Storing a patient with distinct UIDs under its own ID keeps the map well keyed. */
  lemma PutKeepsWellKeyed<F>(m: OrderedMap<Patient<F>>, patientID: string, p: Patient<F>)
    requires WellKeyed(m) && p.patientID == patientID && UniqueStudies(p)
    ensures WellKeyed(Put(m, patientID, p))
  {
    var r := Put(m, patientID, p);
    PutSpec(m, patientID, p);
    forall i | 0 <= i < |r|
      ensures r[i].1.patientID == r[i].0 && UniqueStudies(r[i].1)
    {
      if i < |m| && m[i].0 != patientID {
        assert r[i] == m[i];
      }
    }
  }

  /** Filing one series keeps the map well keyed. */
  lemma AddSeriesKeepsWellKeyed<F>(m: OrderedMap<Patient<F>>, patientID: string, freshPatient: Patient<F>, freshStudy: Study<F>, series: Series<F>)
    requires WellKeyed(m) && Fresh(patientID, freshPatient) && freshStudy.series == []
    ensures WellKeyed(AddSeries(m, patientID, freshPatient, freshStudy, series))
  {
    FoundPatient(m, patientID, freshPatient);
    var patient := Get(m, patientID).GetOr(freshPatient);
    FiledPatientUnique(patient, freshStudy, series);
    var (studies, si) := FindOrCreateStudy(patient.studies, freshStudy);
    var study := studies[si];
    if !HasSeries(study, series.seriesInstanceUID) {
      PutKeepsWellKeyed(m, patientID, patient.(studies := studies[si := study.(series := study.series + [series])]));
    }
  }

  lemma {:induction false} StepsWellKeyed<F>(groups: seq<SeriesGroup<F>>)
    ensures WellKeyed(Steps(groups))
  {
    if |groups| > 0 {
      StepsWellKeyed(groups[..|groups| - 1]);
      var g := groups[|groups| - 1];
      if Usable(g) {
        var tags := g.tags.value;
        AddSeriesKeepsWellKeyed(Steps(groups[..|groups| - 1]), GroupPatientID(g), NewPatient(tags, GroupPatientID(g)),
                                NewStudy(tags, GetTag(tags, "StudyInstanceUID")),
                                NewSeries(tags, GetTag(tags, "SeriesInstanceUID"), g.files));
      }
    }
  }

  /** The result has at most one patient per ID, one study per UID in a patient and one series per UID in a study. */
  lemma HierarchyUnique<F>(allFiles: seq<F>, groups: seq<SeriesGroup<F>>)
    ensures var ps := Hierarchy(allFiles, groups);
      && (forall i, j :: 0 <= i < j < |ps| ==> ps[i].patientID != ps[j].patientID)
      && (forall i :: 0 <= i < |ps| ==> UniqueStudies(ps[i]))
  {
    StepsWellKeyed(groups);
  }

  /** Filing a series whose UID is already in its patient's study changes nothing. */
  lemma RepeatedSeriesChangesNothing<F>(m: OrderedMap<Patient<F>>, patientID: string, freshPatient: Patient<F>, freshStudy: Study<F>, series: Series<F>)
    requires WellKeyed(m)
    requires exists i, j ::
      && 0 <= i < |m| && m[i].0 == patientID && 0 <= j < |m[i].1.studies|
      && m[i].1.studies[j].studyInstanceUID == freshStudy.studyInstanceUID
      && HasSeries(m[i].1.studies[j], series.seriesInstanceUID)
    ensures AddSeries(m, patientID, freshPatient, freshStudy, series) == m
  {
    var i, j :| && 0 <= i < |m| && m[i].0 == patientID && 0 <= j < |m[i].1.studies|
                && m[i].1.studies[j].studyInstanceUID == freshStudy.studyInstanceUID
                && HasSeries(m[i].1.studies[j], series.seriesInstanceUID);
    GetAt(m, i);
    var patient := m[i].1;
    assert patient.studies[j] in patient.studies;
    var (studies, si) := FindOrCreateStudy(patient.studies, freshStudy);
    assert si == j;
  }

  /** A group without files, without readable tags, or without a study or series UID is skipped. */
  lemma UnusableGroupSkipped<F>(m: OrderedMap<Patient<F>>, g: SeriesGroup<F>)
    requires |g.files| == 0 || g.tags.None? || GetTag(g.tags.value, "StudyInstanceUID") == ""
             || GetTag(g.tags.value, "SeriesInstanceUID") == ""
    ensures Step(m, g) == m
  {
  }

  /**
   * A patient already in the map keeps its name, birth date and sex; other
   * patients are untouched; and the patient order is kept, a new patient
   * going last.
   */
  lemma AddSeriesKeepsPatients<F>(m: OrderedMap<Patient<F>>, patientID: string, freshPatient: Patient<F>, freshStudy: Study<F>, series: Series<F>)
    requires WellKeyed(m)
    ensures var r := AddSeries(m, patientID, freshPatient, freshStudy, series);
      && |m| <= |r| <= |m| + 1
      && (forall i :: 0 <= i < |m| ==> r[i].0 == m[i].0)
      && (forall i :: 0 <= i < |m| ==>
            && r[i].1.patientName == m[i].1.patientName
            && r[i].1.patientBirthDate == m[i].1.patientBirthDate
            && r[i].1.patientSex == m[i].1.patientSex
            && (m[i].0 == patientID || r[i] == m[i]))
  {
    var patient := Get(m, patientID).GetOr(freshPatient);
    var (studies, si) := FindOrCreateStudy(patient.studies, freshStudy);
    var study := studies[si];
    if !HasSeries(study, series.seriesInstanceUID) {
      var p' := patient.(studies := studies[si := study.(series := study.series + [series])]);
      var r := Put(m, patientID, p');
      forall i | 0 <= i < |m| && m[i].0 == patientID
        ensures r[i].1.patientName == m[i].1.patientName && r[i].1.patientBirthDate == m[i].1.patientBirthDate
          && r[i].1.patientSex == m[i].1.patientSex
      {
        GetAt(m, i);
      }
    }
  }

  /** A series that is filed ends up in its patient's study with that UID. */
  lemma AddSeriesFiles<F>(m: OrderedMap<Patient<F>>, patientID: string, freshPatient: Patient<F>, freshStudy: Study<F>, series: Series<F>)
    requires WellKeyed(m)
    requires AddSeries(m, patientID, freshPatient, freshStudy, series) != m
    ensures var p := Get(AddSeries(m, patientID, freshPatient, freshStudy, series), patientID);
      && p.Some?
      && exists i, k :: 0 <= i < |p.value.studies| && 0 <= k < |p.value.studies[i].series|
           && p.value.studies[i].studyInstanceUID == freshStudy.studyInstanceUID
           && p.value.studies[i].series[k] == series
  {
    var patient := Get(m, patientID).GetOr(freshPatient);
    var (studies, si) := FindOrCreateStudy(patient.studies, freshStudy);
    var study := studies[si];
    var study' := study.(series := study.series + [series]);
    var p' := patient.(studies := studies[si := study']);
    PutSpec(m, patientID, p');
    assert p'.studies[si].series[|study.series|] == series;
  }

  /** The series a group creates records one slice per file of the group. */
  lemma NewSeriesCountsFiles<F>(tags: Tags, seriesUID: string, files: seq<F>)
    ensures NewSeries(tags, seriesUID, files).numberOfSlices == |files|
    ensures NewSeries(tags, seriesUID, files).files == files
  {
  }

  /** No files, no patients. */
  lemma EmptyInput<F>(groups: seq<SeriesGroup<F>>)
    ensures Hierarchy([], groups) == []
  {
  }
}
