/**
 * The pure helpers of the DICOM store: series display names, window/level
 * tag parsing, and the defaults it applies to the patient tags and window
 * values after loading files.
 */
module DicomStore {
  import opened Wrappers
  import opened Strings

  const AnonymousPatient := "Anonymous"
  const AnonymousPatientID := "ANONYMOUS"

  /** The tags of the first volume's first file, as far as these helpers read them. */
  datatype VolumeInfo = VolumeInfo(
    seriesInstanceUID: string,
    seriesNumber: string,
    seriesDescription: string,
    windowLevel: Option<string>,
    windowWidth: Option<string>)

  datatype PatientInfo = PatientInfo(patientID: string, patientName: string, patientBirthDate: string, patientSex: string)

  /** `{ width, level }`, either `null`. */
  datatype WindowLevels = WindowLevels(width: Option<real>, level: Option<real>)

  // ---- cleanupName ----

  /** `s.replace(/\s+/g, ' ')`: every maximal run of white space becomes one space. */
  function CollapseSpaces(s: string): string
    decreases |s|
  {
    if |s| == 0 then ""
    else if IsSpace(s[0]) then
      TrimStartSpec(s[1..]);
      " " + CollapseSpaces(TrimStart(s[1..]))
    else [s[0]] + CollapseSpaces(s[1..])
  }

  /** `cleanupName`. */
  function CleanupName(name: string): string
  {
    CollapseSpaces(Trim(name))
  }

  /** The characters of `s` that are not white space, in order. */
  function NonSpace(s: string): string
  {
    if |s| == 0 then "" else (if IsSpace(s[0]) then "" else [s[0]]) + NonSpace(s[1..])
  }

  lemma {:induction false} NonSpaceAppend(a: string, b: string)
    ensures NonSpace(a + b) == NonSpace(a) + NonSpace(b)
  {
    if |a| > 0 {
      assert (a + b)[1..] == a[1..] + b;
      NonSpaceAppend(a[1..], b);
    } else {
      assert a + b == b;
    }
  }

  lemma {:induction false} NonSpaceOfSpaces(s: string)
    requires AllSpace(s)
    ensures NonSpace(s) == ""
  {
    if |s| > 0 {
      NonSpaceOfSpaces(s[1..]);
    }
  }

  /** A string keeps a non-space character exactly when it is not all white space. */
  lemma {:induction false} NonSpaceEmpty(s: string)
    ensures NonSpace(s) == "" <==> AllSpace(s)
  {
    if |s| > 0 {
      NonSpaceEmpty(s[1..]);
      if AllSpace(s[1..]) && IsSpace(s[0]) {
        assert AllSpace(s);
      }
    }
  }

  /** Skipping a run of leading white space keeps the non-space characters. */
  lemma TrimStartNonSpace(s: string)
    ensures NonSpace(TrimStart(s)) == NonSpace(s)
  {
    TrimStartSpec(s);
    var t := TrimStart(s);
    var k := |s| - |t|;
    assert s == s[..k] + t;
    NonSpaceAppend(s[..k], t);
    NonSpaceOfSpaces(s[..k]);
  }

  /** Collapsing keeps every non-space character, in order. */
  lemma {:induction false} CollapseKeepsNonSpace(s: string)
    ensures NonSpace(CollapseSpaces(s)) == NonSpace(s)
    decreases |s|
  {
    if |s| > 0 {
      if IsSpace(s[0]) {
        TrimStartSpec(s[1..]);
        var t := TrimStart(s[1..]);
        CollapseKeepsNonSpace(t);
        TrimStartNonSpace(s[1..]);
        NonSpaceAppend(" ", CollapseSpaces(t));
        assert NonSpace(" ") == "";
      } else {
        CollapseKeepsNonSpace(s[1..]);
        NonSpaceAppend([s[0]], CollapseSpaces(s[1..]));
      }
    }
  }

  /**
   * Collapsing keeps the string empty exactly when the input is, and
   * starting or ending with white space exactly when the input does.
   */
  lemma {:induction false} CollapseEnds(s: string)
    ensures var r := CollapseSpaces(s);
      (r == "" <==> s == "") &&
      (r != "" ==> (IsSpace(r[0]) <==> IsSpace(s[0]))) &&
      (r != "" ==> (IsSpace(r[|r| - 1]) <==> IsSpace(s[|s| - 1])))
    decreases |s|
  {
    if |s| > 0 {
      if IsSpace(s[0]) {
        TrimStartSpec(s[1..]);
        var t := TrimStart(s[1..]);
        CollapseEnds(t);
        var c := CollapseSpaces(t);
        if c != "" {
          assert t[|t| - 1] == s[|s| - 1];
        } else {
          assert AllSpace(s[1..]);
          if |s| > 1 {
            assert s[|s| - 1] == s[1..][|s| - 2];
          }
        }
      } else {
        CollapseEnds(s[1..]);
        if CollapseSpaces(s[1..]) != "" {
          assert s[|s| - 1] == s[1..][|s| - 2];
        }
      }
    }
  }

  /** All white space is `' '`, and no two white space characters are adjacent. */
  predicate SingleSpaced(r: string)
  {
    (forall i :: 0 <= i < |r| && IsSpace(r[i]) ==> r[i] == ' ') &&
    (forall i :: 0 <= i < |r| - 1 ==> !(IsSpace(r[i]) && IsSpace(r[i + 1])))
  }

  lemma ConsSingleSpaced(h: char, c: string)
    requires SingleSpaced(c)
    requires IsSpace(h) ==> h == ' ' && (c == "" || !IsSpace(c[0]))
    ensures SingleSpaced([h] + c)
  {
    var r := [h] + c;
    assert forall i :: 0 < i < |r| ==> r[i] == c[i - 1];
  }

  /** After collapsing, the string is single-spaced. */
  lemma {:induction false} CollapseSingles(s: string)
    ensures SingleSpaced(CollapseSpaces(s))
    decreases |s|
  {
    if |s| > 0 {
      if IsSpace(s[0]) {
        TrimStartSpec(s[1..]);
        var t := TrimStart(s[1..]);
        CollapseSingles(t);
        CollapseEnds(t);
        ConsSingleSpaced(' ', CollapseSpaces(t));
        assert CollapseSpaces(s) == [' '] + CollapseSpaces(t);
      } else {
        CollapseSingles(s[1..]);
        ConsSingleSpaced(s[0], CollapseSpaces(s[1..]));
      }
    }
  }

  /** Trimming keeps the non-space characters. */
  lemma TrimNonSpace(s: string)
    ensures NonSpace(Trim(s)) == NonSpace(s)
  {
    TrimStartNonSpace(s);
    TrimEndNonSpace(TrimStart(s));
  }

  /** Dropping a run of trailing white space keeps the non-space characters. */
  lemma TrimEndNonSpace(s: string)
    ensures NonSpace(TrimEnd(s)) == NonSpace(s)
  {
    TrimEndSpec(s);
    var t := TrimEnd(s);
    var rest := s[|t|..];
    assert s == t + rest;
    NonSpaceAppend(t, rest);
    NonSpaceOfSpaces(rest);
    assert NonSpace(t) + "" == NonSpace(t);
  }

  lemma CleanupNameSpec(name: string)
    ensures var r := CleanupName(name);
      NonSpace(r) == NonSpace(name) &&
      (r != "" ==> !IsSpace(r[0]) && !IsSpace(r[|r| - 1])) &&
      SingleSpaced(r) &&
      (r == "" <==> AllSpace(name))
  {
    TrimSpec(name);
    CollapseKeepsNonSpace(Trim(name));
    CollapseEnds(Trim(name));
    CollapseSingles(Trim(name));
    TrimNonSpace(name);
    var r := CleanupName(name);
    NonSpaceEmpty(name);
    NonSpaceEmpty(r);
    if r != "" {
      assert !AllSpace(r);
    }
  }

  // ---- getDisplayName ----

  /** `getDisplayName`: the cleaned description, else the cleaned series number, else the series instance UID. */
  function GetDisplayName(info: VolumeInfo): string
  {
    var cleaned := CleanupName(if info.seriesDescription != "" then info.seriesDescription else info.seriesNumber);
    if cleaned != "" then cleaned else info.seriesInstanceUID
  }

  /**
   * A description with any visible character names the series; an empty
   * one defers to the series number; a description of white space only
   * is truthy, so the number is not consulted and the UID is used.
   */
  lemma DisplayNameSpec(info: VolumeInfo)
    ensures !AllSpace(info.seriesDescription) ==> GetDisplayName(info) == CleanupName(info.seriesDescription)
    ensures info.seriesDescription != "" && AllSpace(info.seriesDescription) ==> GetDisplayName(info) == info.seriesInstanceUID
    ensures info.seriesDescription == "" && !AllSpace(info.seriesNumber) ==> GetDisplayName(info) == CleanupName(info.seriesNumber)
    ensures info.seriesDescription == "" && AllSpace(info.seriesNumber) ==> GetDisplayName(info) == info.seriesInstanceUID
  {
    CleanupNameSpec(info.seriesDescription);
    CleanupNameSpec(info.seriesNumber);
  }

  // ---- getWindowLevels ----

  /** `value.split('\\').map(parseFloat)`, a failed parse (`NaN`) as `None`. */
  function ParseList(value: string, pf: string -> Option<real>): (r: seq<Option<real>>)
    ensures |r| == |Split(value, '\\')| && |r| >= 1
    ensures forall i :: 0 <= i < |r| ==> r[i] == pf(Split(value, '\\')[i])
  {
    var parts := Split(value, '\\');
    seq(|parts|, i requires 0 <= i < |parts| => pf(parts[i]))
  }

  predicate AllParsed(xs: seq<Option<real>>)
  {
    forall i :: 0 <= i < |xs| ==> xs[i].Some?
  }

  /** `getWindowLevels`. */
  function GetWindowLevels(info: VolumeInfo, pf: string -> Option<real>): (r: WindowLevels)
    ensures r.width.Some? <==> r.level.Some?
    ensures r.width.Some? <==>
      info.windowWidth.Some? && info.windowLevel.Some? && info.windowWidth.value != "" && info.windowLevel.value != "" &&
      (forall t :: t in Split(info.windowWidth.value, '\\') ==> pf(t).Some?) &&
      (forall t :: t in Split(info.windowLevel.value, '\\') ==> pf(t).Some?)
    ensures r.width.Some? ==>
      r.width == pf(Split(info.windowWidth.value, '\\')[0]) && r.level == pf(Split(info.windowLevel.value, '\\')[0])
  {
    if info.windowWidth.None? || info.windowLevel.None? || info.windowWidth.value == "" || info.windowLevel.value == ""
    then WindowLevels(None, None)
    else
      var widths := ParseList(info.windowWidth.value, pf);
      var levels := ParseList(info.windowLevel.value, pf);
      if !AllParsed(widths) || !AllParsed(levels) then WindowLevels(None, None)
      else WindowLevels(widths[0], levels[0])
  }

  /** A single-valued window tag pair parses to its two values. */
  lemma SingleWindowValues(info: VolumeInfo, pf: string -> Option<real>)
    requires info.windowWidth.Some? && info.windowLevel.Some?
    requires info.windowWidth.value != "" && info.windowLevel.value != ""
    requires '\\' !in info.windowWidth.value && '\\' !in info.windowLevel.value
    ensures var r := GetWindowLevels(info, pf);
      r == if pf(info.windowWidth.value).Some? && pf(info.windowLevel.value).Some?
           then WindowLevels(pf(info.windowWidth.value), pf(info.windowLevel.value))
           else WindowLevels(None, None)
  {
    SplitWithoutSeparator(info.windowWidth.value, '\\');
    SplitWithoutSeparator(info.windowLevel.value, '\\');
  }

  // ---- loadFiles: patient fallback and stored window ----

  /**
   * `tags.<key> || fallback` over the trimmed tags: a missing or blank tag
   * takes the fallback; any other tag gives its text without the white
   * space around it, which keeps every other character.
   */
  function TagOr(rawTags: map<string, string>, key: string, fallback: string): (r: string)
    ensures key !in rawTags || AllSpace(rawTags[key]) ==> r == fallback
    ensures key in rawTags && !AllSpace(rawTags[key]) ==>
      && r == Trim(rawTags[key]) && NonSpace(r) == NonSpace(rawTags[key])
      && r != "" && !IsSpace(r[0]) && !IsSpace(r[|r| - 1])
    ensures fallback != "" ==> r != ""
  {
    if key !in rawTags then fallback
    else
      var t := Trim(rawTags[key]);
      TrimSpec(rawTags[key]);
      TrimNonSpace(rawTags[key]);
      NonSpaceEmpty(rawTags[key]);
      NonSpaceEmpty(t);
      if t != "" then t else fallback
  }

  /** The patient record `loadFiles` stores, with its fallbacks. */
  function PatientInfoOf(rawTags: map<string, string>): (r: PatientInfo)
    ensures r.patientID == TagOr(rawTags, "PatientID", AnonymousPatientID)
    ensures r.patientName == TagOr(rawTags, "PatientName", AnonymousPatient)
    ensures r.patientBirthDate == TagOr(rawTags, "PatientBirthDate", "")
    ensures r.patientSex == TagOr(rawTags, "PatientSex", "")
    ensures r.patientID != "" && r.patientName != ""
  {
    PatientInfo(
      TagOr(rawTags, "PatientID", AnonymousPatientID),
      TagOr(rawTags, "PatientName", AnonymousPatient),
      TagOr(rawTags, "PatientBirthDate", ""),
      TagOr(rawTags, "PatientSex", ""))
  }

  /** A JavaScript number is truthy when it is present and not zero. */
  predicate Truthy(x: Option<real>)
  {
    x.Some? && x.value != 0.0
  }

  /** Every backslash-separated value of a window tag parses. */
  predicate AllValuesParse(value: string, pf: string -> Option<real>)
  {
    forall i :: 0 <= i < |Split(value, '\\')| ==> pf(Split(value, '\\')[i]).Some?
  }

  /**
   * Both window tags are present and non-empty, every value of each
   * parses, and the first width and the first level are not zero.
   */
  predicate UsableWindowTags(info: VolumeInfo, pf: string -> Option<real>)
  {
    && info.windowWidth.Some? && info.windowLevel.Some? && info.windowWidth.value != "" && info.windowLevel.value != ""
    && AllValuesParse(info.windowWidth.value, pf) && AllValuesParse(info.windowLevel.value, pf)
    && pf(Split(info.windowWidth.value, '\\')[0]).value != 0.0 && pf(Split(info.windowLevel.value, '\\')[0]).value != 0.0
  }

  /**
   * The window `loadFiles` leaves in the store: the first parsed width and
   * level when both tags are usable, the previous values otherwise (a
   * missing, empty or unparsable tag, or a zero width or level, keeps them).
   */
  function StoredWindow(current: WindowLevels, info: VolumeInfo, pf: string -> Option<real>): (r: WindowLevels)
    ensures UsableWindowTags(info, pf) ==>
      r == WindowLevels(pf(Split(info.windowWidth.value, '\\')[0]), pf(Split(info.windowLevel.value, '\\')[0]))
    ensures !UsableWindowTags(info, pf) ==> r == current
    ensures r != current ==> Truthy(r.width) && Truthy(r.level)
  {
    var wl := GetWindowLevels(info, pf);
    ParsesEverywhere(info.windowWidth.GetOr(""), pf);
    ParsesEverywhere(info.windowLevel.GetOr(""), pf);
    if Truthy(wl.width) && Truthy(wl.level) then wl else current
  }

  /** The two ways of saying that every value parses agree. */
  lemma ParsesEverywhere(value: string, pf: string -> Option<real>)
    ensures AllValuesParse(value, pf) <==> forall t :: t in Split(value, '\\') ==> pf(t).Some?
  {
  }

  /** Loading the same tags a second time leaves the window the first load left. */
  lemma StoredWindowIdempotent(current: WindowLevels, info: VolumeInfo, pf: string -> Option<real>)
    ensures StoredWindow(StoredWindow(current, info, pf), info, pf) == StoredWindow(current, info, pf)
  {
  }

  /** With one value per tag, the store takes the two parsed numbers exactly when both parse and neither is zero. */
  lemma StoredWindowSingleValues(current: WindowLevels, info: VolumeInfo, pf: string -> Option<real>)
    requires info.windowWidth.Some? && info.windowLevel.Some?
    requires info.windowWidth.value != "" && info.windowLevel.value != ""
    requires '\\' !in info.windowWidth.value && '\\' !in info.windowLevel.value
    ensures var w, l := pf(info.windowWidth.value), pf(info.windowLevel.value);
      StoredWindow(current, info, pf) ==
        if Truthy(w) && Truthy(l) then WindowLevels(w, l) else current
  {
    SplitWithoutSeparator(info.windowWidth.value, '\\');
    SplitWithoutSeparator(info.windowLevel.value, '\\');
  }
}
