/**
 * The plugin-style generation of gaze sections (the gaze_sections package):
 * Base_Section with its generator-based label, Importing_Section,
 * Calibration_Section, Mapping_Section and Validation_Section, and the
 * Section_List that builds sections from their init dicts.
 *
 * Python's class hierarchy becomes one class, PluginSection, whose `kind`
 * holds the fields of the concrete section class.
 */
module PluginSections {
  import opened Wrappers
  import opened PySeq
  import opened GazeData
  import opened LegacySections
  import opened Sorting

  const SerializationFormatVersion: int := 1
  const NotYetCalibrated: string := "Not yet calibrated"
  const StartingCalibration: string := "Starting calibration"
  const NoReferenceDataMessage: string := "Calibration failed, no reference data"
  const NoPupilDataMessage: string := "Calibration failed, no pupil data"

  // ----------------------------------------------------------------------
  // Labels from a one-shot generator

  /**
   * `x in gen` where gen is a generator over `existing` already advanced to
   * `pos`: the position just after the first match, or None once the
   * generator is exhausted.
   */
  function ConsumeUntil(existing: seq<string>, x: string, pos: nat): (r: Option<nat>)
    ensures r.Some? ==> pos < r.value <= |existing| && existing[r.value - 1] == x &&
                        forall j :: pos <= j < r.value - 1 ==> existing[j] != x
    ensures r.None? ==> forall j :: pos <= j < |existing| ==> existing[j] != x
    decreases |existing| - pos
  {
    if pos >= |existing| then None
    else if existing[pos] == x then Some(pos + 1)
    else ConsumeUntil(existing, x, pos + 1)
  }

  /** The counter Base_Section.make_section_label stops at, starting from `counter` with the generator at `pos`. */
  function GeneratorCounter(existing: seq<string>, counter: nat, pos: nat): (n: nat)
    ensures n >= counter
    decreases |existing| - pos
  {
    match ConsumeUntil(existing, SectionLabel(counter), pos)
    case None => counter
    case Some(next) => GeneratorCounter(existing, counter + 1, next)
  }

  function GeneratorLabel(existing: seq<string>): string {
    SectionLabel(GeneratorCounter(existing, 1, 0))
  }

  /**
   * Base_Section.make_section_label: counts up from 1, testing each
   * candidate against one generator over the existing labels, so every test
   * resumes where the previous match left the generator.
   */
  method MakeGeneratorLabel(existing: seq<string>) returns (sectionLabel: string)
    ensures sectionLabel == GeneratorLabel(existing)
  {
    var pos := 0;
    var counter := 1;
    while true
      invariant pos <= |existing| && counter >= 1
      invariant GeneratorCounter(existing, counter, pos) == GeneratorCounter(existing, 1, 0)
      decreases |existing| - pos
    {
      sectionLabel := SectionLabel(counter);
      ghost var start := pos;
      var found := false;
      while pos < |existing| && !found
        invariant start <= pos <= |existing|
        invariant found ==> ConsumeUntil(existing, sectionLabel, start) == Some(pos)
        invariant !found ==> ConsumeUntil(existing, sectionLabel, start) == ConsumeUntil(existing, sectionLabel, pos)
        decreases |existing| - pos
      {
        found := existing[pos] == sectionLabel;
        pos := pos + 1;
      }
      if found {
        counter := counter + 1;
      } else {
        return;
      }
    }
  }

  /**
   * Every lower candidate is taken, so the generated counter never exceeds
   * the least free one; the candidate returned is only known to be absent
   * after the generator's last match.
   */
  lemma {:induction false} GeneratorCounterFacts(existing: seq<string>, counter: nat, pos: nat)
    requires pos <= |existing|
    ensures var n := GeneratorCounter(existing, counter, pos);
            forall k :: counter <= k < n ==> SectionLabel(k) in existing[pos..]
    decreases |existing| - pos
  {
    match ConsumeUntil(existing, SectionLabel(counter), pos)
    case None =>
    case Some(next) =>
      GeneratorCounterFacts(existing, counter + 1, next);
      assert existing[pos..][next - 1 - pos] == SectionLabel(counter);
      forall k | counter + 1 <= k < GeneratorCounter(existing, counter + 1, next)
        ensures SectionLabel(k) in existing[pos..]
      {
        var j :| 0 <= j < |existing[next..]| && existing[next..][j] == SectionLabel(k);
        assert existing[pos..][next - pos + j] == SectionLabel(k);
      }
  }

  /** The generated label is 'Unnamed section N' where every label below N is already in use. */
  lemma GeneratorLabelBelowLeastFree(existing: seq<string>)
    ensures var n := GeneratorCounter(existing, 1, 0);
            n >= 1 && GeneratorLabel(existing) == SectionLabel(n) &&
            forall k :: 1 <= k < n ==> SectionLabel(k) in existing
  {
    GeneratorCounterFacts(existing, 1, 0);
    assert existing[0..] == existing;
  }

  /**
   * The generator label need not be fresh: with 'Unnamed section 2' listed
   * before 'Unnamed section 1', the match for 1 exhausts the generator and
   * 'Unnamed section 2' is handed out again.
   */
  lemma GeneratorLabelDuplicates()
    ensures var existing := [SectionLabel(2), SectionLabel(1)];
            GeneratorLabel(existing) == SectionLabel(2) && GeneratorLabel(existing) in existing
  {
    var existing := [SectionLabel(2), SectionLabel(1)];
    LabelNumberOfSectionLabel(1);
    LabelNumberOfSectionLabel(2);
    assert SectionLabel(2) != SectionLabel(1);
    assert ConsumeUntil(existing, SectionLabel(1), 1) == Some(2);
    assert ConsumeUntil(existing, SectionLabel(1), 0) == Some(2);
    assert ConsumeUntil(existing, SectionLabel(2), 2) == None;
  }

  // ----------------------------------------------------------------------
  // Init dicts

  /** A keyword-argument value as far as sections read them. */
  datatype Value = NoneValue | Str(s: string) | RangeValue(lo: int, hi: int) | Real(r: real) | Bool(b: bool) | MapperDict(m: Mapper)

  /** A plugin init dict (keyword arguments). */
  type Args = map<string, Value>

  datatype SectionClass = CalibrationSection | MappingSection | ValidationSection

  function ClassName(c: SectionClass): string {
    match c
    case CalibrationSection => "Calibration_Section"
    case MappingSection => "Mapping_Section"
    case ValidationSection => "Validation_Section"
  }

  /** plugin_by_name[name]: only the three section classes are known. */
  function ClassByName(name: string): (c: Option<SectionClass>)
    ensures c.Some? <==> name in {"Calibration_Section", "Mapping_Section", "Validation_Section"}
    ensures c.Some? ==> ClassName(c.value) == name
  {
    if name == "Calibration_Section" then Some(CalibrationSection)
    else if name == "Mapping_Section" then Some(MappingSection)
    else if name == "Validation_Section" then Some(ValidationSection)
    else None
  }

  lemma ClassByNameOfClassName(c: SectionClass)
    ensures ClassByName(ClassName(c)) == Some(c)
  {
  }

  /** The fields of the concrete section class. */
  datatype Kind =
    | Calibration(referenceMethod: string, calibrationMethod: string, calibratedMapper: Mapper, status: string)
    | Mapping(importSection: Value, xOffset: real, yOffset: real)
    | Validation(importSection: Value, visMappingError: bool, outlierThreshold: real, errorLines: Option<seq<Point>>)

  function ClassOf(k: Kind): SectionClass {
    match k
    case Calibration(_, _, _, _) => CalibrationSection
    case Mapping(_, _, _) => MappingSection
    case Validation(_, _, _, _) => ValidationSection
  }

  /** One section's state. */
  datatype View = View(sectionLabel: string, range: Option<(int, int)>, bgTask: Option<Task<CalibResult>>, kind: Kind)

  /** What calibrate_in_background yields: (mapper or None, status). */
  datatype CalibResult = CalibResult(mapper: Option<Mapper>, status: string)

  /** A keyword argument of the expected type, else the default. */
  function StrArg(args: Args, key: string, default: string): string {
    if key in args && args[key].Str? then args[key].s else default
  }

  function RealArg(args: Args, key: string, default: real): real {
    if key in args && args[key].Real? then args[key].r else default
  }

  function BoolArg(args: Args, key: string, default: bool): bool {
    if key in args && args[key].Bool? then args[key].b else default
  }

  function ValueArg(args: Args, key: string): Value {
    if key in args then args[key] else NoneValue
  }

  /** A missing, None or empty label is generated. */
  function LabelArg(args: Args): Option<string> {
    if "label" in args && args["label"].Str? && args["label"].s != [] then Some(args["label"].s) else None
  }

  function RangeArg(args: Args): Option<(int, int)> {
    if "application_range" in args && args["application_range"].RangeValue? then
      Some((args["application_range"].lo, args["application_range"].hi))
    else None
  }

  function RangeToValue(r: Option<(int, int)>): Value {
    match r
    case None => NoneValue
    case Some((lo, hi)) => RangeValue(lo, hi)
  }

  /** calibrated_mapper={}: the empty dict. */
  const EmptyMapper: Mapper := Mapper(None, None)

  function MapperArg(args: Args): Mapper {
    if "calibrated_mapper" in args && args["calibrated_mapper"].MapperDict? then args["calibrated_mapper"].m else EmptyMapper
  }

  /**
   * A section built from an init dict, existing labels given: the
   * constructors' defaults, with a Calibration_Section's mapper stamped with
   * the serialization version by the save in its constructor.
   */
  function Constructed(c: SectionClass, args: Args, existing: seq<string>): View {
    var lbl := match LabelArg(args) case Some(l) => l case None => GeneratorLabel(existing);
    var kind := match c
      case CalibrationSection =>
        Calibration(StrArg(args, "reference_method", "circle_marker"), StrArg(args, "calibration_method", "3d"),
                    MapperArg(args).Stamped(SerializationFormatVersion), NotYetCalibrated)
      case MappingSection =>
        Mapping(ValueArg(args, "import_section"), RealArg(args, "x_offset", 0.0), RealArg(args, "y_offset", 0.0))
      case ValidationSection =>
        Validation(ValueArg(args, "import_section"), BoolArg(args, "vis_mapping_error", true),
                   RealArg(args, "outlier_threshold", 5.0), None);
    View(lbl, RangeArg(args), None, kind)
  }

  /** The defaults of every section class when no keyword is given. */
  lemma ConstructedDefaults(c: SectionClass, existing: seq<string>)
    ensures var v := Constructed(c, map[], existing);
            v.sectionLabel == GeneratorLabel(existing) && v.range.None? && v.bgTask.None? && ClassOf(v.kind) == c &&
            (c == CalibrationSection ==>
               v.kind.referenceMethod == "circle_marker" && v.kind.calibrationMethod == "3d" &&
               v.kind.calibratedMapper == Mapper(None, Some(SerializationFormatVersion)) && v.kind.status == NotYetCalibrated) &&
            (c == MappingSection ==> v.kind.importSection == NoneValue && v.kind.xOffset == 0.0 && v.kind.yOffset == 0.0) &&
            (c == ValidationSection ==>
               v.kind.importSection == NoneValue && v.kind.visMappingError && v.kind.outlierThreshold == 5.0 &&
               v.kind.errorLines.None?)
  {
  }

  /** get_init_dict of each class: the base keys, plus import_section for importing sections, plus its own. */
  function InitDict(v: View): (d: Args)
    ensures "label" in d && d["label"] == Str(v.sectionLabel)
    ensures "application_range" in d && d["application_range"] == RangeToValue(v.range)
  {
    var base := map["label" := Str(v.sectionLabel), "application_range" := RangeToValue(v.range)];
    match v.kind
    case Calibration(rm, cm, m, _) =>
      base["reference_method" := Str(rm)]["calibration_method" := Str(cm)]["calibrated_mapper" := MapperDict(m)]
    case Mapping(imp, dx, dy) =>
      base["import_section" := imp]["x_offset" := Real(dx)]["y_offset" := Real(dy)]
    case Validation(imp, vis, t, _) =>
      base["import_section" := imp]["vis_mapping_error" := Bool(vis)]["outlier_threshold" := Real(t)]
  }

  /** The keys of every class's init dict, exactly. */
  lemma InitDictKeys(v: View)
    ensures InitDict(v).Keys ==
            {"label", "application_range"} +
            match v.kind
            case Calibration(_, _, _, _) => {"reference_method", "calibration_method", "calibrated_mapper"}
            case Mapping(_, _, _) => {"import_section", "x_offset", "y_offset"}
            case Validation(_, _, _, _) => {"import_section", "vis_mapping_error", "outlier_threshold"}
  {
  }

  /** What survives a rebuild: the status starts over, error lines are dropped, the mapper is stamped. */
  function Persistent(k: Kind): Kind {
    match k
    case Calibration(rm, cm, m, _) => Calibration(rm, cm, m.Stamped(SerializationFormatVersion), NotYetCalibrated)
    case Mapping(_, _, _) => k
    case Validation(imp, vis, t, _) => Validation(imp, vis, t, None)
  }

  /** Rebuilding a section of the same class from its init dict restores label, range and every persistent field. */
  lemma InitDictRoundTrip(v: View, existing: seq<string>)
    requires v.sectionLabel != []
    ensures var r := Constructed(ClassOf(v.kind), InitDict(v), existing);
            r.sectionLabel == v.sectionLabel && r.range == v.range && r.bgTask.None? && r.kind == Persistent(v.kind)
  {
    var d := InitDict(v);
    assert LabelArg(d) == Some(v.sectionLabel);
    assert RangeArg(d) == v.range;
  }

  // ----------------------------------------------------------------------
  // Calibration_Section: slicing, the background stream and results

  /** calibrate_in_background: (None, 'Calibrating...') and then one result, success or failure. */
  function CalibrationStream(pool: FakePool, refs: seq<RefPoint>, pupil: seq<PupilDatum>, plugins: Plugins): seq<CalibResult> {
    [CalibResult(None, "Calibrating...")] +
    match plugins.fit(pool, pupil, refs)
    case Succeeded(fitName, fitArgs) => [CalibResult(Some(Mapper(Some(Fit(fitName, fitArgs)), None)), "Calibration successful")]
    case Failed(reason) => [CalibResult(None, "Calibration failed! " + reason)]
  }

  lemma CalibrationStreamShape(pool: FakePool, refs: seq<RefPoint>, pupil: seq<PupilDatum>, plugins: Plugins)
    ensures var s := CalibrationStream(pool, refs, pupil, plugins);
            |s| == 2 && s[0] == CalibResult(None, "Calibrating...") &&
            (plugins.fit(pool, pupil, refs).Succeeded? <==> s[1].mapper.Some?) &&
            (s[1].mapper.Some? ==> s[1].status == "Calibration successful" && s[1].mapper.value.Truthy()) &&
            (s[1].mapper.None? ==> s[1].status == "Calibration failed! " + plugins.fit(pool, pupil, refs).reason)
  {
  }

  /** Where slice_data_and_start_calibration ends, in the order its checks run. */
  datatype Slicing =
    | RangeUnset                 // `start, end = self.range` raises TypeError
    | UnknownReferenceMethod     // complete_reference_data raises RuntimeError
    | NoReferences
    | NoPupil
    | Calibrate(refs: seq<RefPoint>, pupil: seq<PupilDatum>, mode: string)

  function PlanSlicing(range: Option<(int, int)>, referenceMethod: string, calibrationMethod: string,
                           circleMarkers: seq<RefPoint>, manualRefs: seq<RefPoint>, byFrame: seq<seq<PupilDatum>>)
    : (p: Slicing)
    ensures p.RangeUnset? <==> range.None?
    ensures p.UnknownReferenceMethod? <==> range.Some? && referenceMethod !in {"circle_marker", "natural_features"}
    ensures p.NoReferences? <==>
              range.Some? && referenceMethod in {"circle_marker", "natural_features"} &&
              RefsInRange(RefSource(referenceMethod, circleMarkers, manualRefs).value, range.value.0, range.value.1) == []
    ensures p.NoPupil? <==>
              range.Some? && referenceMethod in {"circle_marker", "natural_features"} &&
              RefsInRange(RefSource(referenceMethod, circleMarkers, manualRefs).value, range.value.0, range.value.1) != [] &&
              PupilInRange(byFrame, range.value) == []
    ensures p.Calibrate? ==>
              p.refs == RefsInRange(RefSource(referenceMethod, circleMarkers, manualRefs).value, range.value.0, range.value.1) &&
              p.pupil == PupilInRange(byFrame, range.value) && p.refs != [] && p.pupil != [] &&
              p.mode == DowngradedMode(calibrationMethod, p.pupil)
  {
    match range
    case None => RangeUnset
    case Some((start, end)) =>
      match RefSource(referenceMethod, circleMarkers, manualRefs)
      case None => UnknownReferenceMethod
      case Some(all) =>
        var refs := RefsInRange(all, start, end);
        if refs == [] then NoReferences
        else
          var pupil := PupilInRange(byFrame, (start, end));
          if pupil == [] then NoPupil
          else Calibrate(refs, pupil, DowngradedMode(calibrationMethod, pupil))
  }

  /** save_calibration with the attribute it evidently means: the stamped mapper is written to the section's file. */
  function SaveCalibration(files: map<string, Mapper>, path: string, mapper: Mapper): (r: map<string, Mapper>)
    ensures path in r && r[path].fit == mapper.fit && r[path].version == Some(SerializationFormatVersion)
    ensures forall p :: p != path ==> (p in r <==> p in files) && (p in files ==> r[p] == files[p])
  {
    files[path := mapper.Stamped(SerializationFormatVersion)]
  }

  /** The attributes a Calibration_Section instance has. */
  const CalibrationSectionAttributes: set<string> :=
    {"g_pool", "bg_task", "label", "range", "reference_method", "calibration_method", "calibrated_mapper", "status"}

  /**
   * save_calibration as written: the mapper is stamped, then `self.calibration`
   * is read, an attribute Calibration_Section does not have.
   */
  function SaveCalibrationAsWritten(files: map<string, Mapper>, path: string, mapper: Mapper)
    : (r: (Mapper, Result<map<string, Mapper>, string>))
  {
    var stamped := mapper.Stamped(SerializationFormatVersion);
    if "calibration" in CalibrationSectionAttributes then (stamped, Ok(files[path := stamped]))
    else (stamped, Err("AttributeError: 'Calibration_Section' object has no attribute 'calibration'"))
  }

  /** As written the save always raises, so no Calibration_Section can be constructed; the corrected save stores the mapper. */
  lemma SaveCalibrationAsWrittenRaises(files: map<string, Mapper>, path: string, mapper: Mapper)
    ensures SaveCalibrationAsWritten(files, path, mapper).1.Err?
    ensures SaveCalibrationAsWritten(files, path, mapper).0 == mapper.Stamped(SerializationFormatVersion)
    ensures SaveCalibration(files, path, mapper)[path] == SaveCalibrationAsWritten(files, path, mapper).0
  {
  }

  const UnpackNoneError: string := "TypeError: 'NoneType' object is not iterable"

  /** The attributes every section of this generation has: Base_Section's and System_Plugin_Base's g_pool. */
  const BaseSectionAttributes: set<string> := {"g_pool", "bg_task", "label", "range"}

  /**
   * set_from_trim_marks as written: the range step runs (unpacking an unset
   * range raises), then the time of each end is read through `self.parent`,
   * which no section of this generation has. The result is the range left
   * behind and the outcome.
   */
  function TrimButtonAsWritten(formatOnly: bool, range: Option<(int, int)>, trimLeft: int, trimRight: int,
                               timestamps: seq<real>): (r: (Option<(int, int)>, Result<(real, real), string>))
  {
    var rng := if formatOnly then range else Some((trimLeft, trimRight));
    if rng.None? then (rng, Err(UnpackNoneError))
    else if timestamps == [] then (rng, Err("IndexError: list index out of range"))
    else if "parent" !in BaseSectionAttributes then (rng, Err("AttributeError: object has no attribute 'parent'"))
    else (rng, Ok((0.0, 0.0)))
  }

  /**
   * set_from_trim_marks reading the timestamps from the section's own g_pool:
   * the range left behind, and the two ends in seconds after the first frame,
   * or the exception Python's indexing raises.
   */
  function TrimButton(formatOnly: bool, range: Option<(int, int)>, trimLeft: int, trimRight: int,
                      timestamps: seq<real>): (r: (Option<(int, int)>, Result<(real, real), string>))
    ensures r.0 == if formatOnly then range else Some((trimLeft, trimRight))
    ensures r.1.Ok? <==> r.0.Some? && -|timestamps| <= r.0.value.0 < |timestamps| &&
                                      -|timestamps| <= r.0.value.1 < |timestamps|
    ensures r.1.Ok? && 0 <= r.0.value.0 && 0 <= r.0.value.1 ==>
              r.1.value == (timestamps[r.0.value.0] - timestamps[0], timestamps[r.0.value.1] - timestamps[0])
  {
    var rng := if formatOnly then range else Some((trimLeft, trimRight));
    if rng.None? then (rng, Err(UnpackNoneError))
    else match (PyIndex(timestamps, 0), PyIndex(timestamps, rng.value.0), PyIndex(timestamps, rng.value.1))
      case (Ok(minTs), Ok(leftTs), Ok(rightTs)) => (rng, Ok((leftTs - minTs, rightTs - minTs)))
      case _ => (rng, Err("IndexError: list index out of range"))
  }

  /**
   * As written the button raises on every call, even on a range inside the
   * recording, though it still sets the range first; the corrected button
   * sets the same range and shows any range within the timestamps.
   */
  lemma TrimButtonAsWrittenRaises(formatOnly: bool, range: Option<(int, int)>, trimLeft: int, trimRight: int,
                                  timestamps: seq<real>)
    ensures TrimButtonAsWritten(formatOnly, range, trimLeft, trimRight, timestamps).1.Err?
    ensures TrimButtonAsWritten(formatOnly, range, trimLeft, trimRight, timestamps).0 ==
            TrimButton(formatOnly, range, trimLeft, trimRight, timestamps).0
    ensures !formatOnly && 0 <= trimLeft < |timestamps| && 0 <= trimRight < |timestamps| ==>
              TrimButton(formatOnly, range, trimLeft, trimRight, timestamps).1.Ok?
  {
  }

  /** handle_task_result of a Calibration_Section: status always, mapper only when truthy, then saved. */
  function HandleCalibResult(k: Kind, files: map<string, Mapper>, path: string, result: CalibResult): (r: (Kind, map<string, Mapper>))
    requires k.Calibration?
    ensures r.0.Calibration? && r.0.status == result.status
    ensures r.0.referenceMethod == k.referenceMethod && r.0.calibrationMethod == k.calibrationMethod
  {
    var m := if result.mapper.Some? && result.mapper.value.Truthy() then result.mapper.value else k.calibratedMapper;
    var stamped := m.Stamped(SerializationFormatVersion);
    (k.(status := result.status, calibratedMapper := stamped), SaveCalibration(files, path, m))
  }

  /** The results handled in fetch order; sections other than calibration sections ignore them. */
  function HandleResults(k: Kind, files: map<string, Mapper>, path: string, rs: seq<CalibResult>): (r: (Kind, map<string, Mapper>))
    ensures ClassOf(r.0) == ClassOf(k)
    ensures !k.Calibration? ==> r == (k, files)
  {
    if rs == [] || !k.Calibration? then (k, files)
    else
      var a := HandleResults(k, files, path, rs[..|rs| - 1]);
      HandleCalibResult(a.0, a.1, path, rs[|rs| - 1])
  }

  /** Handling one more result continues from the state the earlier results left. */
  lemma HandleResultsStep(k: Kind, files: map<string, Mapper>, path: string, rs: seq<CalibResult>, x: CalibResult)
    ensures var a := HandleResults(k, files, path, rs);
            HandleResults(k, files, path, rs + [x]) == HandleResults(a.0, a.1, path, [x])
  {
    assert (rs + [x])[..|rs|] == rs;
    assert [x][..0] == [];
    var a := HandleResults(k, files, path, rs);
    if !k.Calibration? {
      assert !a.0.Calibration?;
    }
  }

  /** A state reached by handling `rs` and then `x` is the state of handling `rs + [x]`. */
  lemma HandleResultsExtend(k: Kind, files: map<string, Mapper>, path: string, rs: seq<CalibResult>, x: CalibResult,
                            mid: (Kind, map<string, Mapper>), last: (Kind, map<string, Mapper>))
    requires mid == HandleResults(k, files, path, rs)
    requires last == HandleResults(mid.0, mid.1, path, [x])
    ensures last == HandleResults(k, files, path, rs + [x])
  {
    HandleResultsStep(k, files, path, rs, x);
  }

  /** The mapper of the last result with a truthy mapper, or the current one. */
  function LastTruthyMapper(current: Mapper, rs: seq<CalibResult>): Mapper {
    if rs == [] then current
    else if rs[|rs| - 1].mapper.Some? && rs[|rs| - 1].mapper.value.Truthy() then rs[|rs| - 1].mapper.value
    else LastTruthyMapper(current, rs[..|rs| - 1])
  }

  /**
   * After handling a non-empty batch, the status is the last result's, the
   * mapper is the last truthy one (a None mapper keeps the previous one),
   * stamped, and it is what the section's file holds.
   */
  lemma {:induction false} HandleResultsEffect(k: Kind, files: map<string, Mapper>, path: string, rs: seq<CalibResult>)
    requires k.Calibration? && rs != []
    ensures var r := HandleResults(k, files, path, rs);
            r.0.Calibration? && r.0.status == rs[|rs| - 1].status &&
            r.0.referenceMethod == k.referenceMethod && r.0.calibrationMethod == k.calibrationMethod &&
            r.0.calibratedMapper.fit == LastTruthyMapper(k.calibratedMapper, rs).fit &&
            r.0.calibratedMapper.version == Some(SerializationFormatVersion) &&
            path in r.1 && r.1[path] == r.0.calibratedMapper &&
            forall p :: p != path ==> (p in r.1 <==> p in files) && (p in files ==> r.1[p] == files[p])
  {
    var init := rs[..|rs| - 1];
    if init != [] {
      HandleResultsEffect(k, files, path, init);
    }
  }

  // ----------------------------------------------------------------------
  // The section object

  class PluginSection {
    var sectionLabel: string
    var range: Option<(int, int)>
    var bgTask: Option<Task<CalibResult>>
    var kind: Kind
    /** Every task this section has called cancel() on, oldest first. */
    var cancelledTasks: seq<Task<CalibResult>>
    /** The labels sent with 'gaze_section.calibrated', oldest first. */
    var calibratedNotes: seq<string>

    function State(): View
      reads this
    {
      View(sectionLabel, range, bgTask, kind)
    }

    /**
     * The section class's constructor with the init dict `args`; a
     * Calibration_Section saves its (stamped) mapper right away.
     */
    constructor (c: SectionClass, args: Args, existing: seq<string>, recDir: string, store: CalibrationStore)
      modifies store
      ensures State() == Constructed(c, args, existing)
      ensures cancelledTasks == [] && calibratedNotes == []
      ensures c == CalibrationSection ==>
                store.files == SaveCalibration(old(store.files), CalibrationPath(recDir, sectionLabel), MapperArg(args))
      ensures c != CalibrationSection ==> store.files == old(store.files)
    {
      var lbl: string;
      match LabelArg(args) {
        case Some(l) => lbl := l;
        case None => lbl := MakeGeneratorLabel(existing);
      }
      sectionLabel := lbl;
      range := RangeArg(args);
      bgTask := None;
      cancelledTasks := [];
      calibratedNotes := [];
      match c {
        case CalibrationSection =>
          kind := Calibration(StrArg(args, "reference_method", "circle_marker"), StrArg(args, "calibration_method", "3d"),
                              MapperArg(args), NotYetCalibrated);
        case MappingSection =>
          kind := Mapping(ValueArg(args, "import_section"), RealArg(args, "x_offset", 0.0), RealArg(args, "y_offset", 0.0));
        case ValidationSection =>
          kind := Validation(ValueArg(args, "import_section"), BoolArg(args, "vis_mapping_error", true),
                             RealArg(args, "outlier_threshold", 5.0), None);
      }
      new;
      if c == CalibrationSection {
        SaveCalibrationFile(recDir, store);
      }
    }

    /** save_calibration (corrected): stamp the mapper in place and write it to the section's file. */
    method SaveCalibrationFile(recDir: string, store: CalibrationStore)
      requires kind.Calibration?
      modifies this`kind, store
      ensures kind == old(kind).(calibratedMapper := old(kind).calibratedMapper.Stamped(SerializationFormatVersion))
      ensures store.files == SaveCalibration(old(store.files), CalibrationPath(recDir, sectionLabel), old(kind).calibratedMapper)
    {
      var path := CalibrationPath(recDir, sectionLabel);
      kind := kind.(calibratedMapper := kind.calibratedMapper.Stamped(SerializationFormatVersion));
      store.files := store.files[path := kind.calibratedMapper];
    }

    /** validate_label: the same label is a no-op, a label in use is refused, anything else is taken. */
    method ValidateLabel(newLabel: string, sectionLabels: seq<string>)
      modifies this`sectionLabel
      ensures sectionLabel == ValidatedLabel(old(sectionLabel), newLabel, sectionLabels)
    {
      if newLabel == sectionLabel {
        return;
      } else if newLabel in sectionLabels {
        return;
      } else {
        sectionLabel := newLabel;
      }
    }

    /** cleanup: a held task is cancelled and stays in place. */
    method Cleanup()
      modifies this`bgTask, this`cancelledTasks
      ensures bgTask == CancelHeld(old(bgTask))
      ensures cancelledTasks == old(cancelledTasks) + (if old(bgTask).Some? then [old(bgTask).value.Cancel()] else [])
    {
      if bgTask.Some? {
        cancelledTasks := cancelledTasks + [bgTask.value.Cancel()];
        bgTask := Some(bgTask.value.Cancel());
      }
    }

    /**
     * set_from_trim_marks (corrected), with the recording's frame timestamps:
     * the range becomes the trim marks unless only the button text is
     * refreshed; the text shows both ends as offsets from the first frame.
     */
    method SetFromTrimMarks(formatOnly: bool, trimLeft: int, trimRight: int, timestamps: seq<real>)
      returns (shown: Result<(real, real), string>)
      modifies this`range
      ensures (range, shown) == TrimButton(formatOnly, old(range), trimLeft, trimRight, timestamps)
    {
      if !formatOnly {
        range := Some((trimLeft, trimRight));
      }
      if range.None? {
        return Err(UnpackNoneError);
      }
      var (left, right) := range.value;
      var minTs := PyIndex(timestamps, 0);
      var leftTs := PyIndex(timestamps, left);
      var rightTs := PyIndex(timestamps, right);
      if minTs.Err? || leftTs.Err? || rightTs.Err? {
        return Err("IndexError: list index out of range");
      }
      shown := Ok((leftTs.value - minTs.value, rightTs.value - minTs.value));
    }

    /** handle_task_result: a Calibration_Section takes the status, keeps its mapper unless a truthy one arrives, and saves. */
    method HandleTaskResult(result: CalibResult, recDir: string, store: CalibrationStore)
      modifies this`kind, store
      ensures (kind, store.files) == HandleResults(old(kind), old(store.files), CalibrationPath(recDir, sectionLabel), [result])
    {
      assert [result][..0] == [];
      if kind.Calibration? {
        var m := if result.mapper.Some? && result.mapper.value.Truthy() then result.mapper.value else kind.calibratedMapper;
        kind := kind.(status := result.status, calibratedMapper := m);
        SaveCalibrationFile(recDir, store);
      }
    }

    /**
     * Base_Section.recent_events with `available` messages waiting: every
     * fetched result goes through handle_task_result in fetch order; a
     * completed task runs on_task_completed and is dropped.
     */
    method RecentEvents(available: nat, recDir: string, store: CalibrationStore)
      modifies this`kind, this`bgTask, this`calibratedNotes, store
      ensures old(bgTask).None? ==> kind == old(kind) && bgTask.None? && store.files == old(store.files) &&
                                     calibratedNotes == old(calibratedNotes)
      ensures old(bgTask).Some? ==>
                var fetched := old(bgTask).value.Fetch(available);
                (kind, store.files) == HandleResults(old(kind), old(store.files), CalibrationPath(recDir, sectionLabel), fetched.0) &&
                bgTask == (if fetched.1.completed then None else Some(fetched.1)) &&
                calibratedNotes == old(calibratedNotes) +
                                   (if fetched.1.completed && old(kind).Calibration? then [sectionLabel] else [])
    {
      if bgTask.Some? {
        var fetched := bgTask.value.Fetch(available);
        bgTask := Some(fetched.1);
        HandleEach(fetched.0, recDir, store);
        if fetched.1.completed {
          if kind.Calibration? {
            calibratedNotes := calibratedNotes + [sectionLabel];
          }
          bgTask := None;
        }
      }
    }

    /** The loop of recent_events: handle_task_result on each fetched result, in order. */
    method HandleEach(recent: seq<CalibResult>, recDir: string, store: CalibrationStore)
      modifies this`kind, store
      ensures (kind, store.files) == HandleResults(old(kind), old(store.files), CalibrationPath(recDir, sectionLabel), recent)
    {
      ghost var path := CalibrationPath(recDir, sectionLabel);
      ghost var k0, f0 := kind, store.files;
      var i := 0;
      while i < |recent|
        invariant i <= |recent|
        invariant (kind, store.files) == HandleResults(k0, f0, path, recent[..i])
      {
        ghost var before := (kind, store.files);
        HandleTaskResult(recent[i], recDir, store);
        HandleResultsExtend(k0, f0, path, recent[..i], recent[i], before, (kind, store.files));
        assert recent[..i + 1] == recent[..i] + [recent[i]];
        i := i + 1;
      }
      assert recent[..|recent|] == recent;
    }

    /**
     * slice_data_and_start_calibration: status 'Starting calibration'; the
     * range, the reference method, the references and the pupil data are
     * checked in that order; then the 3d-to-2d check and a new task, after
     * cancelling the one held.
     */
    method SliceDataAndStartCalibration(circleMarkers: seq<RefPoint>, manualRefs: seq<RefPoint>, rec: Recording, plugins: Plugins)
      returns (raised: bool)
      requires kind.Calibration?
      modifies this`kind, this`bgTask, this`cancelledTasks
      ensures var p := PlanSlicing(range, old(kind).referenceMethod, old(kind).calibrationMethod,
                                       circleMarkers, manualRefs, rec.pupilByFrame);
              (raised <==> p.RangeUnset? || p.UnknownReferenceMethod?) &&
              kind.Calibration? && kind.referenceMethod == old(kind).referenceMethod &&
              kind.calibratedMapper == old(kind).calibratedMapper &&
              kind.status == (if p.NoReferences? then NoReferenceDataMessage
                              else if p.NoPupil? then NoPupilDataMessage
                              else StartingCalibration) &&
              kind.calibrationMethod == (if p.Calibrate? then p.mode else old(kind).calibrationMethod) &&
              (!p.Calibrate? ==> bgTask == old(bgTask) && cancelledTasks == old(cancelledTasks)) &&
              (p.Calibrate? ==>
                 cancelledTasks == old(cancelledTasks) + (if old(bgTask).Some? then [old(bgTask).value.Cancel()] else []) &&
                 var pool := SetupFakePool(rec.frameSize, rec.intrinsics, p.mode, rec.recDir, rec.minCalibrationConfidence);
                 bgTask == Some(StartTask(sectionLabel, CalibrationStream(pool, p.refs, p.pupil, plugins))))
    {
      ghost var p := PlanSlicing(range, kind.referenceMethod, kind.calibrationMethod,
                                     circleMarkers, manualRefs, rec.pupilByFrame);
      kind := kind.(status := StartingCalibration);
      raised := false;
      if range.None? {
        return true;
      }
      var (start, end) := range.value;
      var all := RefSource(kind.referenceMethod, circleMarkers, manualRefs);
      if all.None? {
        return true;
      }
      var referenceData := RefsInRange(all.value, start, end);
      if referenceData == [] {
        kind := kind.(status := NoReferenceDataMessage);
        return;
      }
      var pupilData := PupilInRange(rec.pupilByFrame, (start, end));
      if pupilData == [] {
        kind := kind.(status := NoPupilDataMessage);
        return;
      }
      if kind.calibrationMethod == "3d" && MedianIs2d(pupilData) {
        kind := kind.(calibrationMethod := "2d");
      }
      assert p == Calibrate(referenceData, pupilData, kind.calibrationMethod);
      StartCalibration(referenceData, pupilData, rec, plugins);
    }

    /** start_calibration: cancel the held task, then start a new one, so at most one task is held. */
    method StartCalibration(refs: seq<RefPoint>, pupil: seq<PupilDatum>, rec: Recording, plugins: Plugins)
      requires kind.Calibration?
      modifies this`bgTask, this`cancelledTasks
      ensures cancelledTasks == old(cancelledTasks) + (if old(bgTask).Some? then [old(bgTask).value.Cancel()] else [])
      ensures var pool := SetupFakePool(rec.frameSize, rec.intrinsics, kind.calibrationMethod, rec.recDir, rec.minCalibrationConfidence);
              bgTask == Some(StartTask(sectionLabel, CalibrationStream(pool, refs, pupil, plugins)))
      ensures bgTask.value.Pending() == CalibrationStream(
                SetupFakePool(rec.frameSize, rec.intrinsics, kind.calibrationMethod, rec.recDir, rec.minCalibrationConfidence),
                refs, pupil, plugins)
    {
      if bgTask.Some? {
        cancelledTasks := cancelledTasks + [bgTask.value.Cancel()];
        bgTask := Some(bgTask.value.Cancel());
      }
      var pool := SetupFakePool(rec.frameSize, rec.intrinsics, kind.calibrationMethod, rec.recDir, rec.minCalibrationConfidence);
      bgTask := Some(StartTask(sectionLabel, CalibrationStream(pool, refs, pupil, plugins)));
    }
  }

  /** Validation_Section.gl_display draws only when error visualisation is on and error lines exist. */
  predicate DisplaysErrorLines(k: Kind)
    requires k.Validation?
  {
    k.visMappingError && k.errorLines.Some?
  }

  /** A freshly built validation section draws nothing, whatever its init dict says. */
  lemma FreshValidationDisplaysNothing(args: Args, existing: seq<string>)
    ensures Constructed(ValidationSection, args, existing).kind.Validation?
    ensures !DisplaysErrorLines(Constructed(ValidationSection, args, existing).kind)
  {
  }

  // ----------------------------------------------------------------------
  // Section_List

  /** The initializers whose class name is known, in input order with their own args. */
  function KnownInitializers(inits: seq<(string, Args)>): (r: seq<(SectionClass, Args)>)
    ensures |r| <= |inits|
    ensures forall x :: x in r <==> exists k :: 0 <= k < |inits| && ClassByName(inits[k].0) == Some(x.0) && inits[k].1 == x.1
  {
    if inits == [] then []
    else
      var rest := KnownInitializers(inits[1..]);
      assert forall k :: 1 <= k < |inits| ==> inits[1..][k - 1] == inits[k];
      assert forall k :: 0 <= k < |inits| - 1 ==> inits[k + 1] == inits[1..][k];
      match ClassByName(inits[0].0)
      case Some(c) => [(c, inits[0].1)] + rest
      case None => rest
  }

  lemma KnownInitializersStep(inits: seq<(string, Args)>)
    requires inits != []
    ensures KnownInitializers(inits) ==
            (if ClassByName(inits[0].0).Some? then [(ClassByName(inits[0].0).value, inits[0].1)] else []) + KnownInitializers(inits[1..])
  {
  }

  /** The plugin order of each section class, which the list is kept sorted by. */
  function Order(c: SectionClass): real {
    match c
    case CalibrationSection => 0.3
    case MappingSection => 0.5
    case ValidationSection => 0.7
  }

  function OrderKey(v: View): real {
    Order(ClassOf(v.kind))
  }

  /** A section of class c is listed. */
  predicate Lists(vs: seq<View>, c: SectionClass) {
    exists v :: v in vs && ClassOf(v.kind) == c
  }

  /**
   * What the list keeps between calls: ordered by the class order with no
   * class listed twice, that is, strictly increasing in order.
   */
  ghost predicate WellFormed(vs: seq<View>) {
    StrictlySortedBy(vs, OrderKey)
  }

  /**
   * Sorting a well-formed list with a section of an unlisted class appended
   * puts that section just after the sections of lower order.
   */
  lemma SortAppended(vs: seq<View>, v: View, j: nat)
    requires WellFormed(vs) && j <= |vs|
    requires forall k :: j <= k < |vs| ==> OrderKey(vs[k]) > OrderKey(v)
    requires j > 0 ==> OrderKey(vs[j - 1]) <= OrderKey(v)
    ensures SortBy(vs + [v], OrderKey) == vs[..j] + [v] + vs[j..]
  {
    SortBySortedIsIdentity(vs, OrderKey);
    assert (vs + [v])[..|vs|] == vs;
    InsertAt(v, vs, OrderKey, j);
  }

  /** The stored calibrations after adding one section: a Calibration_Section saves its mapper under its label. */
  function FilesAfterAdd(init: (SectionClass, Args), lbl: string, files: map<string, Mapper>, recDir: string): map<string, Mapper> {
    if init.0 == CalibrationSection then SaveCalibration(files, CalibrationPath(recDir, lbl), MapperArg(init.1)) else files
  }

  /**
   * Plugin_List.add(cls, args) on the listed views. Sections are unique by
   * class, so a listed class is not added again; otherwise the new section,
   * labelled against the gaze manager's `managerLabels`, joins the list and
   * the list is sorted by order.
   */
  function AddOne(init: (SectionClass, Args), vs: seq<View>, files: map<string, Mapper>, recDir: string,
                  managerLabels: seq<string>): (r: (seq<View>, map<string, Mapper>))
  {
    if Lists(vs, init.0) then (vs, files)
    else
      var v := Constructed(init.0, init.1, managerLabels);
      (SortBy(vs + [v], OrderKey), FilesAfterAdd(init, v.sectionLabel, files, recDir))
  }

  /** add for each known initializer in turn. */
  function AddAll(known: seq<(SectionClass, Args)>, vs: seq<View>, files: map<string, Mapper>, recDir: string,
                  managerLabels: seq<string>): (r: (seq<View>, map<string, Mapper>))
    decreases |known|
  {
    if known == [] then (vs, files)
    else
      var one := AddOne(known[0], vs, files, recDir, managerLabels);
      AddAll(known[1..], one.0, one.1, recDir, managerLabels)
  }

  /** The position a new section of order `key` takes: after the last section of no higher order. */
  lemma InsertionPointExists(vs: seq<View>, key: real) returns (j: nat)
    ensures j <= |vs|
    ensures forall k :: j <= k < |vs| ==> OrderKey(vs[k]) > key
    ensures j > 0 ==> OrderKey(vs[j - 1]) <= key
  {
    j := |vs|;
    while j > 0 && OrderKey(vs[j - 1]) > key
      invariant j <= |vs|
      invariant forall k :: j <= k < |vs| ==> OrderKey(vs[k]) > key
    {
      j := j - 1;
    }
  }

  /**
   * A listed class leaves the list and the files alone. Otherwise the list
   * gains exactly the new section, built from the args against the manager's
   * labels, and stays well formed.
   */
  lemma AddOneEffect(init: (SectionClass, Args), vs: seq<View>, files: map<string, Mapper>, recDir: string,
                     managerLabels: seq<string>)
    requires WellFormed(vs)
    ensures var r := AddOne(init, vs, files, recDir, managerLabels);
            var v := Constructed(init.0, init.1, managerLabels);
            WellFormed(r.0) &&
            (Lists(vs, init.0) ==> r == (vs, files)) &&
            (!Lists(vs, init.0) ==>
               multiset(r.0) == multiset(vs) + multiset{v} && (forall w :: w in r.0 <==> w in vs || w == v) &&
               r.1 == FilesAfterAdd(init, v.sectionLabel, files, recDir))
  {
    if !Lists(vs, init.0) {
      var v := Constructed(init.0, init.1, managerLabels);
      ConstructedClassAndLabel(init.0, init.1, managerLabels);
      var j := InsertionPointExists(vs, OrderKey(v));
      if j > 0 {
        assert vs[j - 1] in vs;
      }
      SortAppended(vs, v, j);
      InsertStrictlySorted(vs, v, OrderKey, j);
      InsertedContents(vs, v, j);
    }
  }

  /** Adding a section of an unlisted class puts it at the insertion point found by scanning from the end. */
  lemma AddOneAt(init: (SectionClass, Args), vs: seq<View>, files: map<string, Mapper>, recDir: string,
                 managerLabels: seq<string>, j: nat)
    requires WellFormed(vs) && !Lists(vs, init.0) && j <= |vs|
    requires forall k :: j <= k < |vs| ==> OrderKey(vs[k]) > Order(init.0)
    requires j > 0 ==> OrderKey(vs[j - 1]) <= Order(init.0)
    ensures var v := Constructed(init.0, init.1, managerLabels);
            var r := vs[..j] + [v] + vs[j..];
            AddOne(init, vs, files, recDir, managerLabels) == (r, FilesAfterAdd(init, v.sectionLabel, files, recDir)) &&
            WellFormed(r)
  {
    var v := Constructed(init.0, init.1, managerLabels);
    ConstructedClassAndLabel(init.0, init.1, managerLabels);
    if j > 0 {
      assert vs[j - 1] in vs;
    }
    SortAppended(vs, v, j);
    InsertStrictlySorted(vs, v, OrderKey, j);
  }

  /** The arguments of the first initializer naming class c. */
  function FirstArgs(known: seq<(SectionClass, Args)>, c: SectionClass): Option<Args> {
    if known == [] then None
    else if known[0].0 == c then Some(known[0].1)
    else FirstArgs(known[1..], c)
  }

  /**
   * The views are exactly the sections the initializers `done` leave: one
   * per class named, built from the first initializer naming it.
   */
  ghost predicate Describes(vs: seq<View>, done: seq<(SectionClass, Args)>, managerLabels: seq<string>) {
    (forall c :: Lists(vs, c) <==> FirstArgs(done, c).Some?) &&
    forall v :: v in vs ==> (FirstArgs(done, ClassOf(v.kind)).Some? &&
                            v == Constructed(ClassOf(v.kind), FirstArgs(done, ClassOf(v.kind)).value, managerLabels))
  }

  lemma {:induction false} FirstArgsAppend(done: seq<(SectionClass, Args)>, x: (SectionClass, Args), c: SectionClass)
    ensures FirstArgs(done + [x], c) == if FirstArgs(done, c).Some? then FirstArgs(done, c)
                                       else if x.0 == c then Some(x.1) else None
  {
    if done != [] {
      assert (done + [x])[1..] == done[1..] + [x];
      FirstArgsAppend(done[1..], x, c);
    }
  }

  /** One add keeps the views describing the initializers seen so far. */
  lemma AddOneDescribes(done: seq<(SectionClass, Args)>, x: (SectionClass, Args), vs: seq<View>,
                        files: map<string, Mapper>, recDir: string, managerLabels: seq<string>)
    requires WellFormed(vs) && Describes(vs, done, managerLabels)
    ensures Describes(AddOne(x, vs, files, recDir, managerLabels).0, done + [x], managerLabels)
  {
    AddOneEffect(x, vs, files, recDir, managerLabels);
    var r := AddOne(x, vs, files, recDir, managerLabels).0;
    forall c
      ensures FirstArgs(done + [x], c) == if FirstArgs(done, c).Some? then FirstArgs(done, c)
                                         else if x.0 == c then Some(x.1) else None
    {
      FirstArgsAppend(done, x, c);
    }
    if !Lists(vs, x.0) {
      var v := Constructed(x.0, x.1, managerLabels);
      ConstructedClassAndLabel(x.0, x.1, managerLabels);
      assert ClassOf(v.kind) == x.0 && v in r;
    }
  }

  /** Adding a run of initializers: the list stays well formed and describes everything seen. */
  lemma {:induction false} AddAllDescribes(done: seq<(SectionClass, Args)>, known: seq<(SectionClass, Args)>, vs: seq<View>,
                                           files: map<string, Mapper>, recDir: string, managerLabels: seq<string>)
    requires WellFormed(vs) && Describes(vs, done, managerLabels)
    ensures var r := AddAll(known, vs, files, recDir, managerLabels).0;
            WellFormed(r) && Describes(r, done + known, managerLabels)
    decreases |known|
  {
    if known == [] {
      assert done + known == done;
    } else {
      var one := AddOne(known[0], vs, files, recDir, managerLabels);
      AddOneEffect(known[0], vs, files, recDir, managerLabels);
      AddOneDescribes(done, known[0], vs, files, recDir, managerLabels);
      AddAllDescribes(done + [known[0]], known[1..], one.0, one.1, recDir, managerLabels);
      assert done + [known[0]] + known[1..] == done + known;
    }
  }

  /**
   * A section list built from initializers lists, in class order, one
   * section for each class some initializer names, built from the first
   * such initializer; every label it generates is the same one, computed
   * from the gaze manager's labels rather than from the list being built.
   */
  lemma SectionListContents(inits: seq<(string, Args)>, files: map<string, Mapper>, recDir: string, managerLabels: seq<string>)
    ensures var known := KnownInitializers(inits);
            var r := AddAll(known, [], files, recDir, managerLabels).0;
            (forall i, j :: 0 <= i < j < |r| ==> Order(ClassOf(r[i].kind)) < Order(ClassOf(r[j].kind))) &&
            (forall c :: Lists(r, c) <==> FirstArgs(known, c).Some?) &&
            (forall v :: v in r ==> v == Constructed(ClassOf(v.kind), FirstArgs(known, ClassOf(v.kind)).value, managerLabels)) &&
            (forall v :: v in r && v.sectionLabel !in managerLabels ==>
                           v.sectionLabel == GeneratorLabel(managerLabels) || LabelArg(FirstArgs(known, ClassOf(v.kind)).value).Some?)
  {
    var known := KnownInitializers(inits);
    AddAllDescribes([], known, [], files, recDir, managerLabels);
    assert [] + known == known;
    var r := AddAll(known, [], files, recDir, managerLabels).0;
    forall i, j | 0 <= i < j < |r|
      ensures Order(ClassOf(r[i].kind)) < Order(ClassOf(r[j].kind))
    {
      assert OrderKey(r[i]) <= OrderKey(r[j]);
    }
  }

  lemma AddAllStep(known: seq<(SectionClass, Args)>, vs: seq<View>, files: map<string, Mapper>, recDir: string,
                   managerLabels: seq<string>)
    requires known != []
    ensures var one := AddOne(known[0], vs, files, recDir, managerLabels);
            AddAll(known, vs, files, recDir, managerLabels) == AddAll(known[1..], one.0, one.1, recDir, managerLabels)
  {
  }

  /** Every built section has the class it was built from, and the label it was given when one was. */
  lemma ConstructedClassAndLabel(c: SectionClass, args: Args, existing: seq<string>)
    ensures ClassOf(Constructed(c, args, existing).kind) == c
    ensures LabelArg(args).Some? ==> Constructed(c, args, existing).sectionLabel == LabelArg(args).value
    ensures LabelArg(args).None? ==> Constructed(c, args, existing).sectionLabel == GeneratorLabel(existing)
  {
  }

  function ViewsOf(ss: seq<PluginSection>): (r: seq<View>)
    reads ss
    ensures |r| == |ss| && forall i :: 0 <= i < |ss| ==> r[i] == ss[i].State()
  {
    seq(|ss|, i requires 0 <= i < |ss| reads ss => ss[i].State())
  }

  lemma ViewsOfInsert(ss: seq<PluginSection>, s: PluginSection, j: nat)
    requires j <= |ss|
    ensures ViewsOf(ss[..j] + [s] + ss[j..]) == ViewsOf(ss)[..j] + [s.State()] + ViewsOf(ss)[j..]
  {
  }

  class SectionList {
    var sections: seq<PluginSection>

    ghost predicate Valid()
      reads this, sections
    {
      WellFormed(ViewsOf(sections))
    }

    /**
     * Section_List(g_pool, plugin_initializers): each initializer whose
     * class name is known is added in order; unknown names are skipped.
     * Generated labels are checked against `managerLabels`, the labels of
     * the gaze manager's sections.
     */
    constructor (inits: seq<(string, Args)>, managerLabels: seq<string>, recDir: string, store: CalibrationStore)
      modifies store
      ensures Valid()
      ensures (ViewsOf(sections), store.files) == AddAll(KnownInitializers(inits), [], old(store.files), recDir, managerLabels)
      ensures forall s :: s in sections ==> fresh(s)
    {
      sections := [];
      new;
      ghost var target := AddAll(KnownInitializers(inits), [], old(store.files), recDir, managerLabels);
      var k := 0;
      while k < |inits|
        invariant k <= |inits|
        invariant Valid()
        invariant forall s :: s in sections ==> fresh(s)
        invariant target == AddAll(KnownInitializers(inits[k..]), ViewsOf(sections), store.files, recDir, managerLabels)
      {
        var (name, args) := inits[k];
        KnownInitializersStep(inits[k..]);
        assert inits[k..][0] == (name, args) && inits[k..][1..] == inits[k + 1..];
        var c := ClassByName(name);
        if c.Some? {
          ghost var vs, files := ViewsOf(sections), store.files;
          Add(c.value, args, managerLabels, recDir, store);
          AddAllStep([(c.value, args)] + KnownInitializers(inits[k + 1..]), vs, files, recDir, managerLabels);
        }
        k := k + 1;
      }
    }

    /** The class search of add: whether a section of class c is listed. */
    method Listed(c: SectionClass) returns (found: bool)
      ensures found == Lists(ViewsOf(sections), c)
    {
      ghost var vs := ViewsOf(sections);
      var i := 0;
      while i < |sections|
        invariant i <= |sections|
        invariant forall k :: 0 <= k < i ==> ClassOf(vs[k].kind) != c
      {
        if ClassOf(sections[i].kind) == c {
          assert vs[i] in vs;
          return true;
        }
        i := i + 1;
      }
      return false;
    }

    /** Where sorting by order puts a new section of class c: after the last listed section of no higher order. */
    method InsertionPoint(c: SectionClass) returns (j: nat)
      ensures j <= |sections|
      ensures forall k :: j <= k < |sections| ==> OrderKey(ViewsOf(sections)[k]) > Order(c)
      ensures j > 0 ==> OrderKey(ViewsOf(sections)[j - 1]) <= Order(c)
    {
      j := |sections|;
      while j > 0 && Order(ClassOf(sections[j - 1].kind)) > Order(c)
        invariant j <= |sections|
        invariant forall k :: j <= k < |sections| ==> OrderKey(ViewsOf(sections)[k]) > Order(c)
      {
        j := j - 1;
      }
    }

    /**
     * add(cls, args): nothing happens when a section of the class is listed;
     * otherwise the new section goes where sorting the appended list by
     * order puts it.
     */
    method Add(c: SectionClass, args: Args, managerLabels: seq<string>, recDir: string, store: CalibrationStore)
      requires Valid()
      modifies this`sections, store
      ensures Valid()
      ensures (ViewsOf(sections), store.files) == AddOne((c, args), old(ViewsOf(sections)), old(store.files), recDir, managerLabels)
      ensures forall s :: s in sections ==> s in old(sections) || fresh(s)
    {
      var listed := Listed(c);
      if listed {
        return;
      }
      var j := InsertionPoint(c);
      ghost var before := ViewsOf(sections);
      AddOneAt((c, args), before, store.files, recDir, managerLabels, j);
      var sec := new PluginSection(c, args, managerLabels, recDir, store);
      assert ViewsOf(sections) == before;
      Place(sec, j, before[..j] + [sec.State()] + before[j..]);
    }

    /** Puts a section at position j of the list, the sorted place the views `r` describe. */
    method Place(sec: PluginSection, j: nat, ghost r: seq<View>)
      requires j <= |sections| && r == ViewsOf(sections)[..j] + [sec.State()] + ViewsOf(sections)[j..] && WellFormed(r)
      modifies this`sections
      ensures forall s :: s in sections ==> s in old(sections) || s == sec
      ensures ViewsOf(sections) == r && Valid()
    {
      ViewsOfInsert(sections, sec, j);
      assert forall s :: s in sections[..j] + sections[j..] ==> s in sections;
      sections := sections[..j] + [sec] + sections[j..];
    }
  }
}
