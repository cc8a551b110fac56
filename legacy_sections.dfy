/**
 * The dict-cached generation of offline calibration sections
 * (gaze_sections.py): generated labels, the per-section cache dict, the
 * calibration and mapping result streams a background task produces, and the
 * Section object that starts a calibration and drains its background task's results.
 */
module LegacySections {
  import opened Wrappers
  import opened Decimal
  import opened PySeq
  import opened PyPath
  import opened GazeData

  const CalibrationFileVersion: int := 1
  const CreateCalibration: string := "Create calibration"
  const NotAvailable: string := "Not available"

  // ----------------------------------------------------------------------
  // Section labels

  const LabelPrefix: string := "Unnamed section "

  /** 'Unnamed section {n}'. */
  function SectionLabel(n: nat): (s: string)
    ensures |s| > |LabelPrefix| && s[..|LabelPrefix|] == LabelPrefix
  {
    LabelPrefix + NatToString(n)
  }

  /** The counter written into a generated label; 0 for any other text. */
  function LabelNumber(s: string): nat {
    if |s| > |LabelPrefix| && s[..|LabelPrefix|] == LabelPrefix && AllDigits(s[|LabelPrefix|..])
    then DigitsValue(s[|LabelPrefix|..])
    else 0
  }

  /** Generated labels are told apart by their counter. */
  lemma LabelNumberOfSectionLabel(n: nat)
    ensures LabelNumber(SectionLabel(n)) == n
  {
    assert SectionLabel(n)[|LabelPrefix|..] == NatToString(n);
    DigitsValueOfNatToString(n);
  }

  /**
   * make_section_label: counts up from 1 and returns the first generated
   * label that is not among the existing ones.
   */
  method MakeSectionLabel(existing: seq<string>) returns (sectionLabel: string, ghost n: nat)
    ensures 1 <= n && sectionLabel == SectionLabel(n) && sectionLabel !in existing
    ensures forall k :: 1 <= k < n ==> SectionLabel(k) in existing
  {
    var counter := 1;
    ghost var seen: set<string> := {};
    while true
      invariant 1 <= counter
      invariant forall k :: 1 <= k < counter ==> SectionLabel(k) in existing
      invariant seen <= set x | x in existing
      invariant forall x :: x in seen ==> LabelNumber(x) < counter
      decreases (set x | x in existing) - seen
    {
      sectionLabel := SectionLabel(counter);
      if sectionLabel in existing {
        LabelNumberOfSectionLabel(counter);
        seen := seen + {sectionLabel};
        counter := counter + 1;
      } else {
        n := counter;
        return;
      }
    }
  }

  // ----------------------------------------------------------------------
  // The section cache

  type Color = (real, real, real, real)

  /** The six RGBA colours of the module-level colour cycle, in cycle order. */
  const Palette: seq<Color> := [
    (0.66015625, 0.859375, 0.4609375, 0.8),
    (0.99609375, 0.84375, 0.3984375, 0.8),
    (0.46875, 0.859375, 0.90625, 0.8),
    (0.984375, 0.59375, 0.40234375, 0.8),
    (0.66796875, 0.61328125, 0.9453125, 0.8),
    (0.99609375, 0.37890625, 0.53125, 0.8)]

  /** The colour the cycle hands out after `drawn` earlier draws. */
  function CycleColor(drawn: nat): (c: Color)
    ensures c in Palette
  {
    Palette[drawn % |Palette|]
  }

  /** A section's persisted settings (the cache dict). */
  datatype Cache = Cache(
    sectionLabel: string,
    sectionType: string,
    calibration: Option<Mapper>,
    calibrationRange: (int, int),
    mappingRange: (int, int),
    mappingMethod: string,
    calibrationMethod: string,
    status: string,
    color: Color,
    visMappingError: bool,
    outlierThreshold: real,
    xOffset: real,
    yOffset: real)

  /** construct_cache, drawing the next colour of the cycle. */
  function ConstructCache(sectionLabel: string, calibRange: (int, int), mapRange: (int, int), drawn: nat): (c: Cache)
    ensures c.sectionLabel == sectionLabel && c.calibrationRange == calibRange && c.mappingRange == mapRange
    ensures c.sectionType == CreateCalibration && c.calibration.None?
    ensures c.mappingMethod == "3d" && c.calibrationMethod == "circle_marker" && c.status == "Not mapped"
    ensures c.color == CycleColor(drawn)
    ensures c.visMappingError && c.outlierThreshold == 5.0 && c.xOffset == 0.0 && c.yOffset == 0.0
  {
    Cache(sectionLabel, CreateCalibration, None, calibRange, mapRange, "3d", "circle_marker", "Not mapped",
          CycleColor(drawn), true, 5.0, 0.0, 0.0)
  }

  // ----------------------------------------------------------------------
  // Slicing the session

  /**
   * list(chain.from_iterable(pupil_positions_by_frame[slice(lo, hi)])): the
   * pupil data of frames lo .. hi-1 (the slice is half-open).
   */
  function PupilInRange(byFrame: seq<seq<PupilDatum>>, range: (int, int)): (data: seq<PupilDatum>)
    ensures 0 <= range.0 <= range.1 <= |byFrame| ==> data == Flatten(byFrame[range.0..range.1])
    ensures 0 <= range.0 <= range.1 <= |byFrame| ==>
              (data == [] <==> forall i :: range.0 <= i < range.1 ==> byFrame[i] == [])
  {
    var frames := Slice(byFrame, range.0, range.1);
    FlattenEmpty(frames);
    assert 0 <= range.0 <= range.1 <= |byFrame| ==>
             forall i :: range.0 <= i < range.1 ==> frames[i - range.0] == byFrame[i];
    Flatten(frames)
  }

  /** [r for r in refs if start <= r['index'] <= end]: the range is inclusive here. */
  function RefsInRange(refs: seq<RefPoint>, start: int, end: int): (kept: seq<RefPoint>)
    ensures forall r :: r in kept <==> r in refs && start <= r.index <= end
    ensures |kept| <= |refs|
  {
    if refs == [] then []
    else
      var init, last := refs[..|refs| - 1], refs[|refs| - 1];
      assert refs == init + [last];
      RefsInRange(init, start, end) + (if start <= last.index <= end then [last] else [])
  }

  /** '2d' in calib_list[len(calib_list)//2]['method']: only the middle datum is inspected. */
  predicate MedianIs2d(calib: seq<PupilDatum>)
    requires calib != []
  {
    IsSubstring("2d", calib[|calib| / 2].detectionMethod)
  }

  /** The mapping method after the 3d-to-2d check of calibrate. */
  function DowngradedMode(mode: string, calib: seq<PupilDatum>): (m: string)
    requires calib != []
    ensures m == mode || (mode == "3d" && m == "2d")
    ensures mode == "3d" ==> (m == "2d" <==> MedianIs2d(calib))
  {
    if mode == "3d" && MedianIs2d(calib) then "2d" else mode
  }

  /** Applying the check again changes nothing. */
  lemma DowngradeIdempotent(mode: string, calib: seq<PupilDatum>)
    requires calib != []
    ensures DowngradedMode(DowngradedMode(mode, calib), calib) == DowngradedMode(mode, calib)
  {
  }

  // ----------------------------------------------------------------------
  // Mapping progress

  lemma ScaleBound(p: int, c: int, n: int)
    requires n > 0 && p * n < (c + 1) * n
    ensures p <= c
  {
  }

  lemma PercentBounds(idx: nat, n: nat)
    requires idx < n
    ensures var p := 100 * (idx + 1) / n;
            0 <= p <= 100 && (p == 100 <==> idx == n - 1)
  {
    var p := 100 * (idx + 1) / n;
    assert p * n <= 100 * (idx + 1) < (p + 1) * n;
    ScaleBound(p, 100, n);
    if idx < n - 1 {
      assert 100 * (idx + 1) <= 100 * n - 100;
      ScaleBound(p, 99, n);
    } else {
      assert 100 * (idx + 1) == 100 * n;
      ScaleBound(99, p, n);
    }
  }

  /** int(100 * (idx+1) / len(map_list)) for the datum at idx. */
  function ProgressPercent(idx: nat, n: nat): nat
    requires idx < n
  {
    100 * (idx + 1) / n
  }

  /**
   * The progress is the integer part of 100*(idx+1)/n, at most 100, and 100
   * exactly for the last datum. (Kept out of ProgressPercent's own contract:
   * the products of two unknowns are costly wherever the function occurs.)
   */
  lemma ProgressPercentFacts(idx: nat, n: nat)
    requires idx < n
    ensures var p := ProgressPercent(idx, n);
            p * n <= 100 * (idx + 1) < (p + 1) * n && p <= 100 && (p == 100 <==> idx == n - 1)
  {
    PercentBounds(idx, n);
    var p := ProgressPercent(idx, n);
    assert p * n <= 100 * (idx + 1) < (p + 1) * n;
  }

  /** Progress never goes back along the stream. */
  lemma ProgressMonotone(i: nat, j: nat, n: nat)
    requires i <= j < n
    ensures ProgressPercent(i, n) <= ProgressPercent(j, n)
  {
    var pi, pj := ProgressPercent(i, n), ProgressPercent(j, n);
    ProgressPercentFacts(i, n);
    ProgressPercentFacts(j, n);
    assert pi * n <= 100 * (i + 1) <= 100 * (j + 1) < (pj + 1) * n;
    ScaleBound(pi, pj, n);
  }

  function ProgressText(p: nat): string {
    "Mapping.." + NatToString(p) + "%"
  }

  // ----------------------------------------------------------------------
  // Result streams

  datatype ResultValue = NoValue | MapperValue(mapper: Mapper) | GazeBatch(gaze: seq<GazeDatum>)

  /** Task_Result(topic, status, value). */
  datatype TaskResult = TaskResult(topic: string, status: string, value: ResultValue)

  const MappingComplete: TaskResult := TaskResult("mapping", "Mapping complete.", GazeBatch([]))

  /** The manual correction: offsets added to norm_pos, and the section tag. */
  function Corrected(g: GazeDatum, sectionLabel: string, dx: real, dy: real): GazeDatum {
    g.(normPos := Point(g.normPos.x + dx, g.normPos.y + dy), section := Some(sectionLabel))
  }

  function CorrectedAll(gs: seq<GazeDatum>, sectionLabel: string, dx: real, dy: real): (r: seq<GazeDatum>)
    ensures |r| == |gs|
    ensures forall i :: 0 <= i < |gs| ==> r[i] == Corrected(gs[i], sectionLabel, dx, dy)
  {
    seq(|gs|, i requires 0 <= i < |gs| => Corrected(gs[i], sectionLabel, dx, dy))
  }

  /** The gaze handed over by the 'mapping' results of a stream, in order. */
  function MappingGaze(rs: seq<TaskResult>): seq<GazeDatum> {
    if rs == [] then []
    else
      var last := rs[|rs| - 1];
      MappingGaze(rs[..|rs| - 1])
        + (if last.topic == "mapping" && last.value.GazeBatch? then last.value.gaze else [])
  }

  lemma {:induction false} MappingGazeAppend(a: seq<TaskResult>, b: seq<TaskResult>)
    ensures MappingGaze(a + b) == MappingGaze(a) + MappingGaze(b)
    decreases |b|
  {
    if b == [] {
      assert a + b == a;
    } else {
      assert (a + b)[..|a + b| - 1] == a + b[..|b| - 1];
      MappingGazeAppend(a, b[..|b| - 1]);
    }
  }

  /** The arguments of one map_in_background run. */
  datatype MapJob = MapJob(
    pool: FakePool,
    sectionLabel: string,
    fit: Fit,
    data: seq<PupilDatum>,
    dx: real,
    dy: real,
    mapDatum: (FakePool, Fit, PupilDatum) -> seq<GazeDatum>)
  {
    /** The mapper's output for datum i, before correction. */
    function Mapped(i: nat): seq<GazeDatum>
      requires i < |data|
    {
      mapDatum(pool, fit, data[i])
    }

    /** The result datum i contributes: nothing when the mapper returns nothing. */
    function BatchFor(i: nat): seq<TaskResult>
      requires i < |data|
    {
      if Mapped(i) == [] then []
      else [TaskResult("mapping", ProgressText(ProgressPercent(i, |data|)),
                       GazeBatch(CorrectedAll(Mapped(i), sectionLabel, dx, dy)))]
    }

    /** Results produced for data[..k]. */
    function Batches(k: nat): seq<TaskResult>
      requires k <= |data|
    {
      if k == 0 then [] else Batches(k - 1) + BatchFor(k - 1)
    }

    /** Everything map_in_background yields. */
    function Stream(): seq<TaskResult> {
      Batches(|data|) + [MappingComplete]
    }

    /** The corrected output of data[..k], concatenated. */
    function CorrectedOutput(k: nat): seq<GazeDatum>
      requires k <= |data|
    {
      if k == 0 then [] else CorrectedOutput(k - 1) + CorrectedAll(Mapped(k - 1), sectionLabel, dx, dy)
    }

    /** Indices of the data among data[..k] that the mapper turns into something. */
    function Emitted(k: nat): seq<nat>
      requires k <= |data|
    {
      if k == 0 then [] else Emitted(k - 1) + (if Mapped(k - 1) == [] then [] else [k - 1])
    }
  }

  /** The batches are exactly one per emitting datum, in data order, with its progress. */
  lemma {:induction false} BatchesShape(job: MapJob, k: nat)
    requires k <= |job.data|
    ensures |job.Batches(k)| == |job.Emitted(k)|
    ensures forall j :: 0 <= j < |job.Emitted(k)| ==> job.Emitted(k)[j] < k
    ensures forall j, l :: 0 <= j < l < |job.Emitted(k)| ==> job.Emitted(k)[j] < job.Emitted(k)[l]
    ensures forall j :: 0 <= j < |job.Batches(k)| ==>
              var i := job.Emitted(k)[j];
              i < |job.data| && job.Mapped(i) != [] &&
              job.Batches(k)[j] == TaskResult("mapping", ProgressText(ProgressPercent(i, |job.data|)),
                                              GazeBatch(CorrectedAll(job.Mapped(i), job.sectionLabel, job.dx, job.dy)))
  {
    if k > 0 {
      BatchesShape(job, k - 1);
    }
  }

  /** All gaze in the batches is the mapper's output with the correction applied, in order. */
  lemma {:induction false} BatchesGaze(job: MapJob, k: nat)
    requires k <= |job.data|
    ensures MappingGaze(job.Batches(k)) == job.CorrectedOutput(k)
  {
    if k > 0 {
      BatchesGaze(job, k - 1);
      BatchesGazeStep(job, k);
    }
  }

  /** One more datum appends its corrected output to the batches' gaze. */
  lemma BatchesGazeStep(job: MapJob, k: nat)
    requires 0 < k <= |job.data|
    requires MappingGaze(job.Batches(k - 1)) == job.CorrectedOutput(k - 1)
    ensures MappingGaze(job.Batches(k)) == job.CorrectedOutput(k)
  {
    MappingGazeAppend(job.Batches(k - 1), job.BatchFor(k - 1));
    BatchForGaze(job, k - 1);
  }

  /** The gaze of one datum's results is that datum's corrected output. */
  lemma BatchForGaze(job: MapJob, i: nat)
    requires i < |job.data|
    ensures MappingGaze(job.BatchFor(i)) == CorrectedAll(job.Mapped(i), job.sectionLabel, job.dx, job.dy)
  {
    var b := job.BatchFor(i);
    if job.Mapped(i) != [] {
      assert |b| == 1 && b[..0] == [];
      assert b[0].topic == "mapping" && b[0].value == GazeBatch(CorrectedAll(job.Mapped(i), job.sectionLabel, job.dx, job.dy));
    }
  }

  /**
   * The stream ends with exactly one ('mapping', 'Mapping complete.', [])
   * and every earlier result is a non-empty 'mapping' batch.
   */
  lemma StreamEnd(job: MapJob)
    ensures |job.Stream()| >= 1 && job.Stream()[|job.Stream()| - 1] == MappingComplete
    ensures forall j :: 0 <= j < |job.Stream()| - 1 ==>
              job.Stream()[j].topic == "mapping" && job.Stream()[j].value.GazeBatch? &&
              job.Stream()[j].value.gaze != [] && job.Stream()[j] != MappingComplete
  {
    BatchesShape(job, |job.data|);
  }

  /** The progress figures of the batches stay within 0..100 and never decrease. */
  lemma StreamProgress(job: MapJob, j: nat, l: nat)
    requires j <= l < |job.Batches(|job.data|)|
    ensures var e := job.Emitted(|job.data|);
            |e| == |job.Batches(|job.data|)| &&
            e[j] < |job.data| && e[l] < |job.data| &&
            job.Batches(|job.data|)[l].status == ProgressText(ProgressPercent(e[l], |job.data|)) &&
            ProgressPercent(e[j], |job.data|) <= ProgressPercent(e[l], |job.data|) <= 100
  {
    var e := job.Emitted(|job.data|);
    BatchesShape(job, |job.data|);
    ProgressPercentFacts(e[l], |job.data|);
    if j < l {
      ProgressMonotone(e[j], e[l], |job.data|);
    }
  }

  /** map_in_background: maps each datum, corrects its gaze in place, and yields the non-empty batches. */
  method MapInBackground(job: MapJob) returns (stream: seq<TaskResult>)
    ensures stream == job.Stream()
  {
    stream := [];
    var idx := 0;
    while idx < |job.data|
      invariant idx <= |job.data|
      invariant stream == job.Batches(idx)
    {
      var mapped := job.mapDatum(job.pool, job.fit, job.data[idx]);
      ghost var original := mapped;
      var k := 0;
      while k < |mapped|
        invariant k <= |mapped| == |original|
        invariant forall i :: 0 <= i < k ==> mapped[i] == Corrected(original[i], job.sectionLabel, job.dx, job.dy)
        invariant forall i :: k <= i < |mapped| ==> mapped[i] == original[i]
      {
        var gp := mapped[k];
        var normPos := Point(gp.normPos.x + job.dx, gp.normPos.y + job.dy);
        mapped := mapped[k := gp.(normPos := normPos, section := Some(job.sectionLabel))];
        k := k + 1;
      }
      assert mapped == CorrectedAll(job.Mapped(idx), job.sectionLabel, job.dx, job.dy);
      if mapped != [] {
        var progress := ProgressText(ProgressPercent(idx, |job.data|));
        stream := stream + [TaskResult("mapping", progress, GazeBatch(mapped))];
      }
      idx := idx + 1;
    }
    stream := stream + [MappingComplete];
  }

  /** Everything calibrate_in_background yields for these arguments. */
  function CalibrateStream(pool: FakePool, sectionLabel: string, refs: seq<RefPoint>, calib: seq<PupilDatum>,
                           mapList: seq<PupilDatum>, dx: real, dy: real, plugins: Plugins): seq<TaskResult>
  {
    [TaskResult("calibration", "Calibrating...", NoValue)] +
    match plugins.fit(pool, calib, refs)
    case Succeeded(fitName, args) =>
      [TaskResult("calibration", "Calibration successful", MapperValue(Mapper(Some(Fit(fitName, args)), None)))]
        + MapJob(pool, sectionLabel, Fit(fitName, args), mapList, dx, dy, plugins.mapDatum).Stream()
    case Failed(_) =>
      [TaskResult("calibration", "Calibration failed!", NoValue)]
  }

  /**
   * The shape of a calibration stream: 'Calibrating...' first; on a failed
   * fit exactly one more result, without the reason; on success the mapper
   * and then the whole mapping stream.
   */
  lemma CalibrateStreamShape(pool: FakePool, sectionLabel: string, refs: seq<RefPoint>, calib: seq<PupilDatum>,
                             mapList: seq<PupilDatum>, dx: real, dy: real, plugins: Plugins)
    ensures var s := CalibrateStream(pool, sectionLabel, refs, calib, mapList, dx, dy, plugins);
            |s| >= 2 && s[0] == TaskResult("calibration", "Calibrating...", NoValue) &&
            (plugins.fit(pool, calib, refs).Failed? ==>
               s == [s[0], TaskResult("calibration", "Calibration failed!", NoValue)]) &&
            (plugins.fit(pool, calib, refs).Succeeded? ==>
               var f := plugins.fit(pool, calib, refs);
               var job := MapJob(pool, sectionLabel, Fit(f.name, f.args), mapList, dx, dy, plugins.mapDatum);
               s[1].value == MapperValue(Mapper(Some(Fit(f.name, f.args)), None)) &&
               s[2..] == job.Stream() &&
               s[|s| - 1] == MappingComplete)
  {
    var s := CalibrateStream(pool, sectionLabel, refs, calib, mapList, dx, dy, plugins);
    var f := plugins.fit(pool, calib, refs);
    if f.Succeeded? {
      var job := MapJob(pool, sectionLabel, Fit(f.name, f.args), mapList, dx, dy, plugins.mapDatum);
      StreamEnd(job);
      assert s[2..] == job.Stream();
    }
  }

  /** calibrate_in_background: the fit first, then (on success) the mapping run. */
  method CalibrateInBackground(pool: FakePool, sectionLabel: string, refs: seq<RefPoint>, calib: seq<PupilDatum>,
                               mapList: seq<PupilDatum>, dx: real, dy: real, plugins: Plugins)
    returns (stream: seq<TaskResult>)
    ensures stream == CalibrateStream(pool, sectionLabel, refs, calib, mapList, dx, dy, plugins)
  {
    stream := [TaskResult("calibration", "Calibrating...", NoValue)];
    var result := plugins.fit(pool, calib, refs);
    if result.Succeeded? {
      var fit := Fit(result.name, result.args);
      stream := stream + [TaskResult("calibration", "Calibration successful", MapperValue(Mapper(Some(fit), None)))];
      var mapping := MapInBackground(MapJob(pool, sectionLabel, fit, mapList, dx, dy, plugins.mapDatum));
      stream := stream + mapping;
    } else {
      stream := stream + [TaskResult("calibration", "Calibration failed!", NoValue)];
    }
  }

  // ----------------------------------------------------------------------
  // Calibration files

  /** <rec_dir>/offline_data/<label>.plcalibration */
  function CalibrationPath(recDir: string, sectionLabel: string): string {
    Join(Join(recDir, "offline_data"), sectionLabel + ".plcalibration")
  }

  /** Different labels (not absolute paths themselves) name different files. */
  lemma CalibrationPathInjective(recDir: string, a: string, b: string)
    requires a == [] || a[0] != '/'
    requires b == [] || b[0] != '/'
    requires CalibrationPath(recDir, a) == CalibrationPath(recDir, b)
    ensures a == b
  {
    var fa, fb := a + ".plcalibration", b + ".plcalibration";
    assert fa[0] != '/' && fb[0] != '/';
    JoinInjective(Join(recDir, "offline_data"), fa, fb);
    assert a == fa[..|fa| - 14];
    assert b == fb[..|fb| - 14];
  }

  /** os.rename(old, new) when old may be missing (FileNotFoundError is ignored). */
  function RenameFile(files: map<string, Mapper>, from: string, to: string): (r: map<string, Mapper>)
    ensures from !in files ==> r == files
    ensures from in files ==> to in r && r[to] == files[from]
    ensures from in files && from != to ==> from !in r
    ensures forall p :: p != from && p != to ==> (p in r <==> p in files) && (p in files ==> r[p] == files[p])
  {
    if from !in files || from == to then files
    else (files - {from})[to := files[from]]
  }

  // ----------------------------------------------------------------------
  // Draining task results

  /** The parts of a section that handle_task_result changes, with the calibration files. */
  datatype Drained = Drained(status: string, calibration: Option<Mapper>, gaze: seq<GazeDatum>, files: map<string, Mapper>)

  /** A 'calibration' result carrying a mapper that is not falsy. */
  predicate CarriesMapper(r: TaskResult) {
    r.topic == "calibration" && r.value.MapperValue? && r.value.mapper.Truthy()
  }

  /** handle_task_result for one result; `path` is the section's calibration file. */
  function HandleResult(d: Drained, r: TaskResult, path: string): Drained {
    var d1 := d.(status := r.status);
    if CarriesMapper(r) then
      var m := r.value.mapper.Stamped(CalibrationFileVersion);
      d1.(calibration := Some(m), files := d.files[path := m])
    else if r.topic == "mapping" then
      d1.(gaze := d.gaze + (if r.value.GazeBatch? then r.value.gaze else []))
    else d1
  }

  /** The results handled one after the other, in fetch order. */
  function HandleAll(d: Drained, rs: seq<TaskResult>, path: string): Drained {
    if rs == [] then d else HandleResult(HandleAll(d, rs[..|rs| - 1], path), rs[|rs| - 1], path)
  }

  /** One more result handled. */
  lemma HandleAllPrefix(d: Drained, rs: seq<TaskResult>, path: string, i: nat)
    requires i < |rs|
    ensures HandleAll(d, rs[..i + 1], path) == HandleResult(HandleAll(d, rs[..i], path), rs[i], path)
  {
    assert rs[..i + 1][..i] == rs[..i];
  }

  /** The last mapper a sequence of results carries, if any. */
  function LastMapper(rs: seq<TaskResult>): Option<Mapper> {
    if rs == [] then None
    else if CarriesMapper(rs[|rs| - 1]) then Some(rs[|rs| - 1].value.mapper)
    else LastMapper(rs[..|rs| - 1])
  }

  /**
   * Draining results: the status is the last result's status, the gaze
   * buffer grows by every mapping batch in order, and the calibration (and
   * its file) is the last mapper received, stamped with the file version.
   */
  lemma {:induction false} HandleAllEffect(d: Drained, rs: seq<TaskResult>, path: string)
    ensures HandleAll(d, rs, path).status == (if rs == [] then d.status else rs[|rs| - 1].status)
    ensures HandleAll(d, rs, path).gaze == d.gaze + MappingGaze(rs)
    ensures LastMapper(rs).None? ==>
              HandleAll(d, rs, path).calibration == d.calibration && HandleAll(d, rs, path).files == d.files
    ensures LastMapper(rs).Some? ==>
              var m := LastMapper(rs).value.Stamped(CalibrationFileVersion);
              HandleAll(d, rs, path).calibration == Some(m) && HandleAll(d, rs, path).files == d.files[path := m]
  {
    if rs != [] {
      var init, last := rs[..|rs| - 1], rs[|rs| - 1];
      HandleAllEffect(d, init, path);
      var before := HandleAll(d, init, path);
      if LastMapper(init).Some? && !CarriesMapper(last) {
        var m := LastMapper(init).value.Stamped(CalibrationFileVersion);
        assert before.files == d.files[path := m];
      }
      if CarriesMapper(last) {
        var m := last.value.mapper.Stamped(CalibrationFileVersion);
        assert HandleAll(d, rs, path).files == before.files[path := m];
        if LastMapper(init).Some? {
          var m0 := LastMapper(init).value.Stamped(CalibrationFileVersion);
          assert before.files == d.files[path := m0];
          assert d.files[path := m0][path := m] == d.files[path := m];
        }
      }
    }
  }

  /** The gaze a mapping stream hands over is the mapper's output with the correction applied. */
  lemma StreamGaze(job: MapJob)
    ensures MappingGaze(job.Stream()) == job.CorrectedOutput(|job.data|)
  {
    MappingGazeAppend(job.Batches(|job.data|), [MappingComplete]);
    assert [MappingComplete][..0] == [];
    BatchesGaze(job, |job.data|);
  }

  /** The two results a successful fit yields before the mapping stream. */
  function CalibrationHead(m: Mapper): seq<TaskResult> {
    [TaskResult("calibration", "Calibrating...", NoValue),
     TaskResult("calibration", "Calibration successful", MapperValue(m))]
  }

  lemma HeadFacts(m: Mapper)
    requires m.Truthy()
    ensures MappingGaze(CalibrationHead(m)) == [] && LastMapper(CalibrationHead(m)) == Some(m)
  {
    var head := CalibrationHead(m);
    assert head[..1][..0] == [];
    assert MappingGaze(head[..1]) == [];
    assert head[..|head| - 1] == head[..1];
    assert MappingGaze(head) == MappingGaze(head[..1]) + [];
  }

  /** Draining a successful calibration stream: the last status, the saved mapper, all corrected gaze. */
  lemma DrainSuccess(d: Drained, m: Mapper, job: MapJob, path: string)
    requires m.Truthy()
    ensures var e := HandleAll(d, CalibrationHead(m) + job.Stream(), path);
            e.gaze == d.gaze + job.CorrectedOutput(|job.data|) &&
            e.status == MappingComplete.status &&
            e.calibration == Some(m.Stamped(CalibrationFileVersion)) &&
            e.files == d.files[path := m.Stamped(CalibrationFileVersion)]
  {
    var head, rest := CalibrationHead(m), job.Stream();
    var s := head + rest;
    StreamEnd(job);
    assert forall j :: 0 <= j < |rest| ==> rest[j].topic == "mapping";
    LastMapperOfStream(head, rest);
    HeadFacts(m);
    StreamGaze(job);
    MappingGazeAppend(head, rest);
    var out := job.CorrectedOutput(|job.data|);
    assert MappingGaze(s) == [] + out;
    assert [] + out == out;
    assert s[|s| - 1] == rest[|rest| - 1] == MappingComplete;
    HandleAllEffect(d, s, path);
  }

  /** A whole successful calibration stream leaves exactly the corrected mapper output. */
  lemma FullStreamGaze(pool: FakePool, sectionLabel: string, refs: seq<RefPoint>, calib: seq<PupilDatum>,
                       mapList: seq<PupilDatum>, dx: real, dy: real, plugins: Plugins,
                       d: Drained, path: string)
    requires plugins.fit(pool, calib, refs).Succeeded?
    ensures var f := plugins.fit(pool, calib, refs);
            var job := MapJob(pool, sectionLabel, Fit(f.name, f.args), mapList, dx, dy, plugins.mapDatum);
            var e := HandleAll(d, CalibrateStream(pool, sectionLabel, refs, calib, mapList, dx, dy, plugins), path);
            e.gaze == d.gaze + job.CorrectedOutput(|mapList|) &&
            e.status == "Mapping complete." &&
            e.calibration == Some(Mapper(Some(Fit(f.name, f.args)), Some(CalibrationFileVersion)))
  {
    var f := plugins.fit(pool, calib, refs);
    var job := MapJob(pool, sectionLabel, Fit(f.name, f.args), mapList, dx, dy, plugins.mapDatum);
    var m := Mapper(Some(Fit(f.name, f.args)), None);
    assert CalibrateStream(pool, sectionLabel, refs, calib, mapList, dx, dy, plugins) == CalibrationHead(m) + job.Stream();
    DrainSuccess(d, m, job, path);
  }

  lemma {:induction false} LastMapperOfStream(head: seq<TaskResult>, rest: seq<TaskResult>)
    requires forall j :: 0 <= j < |rest| ==> rest[j].topic == "mapping"
    ensures LastMapper(head + rest) == LastMapper(head)
    decreases |rest|
  {
    if rest == [] {
      assert head + rest == head;
    } else {
      assert (head + rest)[..|head + rest| - 1] == head + rest[..|rest| - 1];
      LastMapperOfStream(head, rest[..|rest| - 1]);
    }
  }

  // ----------------------------------------------------------------------
  // The section

  /** Which reference list a calibration method draws on; None for any other method. */
  function RefSource(calibMethod: string, circleMarkers: seq<RefPoint>, manualRefs: seq<RefPoint>): Option<seq<RefPoint>> {
    if calibMethod == "circle_marker" then Some(circleMarkers)
    else if calibMethod == "natural_features" then Some(manualRefs)
    else None
  }

  /** What calibrate decides before it would start a task. */
  datatype Plan =
    | UnknownMethod
    | NoPupilData
    | NoReferenceData
    | Start(mode: string, refs: seq<RefPoint>, calib: seq<PupilDatum>, mapList: seq<PupilDatum>)

  /**
   * The checks of calibrate, in the source's order: an unknown calibration
   * method fails (the reference list is never bound), then missing pupil
   * data, then missing reference data; otherwise the 3d-to-2d check picks the
   * mapping mode.
   */
  function PlanCalibration(cache: Cache, byFrame: seq<seq<PupilDatum>>,
                           circleMarkers: seq<RefPoint>, manualRefs: seq<RefPoint>): (p: Plan)
    ensures p.UnknownMethod? <==> RefSource(cache.calibrationMethod, circleMarkers, manualRefs).None?
    ensures p.NoPupilData? <==> !p.UnknownMethod? && PupilInRange(byFrame, cache.calibrationRange) == []
    ensures p.NoReferenceData? <==>
              !p.UnknownMethod? && PupilInRange(byFrame, cache.calibrationRange) != [] &&
              RefsInRange(RefSource(cache.calibrationMethod, circleMarkers, manualRefs).value,
                          cache.calibrationRange.0, cache.calibrationRange.1) == []
    ensures p.Start? ==>
              p.calib == PupilInRange(byFrame, cache.calibrationRange) && p.calib != [] &&
              p.mapList == PupilInRange(byFrame, cache.mappingRange) &&
              p.refs != [] &&
              (forall r :: r in p.refs ==> cache.calibrationRange.0 <= r.index <= cache.calibrationRange.1) &&
              p.mode == DowngradedMode(cache.mappingMethod, p.calib)
  {
    var source := RefSource(cache.calibrationMethod, circleMarkers, manualRefs);
    if source.None? then UnknownMethod
    else
      var calib := PupilInRange(byFrame, cache.calibrationRange);
      var refs := RefsInRange(source.value, cache.calibrationRange.0, cache.calibrationRange.1);
      if calib == [] then NoPupilData
      else if refs == [] then NoReferenceData
      else Start(DowngradedMode(cache.mappingMethod, calib), refs, calib,
                 PupilInRange(byFrame, cache.mappingRange))
  }

  function PlanStatus(p: Plan): string {
    match p
    case NoPupilData => "Calibration failed, no pupil data"
    case NoReferenceData => "Calibration failed, no reference data"
    case _ => "Starting calibration"
  }

  /** The state of a Section that its methods change. */
  datatype SectionState = SectionState(
    cache: Cache,
    bgTask: Option<Task<TaskResult>>,
    calibration: Option<Mapper>,
    gaze: seq<GazeDatum>,
    cancelled: seq<Task<TaskResult>>)

  /**
   * Section.calibrate. The held task is cancelled first, the status becomes
   * 'Starting calibration' and the gaze buffer is emptied before any check;
   * a failed check leaves its message as status and starts nothing; the
   * second component is true when the source raises (unknown method).
   */
  function AfterCalibrate(st: SectionState, rec: Recording, circleMarkers: seq<RefPoint>,
                          manualRefs: seq<RefPoint>, plugins: Plugins): (r: (SectionState, bool))
  {
    var p := PlanCalibration(st.cache, rec.pupilByFrame, circleMarkers, manualRefs);
    var cancelled := st.cancelled + (if st.bgTask.Some? then [st.bgTask.value.Cancel()] else []);
    var cache := st.cache.(status := PlanStatus(p),
                           mappingMethod := if p.Start? then p.mode else st.cache.mappingMethod);
    var task := if p.Start? then
                  var pool := SetupFakePool(rec.frameSize, rec.intrinsics, p.mode, rec.recDir, rec.minCalibrationConfidence);
                  Some(StartTask(st.cache.sectionLabel, CalibrateStream(pool, st.cache.sectionLabel, p.refs, p.calib, p.mapList,
                                                                 st.cache.xOffset, st.cache.yOffset, plugins)))
                else CancelHeld(st.bgTask);
    (SectionState(cache, task, st.calibration, [], cancelled), p.UnknownMethod?)
  }

  /**
   * Calibrating clears the gaze, keeps the calibration and the label, cancels
   * the held task, records the plan's status and, when the plan starts,
   * holds a fresh task named after the section; it raises exactly for an
   * unknown method.
   */
  lemma AfterCalibrateFacts(st: SectionState, rec: Recording, circleMarkers: seq<RefPoint>,
                            manualRefs: seq<RefPoint>, plugins: Plugins)
    ensures var r := AfterCalibrate(st, rec, circleMarkers, manualRefs, plugins);
            var p := PlanCalibration(st.cache, rec.pupilByFrame, circleMarkers, manualRefs);
            r.0.gaze == [] && r.0.calibration == st.calibration && r.0.cache.sectionLabel == st.cache.sectionLabel &&
            r.0.cancelled == st.cancelled + (if st.bgTask.Some? then [st.bgTask.value.Cancel()] else []) &&
            (r.1 <==> p.UnknownMethod?) &&
            r.0.cache == st.cache.(status := PlanStatus(p),
                                   mappingMethod := if p.Start? then p.mode else st.cache.mappingMethod) &&
            (!p.Start? ==> r.0.bgTask == CancelHeld(st.bgTask)) &&
            (p.Start? ==> r.0.bgTask.Some? && !r.0.bgTask.value.completed && !r.0.bgTask.value.cancelled &&
                          r.0.bgTask.value.name == st.cache.sectionLabel)
  {
  }

  /** The section state after calibrate, spelled out for a given plan. */
  function CalibratedState(st: SectionState, rec: Recording, plugins: Plugins, p: Plan): SectionState {
    var cancelled := st.cancelled + (if st.bgTask.Some? then [st.bgTask.value.Cancel()] else []);
    var cache := st.cache.(status := PlanStatus(p),
                           mappingMethod := if p.Start? then p.mode else st.cache.mappingMethod);
    var task := if p.Start? then
                  var pool := SetupFakePool(rec.frameSize, rec.intrinsics, p.mode, rec.recDir, rec.minCalibrationConfidence);
                  Some(StartTask(st.cache.sectionLabel, CalibrateStream(pool, st.cache.sectionLabel, p.refs, p.calib, p.mapList,
                                                                 st.cache.xOffset, st.cache.yOffset, plugins)))
                else CancelHeld(st.bgTask);
    SectionState(cache, task, st.calibration, [], cancelled)
  }

  /** The plan does not look at the status. */
  lemma PlanIgnoresStatus(cache: Cache, status: string, byFrame: seq<seq<PupilDatum>>,
                          circleMarkers: seq<RefPoint>, manualRefs: seq<RefPoint>)
    ensures PlanCalibration(cache.(status := status), byFrame, circleMarkers, manualRefs) ==
            PlanCalibration(cache, byFrame, circleMarkers, manualRefs)
  {
  }

  lemma AfterCalibrateOf(st: SectionState, rec: Recording, circleMarkers: seq<RefPoint>,
                         manualRefs: seq<RefPoint>, plugins: Plugins, p: Plan)
    requires p == PlanCalibration(st.cache, rec.pupilByFrame, circleMarkers, manualRefs)
    ensures AfterCalibrate(st, rec, circleMarkers, manualRefs, plugins) == (CalibratedState(st, rec, plugins, p), p.UnknownMethod?)
  {
  }

  /**
   * Section.recent_events with `available` messages waiting: the fetched
   * results are handled in order, and a completed task is dropped; the last
   * component says whether correlate_and_publish runs.
   */
  function AfterRecentEvents(st: SectionState, files: map<string, Mapper>, recDir: string, available: nat)
    : (SectionState, map<string, Mapper>, bool)
  {
    if st.bgTask.None? then (st, files, false)
    else
      var fetched := st.bgTask.value.Fetch(available);
      var path := CalibrationPath(recDir, st.cache.sectionLabel);
      var d := HandleAll(Drained(st.cache.status, st.calibration, st.gaze, files), fetched.0, path);
      var task := if fetched.1.completed then None else Some(fetched.1);
      (SectionState(st.cache.(status := d.status), task, d.calibration, d.gaze, st.cancelled), d.files, fetched.1.completed)
  }

  /**
   * Without a task nothing changes; the label and the cancelled tasks are
   * kept; with one, the fetched results' status and mapped gaze are taken
   * and the task is dropped exactly when it completed, which is when
   * correlate_and_publish runs.
   */
  lemma AfterRecentEventsFacts(st: SectionState, files: map<string, Mapper>, recDir: string, available: nat)
    ensures var r := AfterRecentEvents(st, files, recDir, available);
            (st.bgTask.None? ==> r == (st, files, false)) &&
            r.0.cache.sectionLabel == st.cache.sectionLabel && r.0.cancelled == st.cancelled &&
            (st.bgTask.Some? ==>
              var fetched := st.bgTask.value.Fetch(available);
              var rs := fetched.0;
              r.2 == fetched.1.completed &&
              r.0.bgTask == (if fetched.1.completed then None else Some(fetched.1)) &&
              r.0.gaze == st.gaze + MappingGaze(rs) &&
              r.0.cache == st.cache.(status := if rs == [] then st.cache.status else rs[|rs| - 1].status))
  {
    if st.bgTask.Some? {
      var fetched := st.bgTask.value.Fetch(available);
      HandleAllEffect(Drained(st.cache.status, st.calibration, st.gaze, files), fetched.0,
                      CalibrationPath(recDir, st.cache.sectionLabel));
    }
  }

  /** The label validate_label leaves: the same label or one in use is refused, anything else is taken. */
  function ValidatedLabel(current: string, newLabel: string, labels: seq<string>): string {
    if newLabel == current || newLabel in labels then current else newLabel
  }

  /** Renaming one section through validate_label keeps all labels pairwise different. */
  lemma ValidatedLabelKeepsDistinct(labels: seq<string>, i: nat, newLabel: string)
    requires Distinct(labels) && i < |labels|
    ensures Distinct(labels[i := ValidatedLabel(labels[i], newLabel, labels)])
    ensures ValidatedLabel(labels[i], newLabel, labels) in {labels[i], newLabel}
    ensures ValidatedLabel(labels[i], newLabel, labels) != labels[i] <==> newLabel !in labels
  {
    var updated := labels[i := ValidatedLabel(labels[i], newLabel, labels)];
    if newLabel != labels[i] && newLabel !in labels {
      forall j, k | 0 <= j < k < |updated|
        ensures updated[j] != updated[k]
      {
        if j == i {
          assert updated[k] == labels[k];
        } else if k == i {
          assert updated[j] == labels[j];
        }
      }
    } else {
      assert updated == labels;
    }
  }

  class Section {
    var cache: Cache
    var bgTask: Option<Task<TaskResult>>
    var calibration: Option<Mapper>
    var accuracy: string
    var precision: string
    var gazePositions: seq<GazeDatum>
    /** Every task this section has called cancel() on, oldest first. */
    var cancelledTasks: seq<Task<TaskResult>>

    function State(): SectionState
      reads this
    {
      SectionState(cache, bgTask, calibration, gazePositions, cancelledTasks)
    }

    /** Section(parent, cache, label, calib_range, map_range): the given cache, or else a newly constructed one. */
    constructor (saved: Option<Cache>, sectionLabel: string, calibRange: (int, int), mapRange: (int, int), drawn: nat)
      ensures cache == (if saved.Some? then saved.value else ConstructCache(sectionLabel, calibRange, mapRange, drawn))
      ensures bgTask.None? && calibration.None? && gazePositions == [] && cancelledTasks == []
      ensures accuracy == NotAvailable && precision == NotAvailable
    {
      cache := if saved.Some? then saved.value else ConstructCache(sectionLabel, calibRange, mapRange, drawn);
      bgTask := None;
      calibration := None;
      accuracy := NotAvailable;
      precision := NotAvailable;
      gazePositions := [];
      cancelledTasks := [];
    }

    /** calibration_path(label=None): the given label, or else the section's own. */
    function PathFor(recDir: string, sectionLabel: Option<string>): string
      reads this
    {
      CalibrationPath(recDir, if sectionLabel.Some? && sectionLabel.value != [] then sectionLabel.value else cache.sectionLabel)
    }

    method Calibrate(rec: Recording, circleMarkers: seq<RefPoint>, manualRefs: seq<RefPoint>, plugins: Plugins)
      returns (raised: bool)
      modifies this
      ensures (State(), raised) == AfterCalibrate(old(State()), rec, circleMarkers, manualRefs, plugins)
      ensures accuracy == old(accuracy) && precision == old(precision)
    {
      ghost var st := State();
      ghost var plan := PlanCalibration(cache, rec.pupilByFrame, circleMarkers, manualRefs);
      AfterCalibrateOf(st, rec, circleMarkers, manualRefs, plugins, plan);
      if bgTask.Some? {
        cancelledTasks := cancelledTasks + [bgTask.value.Cancel()];
        bgTask := Some(bgTask.value.Cancel());
      }
      cache := cache.(status := "Starting calibration");
      gazePositions := [];
      PlanIgnoresStatus(st.cache, "Starting calibration", rec.pupilByFrame, circleMarkers, manualRefs);
      assert bgTask == CancelHeld(st.bgTask);
      raised := CheckAndStart(rec, circleMarkers, manualRefs, plugins);
      assert State() == CalibratedState(st, rec, plugins, plan);
    }

    /**
     * The rest of calibrate, after the reset: the three checks in order, each
     * leaving its message as status, then the 3d-to-2d check and the
     * background task.
     */
    method CheckAndStart(rec: Recording, circleMarkers: seq<RefPoint>, manualRefs: seq<RefPoint>, plugins: Plugins)
      returns (raised: bool)
      modifies this
      ensures var p := PlanCalibration(old(cache), rec.pupilByFrame, circleMarkers, manualRefs);
              raised == p.UnknownMethod? &&
              cache == old(cache).(status := if p.NoPupilData? || p.NoReferenceData? then PlanStatus(p) else old(cache).status,
                                   mappingMethod := if p.Start? then p.mode else old(cache).mappingMethod) &&
              bgTask == if p.Start? then
                          var pool := SetupFakePool(rec.frameSize, rec.intrinsics, p.mode, rec.recDir, rec.minCalibrationConfidence);
                          Some(StartTask(old(cache).sectionLabel, CalibrateStream(pool, old(cache).sectionLabel, p.refs, p.calib, p.mapList,
                                                                             old(cache).xOffset, old(cache).yOffset, plugins)))
                        else old(bgTask)
      ensures calibration == old(calibration) && gazePositions == old(gazePositions)
      ensures cancelledTasks == old(cancelledTasks)
      ensures accuracy == old(accuracy) && precision == old(precision)
    {
      ghost var plan := PlanCalibration(cache, rec.pupilByFrame, circleMarkers, manualRefs);
      var calibList := PupilInRange(rec.pupilByFrame, cache.calibrationRange);
      var mapList := PupilInRange(rec.pupilByFrame, cache.mappingRange);
      var source := RefSource(cache.calibrationMethod, circleMarkers, manualRefs);
      if source.None? {
        assert plan.UnknownMethod?;
        raised := true;
        return;
      }
      raised := false;
      var refList := RefsInRange(source.value, cache.calibrationRange.0, cache.calibrationRange.1);

      if calibList == [] {
        assert plan.NoPupilData?;
        cache := cache.(status := "Calibration failed, no pupil data");
        return;
      }
      if refList == [] {
        assert plan.NoReferenceData?;
        cache := cache.(status := "Calibration failed, no reference data");
        return;
      }
      if cache.mappingMethod == "3d" && MedianIs2d(calibList) {
        cache := cache.(mappingMethod := "2d");
      }
      assert plan == Start(cache.mappingMethod, refList, calibList, mapList);
      var fake := SetupFakePool(rec.frameSize, rec.intrinsics, cache.mappingMethod, rec.recDir, rec.minCalibrationConfidence);
      var stream := CalibrateInBackground(fake, cache.sectionLabel, refList, calibList, mapList,
                                          cache.xOffset, cache.yOffset, plugins);
      bgTask := Some(StartTask(cache.sectionLabel, stream));
    }

    /** handle_task_result: copies the status, keeps and saves a mapper, or extends the gaze buffer. */
    method HandleTaskResult(result: TaskResult, recDir: string, store: CalibrationStore)
      modifies this, store
      ensures var d := HandleResult(Drained(old(cache).status, old(calibration), old(gazePositions), old(store.files)),
                                    result, CalibrationPath(recDir, old(cache).sectionLabel));
              cache == old(cache).(status := d.status) && calibration == d.calibration &&
              gazePositions == d.gaze && store.files == d.files
      ensures bgTask == old(bgTask) && cancelledTasks == old(cancelledTasks)
      ensures accuracy == old(accuracy) && precision == old(precision)
    {
      cache := cache.(status := result.status);
      if CarriesMapper(result) {
        calibration := Some(result.value.mapper);
        SaveCalibration(recDir, store);
      } else if result.topic == "mapping" {
        gazePositions := gazePositions + (if result.value.GazeBatch? then result.value.gaze else []);
      }
    }

    /** save_calibration: stamps the file version into the mapper and writes it. */
    method SaveCalibration(recDir: string, store: CalibrationStore)
      requires calibration.Some?
      modifies this, store
      ensures calibration == Some(old(calibration).value.Stamped(CalibrationFileVersion))
      ensures store.files == old(store.files)[PathFor(recDir, None) := calibration.value]
      ensures cache == old(cache) && bgTask == old(bgTask) && gazePositions == old(gazePositions)
      ensures cancelledTasks == old(cancelledTasks) && accuracy == old(accuracy) && precision == old(precision)
    {
      var target := PathFor(recDir, None);
      calibration := Some(calibration.value.Stamped(CalibrationFileVersion));
      store.files := store.files[target := calibration.value];
    }

    /** recent_events: fetch, handle every result in order, drop a completed task. */
    method RecentEvents(recDir: string, available: nat, store: CalibrationStore) returns (publish: bool)
      modifies this, store
      ensures (State(), store.files, publish) == AfterRecentEvents(old(State()), old(store.files), recDir, available)
      ensures accuracy == old(accuracy) && precision == old(precision)
    {
      if bgTask.None? {
        return false;
      }
      var fetched := bgTask.value.Fetch(available);
      HandleEach(fetched.0, recDir, store);
      bgTask := Some(fetched.1);
      publish := fetched.1.completed;
      if publish {
        bgTask := None;
      }
    }

    /** The loop of recent_events: handle_task_result on each fetched result, in order. */
    method HandleEach(recent: seq<TaskResult>, recDir: string, store: CalibrationStore)
      modifies this, store
      ensures var d := HandleAll(Drained(old(cache).status, old(calibration), old(gazePositions), old(store.files)),
                                 recent, CalibrationPath(recDir, old(cache).sectionLabel));
              cache == old(cache).(status := d.status) && calibration == d.calibration &&
              gazePositions == d.gaze && store.files == d.files
      ensures bgTask == old(bgTask) && cancelledTasks == old(cancelledTasks)
      ensures accuracy == old(accuracy) && precision == old(precision)
    {
      ghost var path := CalibrationPath(recDir, cache.sectionLabel);
      ghost var d0 := Drained(cache.status, calibration, gazePositions, store.files);
      var i := 0;
      while i < |recent|
        invariant i <= |recent|
        invariant Drained(cache.status, calibration, gazePositions, store.files) == HandleAll(d0, recent[..i], path)
        invariant cache == old(cache).(status := cache.status)
        invariant bgTask == old(bgTask) && cancelledTasks == old(cancelledTasks)
        invariant accuracy == old(accuracy) && precision == old(precision)
      {
        ghost var d := HandleAll(d0, recent[..i], path);
        assert CalibrationPath(recDir, cache.sectionLabel) == path;
        HandleTaskResult(recent[i], recDir, store);
        HandleAllPrefix(d0, recent, path, i);
        assert Drained(cache.status, calibration, gazePositions, store.files) == HandleResult(d, recent[i], path);
        i := i + 1;
      }
      assert recent[..i] == recent;
    }

    /** A held background task is cancelled, as Offline_Calibration.cleanup does for every section. */
    method CancelTask()
      modifies this
      ensures bgTask == CancelHeld(old(bgTask))
      ensures cancelledTasks == old(cancelledTasks) + (if old(bgTask).Some? then [old(bgTask).value.Cancel()] else [])
      ensures cache == old(cache) && calibration == old(calibration) && gazePositions == old(gazePositions)
      ensures accuracy == old(accuracy) && precision == old(precision)
    {
      if bgTask.Some? {
        cancelledTasks := cancelledTasks + [bgTask.value.Cancel()];
        bgTask := Some(bgTask.value.Cancel());
      }
    }

    /**
     * validate_label: the same label is a no-op; a label some section
     * already has is refused; otherwise the saved calibration file follows
     * the rename and the label changes.
     */
    method ValidateLabel(newLabel: string, sectionLabels: seq<string>, recDir: string, store: CalibrationStore)
      modifies this, store
      ensures newLabel == old(cache).sectionLabel || newLabel in sectionLabels ==>
                cache == old(cache) && store.files == old(store.files)
      ensures newLabel != old(cache).sectionLabel && newLabel !in sectionLabels ==>
                cache == old(cache).(sectionLabel := ValidatedLabel(old(cache).sectionLabel, newLabel, sectionLabels)) &&
                store.files == RenameFile(old(store.files), CalibrationPath(recDir, old(cache).sectionLabel),
                                          CalibrationPath(recDir, if newLabel != [] then newLabel else old(cache).sectionLabel))
      ensures bgTask == old(bgTask) && calibration == old(calibration) && gazePositions == old(gazePositions)
      ensures cancelledTasks == old(cancelledTasks) && accuracy == old(accuracy) && precision == old(precision)
    {
      if newLabel == cache.sectionLabel {
        return;
      } else if newLabel in sectionLabels {
        return;
      } else {
        var oldPath := PathFor(recDir, None);
        var newPath := PathFor(recDir, Some(newLabel));
        store.files := RenameFile(store.files, oldPath, newPath);
        cache := cache.(sectionLabel := newLabel);
      }
    }
  }
}
