/**
 * Records shared by both generations of the offline calibration sections:
 * pupil and gaze data, reference locations, calibrated mappers, the fake
 * g_pool handed to the calibration routines, and the background task
 * (background_helper.Task_Proxy) seen from the owning process.
 */
module GazeData {
  import opened Wrappers

  datatype Point = Point(x: real, y: real)

  /** A pupil datum; `detectionMethod` (the dict key 'method') names the detector, e.g. "2d c++" or "3d c++". */
  datatype PupilDatum = PupilDatum(id: int, timestamp: real, confidence: real, detectionMethod: string)

  /** A gaze datum from a gaze mapper; the mapping stream sets `section`. */
  datatype GazeDatum = GazeDatum(timestamp: real, confidence: real, normPos: Point, section: Option<string>)

  /** A reference location: a detected circle marker or a hand-placed natural feature. */
  datatype RefPoint = RefPoint(index: int, indexRange: seq<int>, timestamp: real, screenPos: Point, normPos: Point)

  /** The 'name' and 'args' of a calibrated gaze mapper. */
  datatype Fit = Fit(name: string, args: map<string, real>)

  /**
   * A calibrated-mapper dict: {'name', 'args'} when a fit is present, plus
   * 'version' once it has been stamped for saving. Mapper(None, None) is {}.
   */
  datatype Mapper = Mapper(fit: Option<Fit>, version: Option<int>) {
    /** Python truthiness of the dict: it is falsy exactly when empty. */
    predicate Truthy() { fit.Some? || version.Some? }

    function Stamped(v: int): (m: Mapper)
      ensures m.Truthy() && m.fit == fit && m.version == Some(v)
    {
      this.(version := Some(v))
    }
  }

  /** What select_calibration_method reports: a mapper, or the failure reason. */
  datatype FitResult = Succeeded(name: string, args: map<string, real>) | Failed(reason: string)

  type Intrinsics = seq<real>

  /** The stand-in g_pool built for a background calibration (clock left out). */
  datatype FakePool = FakePool(
    frameSize: (int, int),
    intrinsics: Intrinsics,
    detectionMappingMode: string,
    minCalibrationConfidence: real,
    recDir: string,
    app: string)

  function SetupFakePool(frameSize: (int, int), intrinsics: Intrinsics, detectionMode: string,
                         recDir: string, minCalibrationConfidence: real): (pool: FakePool)
    ensures pool.frameSize == frameSize && pool.intrinsics == intrinsics
    ensures pool.recDir == recDir && pool.minCalibrationConfidence == minCalibrationConfidence
    ensures pool.detectionMappingMode == detectionMode
    ensures pool.app == "player"
  {
    FakePool(frameSize, intrinsics, detectionMode, minCalibrationConfidence, recDir, "player")
  }

  /** The recording as the sections see it through g_pool. */
  datatype Recording = Recording(
    timestamps: seq<real>,
    pupilByFrame: seq<seq<PupilDatum>>,
    frameSize: (int, int),
    intrinsics: Intrinsics,
    recDir: string,
    minCalibrationConfidence: real)

  /**
   * The code the core calls but that is not part of this model:
   * select_calibration_method (pool, pupil data, references) and a gaze
   * mapper plugin built from a fit, applied to one pupil datum.
   */
  datatype Plugins = Plugins(
    fit: (FakePool, seq<PupilDatum>, seq<RefPoint>) -> FitResult,
    mapDatum: (FakePool, Fit, PupilDatum) -> seq<GazeDatum>)

  /** Python's `t in s` on strings. */
  predicate IsSubstring(t: string, s: string)
    decreases |s|
  {
    |t| <= |s| && (s[..|t|] == t || (s != [] && IsSubstring(t, s[1..])))
  }

  lemma {:induction false} IsSubstringAt(t: string, s: string, i: nat)
    requires i + |t| <= |s| && s[i..i + |t|] == t
    ensures IsSubstring(t, s)
    decreases i
  {
    if i > 0 {
      assert s[1..][i - 1..i - 1 + |t|] == s[i..i + |t|];
      IsSubstringAt(t, s[1..], i - 1);
    }
  }

  /**
   * A background task (background_helper.Task_Proxy) seen from the process
   * that owns it: the results its generator produces, how many the owner has
   * fetched, and its completed / cancelled flags.
   */
  datatype Task<R> = Task(name: string, results: seq<R>, delivered: nat, completed: bool, cancelled: bool) {

    /** Results produced but not fetched yet. */
    function Pending(): seq<R> {
      if delivered <= |results| then results[delivered..] else []
    }

    /**
     * fetch() when `available` messages wait in the pipe: at most that many
     * results, in order; the end-of-stream marker is read (and the background task
     * completes) when more messages wait than results are pending. A
     * completed or cancelled task yields nothing.
     */
    function Fetch(available: nat): (r: (seq<R>, Task<R>))
      ensures completed || cancelled ==> r == ([], this)
      ensures !completed && !cancelled ==> r.0 + r.1.Pending() == Pending()
      ensures |r.0| <= available
      ensures r.1.completed == (completed || (!cancelled && available > |Pending()|))
      ensures r.1.completed ==> r.1.Pending() == [] || completed
      ensures r.1.cancelled == cancelled && r.1.name == name && r.1.results == results
    {
      if completed || cancelled then ([], this)
      else
        var p := Pending();
        if available > |p| then (p, this.(delivered := |results|, completed := true))
        else (p[..available], this.(delivered := delivered + available))
    }

    /** cancel(): a task still running stops; its unread results are dropped. */
    function Cancel(): (t: Task<R>)
      ensures t.completed == completed
      ensures t.cancelled == (cancelled || !completed)
      ensures t.name == name && t.results == results
      ensures !completed && !cancelled ==> t.Pending() == []
    {
      if completed || cancelled then this
      else this.(delivered := |results|, cancelled := true)
    }
  }

  /** A task just started on a generator's output. */
  function StartTask<R>(name: string, results: seq<R>): (t: Task<R>)
    ensures t.Pending() == results && !t.completed && !t.cancelled && t.name == name
  {
    Task(name, results, 0, false, false)
  }

  /** A held background task is cancelled; the task stays in place. */
  function CancelHeld<R>(t: Option<Task<R>>): (r: Option<Task<R>>)
    ensures r.Some? <==> t.Some?
    ensures t.Some? ==> r.value == t.value.Cancel()
  {
    match t
    case None => None
    case Some(task) => Some(task.Cancel())
  }

  /**
   * The calibration files under <rec_dir>/offline_data, as a map from path
   * to the saved mapper dict; shared by every section of a recording.
   */
  class CalibrationStore {
    var files: map<string, Mapper>

    constructor (files: map<string, Mapper>)
      ensures this.files == files
    {
      this.files := files;
    }
  }
}
