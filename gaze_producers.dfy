/**
 * The gaze producers of the player (gaze_producers.py): Gaze_From_Recording,
 * which republishes recorded gaze shifted by a manual offset, and
 * Offline_Calibration, which owns the calibration sections of the
 * dict-cached generation, the circle-marker and natural-feature reference
 * lists, the session cache file and the published, timestamp-sorted gaze.
 */
module GazeProducers {
  import opened Wrappers
  import opened PySeq
  import opened Sorting
  import opened GazeData
  import opened LegacySections

  const SessionDataVersion: int := 10
  const CorrectionFileVersion: int := 0

  /** The notifications these plugins send (notify_all), as far as the model follows them. */
  datatype Notification =
    | GazePositionsChanged
    | PupilPositionsChanged
    | OffsetChanged
    | ShouldSeek(index: int)
    | CircleDetectorShouldStart(sourcePath: string)

  // ----------------------------------------------------------------------
  // Gaze_From_Recording

  /** The 'manual_gaze_correction' file: {'dx', 'dy', 'version'}. */
  datatype Correction = Correction(dx: real, dy: real, version: int)

  function Shift(g: GazeDatum, dx: real, dy: real): GazeDatum {
    g.(normPos := Point(g.normPos.x + dx, g.normPos.y + dy))
  }

  /** The recorded gaze with the current offsets added to every norm_pos. */
  function Shifted(recorded: seq<GazeDatum>, dx: real, dy: real): (r: seq<GazeDatum>)
    ensures |r| == |recorded|
    ensures forall i :: 0 <= i < |r| ==> r[i] == Shift(recorded[i], dx, dy)
  {
    seq(|recorded|, i requires 0 <= i < |recorded| => Shift(recorded[i], dx, dy))
  }

  /** Shifting twice is shifting once by the summed offsets, so an earlier correction can be undone exactly. */
  lemma ShiftedCompose(recorded: seq<GazeDatum>, a: real, b: real, c: real, d: real)
    ensures Shifted(Shifted(recorded, a, b), c, d) == Shifted(recorded, a + c, b + d)
    ensures Shifted(Shifted(recorded, a, b), -a, -b) == recorded
  {
    var once := Shifted(recorded, a, b);
    assert forall i :: 0 <= i < |recorded| ==> Shift(once[i], c, d) == Shift(recorded[i], a + c, b + d);
    assert forall i :: 0 <= i < |recorded| ==> Shift(once[i], -a, -b) == recorded[i];
  }

  class GazeFromRecording {
    /** pupil_data['gaze_positions'] as recorded; never changed. */
    const recorded: seq<GazeDatum>
    var xOffset: real
    var yOffset: real
    /** g_pool.gaze_positions. */
    var gaze: seq<GazeDatum>
    var notifications: seq<Notification>
    /** The correction file under offline_data; None while it does not exist. */
    var correctionFile: Option<Correction>

    /** A missing correction file gives offsets (0, 0); the data is loaded right away. */
    constructor (recorded: seq<GazeDatum>, correctionFile: Option<Correction>)
      ensures this.recorded == recorded && this.correctionFile == correctionFile
      ensures xOffset == (if correctionFile.Some? then correctionFile.value.dx else 0.0)
      ensures yOffset == (if correctionFile.Some? then correctionFile.value.dy else 0.0)
      ensures gaze == Shifted(recorded, xOffset, yOffset)
      ensures notifications == [GazePositionsChanged]
    {
      this.recorded := recorded;
      this.correctionFile := correctionFile;
      var session := if correctionFile.Some? then correctionFile.value else Correction(0.0, 0.0, CorrectionFileVersion);
      xOffset := session.dx;
      yOffset := session.dy;
      notifications := [];
      new;
      LoadDataWithOffset();
    }

    /**
     * load_data_with_offset: a fresh deep copy of the recorded data with the
     * current offsets added, so offsets never accumulate over reloads.
     */
    method LoadDataWithOffset()
      modifies this`gaze, this`notifications
      ensures gaze == Shifted(recorded, xOffset, yOffset)
      ensures notifications == old(notifications) + [GazePositionsChanged]
    {
      var copy := recorded;
      var i := 0;
      while i < |copy|
        invariant i <= |copy| == |recorded|
        invariant forall j :: 0 <= j < i ==> copy[j] == Shift(recorded[j], xOffset, yOffset)
        invariant forall j :: i <= j < |copy| ==> copy[j] == recorded[j]
      {
        var gp := copy[i];
        copy := copy[i := gp.(normPos := Point(gp.normPos.x + xOffset, gp.normPos.y + yOffset))];
        i := i + 1;
      }
      gaze := copy;
      notifications := notifications + [GazePositionsChanged];
    }

    method SetOffsetX(offset: real)
      modifies this`xOffset, this`notifications
      ensures xOffset == offset && notifications == old(notifications) + [OffsetChanged]
    {
      xOffset := offset;
      notifications := notifications + [OffsetChanged];
    }

    method SetOffsetY(offset: real)
      modifies this`yOffset, this`notifications
      ensures yOffset == offset && notifications == old(notifications) + [OffsetChanged]
    {
      yOffset := offset;
      notifications := notifications + [OffsetChanged];
    }

    /** on_notify: an offset change reloads the data; other subjects are ignored. */
    method OnNotify(n: Notification)
      modifies this`gaze, this`notifications
      ensures n == OffsetChanged ==>
                gaze == Shifted(recorded, xOffset, yOffset) && notifications == old(notifications) + [GazePositionsChanged]
      ensures n != OffsetChanged ==> gaze == old(gaze) && notifications == old(notifications)
    {
      if n == OffsetChanged {
        LoadDataWithOffset();
      }
    }

    /** cleanup: the current offsets are written with version 0. */
    method Cleanup()
      modifies this`correctionFile
      ensures correctionFile == Some(Correction(xOffset, yOffset, CorrectionFileVersion))
    {
      correctionFile := Some(Correction(xOffset, yOffset, CorrectionFileVersion));
    }
  }

  // ----------------------------------------------------------------------
  // Offline_Calibration: pure parts

  /** The 'offline_calibration_cache' file. */
  datatype Session = Session(version: int, sections: seq<Cache>, circleMarkers: seq<RefPoint>, manualRefs: seq<RefPoint>)

  /** One message from the circle-marker detector process. */
  datatype PipeMessage = PipeMessage(topic: string, data: seq<(real, Option<RefPoint>)>, reason: string)

  function TimestampKey(g: GazeDatum): real { g.timestamp }

  function IndexKey(r: RefPoint): real { r.index as real }

  function GazeLists(sts: seq<SectionState>): (ls: seq<seq<GazeDatum>>)
    ensures |ls| == |sts| && forall i :: 0 <= i < |sts| ==> ls[i] == sts[i].gaze
  {
    seq(|sts|, i requires 0 <= i < |sts| => sts[i].gaze)
  }

  /** What correlate_and_publish publishes: all sections' gaze, in section order, sorted by timestamp. */
  function Published(sts: seq<SectionState>): seq<GazeDatum> {
    SortBy(Flatten(GazeLists(sts)), TimestampKey)
  }

  /** The published list is sorted by timestamp. */
  lemma PublishedSorted(sts: seq<SectionState>)
    ensures SortedBy(Published(sts), TimestampKey)
  {
    SortByFacts(Flatten(GazeLists(sts)), TimestampKey);
  }

  /** The published list is sorted, holds exactly the sections' gaze, and keeps equal timestamps in section order. */
  lemma PublishedFacts(sts: seq<SectionState>)
    ensures SortedBy(Published(sts), TimestampKey)
    ensures multiset(Published(sts)) == multiset(Flatten(GazeLists(sts)))
    ensures forall t :: WithKey(Published(sts), TimestampKey, t) == WithKey(Flatten(GazeLists(sts)), TimestampKey, t)
  {
    SortByFacts(Flatten(GazeLists(sts)), TimestampKey);
    forall t ensures WithKey(Published(sts), TimestampKey, t) == WithKey(Flatten(GazeLists(sts)), TimestampKey, t) {
      SortByStable(Flatten(GazeLists(sts)), TimestampKey, t);
    }
  }

  /** A session is only restored when it has the current version. */
  predicate Accepted(file: Option<Session>) {
    file.Some? && file.value.version == SessionDataVersion
  }

  /** The state of a section just built from a cache. */
  function FreshState(c: Cache): SectionState {
    SectionState(c, None, None, [], [])
  }

  /** What the constructor restores: sections, circle markers, manual references, colours drawn. */
  datatype Restore = Restore(states: seq<SectionState>, circleMarkers: seq<RefPoint>, manualRefs: seq<RefPoint>, colorsDrawn: nat)

  /**
   * The load rule: a session of the current version gives back its
   * sections and lists; a missing file or any other version gives one new
   * section 'Unnamed section 1' over the whole recording and empty lists.
   */
  function RestoreSession(file: Option<Session>, frames: nat, drawn: nat): (r: Restore)
    ensures Accepted(file) ==>
              |r.states| == |file.value.sections| && r.colorsDrawn == drawn &&
              (forall i :: 0 <= i < |r.states| ==> r.states[i] == FreshState(file.value.sections[i])) &&
              r.circleMarkers == file.value.circleMarkers && r.manualRefs == file.value.manualRefs
    ensures !Accepted(file) ==>
              r.states == [FreshState(ConstructCache(SectionLabel(1), (0, frames - 1), (0, frames - 1), drawn))] &&
              r.circleMarkers == [] && r.manualRefs == [] && r.colorsDrawn == drawn + 1
  {
    if Accepted(file) then
      Restore(seq(|file.value.sections|, i requires 0 <= i < |file.value.sections| => FreshState(file.value.sections[i])),
              file.value.circleMarkers, file.value.manualRefs, drawn)
    else
      Restore([FreshState(ConstructCache(SectionLabel(1), (0, frames - 1), (0, frames - 1), drawn))], [], [], drawn + 1)
  }

  /** The sections' caches, in section order. */
  function CachesOf(sts: seq<SectionState>): (cs: seq<Cache>)
    ensures |cs| == |sts| && forall i :: 0 <= i < |sts| ==> cs[i] == sts[i].cache
  {
    seq(|sts|, i requires 0 <= i < |sts| => sts[i].cache)
  }

  /** The save rule: version 10, every section's cache, and circle markers only after a complete detection. */
  function SavedSession(sts: seq<SectionState>, manualRefs: seq<RefPoint>, circleMarkers: seq<RefPoint>, progress: real): Session {
    Session(SessionDataVersion, CachesOf(sts),
            if progress == 100.0 then circleMarkers else [], manualRefs)
  }

  /**
   * Saving and loading again restores every section's cache and the manual
   * references; the circle markers survive only a complete detection.
   */
  lemma SaveRestoreRoundTrip(sts: seq<SectionState>, manualRefs: seq<RefPoint>, circleMarkers: seq<RefPoint>,
                             progress: real, frames: nat, drawn: nat)
    ensures var r := RestoreSession(Some(SavedSession(sts, manualRefs, circleMarkers, progress)), frames, drawn);
            |r.states| == |sts| &&
            (forall i :: 0 <= i < |sts| ==> r.states[i] == FreshState(sts[i].cache)) &&
            r.manualRefs == manualRefs &&
            r.circleMarkers == (if progress == 100.0 then circleMarkers else []) &&
            r.colorsDrawn == drawn
  {
    var saved := SavedSession(sts, manualRefs, circleMarkers, progress);
    assert Accepted(Some(saved));
  }

  // ----------------------------------------------------------------------
  // The manual references after a restore, as written

  /**
   * manual_ref_positions: its references, and whether it is the tuple that
   * load_object restored (msgpack unpacks arrays with use_list=False).
   */
  datatype RefList = RefList(refs: seq<RefPoint>, isTuple: bool)

  /** The operations the plugin applies to manual_ref_positions. */
  datatype RefEdit = Extend(more: seq<RefPoint>) | SortByFrame | Delete(at: nat) | Append(ref: RefPoint) | Clear

  const DeleteIndexError := "IndexError: list assignment index out of range"

  /** The error a restored tuple raises for an edit: tuples have no list methods and no item deletion. */
  function TupleError(e: RefEdit): string
    requires !e.Clear?
  {
    match e
    case Extend(_) => "AttributeError: 'tuple' object has no attribute 'extend'"
    case SortByFrame => "AttributeError: 'tuple' object has no attribute 'sort'"
    case Append(_) => "AttributeError: 'tuple' object has no attribute 'append'"
    case Delete(_) => "TypeError: 'tuple' object doesn't support item deletion"
  }

  /** The manual references the constructor restores: a tuple exactly when the cached session was accepted. */
  function RestoredRefs(file: Option<Session>, frames: nat, drawn: nat): (l: RefList)
    ensures l.refs == RestoreSession(file, frames, drawn).manualRefs
    ensures l.isTuple <==> Accepted(file)
    ensures !Accepted(file) ==> l == RefList([], false)
  {
    RefList(RestoreSession(file, frames, drawn).manualRefs, Accepted(file))
  }

  /** One edit on a list: extend, sort by frame, del by index, append, or a new empty list. */
  function EditRefs(refs: seq<RefPoint>, e: RefEdit): (r: Result<seq<RefPoint>, string>)
    ensures r.Err? <==> e.Delete? && e.at >= |refs|
    ensures r.Ok? && (e.Extend? || e.Append?) ==> |r.value| >= |refs| && r.value[..|refs|] == refs
    ensures r.Ok? && e.Extend? ==> multiset(r.value) == multiset(refs) + multiset(e.more)
    ensures r.Ok? && e.Append? ==> multiset(r.value) == multiset(refs) + multiset{e.ref}
    ensures r.Ok? && e.SortByFrame? ==> SortedBy(r.value, IndexKey) && multiset(r.value) == multiset(refs)
    ensures r.Ok? && e.Delete? ==> multiset(r.value) + multiset{refs[e.at]} == multiset(refs)
    ensures r.Ok? && e.Clear? ==> r.value == []
  {
    match e
    case Extend(more) => Ok(refs + more)
    case SortByFrame =>
      SortByFacts(refs, IndexKey);
      Ok(SortBy(refs, IndexKey))
    case Delete(k) =>
      if k < |refs| then
        assert refs == refs[..k] + [refs[k]] + refs[k + 1..];
        Ok(refs[..k] + refs[k + 1..])
      else Err(DeleteIndexError)
    case Append(x) => Ok(refs + [x])
    case Clear => Ok([])
  }

  /** Edits in order on a list, stopping at the first that raises. */
  function ApplyEdits(refs: seq<RefPoint>, es: seq<RefEdit>): Result<seq<RefPoint>, string>
    decreases |es|
  {
    if es == [] then Ok(refs)
    else match EditRefs(refs, es[0])
      case Ok(next) => ApplyEdits(next, es[1..])
      case Err(m) => Err(m)
  }

  /** One edit as written: on the restored tuple every edit but the reassignment raises. */
  function EditAsWritten(l: RefList, e: RefEdit): (r: Result<RefList, string>)
  {
    if e.Clear? then Ok(RefList([], false))
    else if l.isTuple then Err(TupleError(e))
    else match EditRefs(l.refs, e)
      case Ok(next) => Ok(RefList(next, false))
      case Err(m) => Err(m)
  }

  /** Edits in order as written, stopping at the first that raises. */
  function EditsAsWritten(l: RefList, es: seq<RefEdit>): Result<RefList, string>
    decreases |es|
  {
    if es == [] then Ok(l)
    else match EditAsWritten(l, es[0])
      case Ok(next) => EditsAsWritten(next, es[1..])
      case Err(m) => Err(m)
  }

  function AsList(r: Result<seq<RefPoint>, string>): Result<RefList, string> {
    match r
    case Ok(refs) => Ok(RefList(refs, false))
    case Err(m) => Err(m)
  }

  /** use_as_natural_features as two list edits. */
  lemma ExtendThenSort(refs: seq<RefPoint>, more: seq<RefPoint>)
    ensures ApplyEdits(refs, [Extend(more), SortByFrame]) == Ok(SortBy(refs + more, IndexKey))
  {
    var es := [Extend(more), SortByFrame];
    assert EditRefs(refs, es[0]) == Ok(refs + more);
    assert es[1..] == [SortByFrame];
    assert ApplyEdits(refs + more, es[1..]) == Ok(SortBy(refs + more, IndexKey));
  }

  /** A single edit that succeeds is the whole sequence of edits. */
  lemma SingleEdit(refs: seq<RefPoint>, e: RefEdit)
    requires EditRefs(refs, e).Ok?
    ensures ApplyEdits(refs, [e]) == EditRefs(refs, e)
  {
    assert [e][1..] == [];
  }

  /** On a real list the edits as written are exactly the list edits. */
  lemma {:induction false} ListEditsAgree(refs: seq<RefPoint>, es: seq<RefEdit>)
    ensures EditsAsWritten(RefList(refs, false), es) == AsList(ApplyEdits(refs, es))
    decreases |es|
  {
    if es != [] {
      match EditRefs(refs, es[0])
      case Ok(next) => ListEditsAgree(next, es[1..]);
      case Err(_) =>
    }
  }

  /**
   * As written, once a cached session is restored the first edit of the
   * manual references raises unless it is the reassignment of
   * clear_natural_features; after that reassignment, and whenever no
   * session was restored, the edits behave as on a list.
   */
  lemma RestoredRefsRaise(file: Option<Session>, frames: nat, drawn: nat, es: seq<RefEdit>)
    ensures var l := RestoredRefs(file, frames, drawn);
            Accepted(file) && es != [] && !es[0].Clear? ==> EditsAsWritten(l, es) == Err(TupleError(es[0]))
    ensures var l := RestoredRefs(file, frames, drawn);
            !Accepted(file) || (es != [] && es[0].Clear?) ==> EditsAsWritten(l, es) == AsList(ApplyEdits(l.refs, es))
  {
    var l := RestoredRefs(file, frames, drawn);
    if !Accepted(file) {
      ListEditsAgree(l.refs, es);
    } else if es != [] && es[0].Clear? {
      ListEditsAgree([], es[1..]);
    }
  }

  /** The calibration methods calibrate knows; any other one raises before any check. */
  predicate KnownMethod(c: Cache) {
    c.calibrationMethod == "circle_marker" || c.calibrationMethod == "natural_features"
  }

  /**
   * The calibration sweep over the sections from section i on, where
   * `calibrate` is one section's calibrate(): each section in turn, stopping
   * at the first exception (the bool).
   */
  function SweepFrom(calibrate: SectionState -> (SectionState, bool), sts: seq<SectionState>, i: nat): (r: (seq<SectionState>, bool))
    ensures |r.0| == |sts|
    decreases |sts| - i
  {
    if i >= |sts| then (sts, false)
    else
      var a := calibrate(sts[i]);
      if a.1 then (sts[i := a.0], true)
      else SweepFrom(calibrate, sts[i := a.0], i + 1)
  }

  /** No section from i up to (not including) j raises. */
  ghost predicate NoneRaises(calibrate: SectionState -> (SectionState, bool), sts: seq<SectionState>, i: nat, j: nat)
    requires j <= |sts|
  {
    forall l :: i <= l < j ==> !calibrate(sts[l]).1
  }

  /**
   * The sweep raises iff some section from i on raises; every section up to
   * the first one that raises is calibrated, the others are left as they were.
   */
  lemma {:induction false} SweepFromEffect(calibrate: SectionState -> (SectionState, bool), sts: seq<SectionState>, i: nat)
    requires i <= |sts|
    ensures var r := SweepFrom(calibrate, sts, i);
            (r.1 <==> !NoneRaises(calibrate, sts, i, |sts|)) &&
            (forall j :: 0 <= j < i ==> r.0[j] == sts[j]) &&
            (forall j :: i <= j < |sts| ==>
               r.0[j] == if NoneRaises(calibrate, sts, i, j) then calibrate(sts[j]).0 else sts[j])
    decreases |sts| - i
  {
    if i < |sts| {
      var a := calibrate(sts[i]);
      if !a.1 {
        var next := sts[i := a.0];
        SweepFromEffect(calibrate, next, i + 1);
        assert forall j :: i < j < |sts| ==> next[j] == sts[j];
        forall j | i + 1 <= j <= |sts|
          ensures NoneRaises(calibrate, next, i + 1, j) == NoneRaises(calibrate, sts, i, j)
        {
        }
      } else {
        forall j | i < j <= |sts|
          ensures !NoneRaises(calibrate, sts, i, j)
        {
          assert calibrate(sts[i]).1;
        }
      }
    }
  }

  /** The calibration sweep from section i on, with Section.calibrate. */
  function CalibrateFrom(sts: seq<SectionState>, i: nat, rec: Recording, circleMarkers: seq<RefPoint>,
                         manualRefs: seq<RefPoint>, plugins: Plugins): (r: (seq<SectionState>, bool))
    ensures |r.0| == |sts|
  {
    SweepFrom(st => AfterCalibrate(st, rec, circleMarkers, manualRefs, plugins), sts, i)
  }

  /** The states once sections 0 .. k-1 have been calibrated and the rest not yet. */
  function CalibratedPrefix(sts: seq<SectionState>, k: nat, rec: Recording, circleMarkers: seq<RefPoint>,
                            manualRefs: seq<RefPoint>, plugins: Plugins): (r: seq<SectionState>)
    ensures |r| == |sts|
    ensures forall j :: 0 <= j < |sts| ==>
              r[j] == if j < k then AfterCalibrate(sts[j], rec, circleMarkers, manualRefs, plugins).0 else sts[j]
  {
    seq(|sts|, j requires 0 <= j < |sts| =>
      if j < k then AfterCalibrate(sts[j], rec, circleMarkers, manualRefs, plugins).0 else sts[j])
  }

  /**
   * When none of the first k sections raises, the sweep ends without raising
   * when k is the last, and stops at section k when that one raises.
   */
  lemma CalibrateFromPrefix(sts: seq<SectionState>, k: nat, rec: Recording, circleMarkers: seq<RefPoint>,
                            manualRefs: seq<RefPoint>, plugins: Plugins)
    requires k <= |sts|
    requires forall j :: 0 <= j < k ==> !AfterCalibrate(sts[j], rec, circleMarkers, manualRefs, plugins).1
    ensures k == |sts| ==>
              CalibrateFrom(sts, 0, rec, circleMarkers, manualRefs, plugins) ==
              (CalibratedPrefix(sts, k, rec, circleMarkers, manualRefs, plugins), false)
    ensures k < |sts| && AfterCalibrate(sts[k], rec, circleMarkers, manualRefs, plugins).1 ==>
              var p := CalibratedPrefix(sts, k, rec, circleMarkers, manualRefs, plugins);
              CalibrateFrom(sts, 0, rec, circleMarkers, manualRefs, plugins) ==
              (p[k := AfterCalibrate(sts[k], rec, circleMarkers, manualRefs, plugins).0], true)
  {
    var calibrate := st => AfterCalibrate(st, rec, circleMarkers, manualRefs, plugins);
    SweepFromEffect(calibrate, sts, 0);
    var r := SweepFrom(calibrate, sts, 0);
    var p := CalibratedPrefix(sts, k, rec, circleMarkers, manualRefs, plugins);
    if k == |sts| {
      forall j | 0 <= j < |sts|
        ensures r.0[j] == p[j]
      {
        assert NoneRaises(calibrate, sts, 0, j);
      }
      assert r.0 == p;
    } else if calibrate(sts[k]).1 {
      var q := p[k := calibrate(sts[k]).0];
      forall j | 0 <= j < |sts|
        ensures r.0[j] == q[j]
      {
        if j <= k {
          assert NoneRaises(calibrate, sts, 0, j);
        } else {
          assert !NoneRaises(calibrate, sts, 0, j);
        }
      }
      assert r.0 == q;
    }
  }

  /** Section.calibrate raises exactly for an unknown calibration method. */
  lemma AfterCalibrateRaises(st: SectionState, rec: Recording, circleMarkers: seq<RefPoint>,
                             manualRefs: seq<RefPoint>, plugins: Plugins)
    ensures AfterCalibrate(st, rec, circleMarkers, manualRefs, plugins).1 <==> !KnownMethod(st.cache)
  {
  }

  /**
   * Calibrating every section raises iff some section has an unknown method;
   * every section up to the first such one is calibrated, the later ones
   * are left as they were.
   */
  lemma CalibrateFromEffect(sts: seq<SectionState>, i: nat, rec: Recording, circleMarkers: seq<RefPoint>,
                            manualRefs: seq<RefPoint>, plugins: Plugins)
    requires i <= |sts|
    ensures var r := CalibrateFrom(sts, i, rec, circleMarkers, manualRefs, plugins);
            (r.1 <==> exists j :: i <= j < |sts| && !KnownMethod(sts[j].cache)) &&
            (forall j :: 0 <= j < i ==> r.0[j] == sts[j]) &&
            (forall j :: i <= j < |sts| ==>
               r.0[j] == if forall l :: i <= l < j ==> KnownMethod(sts[l].cache)
                         then AfterCalibrate(sts[j], rec, circleMarkers, manualRefs, plugins).0
                         else sts[j])
  {
    var calibrate := st => AfterCalibrate(st, rec, circleMarkers, manualRefs, plugins);
    SweepFromEffect(calibrate, sts, i);
    forall st | st in sts
      ensures calibrate(st).1 <==> !KnownMethod(st.cache)
    {
      AfterCalibrateRaises(st, rec, circleMarkers, manualRefs, plugins);
    }
    forall j | i <= j <= |sts|
      ensures NoneRaises(calibrate, sts, i, j) <==> forall l :: i <= l < j ==> KnownMethod(sts[l].cache)
    {
    }
  }

  /** The sections, the calibration files and the published gaze, as seen while the sections drain their tasks. */
  datatype World = World(states: seq<SectionState>, files: map<string, Mapper>, published: seq<GazeDatum>, notes: seq<Notification>)

  /** Section i's recent_events, then correlate_and_publish if its task completed. */
  function DrainStep(w: World, i: nat, recDir: string, available: nat -> nat): (r: World)
    requires i < |w.states|
    ensures |r.states| == |w.states|
  {
    var a := AfterRecentEvents(w.states[i], w.files, recDir, available(i));
    var states := w.states[i := a.0];
    if a.2 then World(states, a.1, Published(states), w.notes + [GazePositionsChanged])
    else World(states, a.1, w.published, w.notes)
  }

  /** DrainStep spelled out from the section's recent_events result. */
  lemma DrainStepOf(w: World, i: nat, recDir: string, available: nat -> nat, a: (SectionState, map<string, Mapper>, bool))
    requires i < |w.states|
    requires a == AfterRecentEvents(w.states[i], w.files, recDir, available(i))
    ensures var states := w.states[i := a.0];
            DrainStep(w, i, recDir, available) ==
              if a.2 then World(states, a.1, Published(states), w.notes + [GazePositionsChanged])
              else World(states, a.1, w.published, w.notes)
  {
  }

  /** Each section's recent_events in turn, from section i on. */
  function DrainFrom(w: World, i: nat, recDir: string, available: nat -> nat): (r: World)
    ensures |r.states| == |w.states|
    decreases |w.states| - i
  {
    if i >= |w.states| then w else DrainFrom(DrainStep(w, i, recDir, available), i + 1, recDir, available)
  }

  lemma DrainFromUnfold(w: World, i: nat, recDir: string, available: nat -> nat)
    requires i < |w.states|
    ensures DrainFrom(w, i, recDir, available) == DrainFrom(DrainStep(w, i, recDir, available), i + 1, recDir, available)
  {
  }

  /** b is a followed only by 'gaze_positions_changed' notifications. */
  ghost predicate OnlyPublishes(a: seq<Notification>, b: seq<Notification>) {
    |a| <= |b| && b[..|a|] == a && forall k :: |a| <= k < |b| ==> b[k] == GazePositionsChanged
  }

  lemma OnlyPublishesTrans(a: seq<Notification>, b: seq<Notification>, c: seq<Notification>)
    requires OnlyPublishes(a, b) && OnlyPublishes(b, c)
    ensures OnlyPublishes(a, c)
  {
    assert c[..|a|] == c[..|b|][..|a|];
  }

  /** Every section keeps its label and its cancelled tasks, and its gaze only grows. */
  ghost predicate Grows(a: seq<SectionState>, b: seq<SectionState>) {
    |a| == |b| &&
    forall j :: 0 <= j < |a| ==>
      b[j].cache.sectionLabel == a[j].cache.sectionLabel && b[j].cancelled == a[j].cancelled && a[j].gaze <= b[j].gaze
  }

  lemma GrowsTrans(a: seq<SectionState>, b: seq<SectionState>, c: seq<SectionState>)
    requires Grows(a, b) && Grows(b, c)
    ensures Grows(a, c)
  {
    forall j | 0 <= j < |a|
      ensures a[j].gaze <= c[j].gaze
    {
      assert a[j].gaze <= b[j].gaze <= c[j].gaze;
    }
  }

  /** One section's step: only that section changes, it keeps its label and gaze, and at most one notification is added. */
  lemma DrainStepEffect(w: World, i: nat, recDir: string, available: nat -> nat)
    requires i < |w.states|
    requires SortedBy(w.published, TimestampKey)
    ensures var r := DrainStep(w, i, recDir, available);
            (forall j :: 0 <= j < |w.states| && j != i ==> r.states[j] == w.states[j]) &&
            Grows(w.states, r.states) &&
            (r.notes == w.notes || r.notes == w.notes + [GazePositionsChanged]) &&
            OnlyPublishes(w.notes, r.notes) &&
            SortedBy(r.published, TimestampKey)
  {
    var a := AfterRecentEvents(w.states[i], w.files, recDir, available(i));
    var states := w.states[i := a.0];
    DrainStepOf(w, i, recDir, available, a);
    AfterRecentEventsFacts(w.states[i], w.files, recDir, available(i));
    assert w.states[i].gaze <= a.0.gaze;
    assert Grows(w.states, states);
    if a.2 {
      PublishedSorted(states);
      assert (w.notes + [GazePositionsChanged])[..|w.notes|] == w.notes;
    }
  }

  /**
   * Draining keeps every label and only ever adds gaze; the sections before
   * the starting one are untouched; each publish adds one
   * 'gaze_positions_changed' notification, and whatever has been published
   * is sorted by timestamp.
   */
  lemma {:induction false} DrainFromEffect(w: World, i: nat, recDir: string, available: nat -> nat)
    requires i <= |w.states|
    requires SortedBy(w.published, TimestampKey)
    ensures var r := DrainFrom(w, i, recDir, available);
            Grows(w.states, r.states) &&
            r.states[..i] == w.states[..i] &&
            OnlyPublishes(w.notes, r.notes) &&
            SortedBy(r.published, TimestampKey)
    decreases |w.states| - i
  {
    if i < |w.states| {
      var next := DrainStep(w, i, recDir, available);
      DrainStepEffect(w, i, recDir, available);
      DrainFromEffect(next, i + 1, recDir, available);
      var r := DrainFrom(next, i + 1, recDir, available);
      assert r == DrainFrom(w, i, recDir, available);
      OnlyPublishesTrans(w.notes, next.notes, r.notes);
      GrowsTrans(w.states, next.states, r.states);
      assert next.states[..i] == w.states[..i];
      assert r.states[..i] == r.states[..i + 1][..i];
    } else {
      assert Grows(w.states, w.states);
    }
  }

  /** The references a 'progress' message carries: `[d for d in data if d]`. */
  function PresentRefs(data: seq<(real, Option<RefPoint>)>): (refs: seq<RefPoint>)
    ensures forall r :: r in refs <==> exists k :: 0 <= k < |data| && data[k].1 == Some(r)
  {
    if data == [] then []
    else
      var init, last := data[..|data| - 1], data[|data| - 1];
      assert forall k :: 0 <= k < |init| ==> init[k] == data[k];
      PresentRefs(init) + (if last.1.Some? then [last.1.value] else [])
  }

  // ----------------------------------------------------------------------
  // Manual reference editing

  function SquaredDistance(a: Point, b: Point): real {
    (a.x - b.x) * (a.x - b.x) + (a.y - b.y) * (a.y - b.y)
  }

  /** A reference on the current frame within 15 pixels of the click (compared squared). */
  predicate NearClick(r: RefPoint, pos: Point, frame: int) {
    r.index == frame && SquaredDistance(pos, r.screenPos) < 225.0
  }

  /** The references placed on the given frame, in list order. */
  function InFrame(refs: seq<RefPoint>, frame: int): (r: seq<RefPoint>)
    ensures forall x :: x in r ==> x in refs && x.index == frame
  {
    if refs == [] then []
    else (if refs[0].index == frame then [refs[0]] else []) + InFrame(refs[1..], frame)
  }

  /** The position of the first reference near the click, if any. */
  function FirstNear(refs: seq<RefPoint>, pos: Point, frame: int): (k: Option<nat>)
    ensures k.Some? ==> k.value < |refs| && NearClick(refs[k.value], pos, frame) &&
                        forall j :: 0 <= j < k.value ==> !NearClick(refs[j], pos, frame)
    ensures k.None? ==> forall j :: 0 <= j < |refs| ==> !NearClick(refs[j], pos, frame)
  {
    if refs == [] then None
    else if NearClick(refs[0], pos, frame) then Some(0)
    else
      var k := FirstNear(refs[1..], pos, frame);
      if k.Some? then Some(k.value + 1) else None
  }

  /** FirstNear on a list with a known head. */
  lemma FirstNearCons(x: RefPoint, t: seq<RefPoint>, pos: Point, frame: int)
    ensures FirstNear([x] + t, pos, frame) ==
            if NearClick(x, pos, frame) then Some(0)
            else if FirstNear(t, pos, frame).Some? then Some(FirstNear(t, pos, frame).value + 1) else None
  {
    assert ([x] + t)[0] == x && ([x] + t)[1..] == t;
  }

  /** InFrame on a list with a known head. */
  lemma InFrameCons(x: RefPoint, t: seq<RefPoint>, frame: int)
    ensures InFrame([x] + t, frame) == (if x.index == frame then [x] else []) + InFrame(t, frame)
  {
    assert ([x] + t)[0] == x && ([x] + t)[1..] == t;
  }

  /** Filtering by frame first does not change which reference is the first near one. */
  lemma {:induction false} FirstNearInFrame(refs: seq<RefPoint>, pos: Point, frame: int)
    ensures var f := InFrame(refs, frame);
            (FirstNear(refs, pos, frame).None? <==> FirstNear(f, pos, frame).None?) &&
            (FirstNear(refs, pos, frame).Some? ==>
               f[FirstNear(f, pos, frame).value] == refs[FirstNear(refs, pos, frame).value])
  {
    if refs != [] {
      var x, t := refs[0], refs[1..];
      assert refs == [x] + t;
      var ft := InFrame(t, frame);
      var kt, kft := FirstNear(t, pos, frame), FirstNear(ft, pos, frame);
      FirstNearInFrame(t, pos, frame);
      FirstNearCons(x, t, pos, frame);
      InFrameCons(x, t, frame);
      var f := InFrame(refs, frame);
      var k, kf := FirstNear(refs, pos, frame), FirstNear(f, pos, frame);
      if x.index == frame {
        assert f == [x] + ft;
        FirstNearCons(x, ft, pos, frame);
        if NearClick(x, pos, frame) {
          assert k == Some(0) && kf == Some(0);
          assert f[0] == x == refs[0];
        } else if kt.Some? {
          assert k == Some(kt.value + 1) && kf == Some(kft.value + 1);
          assert f[kft.value + 1] == ft[kft.value] == t[kt.value] == refs[kt.value + 1];
        } else {
          assert k.None? && kf.None?;
        }
      } else {
        assert f == ft;
        assert !NearClick(x, pos, frame);
        if kt.Some? {
          assert k == Some(kt.value + 1) && kf == kft;
          assert f[kft.value] == t[kt.value] == refs[kt.value + 1];
        } else {
          assert k.None? && kf.None?;
        }
      }
    }
  }

  /** normalize(pos, frame_size, flip_y=True). */
  function Normalize(pos: Point, size: (int, int)): Point
    requires size.0 != 0 && size.1 != 0
  {
    Point(pos.x / (size.0 as real), 1.0 - pos.y / (size.1 as real))
  }

  /** tuple(range(idx - 5, idx + 5)). */
  function IndexRange(idx: int): (r: seq<int>)
    ensures |r| == 10 && r[0] == idx - 5 && r[9] == idx + 4
    ensures forall i :: 0 <= i < 10 ==> r[i] == idx - 5 + i
  {
    seq(10, i => idx - 5 + i)
  }

  /** The reference on_click places: at the current frame, with that frame's timestamp. */
  function NewRef(pos: Point, frame: nat, rec: Recording): RefPoint
    requires frame < |rec.timestamps| && rec.frameSize.0 != 0 && rec.frameSize.1 != 0
  {
    RefPoint(frame, IndexRange(frame), rec.timestamps[frame], pos, Normalize(pos, rec.frameSize))
  }

  /** The plugin's state after the detector part of recent_events, and whether it raised. */
  datatype DetectorStep = DetectorStep(states: seq<SectionState>, circleMarkers: seq<RefPoint>, pipe: bool,
                                       progress: real, raised: bool)

  /**
   * The marker-detector part of recent_events as a function: with an open
   * pipe and a message, 'progress' adds its markers and takes its last
   * progress value (no data raises while unpacking), 'finished' sets 100,
   * closes the pipe and calibrates every section, 'exception' closes the
   * pipe and resets the progress; anything else changes nothing.
   */
  function DetectorMessageStep(sts: seq<SectionState>, circle: seq<RefPoint>, pipe: bool, progress: real,
                               message: Option<PipeMessage>, rec: Recording, manualRefs: seq<RefPoint>,
                               plugins: Plugins): (r: DetectorStep)
    ensures |r.states| == |sts|
    ensures r.raised ==> pipe && message.Some? && message.value.topic in {"progress", "finished"}
    ensures !pipe || message.None? ==> r == DetectorStep(sts, circle, pipe, progress, false)
    ensures r.pipe ==> pipe
    ensures |r.circleMarkers| >= |circle| && r.circleMarkers[..|circle|] == circle
    ensures r.states != sts ==> message.Some? && message.value.topic == "finished"
  {
    if !pipe || message.None? then DetectorStep(sts, circle, pipe, progress, false)
    else
      var msg := message.value;
      if msg.topic == "progress" then
        if msg.data == [] then DetectorStep(sts, circle, pipe, progress, true)
        else DetectorStep(sts, circle + PresentRefs(msg.data), pipe, msg.data[|msg.data| - 1].0, false)
      else if msg.topic == "finished" then
        var c := CalibrateFrom(sts, 0, rec, circle, manualRefs, plugins);
        DetectorStep(c.0, circle, false, 100.0, c.1)
      else if msg.topic == "exception" then DetectorStep(sts, circle, false, 0.0, false)
      else DetectorStep(sts, circle, pipe, progress, false)
  }

  // ----------------------------------------------------------------------
  // Offline_Calibration

  function StatesOf(ss: seq<Section>): (r: seq<SectionState>)
    reads ss
    ensures |r| == |ss| && forall i :: 0 <= i < |ss| ==> r[i] == ss[i].State()
  {
    seq(|ss|, i requires 0 <= i < |ss| reads ss => ss[i].State())
  }

  /** Removing one section keeps the others distinct. */
  lemma DistinctWithout(ss: seq<Section>, i: nat)
    requires i < |ss| && forall a, b :: 0 <= a < b < |ss| ==> ss[a] != ss[b]
    ensures var r := ss[..i] + ss[i + 1..]; forall a, b :: 0 <= a < b < |r| ==> r[a] != r[b]
  {
    var r := ss[..i] + ss[i + 1..];
    forall a, b | 0 <= a < b < |r|
      ensures r[a] != r[b]
    {
      assert r[a] == ss[if a < i then a else a + 1];
      assert r[b] == ss[if b < i then b else b + 1];
    }
  }

  /** The restore of a current-version session: one new section per cached section, in order. */
  method RestoreSections(caches: seq<Cache>, drawn: nat) returns (ss: seq<Section>)
    ensures |ss| == |caches|
    ensures forall i :: 0 <= i < |ss| ==> fresh(ss[i]) && ss[i].State() == FreshState(caches[i])
    ensures forall i, j :: 0 <= i < j < |ss| ==> ss[i] != ss[j]
  {
    ss := [];
    var k := 0;
    while k < |caches|
      invariant k <= |caches| && |ss| == k
      invariant forall i :: 0 <= i < k ==> fresh(ss[i]) && ss[i].State() == FreshState(caches[i])
      invariant forall i, j :: 0 <= i < j < k ==> ss[i] != ss[j]
    {
      var s := new Section(Some(caches[k]), [], (0, 0), (0, 0), drawn);
      ss := ss + [s];
      k := k + 1;
    }
  }

  class OfflineCalibration {
    /** The parts of g_pool the plugin reads. */
    const rec: Recording
    const plugins: Plugins
    /** The .plcalibration files of the recording. */
    const store: CalibrationStore
    var manualRefEditMode: bool
    /** Whether a circle-marker detector pipe is open. */
    var processPipe: bool
    var circleMarkers: seq<RefPoint>
    var manualRefs: seq<RefPoint>
    var detectionProgress: real
    var sections: seq<Section>
    /** g_pool.gaze_positions as last published by this plugin. */
    var gaze: seq<GazeDatum>
    var notifications: seq<Notification>
    /** The 'offline_calibration_cache' file. */
    var cacheFile: Option<Session>
    /** Colours drawn from the module-level colour cycle so far. */
    var colorsDrawn: nat

    /** Every section object appears once. */
    predicate Valid()
      reads this
    {
      forall i, j :: 0 <= i < j < |sections| ==> sections[i] != sections[j]
    }

    function States(): seq<SectionState>
      reads this, sections
    {
      StatesOf(sections)
    }

    function Labels(): (ls: seq<string>)
      reads this, sections
      ensures |ls| == |sections| && forall i :: 0 <= i < |sections| ==> ls[i] == sections[i].cache.sectionLabel
    {
      seq(|sections|, i requires 0 <= i < |sections| reads this, sections => sections[i].cache.sectionLabel)
    }

    /**
     * Offline_Calibration(g_pool): restores the cached session (see
     * RestoreSession); the first calibration run is OpenOfflineCalibration.
     */
    constructor (rec: Recording, plugins: Plugins, store: CalibrationStore, file: Option<Session>,
                 manualRefEditMode: bool, colorsDrawn: nat)
      ensures Valid() && forall s :: s in sections ==> fresh(s)
      ensures this.rec == rec && this.plugins == plugins && this.store == store
      ensures this.manualRefEditMode == manualRefEditMode && !processPipe && cacheFile == file
      ensures gaze == [] && notifications == []
      ensures var r := RestoreSession(file, |rec.timestamps|, colorsDrawn);
              States() == r.states && circleMarkers == r.circleMarkers && manualRefs == r.manualRefs &&
              this.colorsDrawn == r.colorsDrawn
      ensures detectionProgress == if circleMarkers != [] then 100.0 else 0.0
    {
      var ss: seq<Section> := [];
      var drawn := colorsDrawn;
      var circle: seq<RefPoint>, manual: seq<RefPoint>;
      if file.Some? && file.value.version == SessionDataVersion {
        ss := RestoreSections(file.value.sections, drawn);
        circle, manual := file.value.circleMarkers, file.value.manualRefs;
      } else {
        var firstLabel, n := MakeSectionLabel([]);
        var maxIdx := |rec.timestamps| - 1;
        var s := new Section(None, firstLabel, (0, maxIdx), (0, maxIdx), drawn);
        drawn := drawn + 1;
        ss := [s];
        circle, manual := [], [];
      }
      this.rec := rec;
      this.plugins := plugins;
      this.store := store;
      this.manualRefEditMode := manualRefEditMode;
      processPipe := false;
      sections := ss;
      circleMarkers := circle;
      manualRefs := manual;
      detectionProgress := if circle != [] then 100.0 else 0.0;
      gaze := [];
      notifications := [];
      cacheFile := file;
      this.colorsDrawn := drawn;
      new;
      assert States() == RestoreSession(file, |rec.timestamps|, colorsDrawn).states;
    }

    /** Every section calibrates in turn; an exception stops the sweep. */
    method CalibrateAll() returns (raised: bool)
      requires Valid()
      modifies set s | s in sections
      ensures (States(), raised) == CalibrateFrom(old(States()), 0, rec, circleMarkers, manualRefs, plugins)
    {
      ghost var initial := States();
      var i := 0;
      while i < |sections|
        invariant i <= |sections|
        invariant States() == CalibratedPrefix(initial, i, rec, circleMarkers, manualRefs, plugins)
        invariant forall j :: 0 <= j < i ==> !AfterCalibrate(initial[j], rec, circleMarkers, manualRefs, plugins).1
      {
        var r := CalibrateSection(i);
        if r {
          CalibrateFromPrefix(initial, i, rec, circleMarkers, manualRefs, plugins);
          return true;
        }
        i := i + 1;
      }
      CalibrateFromPrefix(initial, i, rec, circleMarkers, manualRefs, plugins);
      return false;
    }

    /** sec.calibrate() on the i-th section: only that section's state changes. */
    method CalibrateSection(i: nat) returns (raised: bool)
      requires Valid() && i < |sections|
      modifies sections[i]
      ensures var a := AfterCalibrate(old(States())[i], rec, circleMarkers, manualRefs, plugins);
              States() == old(States())[i := a.0] && raised == a.1
    {
      ghost var before := States();
      raised := sections[i].Calibrate(rec, circleMarkers, manualRefs, plugins);
      ghost var after := before[i := sections[i].State()];
      assert forall j :: 0 <= j < |sections| ==> States()[j] == after[j];
      assert States() == after;
    }

    /** Every section calibrates; when none raises, the gaze is correlated and published. */
    method CalibrateAndPublish() returns (raised: bool)
      requires Valid()
      modifies set s | s in sections, this`gaze, this`notifications
      ensures (States(), raised) == CalibrateFrom(old(States()), 0, rec, circleMarkers, manualRefs, plugins)
      ensures !raised ==> gaze == Published(States()) && notifications == old(notifications) + [GazePositionsChanged]
      ensures raised ==> gaze == old(gaze) && notifications == old(notifications)
    {
      raised := CalibrateAll();
      ghost var calibrated := States();
      if !raised {
        CorrelateAndPublish();
        assert States() == calibrated;
      }
    }

    /** correlate_and_publish (correlate_data's per-frame index is not modelled). */
    method CorrelateAndPublish()
      modifies this`gaze, this`notifications
      ensures gaze == Published(States())
      ensures SortedBy(gaze, TimestampKey) && multiset(gaze) == multiset(Flatten(GazeLists(States())))
      ensures notifications == old(notifications) + [GazePositionsChanged]
      ensures States() == old(States())
    {
      var allGaze := Flatten(GazeLists(States()));
      gaze := SortBy(allGaze, TimestampKey);
      SortByFacts(allGaze, TimestampKey);
      notifications := notifications + [GazePositionsChanged];
    }

    /** save_cache. */
    method SaveCache()
      modifies this`cacheFile
      ensures cacheFile == Some(SavedSession(States(), manualRefs, circleMarkers, detectionProgress))
    {
      var caches := CachesOf(States());
      var circle := if detectionProgress == 100.0 then circleMarkers else [];
      cacheFile := Some(Session(SessionDataVersion, caches, circle, manualRefs));
    }

    /** append_section: one new section with the least free generated label over the whole recording. */
    method AppendSection() returns (ghost n: nat)
      requires Valid()
      modifies this`sections, this`colorsDrawn
      ensures Valid() && |sections| == |old(sections)| + 1 && sections[..|old(sections)|] == old(sections)
      ensures fresh(sections[|old(sections)|])
      ensures var maxIdx := |rec.timestamps| - 1;
              sections[|old(sections)|].State() == FreshState(ConstructCache(SectionLabel(n), (0, maxIdx), (0, maxIdx), old(colorsDrawn)))
      ensures 1 <= n && SectionLabel(n) !in old(Labels()) && forall k :: 1 <= k < n ==> SectionLabel(k) in old(Labels())
      ensures colorsDrawn == old(colorsDrawn) + 1
    {
      var maxIdx := |rec.timestamps| - 1;
      var existing := Labels();
      var newLabel;
      newLabel, n := MakeSectionLabel(existing);
      var sec := new Section(None, newLabel, (0, maxIdx), (0, maxIdx), colorsDrawn);
      colorsDrawn := colorsDrawn + 1;
      sections := sections + [sec];
    }

    /** use_as_natural_features: the circle markers join the manual references, sorted by frame. */
    method UseAsNaturalFeatures()
      modifies this`manualRefs
      ensures manualRefs == SortBy(old(manualRefs) + circleMarkers, IndexKey)
      ensures SortedBy(manualRefs, IndexKey) && multiset(manualRefs) == multiset(old(manualRefs) + circleMarkers)
      ensures ApplyEdits(old(manualRefs), [Extend(circleMarkers), SortByFrame]) == Ok(manualRefs)
    {
      ghost var before := manualRefs;
      var all := manualRefs + circleMarkers;
      manualRefs := SortBy(all, IndexKey);
      SortByFacts(all, IndexKey);
      ExtendThenSort(before, circleMarkers);
    }

    /** jump_next_natural_feature: seek to the first reference after the current frame, if there is one. */
    method JumpNextNaturalFeature(current: int) returns (seek: Option<int>)
      modifies this`manualRefs, this`notifications
      ensures manualRefs == SortBy(old(manualRefs), IndexKey)
      ensures SortedBy(manualRefs, IndexKey) && multiset(manualRefs) == multiset(old(manualRefs))
      ensures seek.None? <==> forall r :: r in manualRefs ==> r.index <= current
      ensures seek.Some? ==>
                seek.value > current && (exists r :: r in manualRefs && r.index == seek.value) &&
                forall r :: r in manualRefs && r.index > current ==> seek.value <= r.index
      ensures notifications == old(notifications) + (if seek.Some? then [ShouldSeek(seek.value)] else [])
      ensures ApplyEdits(old(manualRefs), [SortByFrame]) == Ok(manualRefs)
    {
      SortByFacts(manualRefs, IndexKey);
      manualRefs := SortBy(manualRefs, IndexKey);
      seek := FirstAfter(manualRefs, current);
      if seek.Some? {
        notifications := notifications + [ShouldSeek(seek.value)];
      }
    }

    method ClearNaturalFeatures()
      modifies this`manualRefs
      ensures manualRefs == []
      ensures ApplyEdits(old(manualRefs), [Clear]) == Ok(manualRefs)
    {
      manualRefs := [];
    }

    /**
     * on_click: in edit mode a press deletes the first reference of the
     * current frame within 15 pixels, or else places a new one there.
     */
    method OnClick(pos: Point, press: bool, frame: nat)
      requires frame < |rec.timestamps| && rec.frameSize.0 != 0 && rec.frameSize.1 != 0
      modifies this`manualRefs
      ensures !(press && manualRefEditMode) ==> manualRefs == old(manualRefs)
      ensures press && manualRefEditMode ==>
                match FirstNear(old(manualRefs), pos, frame)
                case Some(k) => manualRefs == old(manualRefs)[..k] + old(manualRefs)[k + 1..]
                case None => manualRefs == old(manualRefs) + [NewRef(pos, frame, rec)]
      ensures press && manualRefEditMode ==>
                match FirstNear(old(manualRefs), pos, frame)
                case Some(k) => ApplyEdits(old(manualRefs), [Delete(k)]) == Ok(manualRefs)
                case None => ApplyEdits(old(manualRefs), [Append(NewRef(pos, frame, rec))]) == Ok(manualRefs)
    {
      if press && manualRefEditMode {
        ghost var near := FirstNear(manualRefs, pos, frame);
        var refsInFrame := InFrame(manualRefs, frame);
        var found := FindClicked(refsInFrame, pos, frame);
        FirstNearInFrame(manualRefs, pos, frame);
        assert found.Some? <==> near.Some?;
        if found.Some? {
          var at := IndexOf(manualRefs, refsInFrame[found.value]);
          // list.index finds the first near reference of the whole list again.
          assert NearClick(manualRefs[at], pos, frame);
          assert manualRefs[near.value] == manualRefs[at];
          assert at == near.value;
          SingleEdit(manualRefs, Delete(at));
          manualRefs := manualRefs[..at] + manualRefs[at + 1..];
          return;
        }
        SingleEdit(manualRefs, Append(NewRef(pos, frame, rec)));
        manualRefs := manualRefs + [NewRef(pos, frame, rec)];
      }
    }

    /** toggle_marker_detection. */
    method ToggleMarkerDetection(sourcePath: string)
      modifies this`circleMarkers, this`processPipe, this`notifications, this`detectionProgress
      ensures old(processPipe) ==>
                !processPipe && detectionProgress == 0.0 && circleMarkers == old(circleMarkers) &&
                notifications == old(notifications)
      ensures !old(processPipe) ==>
                processPipe && detectionProgress == 0.0 && circleMarkers == [] &&
                notifications == old(notifications) + [CircleDetectorShouldStart(sourcePath)]
    {
      if processPipe {
        CancelMarkerDetection();
      } else {
        StartMarkerDetection(sourcePath);
      }
    }

    /** start_marker_detection: forget the markers, open the pipe, start the detector. */
    method StartMarkerDetection(sourcePath: string)
      modifies this`circleMarkers, this`processPipe, this`notifications, this`detectionProgress
      ensures processPipe && detectionProgress == 0.0 && circleMarkers == []
      ensures notifications == old(notifications) + [CircleDetectorShouldStart(sourcePath)]
    {
      circleMarkers := [];
      processPipe := true;
      notifications := notifications + [CircleDetectorShouldStart(sourcePath)];
      detectionProgress := 0.0;
    }

    /** cancel_marker_detection: only an open pipe is closed, and only then is the progress reset. */
    method CancelMarkerDetection()
      modifies this`processPipe, this`detectionProgress
      ensures !processPipe
      ensures detectionProgress == if old(processPipe) then 0.0 else old(detectionProgress)
    {
      if processPipe {
        processPipe := false;
        detectionProgress := 0.0;
      }
    }

    /**
     * The marker-detector part of recent_events: a 'progress' message adds
     * its markers and takes its last progress value ('progress' without data
     * raises ValueError while unpacking); 'finished' closes the pipe and
     * recalibrates every section; 'exception' closes the pipe and resets the
     * progress.
     */
    method HandleDetectorMessage(message: Option<PipeMessage>) returns (raised: bool)
      requires Valid()
      modifies this`circleMarkers, this`processPipe, this`detectionProgress, set s | s in sections
      ensures !old(processPipe) || message.None? || message.value.topic !in {"progress", "finished", "exception"} ||
              (message.value.topic == "progress" && message.value.data == []) ==>
                circleMarkers == old(circleMarkers) && processPipe == old(processPipe) &&
                detectionProgress == old(detectionProgress) && States() == old(States())
      ensures raised <==> old(processPipe) && message.Some? &&
                          ((message.value.topic == "progress" && message.value.data == []) ||
                           (message.value.topic == "finished" &&
                            CalibrateFrom(old(States()), 0, rec, circleMarkers, manualRefs, plugins).1))
      ensures old(processPipe) && message.Some? && message.value.topic == "progress" && message.value.data != [] ==>
                circleMarkers == old(circleMarkers) + PresentRefs(message.value.data) &&
                detectionProgress == message.value.data[|message.value.data| - 1].0 &&
                processPipe && States() == old(States())
      ensures old(processPipe) && message.Some? && message.value.topic == "finished" ==>
                detectionProgress == 100.0 && !processPipe && circleMarkers == old(circleMarkers) &&
                States() == CalibrateFrom(old(States()), 0, rec, circleMarkers, manualRefs, plugins).0
      ensures old(processPipe) && message.Some? && message.value.topic == "exception" ==>
                detectionProgress == 0.0 && !processPipe && circleMarkers == old(circleMarkers) &&
                States() == old(States())
      ensures DetectorStep(States(), circleMarkers, processPipe, detectionProgress, raised)
           == DetectorMessageStep(old(States()), old(circleMarkers), old(processPipe), old(detectionProgress),
                                  message, rec, manualRefs, plugins)
    {
      raised := false;
      if processPipe && message.Some? {
        var msg := message.value;
        if msg.topic == "progress" {
          var recent := msg.data;
          if recent == [] {
            return true;
          }
          circleMarkers := circleMarkers + PresentRefs(recent);
          detectionProgress := recent[|recent| - 1].0;
        } else if msg.topic == "finished" {
          detectionProgress := 100.0;
          processPipe := false;
          raised := CalibrateAll();
        } else if msg.topic == "exception" {
          processPipe := false;
          detectionProgress := 0.0;
        }
      }
    }

    /** The section part of recent_events: each section drains its task, publishing when one completes. */
    method DrainSections(available: nat -> nat)
      requires Valid()
      modifies (set s | s in sections), store, this`gaze, this`notifications
      ensures World(States(), store.files, gaze, notifications)
           == DrainFrom(World(old(States()), old(store.files), old(gaze), old(notifications)), 0, rec.recDir, available)
    {
      var i := 0;
      while i < |sections|
        invariant i <= |sections|
        invariant DrainFrom(World(old(States()), old(store.files), old(gaze), old(notifications)), 0, rec.recDir, available)
               == DrainFrom(World(States(), store.files, gaze, notifications), i, rec.recDir, available)
      {
        DrainSection(i, available);
        i := i + 1;
      }
    }

    /** One pass of that loop: the i-th section drains its task, and the parent publishes when it completed. */
    method DrainSection(i: nat, available: nat -> nat)
      requires Valid() && i < |sections|
      modifies sections[i], store, this`gaze, this`notifications
      ensures DrainFrom(World(old(States()), old(store.files), old(gaze), old(notifications)), i, rec.recDir, available)
           == DrainFrom(World(States(), store.files, gaze, notifications), i + 1, rec.recDir, available)
    {
      ghost var before := World(States(), store.files, gaze, notifications);
      ghost var a := AfterRecentEvents(before.states[i], before.files, rec.recDir, available(i));
      var publish := sections[i].RecentEvents(rec.recDir, available(i), store);
      assert (sections[i].State(), store.files, publish) == a;
      ghost var states := before.states[i := a.0];
      assert forall j :: 0 <= j < |sections| ==> States()[j] == states[j];
      assert States() == states;
      if publish {
        CorrelateAndPublish();
      }
      ghost var after := World(States(), store.files, gaze, notifications);
      assert after == if a.2 then World(states, a.1, Published(states), before.notes + [GazePositionsChanged])
                      else World(states, a.1, before.published, before.notes);
      DrainStepOf(before, i, rec.recDir, available, a);
      DrainFromUnfold(before, i, rec.recDir, available);
    }

    /** recent_events: a waiting detector message first; the sections run unless it raised. */
    method RecentEvents(message: Option<PipeMessage>, available: nat -> nat) returns (raised: bool)
      requires Valid()
      modifies this`circleMarkers, this`processPipe, this`detectionProgress, this`gaze, this`notifications
      modifies (set s | s in sections), store
      ensures var m := DetectorMessageStep(old(States()), old(circleMarkers), old(processPipe), old(detectionProgress),
                                           message, rec, manualRefs, plugins);
              raised == m.raised && circleMarkers == m.circleMarkers && processPipe == m.pipe &&
              detectionProgress == m.progress
      ensures var m := DetectorMessageStep(old(States()), old(circleMarkers), old(processPipe), old(detectionProgress),
                                           message, rec, manualRefs, plugins);
              !raised ==> World(States(), store.files, gaze, notifications)
                          == DrainFrom(World(m.states, old(store.files), old(gaze), old(notifications)), 0, rec.recDir, available)
      ensures raised ==> store.files == old(store.files) && gaze == old(gaze) && notifications == old(notifications) &&
                         States() == DetectorMessageStep(old(States()), old(circleMarkers), old(processPipe),
                                                         old(detectionProgress), message, rec, manualRefs, plugins).states
    {
      raised := HandleDetectorMessage(message);
      if raised {
        return;
      }
      DrainSections(available);
    }

    /** on_notify: new pupil data recalibrates every section; new gaze is cached. */
    method OnNotify(n: Notification) returns (raised: bool)
      requires Valid()
      modifies set s | s in sections, this`cacheFile
      ensures n == PupilPositionsChanged ==>
                (States(), raised) == CalibrateFrom(old(States()), 0, rec, circleMarkers, manualRefs, plugins) &&
                cacheFile == old(cacheFile)
      ensures n == GazePositionsChanged ==>
                !raised && States() == old(States()) &&
                cacheFile == Some(SavedSession(States(), manualRefs, circleMarkers, detectionProgress))
      ensures n != PupilPositionsChanged && n != GazePositionsChanged ==>
                !raised && States() == old(States()) && cacheFile == old(cacheFile)
    {
      raised := false;
      if n == PupilPositionsChanged {
        raised := CalibrateAll();
      } else if n == GazePositionsChanged {
        SaveCache();
      }
    }

    /** cleanup: every held task is cancelled, then the session is cached. */
    method Cleanup()
      requires Valid()
      modifies set s | s in sections, this`cacheFile
      ensures forall j :: 0 <= j < |sections| ==> States()[j] == CleanedUp(old(States())[j])
      ensures cacheFile == Some(SavedSession(States(), manualRefs, circleMarkers, detectionProgress))
    {
      var i := 0;
      while i < |sections|
        invariant i <= |sections|
        invariant forall j :: 0 <= j < i ==> States()[j] == CleanedUp(old(States())[j])
        invariant forall j :: i <= j < |sections| ==> States()[j] == old(States())[j]
      {
        ghost var before := States();
        sections[i].CancelTask();
        assert sections[i].State() == CleanedUp(before[i]);
        assert States() == before[i := CleanedUp(before[i])];
        i := i + 1;
      }
      SaveCache();
    }

    /**
     * Section.remove: the section's calibration file is deleted (a missing
     * one is ignored), the section leaves the list and gaze is republished.
     */
    method RemoveSection(i: nat)
      requires Valid() && i < |sections|
      modifies this`sections, this`gaze, this`notifications, store
      ensures Valid() && sections == old(sections[..i] + sections[i + 1..])
      ensures store.files == old(store.files) - {old(sections[i].PathFor(rec.recDir, None))}
      ensures gaze == Published(States()) && notifications == old(notifications) + [GazePositionsChanged]
    {
      var path := sections[i].PathFor(rec.recDir, None);
      store.files := store.files - {path};
      DistinctWithout(sections, i);
      sections := sections[..i] + sections[i + 1..];
      CorrelateAndPublish();
    }
  }

  /** A section after cleanup: its held task is cancelled, recorded, and stays in place. */
  function CleanedUp(o: SectionState): SectionState {
    o.(bgTask := CancelHeld(o.bgTask), cancelled := o.cancelled + (if o.bgTask.Some? then [o.bgTask.value.Cancel()] else []))
  }

  /**
   * The loop of jump_next_natural_feature over references sorted by frame:
   * the frame of the first one after `current`, which is the least such frame.
   */
  method FirstAfter(s: seq<RefPoint>, current: int) returns (seek: Option<int>)
    requires SortedBy(s, IndexKey)
    ensures seek.None? <==> forall r :: r in s ==> r.index <= current
    ensures seek.Some? ==>
              seek.value > current && (exists r :: r in s && r.index == seek.value) &&
              forall r :: r in s && r.index > current ==> seek.value <= r.index
  {
    var i := 0;
    while i < |s|
      invariant i <= |s|
      invariant forall j :: 0 <= j < i ==> s[j].index <= current
    {
      if s[i].index > current {
        FirstAfterIsLeast(s, i, current);
        return Some(s[i].index);
      }
      i := i + 1;
    }
    return None;
  }

  /** In a list sorted by frame, the first reference after `current` has the least such frame. */
  lemma FirstAfterIsLeast(s: seq<RefPoint>, i: nat, current: int)
    requires SortedBy(s, IndexKey) && i < |s| && s[i].index > current
    requires forall j :: 0 <= j < i ==> s[j].index <= current
    ensures forall r :: r in s && r.index > current ==> s[i].index <= r.index
  {
    forall r | r in s && r.index > current
      ensures s[i].index <= r.index
    {
      var j :| 0 <= j < |s| && s[j] == r;
      if i < j {
        assert IndexKey(s[i]) <= IndexKey(s[j]);
      }
    }
  }

  /**
   * The loop of on_click over the references of the frame: the first one
   * within 15 pixels of the click, if any.
   */
  method FindClicked(refsInFrame: seq<RefPoint>, pos: Point, frame: int) returns (found: Option<nat>)
    requires forall j :: 0 <= j < |refsInFrame| ==> refsInFrame[j].index == frame
    ensures found == FirstNear(refsInFrame, pos, frame)
  {
    var i := 0;
    while i < |refsInFrame|
      invariant i <= |refsInFrame|
      invariant forall j :: 0 <= j < i ==> !NearClick(refsInFrame[j], pos, frame)
    {
      if SquaredDistance(pos, refsInFrame[i].screenPos) < 225.0 {
        return Some(i);
      }
      i := i + 1;
    }
    return None;
  }

  /** list.index: the first position holding x. */
  method IndexOf(refs: seq<RefPoint>, x: RefPoint) returns (at: nat)
    requires x in refs
    ensures at < |refs| && refs[at] == x && forall j :: 0 <= j < at ==> refs[j] != x
  {
    at := 0;
    while refs[at] != x
      invariant at < |refs| && x in refs[at..]
      invariant forall j :: 0 <= j < at ==> refs[j] != x
      decreases |refs| - at
    {
      at := at + 1;
    }
  }

  /**
   * Offline_Calibration.__init__ as a whole: the restored plugin, and, when
   * circle markers were restored, every section calibrated and the gaze
   * published (unless a section raised).
   */
  method OpenOfflineCalibration(rec: Recording, plugins: Plugins, store: CalibrationStore, file: Option<Session>,
                                manualRefEditMode: bool, colorsDrawn: nat)
    returns (oc: OfflineCalibration, raised: bool)
    ensures fresh(oc) && oc.Valid() && oc.rec == rec && oc.store == store
    ensures var r := RestoreSession(file, |rec.timestamps|, colorsDrawn);
            oc.circleMarkers == r.circleMarkers && oc.manualRefs == r.manualRefs &&
            (r.circleMarkers == [] ==> !raised && oc.States() == r.states && oc.gaze == [] && oc.detectionProgress == 0.0) &&
            (r.circleMarkers != [] ==>
               (oc.States(), raised) == CalibrateFrom(r.states, 0, rec, r.circleMarkers, r.manualRefs, plugins) &&
               oc.detectionProgress == 100.0 &&
               (!raised ==> oc.gaze == Published(oc.States()) && oc.notifications == [GazePositionsChanged]))
  {
    ghost var r := RestoreSession(file, |rec.timestamps|, colorsDrawn);
    oc := new OfflineCalibration(rec, plugins, store, file, manualRefEditMode, colorsDrawn);
    assert oc.States() == r.states && oc.circleMarkers == r.circleMarkers && oc.manualRefs == r.manualRefs;
    raised := false;
    if oc.circleMarkers != [] {
      raised := oc.CalibrateAndPublish();
      assert (oc.States(), raised) == CalibrateFrom(r.states, 0, rec, r.circleMarkers, r.manualRefs, plugins);
    }
  }
}
