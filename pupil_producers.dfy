/**
 * Offline_Pupil_Detection: it restores the pupil positions of an earlier
 * session, starts one detector per eye video, folds the positions and the
 * "video finished" messages of the detectors into its state, and publishes
 * the positions sorted by time once no detector is running.
 *
 * The eye processes, the message socket and correlate_data are outside the
 * model: messages arrive as a sequence, the files of the recording are a
 * set of paths with the lengths of the timestamp files, and correlate_data
 * is a parameter. Notifications sent through notify_all are logged.
 */
module PupilProducers {
  import opened Wrappers
  import opened Decimal
  import opened PySeq
  import opened PyPath
  import opened Sorting
  import opened GazeData

  const SessionDataVersion: int := 1
  const NoEyeVideo: string := "No eye video found."
  const Detecting: string := "Detecting..."
  const Complete: string := "complete"
  const Unknown: string := "unknown"

  /** What the detectors send: a pupil datum, or the end of an eye video. */
  datatype Message = PupilMsg(datum: PupilDatum) | VideoFinished(sourcePath: string)

  datatype Note =
    | ShouldStart(eye: nat, sourcePath: string)
    | ShouldStop(eye: nat)
    | PupilPositionsChanged
    | Seek(frameIndex: int, sourcePath: string)
    | SetMode(mode: string)
    | ShouldPause(sourcePath: string)
    | ShouldPlay(sourcePath: string)

  /** The saved session: 'version' is absent (None) in what cleanup writes. */
  datatype Session = Session(version: Option<int>, detectionMethod: string, positions: seq<PupilDatum>, status: seq<string>)

  /** The files of the recording: which paths exist, and the length of each timestamps file. */
  datatype Disk = Disk(files: set<string>, timestampCounts: map<string, nat>)

  /** Everything the plugin reads but does not own. */
  datatype Env = Env(
    recDir: string,
    disk: Disk,
    worldTimestamps: seq<real>,
    correlate: (seq<PupilDatum>, seq<real>) -> seq<seq<PupilDatum>>)

  function Timestamp(d: PupilDatum): real { d.timestamp }

  // ---------------------------------------------------------------------
  // The positions dict, keyed by timestamp, in insertion order

  predicate DistinctTimes(ps: seq<PupilDatum>) {
    forall i, j :: 0 <= i < j < |ps| ==> ps[i].timestamp != ps[j].timestamp
  }

  function TimeSet(ps: seq<PupilDatum>): set<real> {
    set i | 0 <= i < |ps| :: ps[i].timestamp
  }

  /** positions[t], the datum stored under timestamp t. */
  function Find(ps: seq<PupilDatum>, t: real): (r: Option<PupilDatum>)
    ensures r.Some? ==> r.value in ps && r.value.timestamp == t
    ensures r.None? <==> t !in TimeSet(ps)
  {
    if ps == [] then None
    else if ps[0].timestamp == t then Some(ps[0])
    else
      assert TimeSet(ps) == {ps[0].timestamp} + TimeSet(ps[1..]) by {
        forall x | x in TimeSet(ps) ensures x in {ps[0].timestamp} + TimeSet(ps[1..]) {
          var i :| 0 <= i < |ps| && ps[i].timestamp == x;
          if i > 0 { assert ps[1..][i - 1].timestamp == x; }
        }
      }
      Find(ps[1..], t)
  }

  /** positions[d.timestamp] = d: an existing timestamp keeps its place, a new one goes last. */
  function Put(ps: seq<PupilDatum>, d: PupilDatum): (r: seq<PupilDatum>)
    ensures forall x :: x in r ==> x in ps || x == d
    ensures |r| == |ps| || |r| == |ps| + 1
  {
    if ps == [] then [d]
    else if ps[0].timestamp == d.timestamp then [d] + ps[1..]
    else [ps[0]] + Put(ps[1..], d)
  }

  /** After storing d, its timestamp finds d and every other timestamp finds what it found before. */
  lemma {:induction false} PutFacts(ps: seq<PupilDatum>, d: PupilDatum, t: real)
    ensures Find(Put(ps, d), t) == if t == d.timestamp then Some(d) else Find(ps, t)
  {
    if ps != [] && ps[0].timestamp != d.timestamp {
      PutFacts(ps[1..], d, t);
    }
  }

  /** The timestamps of a list with one datum in front. */
  lemma TimeSetCons(x: PupilDatum, ps: seq<PupilDatum>)
    ensures TimeSet([x] + ps) == {x.timestamp} + TimeSet(ps)
  {
    var r := [x] + ps;
    assert r[0] == x;
    forall t | t in TimeSet(r) ensures t in {x.timestamp} + TimeSet(ps) {
      var i :| 0 <= i < |r| && r[i].timestamp == t;
      if i > 0 { assert r[i] == ps[i - 1]; }
    }
    forall t | t in TimeSet(ps) ensures t in TimeSet(r) {
      var i :| 0 <= i < |ps| && ps[i].timestamp == t;
      assert r[i + 1] == ps[i];
    }
  }

  /** A datum in front keeps the timestamps distinct exactly when its own is new. */
  lemma DistinctCons(x: PupilDatum, ps: seq<PupilDatum>)
    ensures DistinctTimes([x] + ps) <==> DistinctTimes(ps) && x.timestamp !in TimeSet(ps)
  {
    var r := [x] + ps;
    assert forall i :: 0 <= i < |ps| ==> r[i + 1] == ps[i];
    if DistinctTimes(r) {
      forall i, j | 0 <= i < j < |ps| ensures ps[i].timestamp != ps[j].timestamp {
        assert r[i + 1].timestamp != r[j + 1].timestamp;
      }
      forall i | 0 <= i < |ps| ensures ps[i].timestamp != x.timestamp {
        assert r[0].timestamp != r[i + 1].timestamp;
      }
    }
    if DistinctTimes(ps) && x.timestamp !in TimeSet(ps) {
      forall i, j | 0 <= i < j < |r| ensures r[i].timestamp != r[j].timestamp {
        if i == 0 {
          assert r[j].timestamp == ps[j - 1].timestamp;
        } else {
          assert r[i] == ps[i - 1] && r[j] == ps[j - 1];
        }
      }
    }
  }

  /** Storing keeps the timestamps pairwise different. */
  lemma {:induction false} PutDistinct(ps: seq<PupilDatum>, d: PupilDatum)
    requires DistinctTimes(ps)
    ensures DistinctTimes(Put(ps, d)) && TimeSet(Put(ps, d)) == TimeSet(ps) + {d.timestamp}
  {
    if ps == [] {
      assert Put(ps, d) == [d] + [];
      TimeSetCons(d, []);
      DistinctCons(d, []);
    } else {
      assert ps == [ps[0]] + ps[1..];
      TimeSetCons(ps[0], ps[1..]);
      DistinctCons(ps[0], ps[1..]);
      if ps[0].timestamp == d.timestamp {
        TimeSetCons(d, ps[1..]);
        DistinctCons(d, ps[1..]);
      } else {
        var rest := Put(ps[1..], d);
        PutDistinct(ps[1..], d);
        TimeSetCons(ps[0], rest);
        DistinctCons(ps[0], rest);
      }
    }
  }

  /** {pp['timestamp']: pp for pp in list}: each datum stored in turn. */
  function Keyed(list: seq<PupilDatum>): (ps: seq<PupilDatum>)
    ensures forall x :: x in ps ==> x in list
  {
    if list == [] then [] else Put(Keyed(list[..|list| - 1]), list[|list| - 1])
  }

  /** The last datum of the list with timestamp t, which is the one the dict keeps. */
  function LastWith(list: seq<PupilDatum>, t: real): Option<PupilDatum> {
    if list == [] then None
    else if list[|list| - 1].timestamp == t then Some(list[|list| - 1])
    else LastWith(list[..|list| - 1], t)
  }

  /** A later datum with the same timestamp replaces the earlier one; the keys stay distinct. */
  lemma {:induction false} KeyedLastWins(list: seq<PupilDatum>, t: real)
    ensures Find(Keyed(list), t) == LastWith(list, t)
    ensures DistinctTimes(Keyed(list))
  {
    if list != [] {
      KeyedLastWins(list[..|list| - 1], t);
      PutFacts(Keyed(list[..|list| - 1]), list[|list| - 1], t);
      PutDistinct(Keyed(list[..|list| - 1]), list[|list| - 1]);
    }
  }

  /** A list whose timestamps are already distinct is stored as it is, in order. */
  lemma {:induction false} KeyedOfDistinct(list: seq<PupilDatum>)
    requires DistinctTimes(list)
    ensures Keyed(list) == list
  {
    if list != [] {
      var init := list[..|list| - 1];
      var last := list[|list| - 1];
      KeyedOfDistinct(init);
      PutAbsent(init, last);
      assert init + [last] == list;
    }
  }

  /** Storing a datum under a timestamp not yet present appends it. */
  lemma {:induction false} PutAbsent(ps: seq<PupilDatum>, d: PupilDatum)
    requires forall i :: 0 <= i < |ps| ==> ps[i].timestamp != d.timestamp
    ensures Put(ps, d) == ps + [d]
  {
    if ps != [] {
      PutAbsent(ps[1..], d);
      assert [ps[0]] + (ps[1..] + [d]) == ps + [d];
    }
  }

  /** The number of positions of one eye. */
  function Count(ps: seq<PupilDatum>, eye: int): nat {
    if ps == [] then 0 else Count(ps[..|ps| - 1], eye) + (if ps[|ps| - 1].id == eye then 1 else 0)
  }

  /** With every id 0 or 1, the two counts add up to the number of positions. */
  lemma {:induction false} CountsAddUp(ps: seq<PupilDatum>)
    requires forall i :: 0 <= i < |ps| ==> ps[i].id == 0 || ps[i].id == 1
    ensures Count(ps, 0) + Count(ps, 1) == |ps|
  {
    if ps != [] {
      CountsAddUp(ps[..|ps| - 1]);
    }
  }

  // ---------------------------------------------------------------------
  // The session file

  function DefaultSession(): Session {
    Session(None, "3d", [], [Unknown, Unknown])
  }

  /**
   * The session restored at start-up. The check asserts that the loaded
   * version differs from session_data_version, so a missing file and a
   * version-1 file both give the default session, and any other version,
   * including none, is taken as it is.
   */
  function Restored(loaded: Option<Session>): (s: Session)
    ensures loaded.None? || loaded.value.version == Some(SessionDataVersion) ==> s == DefaultSession()
    ensures loaded.Some? && loaded.value.version != Some(SessionDataVersion) ==> s == loaded.value
  {
    if loaded.None? || loaded.value.version == Some(SessionDataVersion) then DefaultSession() else loaded.value
  }

  // ---------------------------------------------------------------------
  // The plugin's state and its transitions

  datatype DetectorState = DetectorState(
    detectionMethod: string,
    positions: seq<PupilDatum>,
    status: seq<string>,
    locs: seq<Option<string>>,
    frameNums: seq<nat>,
    paused: bool,
    /** g_pool.pupil_positions, None until published. */
    published: Option<seq<PupilDatum>>,
    /** g_pool.pupil_positions_by_frame */
    byFrame: seq<seq<PupilDatum>>,
    notifications: seq<Note>)
  {
    predicate Valid() {
      |status| == 2 && |locs| == 2 && |frameNums| == 2 && DistinctTimes(positions)
    }
  }

  function EyeName(eye: nat): string {
    "eye" + NatToString(eye)
  }

  /** The eye videos looked for, in order of preference. */
  function VideoCandidates(recDir: string, eye: nat): seq<string> {
    [Join(recDir, EyeName(eye) + ".mjpeg"), Join(recDir, EyeName(eye) + ".mp4"), Join(recDir, EyeName(eye) + ".mkv")]
  }

  function Existing(paths: seq<string>, files: set<string>): (r: seq<string>)
    ensures forall p :: p in r <==> p in paths && p in files
  {
    if paths == [] then []
    else
      var init := Existing(paths[..|paths| - 1], files);
      assert paths == paths[..|paths| - 1] + [paths[|paths| - 1]];
      if paths[|paths| - 1] in files then init + [paths[|paths| - 1]] else init
  }

  function TimestampsPath(recDir: string, eye: nat): string {
    Join(recDir, EyeName(eye) + "_timestamps.npy")
  }

  /**
   * start_eye_process: without an eye video or without its timestamps the
   * eye's status reads "No eye video found." and nothing else changes;
   * otherwise the first video found is started, its frame count taken
   * from the timestamps, and the eye is detecting.
   */
  function StartEye(s: DetectorState, eye: nat, env: Env): (r: DetectorState)
    requires s.Valid() && eye < 2
    ensures r.Valid() && r.positions == s.positions && r.published == s.published
    ensures var videos := Existing(VideoCandidates(env.recDir, eye), env.disk.files);
            if videos == [] || TimestampsPath(env.recDir, eye) !in env.disk.timestampCounts then
              r == s.(status := s.status[eye := NoEyeVideo])
            else
              r.locs == s.locs[eye := Some(videos[0])] && r.status == s.status[eye := Detecting] &&
              r.frameNums == s.frameNums[eye := env.disk.timestampCounts[TimestampsPath(env.recDir, eye)]] &&
              r.notifications == s.notifications + [ShouldStart(eye, videos[0])]
  {
    var videos := Existing(VideoCandidates(env.recDir, eye), env.disk.files);
    var tsPath := TimestampsPath(env.recDir, eye);
    if videos == [] || tsPath !in env.disk.timestampCounts then s.(status := s.status[eye := NoEyeVideo])
    else
      s.(frameNums := s.frameNums[eye := env.disk.timestampCounts[tsPath]],
         notifications := s.notifications + [ShouldStart(eye, videos[0])],
         locs := s.locs[eye := Some(videos[0])],
         status := s.status[eye := Detecting])
  }

  /** stop_eye_process */
  function StopEye(s: DetectorState, eye: nat): (r: DetectorState)
    requires s.Valid() && eye < 2
    ensures r.Valid()
  {
    s.(notifications := s.notifications + [ShouldStop(eye)], locs := s.locs[eye := None])
  }

  /** correlate_publish: the positions sorted by timestamp, and by frame, then the change is announced. */
  function CorrelatePublish(s: DetectorState, env: Env): (r: DetectorState)
    requires s.Valid()
    ensures r.Valid()
  {
    s.(published := Some(SortBy(s.positions, Timestamp)),
       byFrame := env.correlate(s.positions, env.worldTimestamps),
       notifications := s.notifications + [PupilPositionsChanged])
  }

  /** What is published is sorted by timestamp and holds exactly the stored positions. */
  lemma PublishedSorted(s: DetectorState, env: Env)
    requires s.Valid()
    ensures var p := CorrelatePublish(s, env).published;
            p.Some? && SortedBy(p.value, Timestamp) && multiset(p.value) == multiset(s.positions)
  {
    SortByFacts(s.positions, Timestamp);
  }

  /**
   * One message: a pupil datum is stored under its timestamp; a finished
   * video whose path is eye 0's (else eye 1's) completes and stops that
   * eye, and once neither eye has a video the positions are published.
   */
  function HandleMessage(s: DetectorState, msg: Message, env: Env): (r: DetectorState)
    requires s.Valid()
    ensures r.Valid()
    ensures msg.PupilMsg? ==> r == s.(positions := Put(s.positions, msg.datum))
    ensures msg.VideoFinished? && s.locs[0] == Some(msg.sourcePath) ==>
              r.status == s.status[0 := Complete] && r.locs == s.locs[0 := None]
    ensures msg.VideoFinished? && s.locs[0] != Some(msg.sourcePath) && s.locs[1] == Some(msg.sourcePath) ==>
              r.status == s.status[1 := Complete] && r.locs == s.locs[1 := None]
    ensures msg.VideoFinished? && s.locs[0] != Some(msg.sourcePath) && s.locs[1] != Some(msg.sourcePath) ==>
              r.status == s.status && r.locs == s.locs
    ensures msg.VideoFinished? ==> r.positions == s.positions
    ensures msg.VideoFinished? && r.locs == [None, None] ==>
              r.published == Some(SortBy(s.positions, Timestamp)) &&
              |r.notifications| > 0 && r.notifications[|r.notifications| - 1] == PupilPositionsChanged
    ensures msg.VideoFinished? && r.locs != [None, None] ==> r.published == s.published
  {
    match msg
    case PupilMsg(d) =>
      PutDistinct(s.positions, d);
      s.(positions := Put(s.positions, d))
    case VideoFinished(path) =>
      var s1 :=
        if s.locs[0] == Some(path) then StopEye(s.(status := s.status[0 := Complete]), 0)
        else if s.locs[1] == Some(path) then StopEye(s.(status := s.status[1 := Complete]), 1)
        else s;
      if s1.locs == [None, None] then CorrelatePublish(s1, env) else s1
  }

  /** The messages handled in order of arrival. */
  function HandleMessages(s: DetectorState, msgs: seq<Message>, env: Env): (r: DetectorState)
    requires s.Valid()
    ensures r.Valid()
  {
    if msgs == [] then s else HandleMessage(HandleMessages(s, msgs[..|msgs| - 1], env), msgs[|msgs| - 1], env)
  }

  /** The progress indicator: positions stored per frame expected, 0 while no frame is expected. */
  function Progress(s: DetectorState): (p: real)
    requires s.Valid()
    ensures p >= 0.0
    ensures s.frameNums[0] + s.frameNums[1] == 0 ==> p == 0.0
    ensures s.frameNums[0] + s.frameNums[1] > 0 ==> p * (s.frameNums[0] + s.frameNums[1]) as real == |s.positions| as real
  {
    var total := s.frameNums[0] + s.frameNums[1];
    if total != 0 then |s.positions| as real / total as real else 0.0
  }

  /** One eye of redetect: an eye without a running video is started, a running one is sought back to frame 0. */
  function RedetectEye(s: DetectorState, eye: nat, env: Env): (r: DetectorState)
    requires s.Valid() && eye < 2
    ensures r.Valid() && r.positions == s.positions && r.byFrame == s.byFrame && r.paused == s.paused
  {
    match s.locs[eye]
    case None => StartEye(s, eye, env)
    case Some(loc) => s.(notifications := s.notifications + [Seek(0, loc)])
  }

  /** What the detection_paused setter tells one eye: a running video is asked to pause or to play. */
  function PauseNote(loc: Option<string>, shouldPause: bool): seq<Note> {
    match loc
    case None => []
    case Some(path) => [if shouldPause then ShouldPause(path) else ShouldPlay(path)]
  }

  /** The detection_paused setter: the flag takes the value and each eye's video is told, eye 0 first. */
  function SetPaused(s: DetectorState, shouldPause: bool): (r: DetectorState)
    requires s.Valid()
  {
    s.(paused := shouldPause, notifications := s.notifications + PauseNote(s.locs[0], shouldPause) + PauseNote(s.locs[1], shouldPause))
  }

  /**
   * The setter changes only the flag and the notifications. It sends one
   * note per running eye video, each a pause exactly when pausing, naming
   * that video; with no video running it sends nothing.
   */
  lemma SetPausedFacts(s: DetectorState, shouldPause: bool)
    requires s.Valid()
    ensures var r := SetPaused(s, shouldPause);
            var sent := r.notifications[|s.notifications|..];
            r.Valid() && r.paused == shouldPause && r.(paused := s.paused, notifications := s.notifications) == s &&
            r.notifications[..|s.notifications|] == s.notifications &&
            |sent| == (if s.locs[0].Some? then 1 else 0) + (if s.locs[1].Some? then 1 else 0) &&
            (forall n :: n in sent ==> (n.ShouldPause? <==> shouldPause) && (n.ShouldPause? || n.ShouldPlay?) &&
                                       Some(n.sourcePath) in s.locs) &&
            (s.locs == [None, None] ==> r == s.(paused := shouldPause))
  {
    var sent := SetPaused(s, shouldPause).notifications[|s.notifications|..];
    assert sent == PauseNote(s.locs[0], shouldPause) + PauseNote(s.locs[1], shouldPause);
  }

  /** redetect: every position is dropped, each world frame gets an empty list, detection is unpaused and both eyes restart. */
  function AfterRedetect(s: DetectorState, env: Env): (r: DetectorState)
    requires s.Valid()
    ensures r.Valid() && r.positions == [] && !r.paused
    ensures |r.byFrame| == |env.worldTimestamps| && forall i :: 0 <= i < |r.byFrame| ==> r.byFrame[i] == []
  {
    var cleared := SetPaused(s.(positions := [], byFrame := seq(|env.worldTimestamps|, _ => [])), false);
    RedetectEye(RedetectEye(cleared, 0, env), 1, env)
  }

  /** The state right after __init__ with `session` restored, before any eye is started. */
  function InitialState(session: Session): (s: DetectorState)
    requires |session.status| == 2
    ensures s.Valid()
  {
    KeyedLastWins(session.positions, 0.0);
    var ps := Keyed(session.positions);
    DetectorState(session.detectionMethod, ps, session.status, [None, None], [Count(ps, 0), Count(ps, 1)], false, None, [], [])
  }

  /** The eyes before `upTo` started unless complete, in order. */
  function StartIncompleteUpTo(s: DetectorState, upTo: nat, env: Env): (r: DetectorState)
    requires s.Valid() && upTo <= 2
    ensures r.Valid()
  {
    if upTo == 0 then s
    else
      var prev := StartIncompleteUpTo(s, upTo - 1, env);
      if prev.status[upTo - 1] != Complete then StartEye(prev, upTo - 1, env) else prev
  }

  /** __init__'s loop: every eye whose detection is not complete is started. */
  function StartIncomplete(s: DetectorState, env: Env): (r: DetectorState)
    requires s.Valid()
    ensures r.Valid()
  {
    StartIncompleteUpTo(s, 2, env)
  }

  /** The frames of each eye counted from the restored positions, one loop over them. */
  method CountFrames(ps: seq<PupilDatum>) returns (counts: seq<nat>)
    requires forall i :: 0 <= i < |ps| ==> ps[i].id == 0 || ps[i].id == 1
    ensures counts == [Count(ps, 0), Count(ps, 1)]
  {
    counts := [0, 0];
    var i := 0;
    while i < |ps|
      invariant i <= |ps| && counts == [Count(ps[..i], 0), Count(ps[..i], 1)]
    {
      assert ps[..i + 1][..i] == ps[..i];
      counts := counts[ps[i].id := counts[ps[i].id] + 1];
      i := i + 1;
    }
    assert ps[..|ps|] == ps;
  }

  /** The saved session a well-formed plugin can load: two statuses, and eye ids 0 and 1. */
  predicate Loadable(loaded: Option<Session>) {
    loaded.Some? ==> |loaded.value.status| == 2 &&
                     forall i :: 0 <= i < |loaded.value.positions| ==> loaded.value.positions[i].id in {0, 1}
  }

  /**
   * What cleanup writes is restored by the next start-up: it has no
   * version, so the check lets it through, and its positions are the
   * dict's values, which come back as the same dict.
   */
  lemma CleanupRestores(s: DetectorState)
    requires s.Valid()
    ensures var saved := Session(None, s.detectionMethod, s.positions, s.status);
            Restored(Some(saved)) == saved && Keyed(Restored(Some(saved)).positions) == s.positions
  {
    KeyedOfDistinct(s.positions);
  }

  /** A session file that carries the current version is thrown away. */
  lemma CurrentVersionDiscarded(method_: string, positions: seq<PupilDatum>, status: seq<string>)
    ensures Restored(Some(Session(Some(SessionDataVersion), method_, positions, status))) == DefaultSession()
    ensures Keyed(Restored(Some(Session(Some(SessionDataVersion), method_, positions, status))).positions) == []
  {
  }

  const TupleAssignmentError: string := "TypeError: 'tuple' object does not support item assignment"

  /**
   * The detection status __init__ ends up with, as written: load_object
   * unpacks arrays with use_list=False, so a status restored from the file
   * is a tuple, and starting an eye whose detection is not complete
   * assigns into it and raises. The default session's status is a list.
   */
  function InitStatusAsWritten(loaded: Option<Session>): (r: Result<seq<string>, string>)
    requires Loadable(loaded)
    ensures r.Err? <==> loaded.Some? && loaded.value.version != Some(SessionDataVersion) &&
                        exists eye :: 0 <= eye < 2 && loaded.value.status[eye] != Complete
    ensures r.Err? ==> r.error == TupleAssignmentError
    ensures r.Ok? ==> r.value == Restored(loaded).status
  {
    var fromFile := loaded.Some? && loaded.value.version != Some(SessionDataVersion);
    var session := Restored(loaded);
    if fromFile && (session.status[0] != Complete || session.status[1] != Complete) then
      Err(TupleAssignmentError)
    else
      Ok(session.status)
  }

  /**
   * As written, what cleanup writes while an eye is still being detected
   * makes the next start-up raise; only a session with both eyes complete
   * comes back. The model's constructor copies the status into a list, so
   * the restore of CleanupRestores goes through.
   */
  lemma CleanupThenInitAsWritten(s: DetectorState)
    requires s.Valid()
    requires forall i :: 0 <= i < |s.positions| ==> s.positions[i].id in {0, 1}
    ensures var saved := Some(Session(None, s.detectionMethod, s.positions, s.status));
            Loadable(saved) &&
            (InitStatusAsWritten(saved).Err? <==> s.status[0] != Complete || s.status[1] != Complete)
  {
  }

  class OfflinePupilDetection {
    const env: Env
    var detectionMethod: string
    var positions: seq<PupilDatum>
    var status: seq<string>
    var locs: seq<Option<string>>
    var frameNums: seq<nat>
    var paused: bool
    var published: Option<seq<PupilDatum>>
    var byFrame: seq<seq<PupilDatum>>
    var notifications: seq<Note>

    function State(): DetectorState
      reads this
    {
      DetectorState(detectionMethod, positions, status, locs, frameNums, paused, published, byFrame, notifications)
    }

    /**
     * __init__: the session is restored, the frames of each eye counted
     * from the restored positions, every eye not yet complete started, and
     * the positions published at once when no eye video runs.
     */
    constructor (loaded: Option<Session>, env: Env)
      requires Loadable(loaded)
      ensures this.env == env && State().Valid()
      ensures var s := StartIncomplete(InitialState(Restored(loaded)), env);
              State() == if s.locs == [None, None] then CorrelatePublish(s, env) else s
    {
      this.env := env;
      var session := Restored(loaded);
      detectionMethod := session.detectionMethod;
      var ps := Keyed(session.positions);
      KeyedLastWins(session.positions, 0.0);
      assert forall i :: 0 <= i < |ps| ==> ps[i] in session.positions;
      var counts := CountFrames(ps);
      positions := ps;
      status := session.status;
      locs := [None, None];
      paused := false;
      published := None;
      byFrame := [];
      notifications := [];
      frameNums := counts;
      new;
      ghost var before := State();
      assert PauseNote(None, false) == [];
      SetDetectionPaused(false);
      assert State() == before;
      StartIncompleteEyes();
      if locs == [None, None] {
        Publish();
      }
    }

    /** The loop over both eyes that starts every eye not yet complete. */
    method StartIncompleteEyes()
      requires State().Valid()
      modifies this`frameNums, this`notifications, this`locs, this`status
      ensures State() == StartIncomplete(old(State()), env)
    {
      for eye := 0 to 2
        invariant State().Valid()
        invariant State() == StartIncompleteUpTo(old(State()), eye, env)
      {
        if status[eye] != Complete {
          StartEyeProcess(eye);
        }
      }
    }

    /** start_eye_process */
    method StartEyeProcess(eye: nat)
      requires State().Valid() && eye < 2
      modifies this`frameNums, this`notifications, this`locs, this`status
      ensures State() == StartEye(old(State()), eye, env)
    {
      var videos := Existing(VideoCandidates(env.recDir, eye), env.disk.files);
      var tsPath := TimestampsPath(env.recDir, eye);
      if videos == [] || tsPath !in env.disk.timestampCounts {
        status := status[eye := NoEyeVideo];
        return;
      }
      frameNums := frameNums[eye := env.disk.timestampCounts[tsPath]];
      notifications := notifications + [ShouldStart(eye, videos[0])];
      locs := locs[eye := Some(videos[0])];
      status := status[eye := Detecting];
    }

    /** The detection_paused setter. */
    method SetDetectionPaused(shouldPause: bool)
      requires State().Valid()
      modifies this`paused, this`notifications
      ensures State() == SetPaused(old(State()), shouldPause)
    {
      paused := shouldPause;
      for eye := 0 to 2
        invariant paused == shouldPause
        invariant notifications == old(notifications) + (if eye >= 1 then PauseNote(locs[0], shouldPause) else []) +
                                   (if eye >= 2 then PauseNote(locs[1], shouldPause) else [])
      {
        if locs[eye].Some? {
          var subject := if shouldPause then ShouldPause(locs[eye].value) else ShouldPlay(locs[eye].value);
          notifications := notifications + [subject];
        }
      }
      assert notifications == old(notifications) + PauseNote(locs[0], shouldPause) + PauseNote(locs[1], shouldPause);
    }

    /** stop_eye_process */
    method StopEyeProcess(eye: nat)
      requires State().Valid() && eye < 2
      modifies this`notifications, this`locs
      ensures State() == StopEye(old(State()), eye)
    {
      notifications := notifications + [ShouldStop(eye)];
      locs := locs[eye := None];
    }

    /** correlate_publish */
    method Publish()
      requires State().Valid()
      modifies this`published, this`byFrame, this`notifications
      ensures State() == CorrelatePublish(old(State()), env)
    {
      published := Some(SortBy(positions, Timestamp));
      byFrame := env.correlate(positions, env.worldTimestamps);
      notifications := notifications + [PupilPositionsChanged];
    }

    /**
     * recent_events: the positions of the current world frame, if there is
     * one (a Python list index into the per-frame lists); then every
     * waiting message in order; then the progress indicator.
     */
    method RecentEvents(frameIndex: Option<int>, msgs: seq<Message>)
      returns (framePositions: Option<Result<seq<PupilDatum>, string>>, progress: real)
      requires State().Valid()
      modifies this
      ensures frameIndex.None? ==> framePositions.None?
      ensures frameIndex.Some? ==> framePositions == Some(PyIndex(old(byFrame), frameIndex.value))
      ensures State() == HandleMessages(old(State()), msgs, env) && State().Valid()
      ensures progress == Progress(State())
    {
      framePositions := if frameIndex.Some? then Some(PyIndex(byFrame, frameIndex.value)) else None;
      var i := 0;
      while i < |msgs|
        invariant i <= |msgs| && State() == HandleMessages(old(State()), msgs[..i], env) && State().Valid()
      {
        assert msgs[..i + 1][..i] == msgs[..i];
        HandleOne(msgs[i]);
        i := i + 1;
      }
      assert msgs[..|msgs|] == msgs;
      progress := Progress(State());
    }

    method HandleOne(msg: Message)
      requires State().Valid()
      modifies this
      ensures State() == HandleMessage(old(State()), msg, env)
    {
      match msg {
        case PupilMsg(d) =>
          PutDistinct(positions, d);
          positions := Put(positions, d);
        case VideoFinished(path) =>
          if locs[0] == Some(path) {
            status := status[0 := Complete];
            StopEyeProcess(0);
          } else if locs[1] == Some(path) {
            status := status[1 := Complete];
            StopEyeProcess(1);
          }
          if locs == [None, None] {
            Publish();
          }
      }
    }

    /** redetect */
    method Redetect()
      requires State().Valid()
      modifies this
      ensures State() == AfterRedetect(old(State()), env)
    {
      positions := [];
      byFrame := seq(|env.worldTimestamps|, _ => []);
      SetDetectionPaused(false);
      for eye := 0 to 2
        invariant State().Valid()
        invariant var cleared := SetPaused(old(State()).(positions := [], byFrame := seq(|env.worldTimestamps|, _ => [])), false);
                  State() == (if eye == 0 then cleared else if eye == 1 then RedetectEye(cleared, 0, env)
                              else RedetectEye(RedetectEye(cleared, 0, env), 1, env))
      {
        if locs[eye].None? {
          StartEyeProcess(eye);
        } else {
          notifications := notifications + [Seek(0, locs[eye].value)];
        }
      }
    }

    /**
     * on_notify: a started eye process re-applies the detection method,
     * which announces the mode and redetects; a stopped one forgets its
     * video.
     */
    method OnEyeProcessStarted()
      requires State().Valid()
      modifies this
      ensures var m := old(detectionMethod);
              State() == AfterRedetect(old(State()).(notifications := old(notifications) + [SetMode(m)]), env).(detectionMethod := m)
    {
      var mode := detectionMethod;
      notifications := notifications + [SetMode(mode)];
      Redetect();
      detectionMethod := mode;
    }

    method OnEyeProcessStopped(eye: nat)
      requires State().Valid() && eye < 2
      modifies this`locs
      ensures State() == old(State()).(locs := old(locs)[eye := None])
    {
      locs := locs[eye := None];
    }

    /** cleanup: both eye processes are stopped and the session is saved, without a version. */
    method Cleanup() returns (saved: Session)
      requires State().Valid()
      modifies this`notifications, this`locs
      ensures State() == StopEye(StopEye(old(State()), 0), 1)
      ensures saved == Session(None, detectionMethod, positions, status)
    {
      StopEyeProcess(0);
      StopEyeProcess(1);
      saved := Session(None, detectionMethod, positions, status);
    }
  }
}
