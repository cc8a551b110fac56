/**
 * ScanPathController: it keeps the scan-path gaze of the recording up to
 * date through a preprocessing task followed by a background task, reports
 * their progress in a status string, and answers, per world frame, with the
 * recent gaze of that frame.
 *
 * The two tasks and the gaze store are collaborators outside this model:
 * each task is its activity and progress; cancel() clears the activity and
 * leaves the last progress, start() makes the task active at progress 0, and
 * the commands given to them are logged; the store is its gaze rows with a
 * valid and a complete flag.
 */
module ScanPath {
  import opened Wrappers
  import opened Decimal

  const MinTimeframe: real := 0.0
  const MaxTimeframe: real := 5.0

  /** The weight of the background task in the combined progress. */
  const BackgroundRatio: real := 0.85

  const RecalculateSubject: string := "scan_path.should_recalculate"
  const LoadFromDiskSubject: string := "scan_path.should_load_from_disk"
  const GazePositionsChanged: string := "gaze_positions_changed"

  /** One row of scan-path gaze: the world frame it belongs to and its time. */
  datatype GazeRow = GazeRow(frameIndex: int, timestamp: real)

  datatype Frame = Frame(index: int, timestamp: real)

  datatype TaskState = TaskState(active: bool, progress: real)

  datatype Store = Store(valid: bool, complete: bool, data: seq<GazeRow>)

  /** What the controller asks of its tasks. */
  datatype Command =
    | CancelPreprocessing
    | CancelBackground
    | StartPreprocessing
    | StartBackground(maxTimeframe: real, data: seq<GazeRow>)

  /** A delayed notification sent through notify_all. */
  datatype Notification = Notification(subject: string, delay: real)

  /** is_active */
  function Active(preproc: TaskState, bg: TaskState): bool {
    preproc.active || bg.active
  }

  /** progress: the weighted mean of the two tasks' progress while one is active, 0 when idle. */
  function Progress(preproc: TaskState, bg: TaskState): (p: real)
    ensures !Active(preproc, bg) ==> p == 0.0
  {
    if Active(preproc, bg) then (1.0 - BackgroundRatio) * preproc.progress + BackgroundRatio * bg.progress
    else 0.0
  }

  /** With both tasks' progress in [0, 1], so is the combined progress; it is 1 when both are done. */
  lemma ProgressBounds(preproc: TaskState, bg: TaskState)
    requires 0.0 <= preproc.progress <= 1.0 && 0.0 <= bg.progress <= 1.0
    ensures 0.0 <= Progress(preproc, bg) <= 1.0
    ensures Active(preproc, bg) && preproc.progress == 1.0 && bg.progress == 1.0 ==> Progress(preproc, bg) == 1.0
    ensures Active(preproc, bg) && preproc.progress == 0.0 && bg.progress == 0.0 ==> Progress(preproc, bg) == 0.0
  {
  }

  /** Python's int() of a float: truncation toward zero. */
  function Trunc(x: real): (i: int)
    ensures x >= 0.0 ==> i as real <= x < i as real + 1.0
    ensures x < 0.0 ==> i as real - 1.0 < x <= i as real
  {
    if x >= 0.0 then x.Floor else -((-x).Floor)
  }

  /** "<stage> <percent>%...", the percentage truncated. */
  function PercentStatus(stage: string, progress: real): string {
    stage + " " + IntToString(Trunc(progress * 100.0)) + "%..."
  }

  /** The frame filter: rows of the frame newer than the cutoff, in stored order. */
  function RowsOfFrame(data: seq<GazeRow>, index: int, cutoff: real): (r: seq<GazeRow>)
    ensures |r| <= |data|
    ensures forall g :: g in r <==> g in data && g.frameIndex == index && g.timestamp > cutoff
  {
    if data == [] then []
    else
      var init := RowsOfFrame(data[..|data| - 1], index, cutoff);
      var last := data[|data| - 1];
      assert data == data[..|data| - 1] + [last];
      if last.frameIndex == index && last.timestamp > cutoff then init + [last] else init
  }

  /** Filtering keeps each matching row exactly as often as it is stored, and no other row. */
  lemma {:induction false} RowsOfFrameOrder(data: seq<GazeRow>, index: int, cutoff: real)
    ensures forall g :: multiset(RowsOfFrame(data, index, cutoff))[g] ==
                          if g.frameIndex == index && g.timestamp > cutoff then multiset(data)[g] else 0
  {
    if data != [] {
      var init, last := data[..|data| - 1], data[|data| - 1];
      RowsOfFrameOrder(init, index, cutoff);
      assert data == init + [last];
      assert multiset(data) == multiset(init) + multiset{last};
    }
  }

  class ScanPathController {
    var timeframe: real
    var status: string
    var preproc: TaskState
    var bg: TaskState
    var store: Store
    /** Every command given to the two tasks, oldest first. */
    var commands: seq<Command>
    /** Every notification sent, oldest first. */
    var notifications: seq<Notification>

    /**
     * The timeframe defaults to its minimum and must lie within
     * [MinTimeframe, MaxTimeframe]; loading from disk is requested with a
     * delay of 0.5 s.
     */
    constructor (timeframe: Option<real>, store: Store)
      requires timeframe.Some? ==> MinTimeframe <= timeframe.value <= MaxTimeframe
      ensures this.timeframe == timeframe.GetOr(MinTimeframe)
      ensures MinTimeframe <= this.timeframe <= MaxTimeframe
      ensures status == "" && this.store == store && commands == []
      ensures !preproc.active && !bg.active
      ensures notifications == [Notification(LoadFromDiskSubject, 0.5)]
    {
      this.timeframe := timeframe.GetOr(MinTimeframe);
      status := "";
      preproc := TaskState(false, 0.0);
      bg := TaskState(false, 0.0);
      this.store := store;
      commands := [];
      notifications := [Notification(LoadFromDiskSubject, 0.5)];
    }

    function IsActive(): bool
      reads this
    {
      Active(preproc, bg)
    }

    /** _trigger_immediate_scan_path_calculation: cancel both tasks, then start preprocessing. */
    method TriggerImmediateCalculation()
      modifies this`preproc, this`bg, this`commands
      ensures commands == old(commands) + [CancelPreprocessing, CancelBackground, StartPreprocessing]
      ensures preproc == TaskState(true, 0.0) && !bg.active && bg.progress == old(bg.progress)
    {
      commands := commands + [CancelPreprocessing, CancelBackground, StartPreprocessing];
      bg := bg.(active := false);
      preproc := TaskState(true, 0.0);
    }

    /**
     * scan_path_gaze_for_frame: no gaze at all with a zero timeframe; None
     * while the store is invalid or incomplete, a recalculation being
     * started then only if none is running; otherwise the rows of the
     * frame newer than its timestamp less the timeframe.
     */
    method GazeForFrame(frame: Frame) returns (r: Option<seq<GazeRow>>)
      modifies this`preproc, this`bg, this`commands
      ensures timeframe == 0.0 ==>
                r == Some([]) && commands == old(commands) && preproc == old(preproc) && bg == old(bg)
      ensures timeframe != 0.0 && !(store.valid && store.complete) ==>
                r.None? &&
                (old(IsActive()) ==> commands == old(commands) && preproc == old(preproc) && bg == old(bg)) &&
                (!old(IsActive()) ==>
                   commands == old(commands) + [CancelPreprocessing, CancelBackground, StartPreprocessing] &&
                   preproc == TaskState(true, 0.0) && !bg.active && bg.progress == old(bg.progress))
      ensures timeframe != 0.0 && store.valid && store.complete ==>
                r == Some(RowsOfFrame(store.data, frame.index, frame.timestamp - timeframe)) &&
                commands == old(commands) && preproc == old(preproc) && bg == old(bg)
    {
      if timeframe == 0.0 {
        return Some([]);
      }
      if !store.valid || !store.complete {
        if !IsActive() {
          TriggerImmediateCalculation();
        }
        return None;
      }
      r := Some(RowsOfFrame(store.data, frame.index, frame.timestamp - timeframe));
    }

    /**
     * on_notify: a recalculation request recalculates at once, a load
     * request replaces the store by what is on disk (`onDisk`), and changed
     * gaze positions invalidate the store; other subjects are ignored.
     */
    method OnNotify(subject: string, onDisk: Store)
      modifies this`preproc, this`bg, this`commands, this`store
      ensures subject == RecalculateSubject ==>
                commands == old(commands) + [CancelPreprocessing, CancelBackground, StartPreprocessing] &&
                store == old(store) &&
                preproc == TaskState(true, 0.0) && !bg.active && bg.progress == old(bg.progress)
      ensures subject == LoadFromDiskSubject ==>
                store == onDisk && commands == old(commands) && preproc == old(preproc) && bg == old(bg)
      ensures subject == GazePositionsChanged ==>
                store == old(store).(valid := false) && commands == old(commands) && preproc == old(preproc) && bg == old(bg)
      ensures subject !in {RecalculateSubject, LoadFromDiskSubject, GazePositionsChanged} ==>
                store == old(store) && commands == old(commands) && preproc == old(preproc) && bg == old(bg)
    {
      if subject == RecalculateSubject {
        TriggerImmediateCalculation();
      } else if subject == LoadFromDiskSubject {
        store := onDisk;
      } else if subject == GazePositionsChanged {
        store := store.(valid := false);
      }
    }

    method OnPreprocStarted()
      modifies this`status
      ensures status == "Preprocessing started..."
    {
      status := "Preprocessing started...";
    }

    method OnPreprocUpdated()
      modifies this`status
      ensures status == PercentStatus("Preprocessing", preproc.progress)
    {
      status := PercentStatus("Preprocessing", preproc.progress);
    }

    method OnPreprocFailed()
      modifies this`status
      ensures status == "Preprocessing failed"
    {
      status := "Preprocessing failed";
    }

    /**
     * The preprocessing task's on_canceled event: both observers registered
     * for it run in order, its own and the one meant for the background
     * task, so the status ends as "Calculation canceled".
     */
    method PreprocCanceled()
      modifies this`status
      ensures status == "Calculation canceled"
    {
      status := "Preprocessing canceled";
      status := "Calculation canceled";
    }

    /** The background task's on_canceled event has no observer: nothing changes. */
    method BackgroundCanceled()
      ensures status == old(status)
    {
    }

    /** Completed preprocessing starts the background task with the maximum timeframe, whatever the current one. */
    method OnPreprocCompleted(data: seq<GazeRow>)
      modifies this`status, this`bg, this`commands
      ensures status == "Preprocessing completed"
      ensures commands == old(commands) + [StartBackground(MaxTimeframe, data)]
      ensures bg == TaskState(true, 0.0)
    {
      status := "Preprocessing completed";
      commands := commands + [StartBackground(MaxTimeframe, data)];
      bg := TaskState(true, 0.0);
    }

    method OnBackgroundStarted()
      modifies this`status
      ensures status == "Calculation started..."
    {
      status := "Calculation started...";
    }

    method OnBackgroundUpdated()
      modifies this`status
      ensures status == PercentStatus("Calculation", bg.progress)
    {
      status := PercentStatus("Calculation", bg.progress);
    }

    method OnBackgroundFailed()
      modifies this`status
      ensures status == "Calculation failed"
    {
      status := "Calculation failed";
    }

    /** The computed gaze goes into the store, which is then complete (and, holding data, valid). */
    method OnBackgroundCompleted(data: seq<GazeRow>)
      modifies this`status, this`store
      ensures store == Store(true, true, data)
      ensures status == "Calculation completed"
    {
      store := Store(true, true, data);
      status := "Calculation completed";
    }
  }

  /**
   * Once the background task has completed, a frame query with a non-zero
   * timeframe answers with exactly the recent rows of that frame and starts
   * nothing.
   */
  method QueryAfterCompletion(c: ScanPathController, data: seq<GazeRow>, frame: Frame)
    returns (r: Option<seq<GazeRow>>)
    requires c.timeframe != 0.0
    modifies c
    ensures r.Some? && forall g :: g in r.value <==> g in data && g.frameIndex == frame.index && g.timestamp > frame.timestamp - c.timeframe
    ensures c.commands == old(c.commands)
  {
    c.OnBackgroundCompleted(data);
    r := c.GazeForFrame(frame);
  }

  /** After gaze positions change, the next query answers None and, with both tasks idle, restarts the calculation. */
  method QueryAfterGazeChange(c: ScanPathController, frame: Frame, onDisk: Store) returns (r: Option<seq<GazeRow>>)
    requires c.timeframe != 0.0 && !c.IsActive()
    modifies c
    ensures r.None?
    ensures c.commands == old(c.commands) + [CancelPreprocessing, CancelBackground, StartPreprocessing]
  {
    c.OnNotify(GazePositionsChanged, onDisk);
    r := c.GazeForFrame(frame);
  }
}
