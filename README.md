# Offline gaze calibration sections and their neighbours, in Dafny

This project models the offline side of Pupil Player, the player of the Pupil
eye-tracking platform, and proves properties of that model. One Dafny module
stands for each source file:

- `LegacySections` (`legacy_sections.dfy`) models the dict-cached calibration
  `Section` of `gaze_sections.py`. It covers generated labels, the cache dict,
  the frame-range slicing of the pupil data and the reference points, the
  fail-fast checks of `calibrate`, and the 3d-to-2d downgrade. It also covers
  the result streams of `calibrate_in_background` and `map_in_background`, and
  the draining of a background task's results into the section.
- `GazeProducers` (`gaze_producers.dfy`) models `Gaze_From_Recording` and
  `Offline_Calibration`. It covers the offset correction, the versioned session
  cache, the timestamp-sorted merge of every section's gaze, and manual
  reference editing and navigation. It also covers the circle-marker detector
  messages and `append_section`.
- `PluginSections` (`plugin_sections.dfy`) models the plugin-style generation
  under `gaze_sections/`: `Base_Section`, `Calibration_Section`,
  `Mapping_Section`, `Validation_Section` and `Section_List`.
- `DeprecatedSections` (`deprecated_sections.dfy`) models `deprecated.py`. Its `map_in_background` (lines 36-56) is the same generator as the legacy one, so `LegacySections.MapInBackground` models both.
- `SeekControl`, `Constraints`, `TokenManagers`, `FileMethods`,
  `BlinkDetection`, `ScanPath`, `PupilProducers` and `SurfaceMarkers` model the
  smaller cores. These are trim marks, clamped values, the token state machine,
  immutable records, the blink history window, the scan-path controller, offline
  pupil detection and the surface marker detectors.
- `Wrappers`, `Decimal`, `PySeq`, `PyPath`, `Sorting` and `GazeData` hold what
  the others share. They give Python's slicing, `int()` parsing, `str.split`,
  `" ".join`, `os.path.join`, the stable `sorted`, and the data records and
  background tasks.

Each object whose fields the source updates in place is a class. Each class
also has a view of its state as a datatype. Each method is proved to move that
view exactly as a pure transition function does. The properties are lemmas about
those functions. Background tasks (`Task_Proxy`) are values that hold the full
result list the generator would produce. `fetch` hands over as many results as
messages are waiting. The fit of a calibration, the gaze mapper,
`correlate_data`, the image detectors and the FFT are function parameters.

The model follows the code where the code has quirks:

- a generated label in the plugin generation tests each candidate against one
  shared, one-shot generator over the existing labels, so it can return a label
  already in use (`GeneratorLabelDuplicates`);
- a `Section_List` holds at most one section per class and keeps them sorted
  by class order, and its generated labels are checked against the gaze
  manager's sections rather than the list being built;
- the inverted session-version check of `pupil_producers.py`;
- `next(colors)` on a dict in `deprecated.py`;
- the scan-path cancel observer that sits on the preprocessing task;
- offsets baked into the gaze at mapping time.

## Model

| member | source | states |
|---|---|---|
| LegacySections.SectionLabel | pupil_src/shared_modules/gaze_sections.py:99 | A generated label is 'Unnamed section ' followed by the counter. |
| LegacySections.LabelNumberOfSectionLabel | pupil_src/shared_modules/gaze_sections.py:99 | The counter can be read back from a generated label, so different counters give different labels. |
| LegacySections.MakeSectionLabel | pupil_src/shared_modules/gaze_sections.py:96-103 | The loop returns the generated label with the least counter from 1 up that no existing label has: every smaller counter is taken. |
| LegacySections.CycleColor | pupil_src/shared_modules/gaze_sections.py:34-39 | Every colour the cycle hands out is one of the six palette colours. |
| LegacySections.ConstructCache | pupil_src/shared_modules/gaze_sections.py:106-119 | A new cache has the given label and ranges, type 'Create calibration', no calibration, mode 3d, method circle_marker, status 'Not mapped', the next colour of the cycle, error display on, outlier threshold 5 and zero offsets. |
| LegacySections.PupilInRange | pupil_src/shared_modules/gaze_sections.py:270-271 | The calibration and mapping data are the pupil data of frames lo to hi-1, because the slice is half-open. The result is empty iff all those frames are empty. |
| LegacySections.RefsInRange | pupil_src/shared_modules/gaze_sections.py:278-280 | A reference point is kept iff start <= index <= end; this filter is inclusive. No point is added. |
| LegacySections.DowngradedMode | pupil_src/shared_modules/gaze_sections.py:292-295 | The mode only ever changes from 3d to 2d. It does so exactly when the median calibration datum's method names 2d. |
| LegacySections.DowngradeIdempotent | pupil_src/shared_modules/gaze_sections.py:292-295 | Running the downgrade check twice gives the same mode as running it once. |
| LegacySections.ProgressPercentFacts | pupil_src/shared_modules/gaze_sections.py:89-90 | The progress is the integer part of 100*(idx+1)/n. It is at most 100, and it is 100 exactly for the last datum. |
| LegacySections.PercentBounds | pupil_src/shared_modules/gaze_sections.py:89 | The integer progress lies in 0..100 and reaches 100 only at the last index. |
| LegacySections.ProgressMonotone | pupil_src/shared_modules/gaze_sections.py:89-90 | Progress never goes back along the mapped data. |
| LegacySections.CorrectedAll | pupil_src/shared_modules/gaze_sections.py:80-86 | Each mapped gaze datum gets the x and y offsets added to its norm_pos and the section's label. The count is kept. |
| LegacySections.MappingGazeAppend | pupil_src/shared_modules/gaze_sections.py:321-322 | The gaze collected from a run of results is the gaze of the first part followed by that of the second. |
| LegacySections.BatchesShape | pupil_src/shared_modules/gaze_sections.py:76-91 | Exactly one batch is yielded per datum whose mapped gaze is non-empty, in data order. Each batch carries that datum's progress text and its corrected gaze. |
| LegacySections.BatchesGaze | pupil_src/shared_modules/gaze_sections.py:76-91 | All gaze in the batches is the mapper's output for the data, in order, with the correction applied. |
| LegacySections.StreamEnd | pupil_src/shared_modules/gaze_sections.py:88-93 | A mapping stream ends with exactly one ('mapping', 'Mapping complete.', []). Every earlier result is a non-empty mapping batch. |
| LegacySections.StreamProgress | pupil_src/shared_modules/gaze_sections.py:88-91 | The progress texts of the batches stay within 0..100 and never decrease. |
| LegacySections.MapInBackground | pupil_src/shared_modules/gaze_sections.py:73-93 | The loop over the data yields exactly the specified mapping stream. |
| LegacySections.CalibrateStreamShape | pupil_src/shared_modules/gaze_sections.py:60-70 | 'Calibrating...' comes first. A failed fit gives exactly one more result, 'Calibration failed!'. A successful fit gives the mapper and then the whole mapping stream. |
| LegacySections.CalibrateInBackground | pupil_src/shared_modules/gaze_sections.py:60-70 | The generator yields exactly the specified calibration stream. |
| LegacySections.CalibrationPathInjective | pupil_src/shared_modules/gaze_sections.py:324-328 | Different relative labels name different calibration files. |
| LegacySections.RenameFile | pupil_src/shared_modules/gaze_sections.py:335-341 | A missing file is left alone, because FileNotFoundError is ignored. Otherwise the content moves to the new path and no other path changes. |
| LegacySections.HandleAllEffect | pupil_src/shared_modules/gaze_sections.py:316-322 | After handling results the status is the last result's status. The gaze buffer grows by every mapping batch in order. The calibration is the last mapper received, stamped with version 1 and saved. |
| LegacySections.StreamGaze | pupil_src/shared_modules/gaze_sections.py:73-93 | The gaze a mapping stream hands over is the mapper's output with the correction applied. |
| LegacySections.HeadFacts | pupil_src/shared_modules/gaze_sections.py:61-65 | The results before the mapping run carry no gaze, and their last mapper is the fitted one. |
| LegacySections.DrainSuccess | pupil_src/shared_modules/gaze_sections.py:307-322 | Draining a successful calibration stream leaves 'Mapping complete.' as status, the saved and stamped mapper, and all corrected gaze. |
| LegacySections.FullStreamGaze | pupil_src/shared_modules/gaze_sections.py:60-70 | Draining the whole stream of a successful calibration leaves exactly the corrected mapper output in the section. |
| LegacySections.LastMapperOfStream | pupil_src/shared_modules/gaze_sections.py:318-322 | Mapping results never change which mapper was received last. |
| LegacySections.PlanCalibration | pupil_src/shared_modules/gaze_sections.py:273-295 | calibrate checks in the source's order. An unknown method fails, since the reference list is never bound. Then come no pupil data and no reference data. Otherwise the calibration starts with the downgraded mode. |
| LegacySections.AfterCalibrateFacts | pupil_src/shared_modules/gaze_sections.py:263-305 | The held task is cancelled first, and the gaze buffer is reset before any check. Calibrate raises iff the method is unknown. A failed check leaves its message and starts no task. Otherwise a fresh task named after the section is started. |
| LegacySections.AfterCalibrateOf | pupil_src/shared_modules/gaze_sections.py:263-305 | calibrate's outcome is the state the plan's branch builds, and it raises exactly for the unknown method. |
| LegacySections.AfterRecentEventsFacts | pupil_src/shared_modules/gaze_sections.py:307-314 | Without a task nothing changes. Otherwise the fetched results are handled in order, their mapping gaze is appended, and a completed task is dropped and makes the parent publish. |
| LegacySections.HandleAllPrefix | pupil_src/shared_modules/gaze_sections.py:309-310 | Handling one more fetched result is handle_task_result applied to the state after the earlier ones. |
| LegacySections.ValidatedLabelKeepsDistinct | pupil_src/shared_modules/gaze_sections.py:217-225 | Renaming one section through validate_label keeps all labels pairwise different. The label changes iff the new one is not taken. |
| LegacySections.Section.constructor | pupil_src/shared_modules/gaze_sections.py:125-133 | The section takes the given cache or else a new one. It has no task, no calibration, no gaze, and 'Not available' accuracy and precision. |
| LegacySections.Section.Calibrate | pupil_src/shared_modules/gaze_sections.py:263-305 | calibrate moves the section's state exactly as AfterCalibrate says. |
| LegacySections.Section.CheckAndStart | pupil_src/shared_modules/gaze_sections.py:270-305 | After the reset, the checks run in order. Only the no-data checks leave their message, only a started calibration changes the mapping mode and the task, and an unknown method raises. |
| LegacySections.Section.HandleTaskResult | pupil_src/shared_modules/gaze_sections.py:316-322 | One result sets the status, and it keeps and saves a mapper or extends the gaze buffer. |
| LegacySections.Section.SaveCalibration | pupil_src/shared_modules/gaze_sections.py:330-333 | The mapper gets version 1 and is written at the section's calibration path. Nothing else changes. |
| LegacySections.Section.RecentEvents | pupil_src/shared_modules/gaze_sections.py:307-314 | recent_events moves the state exactly as AfterRecentEvents says. |
| LegacySections.Section.HandleEach | pupil_src/shared_modules/gaze_sections.py:309-310 | The loop handles the fetched results exactly as HandleAll says, and the task is left alone. |
| LegacySections.Section.CancelTask | pupil_src/shared_modules/gaze_producers.py:414-416 | A held task is cancelled and stays in place. Nothing else in the section changes. |
| LegacySections.Section.ValidateLabel | pupil_src/shared_modules/gaze_sections.py:217-225 | The same label does nothing, and a label another section has is refused. Otherwise the calibration file follows the rename and the label changes. |
| GazeData.Mapper.Stamped | pupil_src/shared_modules/gaze_sections.py:332 | Stamping keeps the fit and sets the version. |
| GazeData.SetupFakePool | pupil_src/shared_modules/gaze_sections.py:46-57 | The stand-in g_pool carries the frame size, intrinsics, mapping mode, recording directory and minimum confidence, with app 'player'. |
| GazeData.Task.Fetch | pupil_src/shared_modules/gaze_sections.py:308-312 | fetch hands over at most as many results as messages wait, in order. A background task completes once its end marker is read. A completed or cancelled task hands over nothing. |
| GazeData.Task.Cancel | pupil_src/shared_modules/gaze_sections.py:264-265 | A running task stops and its unread results are dropped. |
| GazeData.StartTask | pupil_src/shared_modules/gaze_sections.py:305 | A new task has all the generator's results pending. |
| GazeData.CancelHeld | pupil_src/shared_modules/gaze_sections.py:264-265 | `if task: task.cancel()` keeps the held background task in place and cancels it. |
| GazeData.CalibrationStore.constructor | pupil_src/shared_modules/gaze_sections.py:324-333 | The store of calibration files starts from the given files. |
| GazeProducers.Shifted | pupil_src/shared_modules/gaze_producers.py:85-89 | Every recorded gaze datum gets the current offsets added to its norm_pos. |
| GazeProducers.ShiftedCompose | pupil_src/shared_modules/gaze_producers.py:85-89 | Shifting twice is shifting once by the summed offsets, and a shift is undone by its negation. |
| GazeProducers.GazeFromRecording.constructor | pupil_src/shared_modules/gaze_producers.py:73-83 | A missing correction file gives offsets (0, 0). The data is loaded with the offsets, and that is announced. |
| GazeProducers.GazeFromRecording.LoadDataWithOffset | pupil_src/shared_modules/gaze_producers.py:85-92 | The gaze is a fresh copy of the recorded data shifted by the current offsets, so offsets never pile up. |
| GazeProducers.GazeFromRecording.SetOffsetX | pupil_src/shared_modules/gaze_producers.py:94-96 | The x offset is set and an offset change is announced. |
| GazeProducers.GazeFromRecording.SetOffsetY | pupil_src/shared_modules/gaze_producers.py:98-100 | The y offset is set and an offset change is announced. |
| GazeProducers.GazeFromRecording.OnNotify | pupil_src/shared_modules/gaze_producers.py:102-104 | An offset change reloads the shifted data. Other subjects change nothing. |
| GazeProducers.GazeFromRecording.Cleanup | pupil_src/shared_modules/gaze_producers.py:123-125 | The current offsets are saved with version 0. |
| GazeProducers.GazeLists | pupil_src/shared_modules/gaze_producers.py:296 | The list of every section's gaze buffer, in section order. |
| GazeProducers.PublishedFacts | pupil_src/shared_modules/gaze_producers.py:295-298 | The published gaze is sorted by timestamp and holds exactly all sections' gaze. Equal timestamps keep section order, because the sort is stable. |
| GazeProducers.RestoreSession | pupil_src/shared_modules/gaze_producers.py:141-162 | A cache of version 10 gives back its sections and reference lists. A missing file or any other version gives one new section 'Unnamed section 1' over the whole recording and empty lists. |
| GazeProducers.CachesOf | pupil_src/shared_modules/gaze_producers.py:421 | The saved sections are the sections' caches, in order. |
| GazeProducers.SaveRestoreRoundTrip | pupil_src/shared_modules/gaze_producers.py:419-427 | Loading what save_cache wrote restores every section's cache and the manual references. The circle markers survive only a detection at 100 percent. |
| GazeProducers.CalibrateFrom | pupil_src/shared_modules/gaze_producers.py:158-159 | Calibrating the sections in turn keeps their number. |
| GazeProducers.CalibrateFromEffect | pupil_src/shared_modules/gaze_producers.py:248-249 | The sweep raises iff some section has an unknown calibration method. Every section up to the first such one is calibrated, and the later ones are untouched. |
| GazeProducers.CalibrateFromPrefix | pupil_src/shared_modules/gaze_producers.py:158-159 | When the first k sections do not raise, the sweep ends without raising once k is the last section, with all of them calibrated. It stops at section k when that one raises, with the later sections untouched. |
| GazeProducers.PublishedSorted | pupil_src/shared_modules/gaze_producers.py:295-299 | The published gaze is sorted by timestamp. |
| GazeProducers.DrainStep | pupil_src/shared_modules/gaze_producers.py:292-293 | One section's recent_events keeps the number of sections. |
| GazeProducers.DrainFrom | pupil_src/shared_modules/gaze_producers.py:292-293 | The loop over the sections keeps their number. |
| GazeProducers.DrainStepEffect | pupil_src/shared_modules/gaze_producers.py:292-299 | One section's step changes only that section. It keeps the section's label and only adds gaze, and adds at most one 'gaze_positions_changed'. The published gaze stays sorted. |
| GazeProducers.DrainFromEffect | pupil_src/shared_modules/gaze_producers.py:292-299 | Draining keeps every label and only ever adds gaze. Each publish adds one notification, and the published gaze stays sorted. |
| GazeProducers.OnlyPublishesTrans | pupil_src/shared_modules/gaze_producers.py:299 | Adding only 'gaze_positions_changed' notifications composes. |
| GazeProducers.GrowsTrans | pupil_src/shared_modules/gaze_producers.py:292-293 | Keeping labels while gaze only grows composes. |
| GazeProducers.PresentRefs | pupil_src/shared_modules/gaze_producers.py:275-277 | The markers a progress message adds are exactly its data entries that are present. |
| GazeProducers.InFrame | pupil_src/shared_modules/gaze_producers.py:255-256 | The references of the current frame are references placed on that frame. |
| GazeProducers.FirstNear | pupil_src/shared_modules/gaze_producers.py:257-260 | The result is the first reference within 15 pixels of the click, or none if none is. |
| GazeProducers.FirstNearInFrame | pupil_src/shared_modules/gaze_producers.py:255-260 | Filtering by frame first does not change which reference is the first near one. |
| GazeProducers.RestoredRefs | pupil_src/shared_modules/gaze_producers.py:141-155 | The restored manual references are the cached ones, and they are the tuple load_object gives exactly when the session was accepted. Otherwise they are a new empty list. |
| GazeProducers.EditRefs | pupil_src/shared_modules/gaze_producers.py:184-267 | The list edits: extend and append keep the old references as a prefix and add the new ones; sort orders by frame as a permutation; del by index removes that one reference, and an index out of range raises; the reassignment gives an empty list. |
| GazeProducers.ExtendThenSort | pupil_src/shared_modules/gaze_producers.py:184-186 | use_as_natural_features is the two list edits extend and then sort. |
| GazeProducers.ListEditsAgree | pupil_src/shared_modules/gaze_producers.py:184-267 | On a real list, the edits as written are exactly the list edits. |
| GazeProducers.RestoredRefsRaise | pupil_src/shared_modules/gaze_producers.py:141-267 | As written, after a cached session is restored the first edit of the manual references raises: AttributeError for extend, sort and append, TypeError for del. Only clear_natural_features' reassignment avoids this. After it, or when no session was restored, the edits are the list edits. |
| GazeProducers.IndexRange | pupil_src/shared_modules/gaze_producers.py:264 | range(idx-5, idx+5) has ten frames, from idx-5 to idx+4. |
| GazeProducers.StatesOf | pupil_src/shared_modules/gaze_producers.py:421 | The views of the sections, in order. |
| GazeProducers.OfflineCalibration.Labels | pupil_src/shared_modules/gaze_producers.py:166 | The existing labels are the sections' labels, in order. |
| GazeProducers.OfflineCalibration.constructor | pupil_src/shared_modules/gaze_producers.py:132-155 | The plugin restores its sections and reference lists as RestoreSession says, with no gaze and no open pipe. |
| GazeProducers.RestoreSections | pupil_src/shared_modules/gaze_producers.py:146 | Each cached section becomes a new, distinct section in its fresh state, in order. |
| GazeProducers.OfflineCalibration.CalibrateAll | pupil_src/shared_modules/gaze_producers.py:248-249 | The loop over the sections is CalibrateFrom from section 0. |
| GazeProducers.OfflineCalibration.CalibrateSection | pupil_src/shared_modules/gaze_producers.py:158-159 | One section's calibrate changes that section alone, as AfterCalibrate says. |
| GazeProducers.OfflineCalibration.CalibrateAndPublish | pupil_src/shared_modules/gaze_producers.py:156-160 | All sections are calibrated as CalibrateFrom says. Without a raise the sorted gaze is published and announced. A raise leaves gaze and notifications as they were. |
| GazeProducers.OfflineCalibration.CorrelateAndPublish | pupil_src/shared_modules/gaze_producers.py:295-299 | The published gaze is sorted and holds exactly all sections' gaze, and a change is announced. |
| GazeProducers.OfflineCalibration.SaveCache | pupil_src/shared_modules/gaze_producers.py:419-429 | save_cache writes the caches, version 10, the manual references, and the circle markers only at 100 percent. |
| GazeProducers.OfflineCalibration.AppendSection | pupil_src/shared_modules/gaze_producers.py:164-171 | One new section is appended over the whole recording, with the least free generated label. |
| GazeProducers.OfflineCalibration.UseAsNaturalFeatures | pupil_src/shared_modules/gaze_producers.py:184-186 | The circle markers join the manual references, which end sorted by frame as a permutation of both. This is the list edit extend and then sort. |
| GazeProducers.OfflineCalibration.JumpNextNaturalFeature | pupil_src/shared_modules/gaze_producers.py:188-196 | The references are sorted. The seek goes to the least frame after the current one, and nothing is sought if there is none. The references change by the list edit sort. |
| GazeProducers.FirstAfter | pupil_src/shared_modules/gaze_producers.py:190-195 | On references sorted by frame, the loop finds nothing iff no frame lies after the current one. Otherwise it finds the least frame after it. |
| GazeProducers.OfflineCalibration.ClearNaturalFeatures | pupil_src/shared_modules/gaze_producers.py:198-199 | The manual references are emptied by assigning a new list. |
| GazeProducers.OfflineCalibration.OnClick | pupil_src/shared_modules/gaze_producers.py:253-267 | In edit mode a press deletes the first reference of the frame within 15 pixels, or else appends a new one; these are the list edits del and append. Otherwise nothing changes. |
| GazeProducers.FindClicked | pupil_src/shared_modules/gaze_producers.py:257-260 | The loop over the frame's references returns the first one within 15 pixels, as FirstNear says. |
| GazeProducers.OfflineCalibration.ToggleMarkerDetection | pupil_src/shared_modules/gaze_producers.py:386-390 | An open pipe is closed. Otherwise the markers are forgotten and a detector is started. |
| GazeProducers.OfflineCalibration.StartMarkerDetection | pupil_src/shared_modules/gaze_producers.py:392-401 | The markers are forgotten, the pipe opens, the progress is 0 and the detector start is announced. |
| GazeProducers.OfflineCalibration.CancelMarkerDetection | pupil_src/shared_modules/gaze_producers.py:403-411 | The pipe ends closed. The progress is reset only if the pipe was open. |
| GazeProducers.OfflineCalibration.HandleDetectorMessage | pupil_src/shared_modules/gaze_producers.py:272-290 | Progress adds markers and takes the last progress value. Progress without data raises. 'finished' closes the pipe, sets 100 and recalibrates. 'exception' closes the pipe and resets. The new state is the one DetectorMessageStep gives. |
| GazeProducers.OfflineCalibration.DrainSections | pupil_src/shared_modules/gaze_producers.py:292-293 | The loop over the sections is DrainFrom from section 0. |
| GazeProducers.OfflineCalibration.DrainSection | pupil_src/shared_modules/gaze_producers.py:292-293 | One section's recent_events, with the parent's publish, is one step of DrainFrom. |
| GazeProducers.DetectorMessageStep | pupil_src/shared_modules/gaze_producers.py:272-290 | Without an open pipe and a message nothing changes. The pipe is never opened, the circle markers only grow, and only 'finished' touches the sections. |
| GazeProducers.OfflineCalibration.RecentEvents | pupil_src/shared_modules/gaze_producers.py:269-293 | The waiting detector message is handled first: whether it raised, the circle markers, the pipe and the progress are those of DetectorMessageStep. Unless it raised, the sections are then drained from the states it left, as DrainFrom says. If it raised, nothing is drained or published. |
| GazeProducers.OfflineCalibration.OnNotify | pupil_src/shared_modules/gaze_producers.py:245-251 | New pupil data recalibrates every section, new gaze is cached, and anything else is ignored. |
| GazeProducers.OfflineCalibration.Cleanup | pupil_src/shared_modules/gaze_producers.py:413-417 | Every held task is cancelled, then the session is cached. |
| GazeProducers.OfflineCalibration.RemoveSection | pupil_src/shared_modules/gaze_sections.py:252-261 | The section's calibration file is deleted, and a missing one is ignored. The section leaves the list and the gaze is republished. |
| GazeProducers.FirstAfterIsLeast | pupil_src/shared_modules/gaze_producers.py:189-195 | In references sorted by frame, the first one after the current frame has the least such frame. |
| GazeProducers.IndexOf | pupil_src/shared_modules/gaze_producers.py:259 | list.index gives the first position holding the reference. |
| GazeProducers.OpenOfflineCalibration | pupil_src/shared_modules/gaze_producers.py:132-162 | With restored circle markers every section is calibrated and the gaze published, unless a section raised. Otherwise the progress is 0 and nothing is calibrated. |
| PluginSections.ConsumeUntil | pupil_src/shared_modules/gaze_sections/base_sections.py:44-48 | A membership test on the shared generator stops just after the first match at or after the generator's position. If there is no match the generator is exhausted. |
| PluginSections.GeneratorCounter | pupil_src/shared_modules/gaze_sections/base_sections.py:44-51 | The counter make_section_label stops at is at least the one it starts from. |
| PluginSections.MakeGeneratorLabel | pupil_src/shared_modules/gaze_sections/base_sections.py:43-51 | The loop returns the label that GeneratorLabel specifies, with one generator over the existing labels shared by every test. |
| PluginSections.GeneratorCounterFacts | pupil_src/shared_modules/gaze_sections/base_sections.py:44-51 | Every counter skipped names a label found further along the generator. |
| PluginSections.GeneratorLabelBelowLeastFree | pupil_src/shared_modules/gaze_sections/base_sections.py:43-51 | The label is 'Unnamed section N', and every generated label below N is in use. |
| PluginSections.GeneratorLabelDuplicates | pupil_src/shared_modules/gaze_sections/base_sections.py:44-48 | The generated label can be one already in use: with 'Unnamed section 2' listed before 'Unnamed section 1' it returns 'Unnamed section 2'. |
| PluginSections.ClassByName | pupil_src/shared_modules/gaze_sections/__init__.py:55-56 | Only the names Calibration_Section, Mapping_Section and Validation_Section are known, each standing for its class. |
| PluginSections.ClassByNameOfClassName | pupil_src/shared_modules/gaze_sections/__init__.py:55-56 | Looking up a class's own name gives back that class. |
| PluginSections.ConstructedDefaults | pupil_src/shared_modules/gaze_sections/calibration_section.py:46-55 | With no keywords a section gets a generated label, no range and no task. A calibration section gets circle_marker, 3d, an empty mapper stamped with version 1 and 'Not yet calibrated'. A mapping section gets no import and zero offsets. A validation section gets error display on and threshold 5. |
| PluginSections.InitDict | pupil_src/shared_modules/gaze_sections/base_sections.py:28-29 | Every init dict holds the label and the application range. |
| PluginSections.InitDictKeys | pupil_src/shared_modules/gaze_sections/mapping_section.py:24-28 | The keys of each class's init dict are exactly the base keys, import_section for the importing classes, and the class's own fields. |
| PluginSections.InitDictRoundTrip | pupil_src/shared_modules/gaze_sections/validation_section.py:29-33 | Building a section of the same class from its init dict gives back its label, range and every field the dict carries, with no task. |
| PluginSections.CalibrationStreamShape | pupil_src/shared_modules/gaze_sections/calibration_section.py:27-35 | The stream is 'Calibrating...' and then one result. That result holds a mapper with 'Calibration successful' iff the fit succeeded, and otherwise 'Calibration failed! ' with the reason. |
| PluginSections.PlanSlicing | pupil_src/shared_modules/gaze_sections/calibration_section.py:81-128 | The checks run in this order, each case stated both ways. No range raises, and an unknown reference method raises. No references in the inclusive range is reported, then no pupil data in the half-open range. Otherwise calibration starts. |
| PluginSections.SaveCalibration | pupil_src/shared_modules/gaze_sections/calibration_section.py:143-146 | The corrected save writes the mapper stamped with version 1 at the section's path. No other file changes. |
| PluginSections.SaveCalibrationAsWrittenRaises | pupil_src/shared_modules/gaze_sections/calibration_section.py:143-146 | As written, the save stamps the mapper and then always raises AttributeError on self.calibration. The corrected save stores the stamped mapper. |
| PluginSections.HandleCalibResult | pupil_src/shared_modules/gaze_sections/calibration_section.py:130-133 | A result always sets the status and keeps the reference and calibration methods. |
| PluginSections.HandleResults | pupil_src/shared_modules/gaze_sections/base_sections.py:69-76 | Handling keeps the section's class. Sections other than calibration sections ignore every result. |
| PluginSections.HandleResultsStep | pupil_src/shared_modules/gaze_sections/base_sections.py:69-70 | Handling one more result continues from the state the earlier ones left. |
| PluginSections.HandleResultsEffect | pupil_src/shared_modules/gaze_sections/calibration_section.py:130-133 | After a batch the status is the last result's. The mapper is the last truthy one, since a falsy one keeps the old mapper. It is stamped, and it is exactly what the section's file holds. |
| PluginSections.PluginSection.constructor | pupil_src/shared_modules/gaze_sections/base_sections.py:22-26 | The section's state is the class built from its arguments. A calibration section writes its mapper file at once, and no other class touches files. |
| PluginSections.PluginSection.SaveCalibrationFile | pupil_src/shared_modules/gaze_sections/calibration_section.py:143-146 | The mapper is stamped in place and written to the section's file. |
| PluginSections.PluginSection.ValidateLabel | pupil_src/shared_modules/gaze_sections/base_sections.py:53-60 | The same label is a no-op, and a label in use is refused. Anything else is taken. |
| PluginSections.PluginSection.Cleanup | pupil_src/shared_modules/gaze_sections/base_sections.py:62-64 | A held task is cancelled and stays in place. |
| PluginSections.PluginSection.SetFromTrimMarks | pupil_src/shared_modules/gaze_sections/base_sections.py:84-99 | The corrected button as a method: it leaves the range and returns the shown times exactly as TrimButton says. |
| PluginSections.TrimButton | pupil_src/shared_modules/gaze_sections/base_sections.py:84-99 | Pressing the button sets the range to the trim marks; the format-only call keeps the range. The button shows both ends as seconds after the first frame. It raises exactly when the range is unset or an end lies outside Python's index range of the timestamps. |
| PluginSections.TrimButtonAsWrittenRaises | pupil_src/shared_modules/gaze_sections/base_sections.py:95 | As written every call raises, through `self.parent`, after setting the same range as the corrected button. The corrected button shows any range inside the recording. |
| PluginSections.PluginSection.HandleTaskResult | pupil_src/shared_modules/gaze_sections/calibration_section.py:130-133 | One result moves the section and its file as HandleResults of that one result says. |
| PluginSections.PluginSection.RecentEvents | pupil_src/shared_modules/gaze_sections/base_sections.py:66-73 | Without a task nothing changes. Otherwise the fetched results are handled in order, and a completed task is dropped after on_task_completed. For a calibration section that records one 'gaze_section.calibrated' notification. |
| PluginSections.PluginSection.HandleEach | pupil_src/shared_modules/gaze_sections/base_sections.py:69-70 | The loop handles the fetched results exactly as HandleResults says. |
| PluginSections.PluginSection.SliceDataAndStartCalibration | pupil_src/shared_modules/gaze_sections/calibration_section.py:81-91 | It raises iff the range is unset or the reference method is unknown. A missing reference or pupil datum sets that message as status. Otherwise the mode is downgraded when required and a calibration task starts. |
| PluginSections.PluginSection.StartCalibration | pupil_src/shared_modules/gaze_sections/calibration_section.py:93-101 | The held task is cancelled, and a new task holds the calibration stream over the stand-in pool. |
| PluginSections.FreshValidationDisplaysNothing | pupil_src/shared_modules/gaze_sections/validation_section.py:22-40 | A new validation section draws no error lines, whatever its init dict says. |
| PluginSections.KnownInitializers | pupil_src/shared_modules/gaze_sections/__init__.py:59-67 | The initializers kept are exactly those whose class name is known, with their own arguments. |
| PluginSections.KnownInitializersStep | pupil_src/shared_modules/gaze_sections/__init__.py:62-67 | An unknown name is skipped and a known one is kept, one initializer at a time. |
| PluginSections.AddAllStep | pupil_src/shared_modules/gaze_sections/__init__.py:59-67 | Adding a list of initializers is one add of the first and then adding the rest. |
| PluginSections.AddOneEffect | pupil_src/shared_modules/gaze_sections/__init__.py:67 | add of a class already listed changes neither the list nor the files. Otherwise the list gains exactly the new section, built against the manager's labels, and a calibration section saves its mapper. The list stays sorted by order with no class twice. |
| PluginSections.AddOneAt | pupil_src/shared_modules/gaze_sections/calibration_section.py:43 | Sorting the appended list by order puts the new section just after the last listed section of no higher order. |
| PluginSections.AddAllDescribes | pupil_src/shared_modules/gaze_sections/__init__.py:59-67 | After any run of adds the list holds one section per class named so far, each built from the first initializer naming that class. |
| PluginSections.SectionListContents | pupil_src/shared_modules/gaze_sections/__init__.py:51-67 | A new Section_List lists, strictly in class order (calibration 0.3, mapping 0.5, validation 0.7), one section for each class some known initializer names, built from the first such initializer. Every generated label comes from the gaze manager's labels. |
| PluginSections.ViewsOf | pupil_src/shared_modules/gaze_sections/__init__.py:53 | The views of the listed sections, in order. |
| PluginSections.SectionList.constructor | pupil_src/shared_modules/gaze_sections/__init__.py:51-67 | The list holds exactly what adding the known initializers in order gives, and is well formed. |
| PluginSections.SectionList.Add | pupil_src/shared_modules/gaze_sections/__init__.py:67 | add moves the list and the files exactly as AddOne says and keeps the list well formed. |
| PluginSections.SectionList.Listed | pupil_src/shared_modules/gaze_sections/__init__.py:67 | The uniqueness scan answers whether a section of the class is listed. |
| PluginSections.SectionList.InsertionPoint | pupil_src/shared_modules/gaze_sections/mapping_section.py:16 | The scan from the end stops after the last section whose order is at most the new class's order. |
| DeprecatedSections.Next | pupil_src/shared_modules/gaze_sections/deprecated.py:68 | next() succeeds exactly on a non-empty colour cycle, returning one of its colours and advancing it by one. A dict raises TypeError. |
| DeprecatedSections.ConstructCacheFrom | pupil_src/shared_modules/gaze_sections/deprecated.py:59-72 | construct_cache fails exactly when next() on the colour source fails. Otherwise the cache carries the drawn colour. |
| DeprecatedSections.ConstructCacheFromColorsRaises | pupil_src/shared_modules/gaze_sections/deprecated.py:28-68 | With the module's colour dict, construct_cache always raises TypeError. |
| DeprecatedSections.ConstructCacheFromCycle | pupil_src/shared_modules/gaze_sections/deprecated.py:59-72 | Given a palette cycle instead, it builds exactly the legacy module's cache. |
| DeprecatedSections.DeprecatedSection.constructor | pupil_src/shared_modules/gaze_sections/deprecated.py:78-86 | Once the cache is settled, the section holds it with no task, no error lines, no calibration, 'Not available' accuracy and precision, and no gaze. |
| DeprecatedSections.OpenSection | pupil_src/shared_modules/gaze_sections/deprecated.py:78-86 | Constructing succeeds exactly when a cache is given, and then holds that cache. Without one it raises TypeError. |
| SeekControl.ClampLeftFacts | pupil_src/shared_modules/seek_control.py:86-90 | A new left mark is never negative, and it lies below the right mark whenever that is positive. A value inside the bounds is kept, and setting the result again changes nothing. |
| SeekControl.ClampRightFacts | pupil_src/shared_modules/seek_control.py:96-100 | A new right mark lies above the left mark and within the recording when the left mark leaves room. A value inside the bounds is kept, and re-setting is a no-op. |
| SeekControl.TrimRangeLeftFirst | pupil_src/shared_modules/seek_control.py:116-117 | The tuple assignment sets the left mark first, against the old right mark: setting (20, 30) from marks (0, 10) of a 100-frame recording gives (9, 30). |
| SeekControl.ParseTrimRange | pupil_src/shared_modules/seek_control.py:122-126 | The text parses iff it splits on '-' into exactly two parts and int() accepts both. |
| SeekControl.SplitLengthPrefix | pupil_src/shared_modules/seek_control.py:124 | A prefix without the separator adds no part to the split. |
| SeekControl.SplitLengthSep | pupil_src/shared_modules/seek_control.py:124 | A leading separator adds exactly one part. |
| SeekControl.SplitAroundDash | pupil_src/shared_modules/seek_control.py:124 | '<x> - <y>' splits into '<x> ' and ' <y>' when neither side holds a '-'. |
| SeekControl.ParseLeftSide | pupil_src/shared_modules/seek_control.py:124-125 | int() of a non-negative mark's digits followed by a space gives the mark. |
| SeekControl.ParseRightSide | pupil_src/shared_modules/seek_control.py:124-126 | int() of a space followed by a non-negative mark's digits gives the mark. |
| SeekControl.ParseDashed | pupil_src/shared_modules/seek_control.py:124-126 | int() of both sides of such a text gives the two numbers. |
| SeekControl.ParseTrimRangeText | pupil_src/shared_modules/seek_control.py:119-126 | The text of two non-negative marks parses back to the same marks. |
| SeekControl.TrimRangeTextOfNats | pupil_src/shared_modules/seek_control.py:120 | The text of two non-negative marks is their decimal digits around ' - '. |
| SeekControl.ParseTrimRangeNegative | pupil_src/shared_modules/seek_control.py:120-126 | A negative right mark puts a second '-' into the text, which then does not parse. |
| SeekControl.TrimRangeTextRoundTrip | pupil_src/shared_modules/seek_control.py:119-128 | Setting the marks from their own text leaves them as they are. |
| SeekControl.TrimRangeTextRejects | pupil_src/shared_modules/seek_control.py:122-130 | Text that does not split into exactly two parts leaves both marks. |
| SeekControl.SeekControl.constructor | pupil_src/shared_modules/seek_control.py:25-34 | The marks span the whole recording, at 0 and frame_count - 1. Drag mode is off and was_playing is on. |
| SeekControl.SeekControl.SetTrimLeft | pupil_src/shared_modules/seek_control.py:86-90 | The left setter clamps as ClampLeft says and keeps the marks well ordered. |
| SeekControl.SeekControl.SetTrimRight | pupil_src/shared_modules/seek_control.py:96-100 | The right setter clamps as ClampRight says and keeps the marks well ordered. |
| SeekControl.SeekControl.SetTrimRange | pupil_src/shared_modules/seek_control.py:116-117 | The left mark is set first, then the right one. |
| SeekControl.SeekControl.SetTrimRangeString | pupil_src/shared_modules/seek_control.py:122-130 | Parsable text sets both marks through the setters. A warning is logged exactly when the text does not parse, and then both marks stay. |
| SeekControl.SeekControl.RecentEvents | pupil_src/shared_modules/seek_control.py:45-51 | A frame on either trim mark pauses playback. Anything else leaves playback alone. |
| SeekControl.SeekControl.SetPlay | pupil_src/shared_modules/seek_control.py:75-80 | The play state is set. Starting at or past the last frame first seeks to frame 0. |
| SeekControl.SeekControl.SetCurrentIndex | pupil_src/shared_modules/seek_control.py:106-114 | A different frame is requested and flagged as a new seek. The same frame changes nothing. |
| SeekControl.SeekControl.OnSeek | pupil_src/shared_modules/seek_control.py:53-63 | Pressing the bar remembers and stops playback. Releasing it seeks to the current frame, flags a new seek and restores playback. |
| SeekControl.SeekRestoresPlay | pupil_src/shared_modules/seek_control.py:53-63 | Pressing and releasing the seek bar leaves playback as it was and seeks once. |
| Constraints.IdentityConstraints | pupil_src/shared_modules/video_overlay/utils/constraints.py:12-25 | NoConstraint, and an InclusiveConstraint with its infinite defaults, leave every value as it is. |
| Constraints.InclusiveBounds | pupil_src/shared_modules/video_overlay/utils/constraints.py:24-25 | min(max(low, v), high) lies in [low, high], and it is v iff v is already inside. |
| Constraints.HalfOpenBounds | pupil_src/shared_modules/video_overlay/utils/constraints.py:20-25 | With one bound left infinite, the result stays on the given bound's side. |
| Constraints.ApplyIdempotent | pupil_src/shared_modules/video_overlay/utils/constraints.py:12-30 | Applying any constraint twice is the same as applying it once. |
| Constraints.BooleanValues | pupil_src/shared_modules/video_overlay/utils/constraints.py:28-30 | bool() yields only False or True, and False exactly for zero. |
| Constraints.ConstraintedValue.constructor | pupil_src/shared_modules/video_overlay/utils/constraints.py:36-38 | The initial value is stored as given, without applying the constraint. |
| Constraints.ConstraintedValue.SetValue | pupil_src/shared_modules/video_overlay/utils/constraints.py:44-46 | The stored value is the constrained value and conforms to the constraint. |
| Constraints.ConstraintedValue.SetConstraint | pupil_src/shared_modules/video_overlay/utils/constraints.py:52-55 | The new constraint is installed and re-applied to the current value. |
| Constraints.ConstraintedValue.DeleteConstraint | pupil_src/shared_modules/video_overlay/utils/constraints.py:57-59 | Deleting installs NoConstraint and keeps the value. |
| Constraints.ConstraintedPosition.constructor | pupil_src/shared_modules/video_overlay/utils/constraints.py:65-67 | Both coordinates are separate values, each unconstrained. |
| Constraints.ConstraintedPosition.Text | pupil_src/shared_modules/video_overlay/utils/constraints.py:69-70 | The text is '(x=', the x text, ', y=', the y text and ')', with nothing else. |
| TokenManagers.Dedup | pupil_src/shared_modules/token_manager.py:28-29 | The dict keys are the given keys without repeats, in first-occurrence order. |
| TokenManagers.NoneDict | pupil_src/shared_modules/token_manager.py:28-29 | {key: None for key in keys} is a well-formed dict mapping every key to None. |
| TokenManagers.NewKeys | pupil_src/shared_modules/token_manager.py:77-78 | The keys that an update appends are exactly those of the update that the dict lacks, without repeats. |
| TokenManagers.Update | pupil_src/shared_modules/token_manager.py:77-78 | dict.update keeps the old key order and appends new keys. The values of the update win. |
| TokenManagers.NewKeysAllKnown | pupil_src/shared_modules/token_manager.py:77-78 | An update whose keys are all known appends no key. |
| TokenManagers.UpdateSameKeys | pupil_src/shared_modules/token_manager.py:77-78 | An update with the same keys keeps the key order and takes every value from the update. |
| TokenManagers.TokenFilePath | pupil_src/shared_modules/token_manager.py:90-91 | The token file's name ends in '.tokens'. |
| TokenManagers.TokenManager.constructor | pupil_src/shared_modules/token_manager.py:26-29 | Every input and output key starts with no token. |
| TokenManagers.TokenManager.ActedOnInputToken | pupil_src/shared_modules/token_manager.py:52-57 | Every output, in dict order, is announced with a new token and then holds it. The set of outputs is kept. The outputs can be packed afterwards exactly when there are none or the manager is a constant one. |
| TokenManagers.TokenManager.OnInputToken | pupil_src/shared_modules/token_manager.py:31-50 | An unknown input raises KeyError, and the token already stored for the input does nothing. Any other token is acted on: every output is announced with its new token, in dict order, and then holds it. The input tokens are never updated here. |
| TokenManagers.TokenManager.SaveToFile | pupil_src/shared_modules/token_manager.py:80-88 | The inputs, outputs and version 1 are written at the manager's path. The save raises TypeError exactly when either dict holds a UUID token, since msgpack with strict types cannot pack one. |
| TokenManagers.TokenManager.UpdateFromFile | pupil_src/shared_modules/token_manager.py:68-78 | A missing file or a version other than 1 changes nothing. Otherwise both dicts are updated from the saved ones. |
| TokenManagers.SaveThenUpdate | pupil_src/shared_modules/token_manager.py:68-88 | Saving succeeds exactly when no UUID token is held. Saving and then updating from the same directory restores the saved tokens, also after the outputs were replaced in between. |
| TokenManagers.ActThenSave | pupil_src/shared_modules/token_manager.py:52-101 | A UUID manager with outputs that has acted on an input token cannot save: the save raises TypeError. A constant manager's save then succeeds exactly when its input tokens pack. |
| TokenManagers.ConstantManagerTokens | pupil_src/shared_modules/token_manager.py:99-101 | A ConstantTokenManager's token is always its name, as a string. |
| FileMethods.IndexOf | pupil_src/shared_modules/file_methods.py:95 | tuple.index gives the position of the first occurrence. |
| FileMethods.GetItem | pupil_src/shared_modules/file_methods.py:69-70 | A string key succeeds exactly for a field name and gives that field's value. An integer key succeeds exactly within -len..len-1, counting negative keys from the end. |
| FileMethods.RecordKeys | pupil_src/shared_modules/file_methods.py:78-79 | keys() are the field names, in order. |
| FileMethods.Get | pupil_src/shared_modules/file_methods.py:81-82 | get gives the default exactly when the key is not a field name. Otherwise it gives the field's value. |
| FileMethods.Zip | pupil_src/shared_modules/file_methods.py:76 | zip pairs each field with its value, in order. |
| FileMethods.KeysOf | pupil_src/shared_modules/file_methods.py:102 | The keys of the pairs, in order. |
| FileMethods.KeysOfAppend | pupil_src/shared_modules/file_methods.py:89-90 | The keys of concatenated pairs are the concatenated keys. |
| FileMethods.Assign | pupil_src/shared_modules/file_methods.py:114 | Assigning an existing key keeps the key order, and a new key goes last. |
| FileMethods.DictFromPairs | pupil_src/shared_modules/file_methods.py:114 | dict(pairs) of some pairs is not empty. |
| FileMethods.DictFromDistinctPairs | pupil_src/shared_modules/file_methods.py:114 | Pairs whose keys are pairwise different make a dict holding exactly those pairs, in order. |
| FileMethods.Serialize | pupil_src/shared_modules/file_methods.py:117-126 | The msgpack hook turns records into dicts, other tuples into lists and float subclasses into plain floats. Anything else is left as it is. |
| FileMethods.SerializeRecord | pupil_src/shared_modules/file_methods.py:117-119 | A record with distinct fields becomes the dict from each field to its value, in field order. |
| FileMethods.SerializeIdempotent | pupil_src/shared_modules/file_methods.py:117-126 | Serialising an already serialised value changes nothing. |
| FileMethods.InvalidFieldNames | pupil_src/shared_modules/file_methods.py:111-114 | namedtuple refuses keywords, leading underscores, repeated names and names with spaces. |
| FileMethods.RecordClasses.constructor | pupil_src/shared_modules/file_methods.py:64 | The class cache starts empty. |
| FileMethods.RecordClasses.Create | pupil_src/shared_modules/file_methods.py:101-114 | An empty one-shot iterator raises ValueError. Valid field names give a record of the cached class for those names, created and cached the first time only. Invalid names fall back to dict(pairs). |
| FileMethods.RecordClasses.ExtendCopyAsWritten | pupil_src/shared_modules/file_methods.py:84-114 | As written, extend_copy gives the record of old plus new fields when the names are valid. Invalid names, a duplicate field among them, give the empty dict, because zip(*obj_pairs) has consumed the iterator. |
| FileMethods.RecordClasses.ExtendCopy | pupil_src/shared_modules/file_methods.py:84-90 | extend_copy with the pairs as a list gives the old then the new fields and values, of the cached class. Invalid names fall back to dict of all the pairs. |
| FileMethods.Values | pupil_src/shared_modules/file_methods.py:90 | The values of the pairs, in order. |
| FileMethods.ValuesOfExtended | pupil_src/shared_modules/file_methods.py:89-90 | The values of a record's pairs plus extensions are the record's values followed by the extensions' values. |
| FileMethods.CreateReusesClass | pupil_src/shared_modules/file_methods.py:105-106 | Creating twice from the same valid names gives records of the same class. |
| FileMethods.DifferentNamesDifferentClasses | pupil_src/shared_modules/file_methods.py:105-109 | Records with different field names never share a class. |
| FileMethods.ApplyUpdates | pupil_src/shared_modules/file_methods.py:93-95 | The updates keep the number of fields. |
| FileMethods.ApplyUpdatesMeaning | pupil_src/shared_modules/file_methods.py:92-96 | With distinct fields the updates succeed exactly when every name is a field. Then every field holds its last update, or its old value. |
| FileMethods.UpdateCopy | pupil_src/shared_modules/file_methods.py:92-96 | update_copy raises ValueError for a name that is no field. Otherwise it gives a record of the same class and fields with the updates applied. |
| FileMethods.UpdateNothing | pupil_src/shared_modules/file_methods.py:92-96 | Updating nothing copies the values unchanged. |
| FileMethods.ExtendDuplicateNames | pupil_src/shared_modules/file_methods.py:85-86 | Extending with a name the record already has makes the combined names invalid. |
| FileMethods.ExtendWithDuplicateFallback | pupil_src/shared_modules/file_methods.py:89-114 | Extending {a: 1} with a=2: the list fallback is {a: 2}, and the names ['a', 'a'] are invalid. |
| BlinkDetection.PruneBelow | pupil_src/shared_modules/blink_detection.py:66-69 | Pruning never grows the history and never empties a non-empty one. |
| BlinkDetection.PruneBelowSuffix | pupil_src/shared_modules/blink_detection.py:66-67 | Pruning only ever removes a prefix: what is left is a suffix of the history. |
| BlinkDetection.PruneBelowKeeps | pupil_src/shared_modules/blink_detection.py:64-69 | The newest position is kept. At least two positions are kept when there were two, and then the second oldest is no older than the threshold. A history of one stays, since the loop stops on IndexError. |
| BlinkDetection.PruneBelowRemoves | pupil_src/shared_modules/blink_detection.py:66-67 | Every removed position was removed because the position after it was older than the threshold. |
| BlinkDetection.PruneFacts | pupil_src/shared_modules/blink_detection.py:64-69 | With the threshold at the newest timestamp less 0.3 s, pruning has all the facts above. |
| BlinkDetection.Confidences | pupil_src/shared_modules/blink_detection.py:75 | The activity is the confidences of the history, in order. |
| BlinkDetection.BlinkDetector.constructor | pupil_src/shared_modules/blink_detection.py:31-41 | The history starts empty, with no recent activity. |
| BlinkDetection.BlinkDetector.RecentEvents | pupil_src/shared_modules/blink_detection.py:60-77 | The blinks are reset to an empty list. The history becomes the pruned extension. The activity is recomputed exactly when the window holds two positions spanning at least 0.3 s, and is otherwise kept. |
| BlinkDetection.TwoFramesApartAnalysed | pupil_src/shared_modules/blink_detection.py:64-77 | Two positions at least 0.3 s apart both survive pruning, and their window is analysed. |
| ScanPath.Progress | pupil_src/shared_modules/scan_path/scan_path_controller.py:66-74 | Progress is 0 when both tasks are idle. |
| ScanPath.ProgressBounds | pupil_src/shared_modules/scan_path/scan_path_controller.py:66-74 | With both tasks' progress in [0, 1], the weighted progress (0.15 and 0.85) is in [0, 1]. It is 1 when both are done and 0 when both are at 0. |
| ScanPath.Trunc | pupil_src/shared_modules/scan_path/scan_path_controller.py:159 | int() of a float truncates toward zero. |
| ScanPath.RowsOfFrame | pupil_src/shared_modules/scan_path/scan_path_controller.py:93-97 | A row is kept iff it is stored, belongs to the frame and is newer than the cutoff. |
| ScanPath.RowsOfFrameOrder | pupil_src/shared_modules/scan_path/scan_path_controller.py:95-97 | Filtering keeps each matching row exactly as often as it is stored, and no other row. |
| ScanPath.ScanPathController.constructor | pupil_src/shared_modules/scan_path/scan_path_controller.py:34-57 | The timeframe defaults to its minimum and must lie in [0, 5]. The status is empty, both tasks are idle, and loading from disk is requested with a 0.5 s delay. |
| ScanPath.ScanPathController.TriggerImmediateCalculation | pupil_src/shared_modules/scan_path/scan_path_controller.py:143-148 | Both tasks are cancelled, then preprocessing starts: it is active at progress 0, and the background task is inactive with its last progress. |
| ScanPath.ScanPathController.GazeForFrame | pupil_src/shared_modules/scan_path/scan_path_controller.py:84-99 | A zero timeframe gives no gaze. An invalid or incomplete store gives None and starts a recalculation only when none is running: preprocessing becomes active at progress 0 and the background task inactive. Otherwise the result is the recent rows of the frame. In every other case both task states are kept. |
| ScanPath.ScanPathController.OnNotify | pupil_src/shared_modules/scan_path/scan_path_controller.py:105-114 | A recalculation request recalculates at once, leaving preprocessing active at progress 0 and the background task inactive. A load request loads the store from disk. 'gaze_positions_changed' invalidates the store. Other subjects are ignored. |
| ScanPath.ScanPathController.OnPreprocStarted | pupil_src/shared_modules/scan_path/scan_path_controller.py:152-155 | The status is 'Preprocessing started...'. |
| ScanPath.ScanPathController.OnPreprocUpdated | pupil_src/shared_modules/scan_path/scan_path_controller.py:157-160 | The status is the truncated percentage of preprocessing. |
| ScanPath.ScanPathController.OnPreprocFailed | pupil_src/shared_modules/scan_path/scan_path_controller.py:162-166 | The status is 'Preprocessing failed'. |
| ScanPath.ScanPathController.PreprocCanceled | pupil_src/shared_modules/scan_path/scan_path_controller.py:46-53 | Both observers registered on the preprocessing task's on_canceled run in order, so the status ends as 'Calculation canceled'. |
| ScanPath.ScanPathController.BackgroundCanceled | pupil_src/shared_modules/scan_path/scan_path_controller.py:49-54 | The background task's on_canceled has no observer, so the status stays. |
| ScanPath.ScanPathController.OnPreprocCompleted | pupil_src/shared_modules/scan_path/scan_path_controller.py:173-179 | The background task starts with the maximum timeframe, whatever the current one is. |
| ScanPath.ScanPathController.OnBackgroundStarted | pupil_src/shared_modules/scan_path/scan_path_controller.py:183-186 | The status is 'Calculation started...'. |
| ScanPath.ScanPathController.OnBackgroundUpdated | pupil_src/shared_modules/scan_path/scan_path_controller.py:188-192 | The status is the truncated percentage of the calculation. |
| ScanPath.ScanPathController.OnBackgroundFailed | pupil_src/shared_modules/scan_path/scan_path_controller.py:194-198 | The status is 'Calculation failed'. |
| ScanPath.ScanPathController.OnBackgroundCompleted | pupil_src/shared_modules/scan_path/scan_path_controller.py:205-210 | The computed gaze goes into the store, which is then complete and valid. |
| ScanPath.QueryAfterCompletion | pupil_src/shared_modules/scan_path/scan_path_controller.py:84-99 | After the calculation completes, a query with a non-zero timeframe answers with exactly the recent rows of the frame and starts nothing. |
| ScanPath.QueryAfterGazeChange | pupil_src/shared_modules/scan_path/scan_path_controller.py:84-114 | After gaze positions change, the next query answers None and, with both tasks idle, restarts the calculation. |
| PupilProducers.Find | pupil_src/shared_modules/pupil_producers.py:165 | Looking up a timestamp gives a stored datum with that timestamp, and None iff no stored datum has it. |
| PupilProducers.Put | pupil_src/shared_modules/pupil_producers.py:165 | Storing adds at most the new datum and keeps every other datum. |
| PupilProducers.PutFacts | pupil_src/shared_modules/pupil_producers.py:165 | After storing d, its timestamp finds d, and every other timestamp finds what it found before. |
| PupilProducers.PutDistinct | pupil_src/shared_modules/pupil_producers.py:165 | Storing keeps the timestamps pairwise different and adds exactly d's timestamp to the keys. |
| PupilProducers.Keyed | pupil_src/shared_modules/pupil_producers.py:109 | The dict built from a list holds only data of that list. |
| PupilProducers.KeyedLastWins | pupil_src/shared_modules/pupil_producers.py:109 | For each timestamp, the dict holds the last datum of the list with it, and the keys are distinct. |
| PupilProducers.KeyedOfDistinct | pupil_src/shared_modules/pupil_producers.py:109 | A list whose timestamps are already distinct is stored as it is, in order. |
| PupilProducers.PutAbsent | pupil_src/shared_modules/pupil_producers.py:165 | Storing under a timestamp not yet present appends the datum. |
| PupilProducers.CountsAddUp | pupil_src/shared_modules/pupil_producers.py:112-114 | With every id 0 or 1, the two eyes' counts add up to the number of positions. |
| PupilProducers.CountFrames | pupil_src/shared_modules/pupil_producers.py:112-114 | The loop counts, for each eye, the restored positions with its id. |
| PupilProducers.Restored | pupil_src/shared_modules/pupil_producers.py:100-107 | The check keeps only a session whose version differs from 1. A missing file and a version-1 file both give the default: 3d, no positions and both eyes 'unknown'. |
| PupilProducers.CurrentVersionDiscarded | pupil_src/shared_modules/pupil_producers.py:102 | A session file carrying the current version 1 is thrown away. |
| PupilProducers.CleanupRestores | pupil_src/shared_modules/pupil_producers.py:203-207 | What cleanup writes has no version, so the next start-up restores it, and its positions come back as the same dict. |
| PupilProducers.InitStatusAsWritten | pupil_src/shared_modules/pupil_producers.py:103-153 | As written, a status restored from the file is a tuple: __init__ raises TypeError exactly when the file was kept and one of its eyes is not complete. Otherwise the status is the restored one. |
| PupilProducers.CleanupThenInitAsWritten | pupil_src/shared_modules/pupil_producers.py:203-207 | As written, what cleanup writes makes the next start-up raise exactly when an eye was not complete. |
| PupilProducers.Existing | pupil_src/shared_modules/pupil_producers.py:131 | The existing locations are exactly the candidates found on disk, in order. |
| PupilProducers.StartEye | pupil_src/shared_modules/pupil_producers.py:129-154 | With no eye video or no timestamps file, the eye's status is 'No eye video found.' and nothing else changes. Otherwise the first video found is started, its frame count is taken from the timestamps, and the status is 'Detecting...'. |
| PupilProducers.StopEye | pupil_src/shared_modules/pupil_producers.py:156-158 | Stopping an eye keeps the detector state well formed. |
| PupilProducers.CorrelatePublish | pupil_src/shared_modules/pupil_producers.py:180-183 | Publishing keeps the detector state well formed. |
| PupilProducers.PublishedSorted | pupil_src/shared_modules/pupil_producers.py:181 | The published positions are sorted by timestamp and are a permutation of the stored ones. |
| PupilProducers.HandleMessage | pupil_src/shared_modules/pupil_producers.py:164-176 | A pupil datum is stored under its timestamp. A finished video matching eye 0, else eye 1, completes and stops that eye, and an unmatched path changes neither. Once neither eye has a video, the positions are published. |
| PupilProducers.HandleMessages | pupil_src/shared_modules/pupil_producers.py:162-176 | The messages are handled in order of arrival, keeping the state well formed. |
| PupilProducers.Progress | pupil_src/shared_modules/pupil_producers.py:177-178 | The progress is the number of positions divided by the total frame count, and 0 when that total is 0. |
| PupilProducers.RedetectEye | pupil_src/shared_modules/pupil_producers.py:214-219 | Restarting one eye keeps the positions, the per-frame lists and the pause flag. |
| PupilProducers.AfterRedetect | pupil_src/shared_modules/pupil_producers.py:209-219 | Every position is dropped, each world frame gets an empty list, and detection is unpaused. Each running eye video gets a play note, and then each eye is restarted or its video sought to the start. |
| PupilProducers.SetPausedFacts | pupil_src/shared_modules/pupil_producers.py:253-259 | The detection_paused setter stores the flag and changes nothing else. It sends one note per running eye video, in eye order: a pause note when pausing and a play note otherwise, each naming that eye's video. With no video running, no note is sent. |
| PupilProducers.InitialState | pupil_src/shared_modules/pupil_producers.py:108-117 | The state after restoring a session is well formed. |
| PupilProducers.StartIncompleteUpTo | pupil_src/shared_modules/pupil_producers.py:120-122 | Starting the incomplete eyes below a bound keeps the state well formed. |
| PupilProducers.StartIncomplete | pupil_src/shared_modules/pupil_producers.py:120-122 | Starting every incomplete eye keeps the state well formed. |
| PySeq.PyIndex | pupil_src/shared_modules/pupil_producers.py:71 | A list index succeeds exactly within -len..len-1, and a non-negative index gives that element. |
| PupilProducers.OfflinePupilDetection.constructor | pupil_src/shared_modules/pupil_producers.py:92-127 | The session is restored and the frames counted. Every eye not complete is started, and the positions are published at once when no eye video runs. |
| PupilProducers.OfflinePupilDetection.StartIncompleteEyes | pupil_src/shared_modules/pupil_producers.py:120-122 | The loop over both eyes is StartIncomplete. |
| PupilProducers.OfflinePupilDetection.StartEyeProcess | pupil_src/shared_modules/pupil_producers.py:129-154 | start_eye_process moves the state as StartEye says. |
| PupilProducers.OfflinePupilDetection.StopEyeProcess | pupil_src/shared_modules/pupil_producers.py:156-158 | stop_eye_process announces the stop and forgets the eye's video. |
| PupilProducers.OfflinePupilDetection.Publish | pupil_src/shared_modules/pupil_producers.py:180-184 | correlate_publish moves the state as CorrelatePublish says. |
| PupilProducers.OfflinePupilDetection.RecentEvents | pupil_src/shared_modules/pupil_producers.py:160-178 | The current frame's positions come first, as a list index. Then every waiting message is handled in order, then the progress is computed. |
| PupilProducers.OfflinePupilDetection.HandleOne | pupil_src/shared_modules/pupil_producers.py:163-176 | One received message moves the state as HandleMessage says. |
| PupilProducers.OfflinePupilDetection.SetDetectionPaused | pupil_src/shared_modules/pupil_producers.py:253-259 | The setter's loop over both eyes moves the state as SetPaused says. |
| PupilProducers.OfflinePupilDetection.Redetect | pupil_src/shared_modules/pupil_producers.py:209-219 | redetect moves the state as AfterRedetect says. |
| PupilProducers.OfflinePupilDetection.OnEyeProcessStarted | pupil_src/shared_modules/pupil_producers.py:221-225 | A started eye process announces the detection method, redetects, and keeps the method. |
| PupilProducers.OfflinePupilDetection.OnEyeProcessStopped | pupil_src/shared_modules/pupil_producers.py:194-195 | A stopped eye process forgets that eye's video, and nothing else. |
| PupilProducers.OfflinePupilDetection.Cleanup | pupil_src/shared_modules/pupil_producers.py:197-207 | Both eyes are stopped, and the session is saved without a version. |
| SurfaceMarkers.FromMarker | pupil_src/shared_modules/surface_tracker/surface_marker_detector.py:38-47 | SQUARE maps to SQUARE_MARKER and APRILTAG_V3 to APRILTAG_MARKER, each both ways. Any other type raises ValueError. |
| SurfaceMarkers.Label | pupil_src/shared_modules/surface_tracker/surface_marker_detector.py:49-55 | Each mode has a non-empty label, and only the apriltag label starts with 'A'. |
| SurfaceMarkers.LabelsNameModes | pupil_src/shared_modules/surface_tracker/surface_marker_detector.py:49-55 | The two labels differ, so a label names its mode, and the apriltag label names the tag36h11 family. |
| SurfaceMarkers.MakeParams | pupil_src/shared_modules/surface_tracker/surface_marker_detector.py:196-214 | The parameters are refused with AssertionError exactly when no family is given. Otherwise they hold every argument as given. |
| SurfaceMarkers.Lookup | pupil_src/shared_modules/surface_tracker/surface_marker_detector.py:216-230 | A value found under a key is stored under that key. |
| SurfaceMarkers.FindAt | pupil_src/shared_modules/surface_tracker/surface_marker_detector.py:216-230 | With distinct keys an argument is found at its own position. |
| SurfaceMarkers.Compact | pupil_src/shared_modules/surface_tracker/surface_marker_detector.py:219-230 | Dropping the unset arguments keeps exactly the set ones, each under its own key, with the keys distinct. |
| SurfaceMarkers.ToDict | pupil_src/shared_modules/surface_tracker/surface_marker_detector.py:216-230 | 'families' always comes first, joined by spaces, and the keys are distinct. |
| SurfaceMarkers.Arguments | pupil_src/shared_modules/surface_tracker/surface_marker_detector.py:216-230 | to_dict considers the seven keyword arguments, each under its own key. |
| SurfaceMarkers.ToDictEntries | pupil_src/shared_modules/surface_tracker/surface_marker_detector.py:219-230 | Each other parameter is present exactly when it was given, and debug becomes 0 or 1. |
| SurfaceMarkers.FamiliesRoundTrip | pupil_src/shared_modules/surface_tracker/surface_marker_detector.py:218 | When no family holds a space, splitting the 'families' entry on spaces gives the families back. |
| SurfaceMarkers.DetectorParams | pupil_src/shared_modules/surface_tracker/surface_marker_detector.py:262-270 | The apriltag detector's families are always [tag36h11], and the parameter constructor accepts them. |
| SurfaceMarkers.Filter | pupil_src/shared_modules/surface_tracker/surface_marker_detector.py:100-101 | A marker is kept iff the minimum perimeter is at most its perimeter, and no marker is added. |
| SurfaceMarkers.FilterAppend | pupil_src/shared_modules/surface_tracker/surface_marker_detector.py:378-385 | Filtering keeps order: filtering two runs is filtering each run in turn. |
| SurfaceMarkers.MapSeq | pupil_src/shared_modules/surface_tracker/surface_marker_detector.py:191 | Each raw detection becomes one marker, in order. |
| SurfaceMarkers.Defaulted | pupil_src/shared_modules/surface_tracker/surface_marker_detector.py:112-127 | An argument left as '...' takes the default, and a given one is kept. |
| SurfaceMarkers.SquareStep | pupil_src/shared_modules/surface_tracker/surface_marker_detector.py:153-193 | Without the square mode nothing changes and no marker is found. Otherwise only the previous markers and frame index change, the index becoming the frame's. Every marker is a square marker at least the minimum perimeter long. |
| SurfaceMarkers.OfflineJumpForgets | pupil_src/shared_modules/surface_tracker/surface_marker_detector.py:163-166 | Offline, after a jump in the frame index the markers remembered before do not matter. |
| SurfaceMarkers.ConsecutiveFramesChain | pupil_src/shared_modules/surface_tracker/surface_marker_detector.py:165-190 | Offline, a frame detected right after another sees that frame's raw markers. |
| SurfaceMarkers.SquareDetector.constructor | pupil_src/shared_modules/surface_tracker/surface_marker_detector.py:105-127 | The defaults are minimum perimeter 60, markers not inverted and offline mode, with no previous frame. |
| SurfaceMarkers.SquareDetector.Detect | pupil_src/shared_modules/surface_tracker/surface_marker_detector.py:153-193 | detect_markers_iter moves the detector as SquareStep says and returns its markers. |
| SurfaceMarkers.ApriltagMinPerimeterAsWritten | pupil_src/shared_modules/surface_tracker/surface_marker_detector.py:253-272 | As written, an omitted minimum perimeter stays unset (`...`), never a number, and a given one is kept. |
| SurfaceMarkers.ApriltagMinPerimeter | pupil_src/shared_modules/surface_tracker/surface_marker_detector.py:253-272 | The corrected apriltag default perimeter is the square detector's default, 60. |
| SurfaceMarkers.CombinedMinPerimeter | pupil_src/shared_modules/surface_tracker/surface_marker_detector.py:353-357 | The combined getter succeeds exactly when both detectors hold the same perimeter. |
| SurfaceMarkers.DefaultMinPerimeterDisagrees | pupil_src/shared_modules/surface_tracker/surface_marker_detector.py:353-357 | As written, a combined detector built without a minimum perimeter fails its own getter. |
| SurfaceMarkers.SharedDefaultAgrees | pupil_src/shared_modules/surface_tracker/surface_marker_detector.py:327-357 | With the shared default, both detectors agree for every constructor argument. |
| SurfaceMarkers.ApriltagDetector.constructor | pupil_src/shared_modules/surface_tracker/surface_marker_detector.py:250-272 | Any families argument is ignored, and the detector looks for tag36h11. The modes are stored, and so is the minimum perimeter with the corrected default of 60 when it is left out (see Findings). |
| SurfaceMarkers.ApriltagDetector.Detect | pupil_src/shared_modules/surface_tracker/surface_marker_detector.py:298-309 | Without the apriltag mode no marker is found. Otherwise the markers are the detector's output, built from to_dict, mapped and filtered. |
| SurfaceMarkers.CombinedDetector.constructor | pupil_src/shared_modules/surface_tracker/surface_marker_detector.py:313-343 | Both sub-detectors get the same modes and minimum perimeter, using the corrected default of 60 when it is left out (see Findings), so they agree. The apriltag detector gets the given detector parameters, and its family is tag36h11. |
| SurfaceMarkers.CombinedDetector.SetInvertedMarkers | pupil_src/shared_modules/surface_tracker/surface_marker_detector.py:345-351 | The inverted flag is set on the square detector and read back. |
| SurfaceMarkers.CombinedDetector.MinPerimeter | pupil_src/shared_modules/surface_tracker/surface_marker_detector.py:353-357 | When the detectors agree, the getter gives the shared perimeter. |
| SurfaceMarkers.CombinedDetector.SetMinPerimeter | pupil_src/shared_modules/surface_tracker/surface_marker_detector.py:359-362 | The setter writes both detectors, so the getter's assertion holds and reads the new value. |
| SurfaceMarkers.CombinedDetector.Modes | pupil_src/shared_modules/surface_tracker/surface_marker_detector.py:364-368 | The getter succeeds exactly when both detectors hold the same modes. |
| SurfaceMarkers.CombinedDetector.SetModes | pupil_src/shared_modules/surface_tracker/surface_marker_detector.py:370-373 | The setter writes both detectors, so the getter's assertion holds and reads the new value. |
| SurfaceMarkers.CombinedDetector.Detect | pupil_src/shared_modules/surface_tracker/surface_marker_detector.py:375-385 | The square markers come first, then the apriltag markers, and the square detector moves as SquareStep says. |
| Sorting.SortByFacts | pupil_src/shared_modules/gaze_producers.py:296 | sorted by a key gives an ordered permutation of its input. |
| Sorting.SortByStable | pupil_src/shared_modules/gaze_producers.py:296 | Among equal keys sorted keeps the input order. |
| Decimal.NatToStringInjective | pupil_src/shared_modules/gaze_sections.py:99 | Different counters have different decimal texts. |
| Decimal.ParseIntOfNatToString | pupil_src/shared_modules/seek_control.py:120-126 | int() reads back what str() wrote for a non-negative number, also with blanks around it. |
| PySeq.Slice | pupil_src/shared_modules/gaze_sections.py:270 | A slice within bounds is Dafny's subsequence, and any slice is no longer than the list. |
| PySeq.SplitJoin | pupil_src/shared_modules/surface_tracker/surface_marker_detector.py:218 | Splitting what join made gives the parts back, when no part holds the separator. |
| PyPath.JoinInjective | pupil_src/shared_modules/gaze_sections.py:324-328 | Joining one directory with two relative names gives the same path only for the same name. |

## Left out

- User interface and rendering are not modelled: every `init_ui`, `deinit_ui` and menu, `gl_display`, `draw_range`, the time formatting in `format_index` and in the trim-mark button's label (the range the button sets is modelled), and the blink histogram of `gen_hist_points`.
- Section removal: the sections of the plugin generation (`base_sections.py`) have no `remove`. The `remove` of `deprecated.py` (lines 119-122) first calls `deinit_ui`, which that class does not define, so it raises AttributeError. It would then republish through `parent` and call `cleanup`, which it does not define either. It is not modelled. The legacy `remove` is modelled as `GazeProducers.OfflineCalibration.RemoveSection`.
- Foreign code is a function parameter with no further property. This covers `select_calibration_method` (the fit), the gaze mapper's `on_pupil_datum`, `correlate_data`, `square_marker_detect.detect_markers_robust`, the `pupil_apriltags` detector, numpy's `rfft` and `abs`, and `uuid4`.
- The scan-path preprocessing and background tasks and `ScanPathStorage` are reduced to an active flag, a progress value and a store of valid, complete and data fields. Their own code is not part of this model.
- `surface_marker.py` is not part of this model: a raw detection is an id and a perimeter, and `Surface_Marker` is a type, an id and a perimeter.
- `background_helper.Task_Proxy` is not part of this model. A task is the full list of results its generator yields, and `fetch` hands over as many as messages wait. The workers run sequentially.
- I/O is abstract. Files are maps from path to the saved value, and msgpack and pickle encoding, `os.rename`, `os.remove` and `makedirs` have no byte-level model. `load_object`, `save_object` and `Persistent_Dict` are not modelled beyond that map. A saved session or token file always carries a version, so a file without a 'version' key is not representable. In the source, `session_data['version']` (gaze_producers.py:143) and `loaded["version"]` (token_manager.py:71) raise there without being caught: KeyError on a dict, AttributeError on an `Immutable_Dict`.
- zmq pipes and the eye processes are not modelled. A received message is a datatype, and starting or stopping an eye is the notification it sends.
- The wall clock and memory statistics of `correlate_publish` (pupil_producers.py:185-189) are not modelled.
- Floating point is modelled as exact reals: offsets, timestamps, perimeters and progress values. The weighted scan-path progress is stated on reals.
- LegacySections.ProgressPercentFacts: states 0 <= P <= 100 rather than 0 < P. P = floor(100*(idx+1)/n) is 0 for the first datum once more than 100 data are mapped, so the model follows the code.
- LegacySections.PlanCalibration: an unknown mapper name is a KeyError in the mapper lookup inside the worker, and that is not modelled. The worker is a function parameter.
- GazeProducers.OfflineCalibration.OnClick: requires the current frame to lie within the recording's timestamps and the frame size to be non-zero. The IndexError and ZeroDivisionError the source would raise otherwise are not modelled.
- Keyword arguments of the wrong Python type are not modelled: a Value datatype stands for the dict entries the section constructors read.
- PupilProducers.OfflinePupilDetection.constructor: requires a restored session whose positions have eye ids 0 or 1 and whose status list has exactly two entries. In the source an eye id of -1 or -2 counts for eye 1 or eye 0 through negative indexing, any other id raises IndexError, a status list shorter than two raises IndexError, and a longer one is accepted. None of that is modelled.
- PupilProducers.OfflinePupilDetection.constructor and PupilProducers.CleanupRestores: the model copies the restored status into a list. In the source `load_object` (file_methods.py:133, `use_list=False`) restores it as a tuple, so the assignments at pupil_producers.py:136, 140, 153, 169 and 173 raise TypeError. This is modelled only by PupilProducers.InitStatusAsWritten (see Findings).
- GazeProducers.OfflineCalibration.constructor, GazeProducers.SaveRestoreRoundTrip and GazeProducers.OpenOfflineCalibration: restored section caches are modelled as mutable dicts. In the source `load_object` gives `Immutable_Dict` records, so the item assignments into a restored cache (gaze_sections.py:224, 267, 284, 289, 295 and 347) raise TypeError. So the first calibration of OpenOfflineCalibration raises at gaze_sections.py:267 for a restored session. That is not modelled.
- GazeProducers.RestoreSession, GazeProducers.OfflineCalibration.constructor, GazeProducers.OfflineCalibration.UseAsNaturalFeatures, GazeProducers.OfflineCalibration.JumpNextNaturalFeature and GazeProducers.OfflineCalibration.OnClick: the restored manual references are modelled as a list, so these edits succeed. In the source `load_object` restores them as a tuple. Until clear_natural_features assigns a new list, `.extend` (gaze_producers.py:185), `.sort` (:186, :189) and `.append` (:267) raise AttributeError, and `del` (:259) raises TypeError. That behaviour is modelled separately by GazeProducers.RestoredRefsRaise (see Findings).
- PupilProducers.CorrelatePublish: the dict order handed to correlate_data is not modelled. The per-frame lists are the parameter's output.
- BlinkDetection.BlinkDetector.RecentEvents: the spectrum is a parameter over the confidences, so the FFT is not modelled.
- Constraints.BooleanValues: bool() gives False or True, modelled as 0.0 or 1.0 in the value's real type.
- Constraints.ConstraintedPosition.Text: the text of one coordinate is a parameter, since Python's float formatting is not modelled.
- TokenManagers.TokenManager.ActedOnInputToken: uuid4 is a parameter giving the k-th token, so freshness is not modelled.
- TokenManagers.TokenManager.SaveToFile: when packing raises, `save_object` has already opened the file for writing and leaves it empty. That empty file is not modelled.
- FileMethods.RecordClasses.Create: valid field names use an ASCII-only identifier check; Unicode identifiers are not modelled.
- FileMethods.GetItem: slice keys, and attribute names that namedtuple itself defines (such as `count`), are not modelled.
- FileMethods.Serialize: msgpack's treatment of non-string keys is not modelled.
- Decimal.ParseIntOfNatToString: int() is modelled for an optional sign, ASCII decimal digits and surrounding space, tab, newline, carriage return, vertical tab and form feed. The model rejects what Python also accepts: underscores between digits, non-ASCII Unicode digits, the separators \x1c to \x1f, and non-ASCII whitespace.
- SeekControl.SeekControl.SetCurrentIndex and SeekControl.SeekControl.OnSeek: a failing seek_to_frame is swallowed by a bare except in the source; the model records every seek request as successful.
- SurfaceMarkers.Label: the ValueError branch of `label` cannot be reached with the two modes, so it is not modelled, and `all_supported_cases` is the two modes.
- SurfaceMarkers.SquareDetector.Detect: the lazy map and filter iterators are evaluated at once. `__getstate__` and `__setstate__` pickling is only modelled as the constructor's call.
- ScanPath.ScanPathController.PreprocCanceled: the cancel observer for the background task sits on the preprocessing task. This is modelled as written, and the background task's own cancel event has no observer.

## Findings

| source | as written | input that shows it | evidently intended | confidence | as-written member | corrected member |
|---|---|---|---|---|---|---|
| pupil_src/shared_modules/gaze_sections/calibration_section.py:143-146 | `save_calibration` writes `self.calibration`, which Calibration_Section does not have, so it raises AttributeError. It is called from `__init__`, so no calibration section can be built. | `Calibration_Section(g_pool)` with any arguments | write the stamped `self.calibrated_mapper` to the section's file | not executed | PluginSections.SaveCalibrationAsWrittenRaises | PluginSections.SaveCalibration |
| pupil_src/shared_modules/file_methods.py:84-114 | `extend_copy` passes a zip iterator. When the names are invalid, `zip(*obj_pairs)` has already consumed it, so the fallback `dict(obj_pairs)` is empty. | a record {a: 1} and `.extend_copy(a=2)` gives {} | the fallback dict {a: 2} of all pairs | not executed | FileMethods.RecordClasses.ExtendCopyAsWritten | FileMethods.RecordClasses.ExtendCopy |
| pupil_src/shared_modules/surface_tracker/surface_marker_detector.py:253-272 | The apriltag detector stores `marker_min_perimeter = ...` when the argument is left out, while the square detector defaults to 60. The combined getter's assertion then fails, and the filter compares Ellipsis with a perimeter. | `Surface_Combined_Marker_Detector({APRILTAG_MARKER}).marker_min_perimeter` | the same default of 60 for both detectors | not executed | SurfaceMarkers.DefaultMinPerimeterDisagrees, SurfaceMarkers.ApriltagMinPerimeterAsWritten | SurfaceMarkers.ApriltagMinPerimeter |
| pupil_src/shared_modules/gaze_sections/base_sections.py:84-99 | `set_from_trim_marks` reads each end's time from `self.parent.g_pool.timestamps`, and no section of the plugin generation has a `parent`, so every call raises AttributeError. The full call has already set the range. | the format-only call made when the menu is built, with `application_range=(0, 10)` and 100 frames | read the times from `self.g_pool.timestamps`, as the line before does for the first frame | not executed | PluginSections.TrimButtonAsWritten | PluginSections.TrimButton |
| pupil_src/shared_modules/pupil_producers.py:103-153 | `load_object` unpacks arrays with `use_list=False`, so a restored `detection_status` is a tuple. `__init__` starts every eye that is not complete, and `start_eye_process` assigns into the status, which raises TypeError. | cleanup while eye 0 is still 'Detecting...', then opening the recording again | restore the status as a list, e.g. `list(session_data['detection_status'])` | not executed | PupilProducers.InitStatusAsWritten | PupilProducers.OfflinePupilDetection.constructor |
| pupil_src/shared_modules/gaze_producers.py:141-267 | `load_object` unpacks arrays with `use_list=False`, so the restored `manual_ref_positions` is a tuple. `save_cache` writes a current-version session at every cleanup. After reopening a recording, `use_as_natural_features`, `jump_next_natural_feature` and `on_click` raise on their first edit until the references are cleared. | close a recording with one manual reference, reopen it, then press 'jump to next natural feature' | restore the references as a list, e.g. `list(session_data['manual_ref_positions'])` | not executed | GazeProducers.RestoredRefsRaise | GazeProducers.ListEditsAgree |
