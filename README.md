# Screen recording tool — a Dafny model of its editing, input and device core

This project models the behaviour of a desktop screen recorder with a React
front end. The modelled parts are:

- **Recorder.** It records the screen and remembers every click as a *zoom event* (a time and a point).
- **Video editor.** It replays the recording and zooms in around each event. It also supports cropping, seeking, zoom regions, text overlays and export file naming.
- **Timeline editor.** Time markers, a zoom level and jump-to-position.
- **`useVideoEditor` hook.** It decides which processing stages an export runs.
- **Singleton utilities.** Keyboard input, error reporting, the persisted state store, file saving, frame effects and media devices.
- **Three UI panels.** Background, settings and preview.

Each source file is one Dafny module:

| module | source file | form |
|---|---|---|
| `VideoEditor` | `src/components/VideoEditor.tsx` | pure functions + class `Editor` |
| `RecordingUI` | `src/components/RecordingUI.tsx` | pure functions + class `Recorder` |
| `TimelineEditor` | `src/components/TimelineEditor.tsx` | pure functions + class `Timeline` |
| `VideoEditorHook` | `src/hooks/useVideoEditor.ts` | reducers on a state value + class `Hook` |
| `InputManager` | `src/utils/inputManager.ts` | class `Manager` over a `map` with insertion order |
| `KeyboardShortcuts` | `src/utils/keyboardShortcuts.ts` | class `Shortcuts` over a `seq` |
| `ErrorManager` | `src/utils/errorManager.ts` | class `Manager` |
| `StateManager` | `src/utils/stateManager.ts` | records as ordered key lists + class `Store` |
| `FileSystem` | `src/utils/fileSystem.ts` | validators + class `Manager` |
| `VideoProcessing` | `src/utils/videoProcessing.ts` | class `Processor` |
| `MediaDevices` | `src/utils/mediaDevices.ts` | class `Manager` |
| `BackgroundPanel` | `src/components/BackgroundPanel.tsx` | table + class `Panel` |
| `SettingsPage` | `src/components/pages/SettingsPage.tsx` | state-updater functions |
| `PreviewPage` | `src/components/pages/PreviewPage.tsx` | class `Page` |

Three helper modules are shared by the others:

- `Common` holds `Option`, `Result`, `Num` (a JavaScript number that may be non-finite), min/max/clamp and `Filter`.
- `Strings` holds ASCII case mapping, decimal digits, padding, substring search, trimming and the last field after a separator.
- `TimeFormat` holds JavaScript's truncating `%` and `Math.floor`, and the `m:ss` / `mm:ss` clock strings together with a reader that parses them back.

These modelling conventions apply throughout:

- JavaScript numbers are `real`.
- `%` is written out as truncation toward zero (`TimeFormat.JsRem`).
- `Math.round` is `floor(x + 1/2)`.
- An `isFinite` guard appears as the `Num` datatype wherever the code tests it.
- React state updates, refs and the DOM become fields of a class, updated by methods that are the event handlers.
- A handler that returns early when a ref is empty takes a `mounted` flag, or an `Option` holding the element's rectangle.
- Every browser, Electron or ffmpeg call is a parameter. The parameter gives the call's outcome: the chosen path, whether capture was granted, the bytes ffmpeg wrote. Alternatively the model records the call in a ghost or real log field.

## Model

| member | source | states |
|---|---|---|
| VideoEditor.FirstActive | src/components/VideoEditor.tsx:436-440 | the index returned is the first zoom event whose 4000 ms window (both ends included) holds the time; none exactly when no event's window holds it |
| VideoEditor.ZoomTransform | src/components/VideoEditor.tsx:442-454 | the zoom is always scale 1.5, and its translation moves the event point (read as pixels of the element) to the centre 50%/50% |
| VideoEditor.ZoomAt | src/components/VideoEditor.tsx:428-454 | a zoom is applied at playback second t exactly when some event's window contains t·1000 ms |
| VideoEditor.ZoomAtFirstWins | src/components/VideoEditor.tsx:436-454 | when several events are active, the earliest one in the list decides the zoom |
| VideoEditor.PercentEventCentredOnlyAt100 | src/components/VideoEditor.tsx:442-454 | an event recorded in percent is re-centred as a percentage only if it lies on the left edge or the element is exactly 100 px wide |
| VideoEditor.PointerPercent | src/components/VideoEditor.tsx:524-531 | the pointer's percentage lies in 0..100 exactly when the pointer is inside the element |
| VideoEditor.CropDrag | src/components/VideoEditor.tsx:533-561 | the crop box always lies inside the frame; for two in-frame points it spans exactly from the smaller to the larger coordinate on each axis |
| VideoEditor.CropDragSymmetric | src/components/VideoEditor.tsx:533-561 | the box does not depend on which corner the drag started from |
| VideoEditor.CropDragPastLeftEdge | src/components/VideoEditor.tsx:548-557 | a drag past the left edge clamps the corner to 0 but keeps the unclamped width: dragging from x 10 to x -20 gives a box from 0 to 30, not 0 to 10 |
| VideoEditor.DragPosition | src/components/VideoEditor.tsx:603-621 | a dragged overlay's position is always in frame, equals the pointer when the pointer is in frame, and sticks to the crossed edge otherwise |
| VideoEditor.SeekTarget | src/components/VideoEditor.tsx:471-481 | a non-finite slider value seeks nowhere; a finite one seeks inside [0, duration] and to the value itself when it is already in range |
| VideoEditor.RewindTime | src/components/VideoEditor.tsx:483-488 | rewinding never goes below 0 or past the current time, and moves back exactly 5 s when at least 5 s have played |
| VideoEditor.FastForwardTime | src/components/VideoEditor.tsx:490-495 | fast-forward never passes the duration and moves exactly 5 s ahead when that fits |
| VideoEditor.SkipsStayInRange | src/components/VideoEditor.tsx:483-495 | from a time in [0, duration] both skips land in [0, duration] |
| VideoEditor.TimelineClickTime | src/components/VideoEditor.tsx:809-826 | the seek target times the bar width equals the click offset times the duration; a seek happens exactly when the duration and bar width are non-zero and that time lies in [0, duration] |
| VideoEditor.TimelineClickOnBar | src/components/VideoEditor.tsx:809-826 | on a bar with width and a video with duration, a click seeks exactly when it falls on the bar |
| VideoEditor.UnitTimes | src/components/VideoEditor.tsx:818-823 | p·duration lies in [0, duration] exactly when the fraction p is in [0, 1] |
| VideoEditor.NewZoomRegion | src/components/VideoEditor.tsx:497-506 | a new region starts now at scale 1.5 and ends 2 s later or at the end of the video, whichever is earlier |
| VideoEditor.MergeRegion | src/components/VideoEditor.tsx:639-643 | each field of the region is taken from the update when given and kept otherwise |
| VideoEditor.MergeRegionLaws | src/components/VideoEditor.tsx:639-643 | an empty update changes nothing and applying the same update twice equals applying it once |
| VideoEditor.ShownOverlays | src/components/VideoEditor.tsx:976 | an overlay is displayed exactly when it is in the list and the time lies in its window |
| VideoEditor.ShownExactlyInWindow | src/components/VideoEditor.tsx:976 | an overlay is displayed at both ends of its window when the window is not empty, and never outside it |
| VideoEditor.NewOverlay | src/components/VideoEditor.tsx:623-637 | a new overlay keeps the typed text, position and style, runs from now to 5 s later capped at the duration, and is visible at once unless now is past the end |
| VideoEditor.FormatTimeReadsBack | src/components/VideoEditor.tsx:645-650 | the clock reads back as whole minutes and seconds under 60, and a non-finite time shows as 0:00 |
| VideoEditor.ResolutionDimensions | src/components/VideoEditor.tsx:660-667 | 720p gives 1280x720, 480p 854x480 and any other value 1920x1080; each width is the 16:9 width of its height, rounded up to a whole pixel |
| VideoEditor.ReplaceNonAlnum | src/components/VideoEditor.tsx:717 | every character that is not an ASCII letter or digit becomes `_` and the others are kept, length unchanged |
| VideoEditor.SanitizeTitleShape | src/components/VideoEditor.tsx:717 | the export name has the title's length, only lower-case letters, digits and `_`, and sanitising twice changes nothing |
| VideoEditor.ExportFileNameExtension | src/components/VideoEditor.tsx:761 | the downloaded file's extension is exactly the export format |
| VideoEditor.Editor.constructor | src/components/VideoEditor.tsx:311-345 | the editor starts at time 0 with no regions, overlays, crop or zoom, the title "Untitled Project" and the default text style |
| VideoEditor.Editor.LoadedMetadata | src/components/VideoEditor.tsx:398-410 | the duration is taken from the video only when it is finite |
| VideoEditor.Editor.ZoomTimeUpdate | src/components/VideoEditor.tsx:428-454 | with events and a mounted video, the zoom becomes the zoom in force at the played time; otherwise it is unchanged |
| VideoEditor.Editor.TimelineChange | src/components/VideoEditor.tsx:471-481 | the time becomes the clamped slider value when it is finite, and is unchanged otherwise |
| VideoEditor.Editor.Rewind | src/components/VideoEditor.tsx:483-488 | the time becomes the rewind target |
| VideoEditor.Editor.FastForward | src/components/VideoEditor.tsx:490-495 | the time becomes the fast-forward target |
| VideoEditor.Editor.TimelineClick | src/components/VideoEditor.tsx:809-826 | the time becomes the clicked time when there is one |
| VideoEditor.Editor.AddZoomRegion | src/components/VideoEditor.tsx:497-506 | the new region is appended and selected; other regions are untouched |
| VideoEditor.Editor.UpdateZoomRegion | src/components/VideoEditor.tsx:639-643 | only the indexed region changes, merged with the update |
| VideoEditor.Editor.AddText | src/components/VideoEditor.tsx:623-637 | blank text adds nothing; otherwise the overlay is appended, the input cleared and the text mode closed |
| VideoEditor.Editor.TextDrag | src/components/VideoEditor.tsx:603-621 | only the dragged overlay moves, to an in-frame position |
| VideoEditor.Editor.CropMouseDown | src/components/VideoEditor.tsx:524-531 | the crop starts at the pointer with an empty box |
| VideoEditor.Editor.CropMouseMove | src/components/VideoEditor.tsx:533-561 | while a crop is started the box becomes the drag rectangle; otherwise nothing changes |
| VideoEditor.Editor.CropMouseUp | src/components/VideoEditor.tsx:563-565 | the crop start is cleared |
| VideoEditor.Editor.VideoClick | src/components/VideoEditor.tsx:828-860 | outside crop mode a click zooms on the clicked point, measured in pixels from the element's corner; the event list is not extended |
| RecordingUI.RecordingBytes | src/components/RecordingUI.tsx:476-484 | no chunks give an empty recording |
| RecordingUI.EmptyChunksDoNotMatter | src/components/RecordingUI.tsx:476-480 | dropping empty chunks leaves the recorded bytes unchanged |
| RecordingUI.RecordingBytesAppend | src/components/RecordingUI.tsx:484 | the bytes of concatenated chunk lists are the concatenated bytes |
| RecordingUI.CameraClamp | src/components/RecordingUI.tsx:212-225 | the camera coordinate is never negative, never past the limit when the limit is not negative, and unchanged when already in range |
| RecordingUI.CameraDrag | src/components/RecordingUI.tsx:212-225 | a dragged camera stays inside its container |
| RecordingUI.CameraDragStill | src/components/RecordingUI.tsx:212-225 | a move without displacement leaves an in-range camera where it was |
| RecordingUI.OutputNameMatchesMime | src/components/RecordingUI.tsx:364-399 | the ffmpeg output file's extension matches the MIME subtype of the result, and only mp4 writes output.mp4 |
| RecordingUI.ConvertResult | src/components/RecordingUI.tsx:303-425 | webm is returned unchanged; otherwise a load failure, a failed write/exec/list/read step, text output and empty bytes each give their own error, and non-empty bytes give a blob of exactly those bytes with the format's MIME type |
| RecordingUI.ConvertProgressMonotone | src/components/RecordingUI.tsx:323-404 | progress is a strictly increasing prefix of 10, 30, 90, 100 and reaches 100 exactly when the conversion succeeds |
| RecordingUI.Recorder.constructor | src/components/RecordingUI.tsx:148-171 | not recording, format webm, no events or chunks, camera at (20, 20) |
| RecordingUI.Recorder.ScreenClick | src/components/RecordingUI.tsx:427-446 | while recording, a click appends an event stamped with the time since the start and the pointer in percent of the screen |
| RecordingUI.Recorder.StartRecording | src/components/RecordingUI.tsx:448-503 | events and chunks are reset and the start time set; recording begins exactly when capture is granted |
| RecordingUI.Recorder.DataAvailable | src/components/RecordingUI.tsx:476-480 | a non-empty chunk is appended, and the recording's bytes grow by exactly the chunk's bytes |
| RecordingUI.Recorder.RecordedBlob | src/components/RecordingUI.tsx:484 | the recording is tagged `video/webm;codecs=vp9,opus` |
| RecordingUI.Recorder.StopRecording | src/components/RecordingUI.tsx:505-511 | an active recorder is stopped and recording ends; otherwise nothing changes |
| RecordingUI.Recorder.CameraMouseMove | src/components/RecordingUI.tsx:212-225 | the camera moves to the clamped drag position on both axes |
| RecordingUI.Recorder.Convert | src/components/RecordingUI.tsx:303-425 | returns the conversion result, shows the last progress step, and always ends the processing flag for a conversion |
| TimelineEditor.FormatTimeShape | src/components/TimelineEditor.tsx:52-56 | under 100 minutes the clock is `mm:ss`, five characters, reading back as minutes and seconds |
| TimelineEditor.Ceil | src/components/TimelineEditor.tsx:68-81 | `Math.ceil`: the least integer not below the input |
| TimelineEditor.MarkerPosition | src/components/TimelineEditor.tsx:68-81 | a marker's left offset is finite exactly when the duration is not 0, and is then the time as a percentage of the duration (offset times duration equals time times 100); in 0..100 % for in-range times |
| TimelineEditor.MarkerAt | src/components/TimelineEditor.tsx:68-81 | every fifth second is a major marker, 12 px tall with a caption; the others are 8 px tall with none |
| TimelineEditor.MarkersCover | src/components/TimelineEditor.tsx:68-81 | there is one marker per whole second up to the rounded-up duration, and those not past the end sit within the bar |
| TimelineEditor.MajorLabel | src/components/TimelineEditor.tsx:68-81 | a major marker's caption reads back as its own second, split into minutes and seconds |
| TimelineEditor.JumpTime | src/components/TimelineEditor.tsx:58-66 | a jump always lands in [0, duration] |
| TimelineEditor.JumpTimeOnBar | src/components/TimelineEditor.tsx:58-66 | a click on the bar jumps proportionally to its position |
| TimelineEditor.Timeline.constructor | src/components/TimelineEditor.tsx:16-20 | time 0, zoom 1, trim range the whole video |
| TimelineEditor.Timeline.TimeUpdate | src/components/TimelineEditor.tsx:27-30 | the time and the marker follow the played time |
| TimelineEditor.Timeline.TrimChange | src/components/TimelineEditor.tsx:43-46 | the trim range becomes the slider pair |
| TimelineEditor.Timeline.ZoomOut | src/components/TimelineEditor.tsx:96-98 | the zoom drops by 0.5 but not below 1, and stays within 1..3 |
| TimelineEditor.Timeline.ZoomIn | src/components/TimelineEditor.tsx:104-108 | the zoom rises by 0.5 but not above 3, and stays within 1..3 |
| TimelineEditor.Timeline.JumpToPosition | src/components/TimelineEditor.tsx:58-66 | the video time becomes the jump target |
| VideoEditorHook.Initial | src/hooks/useVideoEditor.ts:20-32 | the initial state covers the whole video with the first gradient background, no smart features, not processing |
| VideoEditorHook.InitialBackgroundIsFirstGradient | src/hooks/useVideoEditor.ts:20-32 | the initial background is exactly what the background panel emits for its first gradient |
| VideoEditorHook.SetTrimRange | src/hooks/useVideoEditor.ts:34-39 | only the trim range changes |
| VideoEditorHook.SetBackground | src/hooks/useVideoEditor.ts:41-46 | only the background changes |
| VideoEditorHook.ToggleSmartFeature | src/hooks/useVideoEditor.ts:48-56 | the feature gets the flag; other features and fields are kept |
| VideoEditorHook.ToggleOnOff | src/hooks/useVideoEditor.ts:48-56 | switching a feature on and then off equals switching it off |
| VideoEditorHook.Stages | src/hooks/useVideoEditor.ts:58-108 | processing always starts with the fetch and ends with the export |
| VideoEditorHook.StagesChosen | src/hooks/useVideoEditor.ts:73-91 | trimming runs exactly when the range cuts the video, and the background stage exactly when blur or dim is set |
| VideoEditorHook.ProcessedFollowsStages | src/hooks/useVideoEditor.ts:58-108 | the exported media has gone through exactly the chosen stages in order |
| VideoEditorHook.NothingToApply | src/hooks/useVideoEditor.ts:73-91 | an untrimmed video with no blur or dim is fetched and exported unchanged |
| VideoEditorHook.ProcessResult | src/hooks/useVideoEditor.ts:58-108 | processing fails exactly when one of its stages fails, and otherwise yields the exported media |
| VideoEditorHook.FirstFailing | src/hooks/useVideoEditor.ts:58-108 | the first failing stage, or the end when none fails |
| VideoEditorHook.Attempted | src/hooks/useVideoEditor.ts:58-108 | the stages tried are a prefix of the plan that stops at the first failure |
| VideoEditorHook.StopsAt | src/hooks/useVideoEditor.ts:58-108 | the first failing stage is the error, and nothing after it is tried |
| VideoEditorHook.Hook.constructor | src/hooks/useVideoEditor.ts:20-32 | the hook starts in the initial state |
| VideoEditorHook.Hook.Call | src/hooks/useVideoEditor.ts:73-100 | a stage call succeeds unless the stage fails, and is logged |
| VideoEditorHook.Hook.ProcessVideo | src/hooks/useVideoEditor.ts:58-108 | returns the processing result, calls exactly the attempted stages, and clears the processing flag whatever happens |
| VideoEditorHook.Hook.RunStages | src/hooks/useVideoEditor.ts:68-100 | running the stages in order yields the processing result and logs the attempted stages |
| InputManager.CompositeKeyReadsBack | src/utils/inputManager.ts:111-119 | a shortcut's composite key reads back as its four truthy modifier flags and its upper-cased key |
| InputManager.SameKeyIff | src/utils/inputManager.ts:111-119 | two shortcuts share a map key exactly when their truthy modifiers and upper-cased keys agree |
| InputManager.UndefinedModifierNeverMatches | src/utils/inputManager.ts:121-141 | under strict equality a shortcut leaving any modifier undefined matches no key event |
| InputManager.FirstMatch | src/utils/inputManager.ts:121-141 | the first shortcut in insertion order that matches the event, or none exactly when none matches |
| InputManager.MergeOptions | src/utils/inputManager.ts:66-68 | each option is taken from the update when given and kept otherwise |
| InputManager.Without | src/utils/inputManager.ts:45-48 | removing a key from the insertion order keeps every other key |
| InputManager.WithoutDistinct | src/utils/inputManager.ts:45-48 | removal keeps the insertion order free of duplicates |
| InputManager.Entries | src/utils/inputManager.ts:121-141 | the map's values in insertion order |
| InputManager.DefaultKeysDistinct | src/utils/inputManager.ts:144-245 | the ten default shortcuts have ten different composite keys |
| InputManager.DefaultsNeverMatch | src/utils/inputManager.ts:144-245 | no key event matches any default shortcut, since each leaves a modifier undefined |
| InputManager.Manager.constructor | src/utils/inputManager.ts:27-30 | enabled, default options, and the ten defaults registered in order |
| InputManager.Manager.AddShortcut | src/utils/inputManager.ts:40-43 | the shortcut is stored under its key, replacing any previous one; a new key joins the end of the order |
| InputManager.Manager.RemoveShortcut | src/utils/inputManager.ts:45-48 | the key is removed from the map and the order |
| InputManager.Manager.UpdateShortcut | src/utils/inputManager.ts:50-55 | the old key is deleted and the new shortcut stored under its key; that key moves to the end of the iteration order unless it was another entry already present, which keeps its place |
| InputManager.Manager.Enable | src/utils/inputManager.ts:58-60 | the manager is enabled |
| InputManager.Manager.Disable | src/utils/inputManager.ts:62-64 | the manager is disabled |
| InputManager.Manager.SetOptions | src/utils/inputManager.ts:66-68 | the options are merged with the update |
| InputManager.Manager.FindMatchingShortcut | src/utils/inputManager.ts:121-141 | returns the first matching shortcut in insertion order, or none exactly when none matches |
| InputManager.Manager.HandleKeyDown | src/utils/inputManager.ts:79-92 | when disabled nothing happens; otherwise the first match's action runs and the event is prevented/stopped as the options say |
| InputManager.Manager.SetupDefaultShortcuts | src/utils/inputManager.ts:144-245 | the ten defaults are registered in order |
| KeyboardShortcuts.FirstMatch | src/utils/keyboardShortcuts.ts:27-35 | the first binding matching the event, or none exactly when none matches |
| KeyboardShortcuts.WithoutKey | src/utils/keyboardShortcuts.ts:22-24 | exactly the bindings with another key remain |
| KeyboardShortcuts.WithoutAbsentKey | src/utils/keyboardShortcuts.ts:22-24 | removing a key no binding has changes nothing |
| KeyboardShortcuts.WithoutKeyAppend | src/utils/keyboardShortcuts.ts:18-24 | removal distributes over concatenation, so a binding added later is removed like the rest |
| KeyboardShortcuts.Shadows | src/utils/keyboardShortcuts.ts:27-35 | a binding with the same key and fewer required modifiers matches every event the other one matches |
| KeyboardShortcuts.ZoomOutUnreachable | src/utils/keyboardShortcuts.ts:51-102 | the second default (Ctrl+Shift+Z) never fires, because Ctrl+Z before it matches the same events |
| KeyboardShortcuts.EscapeExits | src/utils/keyboardShortcuts.ts:51-102 | plain Escape fires the sixth default |
| KeyboardShortcuts.Shortcuts.constructor | src/utils/keyboardShortcuts.ts:10-16 | no bindings |
| KeyboardShortcuts.Shortcuts.AddShortcut | src/utils/keyboardShortcuts.ts:18-20 | the binding is appended |
| KeyboardShortcuts.Shortcuts.RemoveShortcut | src/utils/keyboardShortcuts.ts:22-24 | every binding with that key is removed |
| KeyboardShortcuts.Shortcuts.HandleKeyDown | src/utils/keyboardShortcuts.ts:26-41 | the event is prevented exactly when some binding matches, and then the first match's channel is sent |
| KeyboardShortcuts.Shortcuts.Load | src/utils/keyboardShortcuts.ts:48-102 | a new instance holds the six defaults in order |
| ErrorManager.Capped | src/utils/errorManager.ts:77-79 | the history keeps at most 100 entries by dropping the oldest |
| ErrorManager.Stamp | src/utils/errorManager.ts:59-64 | the recorded error keeps the reported fields and gets the current time |
| ErrorManager.HistoryAfterReport | src/utils/errorManager.ts:59-80 | after a report the history holds at most 100 entries, ends with the new error and is a suffix of the old history plus it |
| ErrorManager.OfSeverity | src/utils/errorManager.ts:177-179 | exactly the recorded errors of that severity |
| ErrorManager.SeveritiesPartition | src/utils/errorManager.ts:177-179 | the four severity filters together count every error once |
| ErrorManager.CreateError | src/utils/errorManager.ts:182-189 | a new error carries the message and context, no stack, and severity medium unless one is given |
| ErrorManager.CreateCriticalError | src/utils/errorManager.ts:191-193 | severity critical, with the given message and context, stamped now and without a stack |
| ErrorManager.CreateHighSeverityError | src/utils/errorManager.ts:195-197 | severity high, with the given message and context, stamped now and without a stack |
| ErrorManager.CreateMediumSeverityError | src/utils/errorManager.ts:199-201 | severity medium, stamped now and without a stack, the same as leaving the severity out |
| ErrorManager.CreateLowSeverityError | src/utils/errorManager.ts:203-205 | severity low, with the given message and context, stamped now and without a stack |
| ErrorManager.WithoutListener | src/utils/errorManager.ts:156-158 | exactly the other listeners remain |
| ErrorManager.RemoveAbsentListener | src/utils/errorManager.ts:156-158 | removing an unknown listener changes nothing |
| ErrorManager.Manager.constructor | src/utils/errorManager.ts:18-22 | no errors and no listeners |
| ErrorManager.Manager.HandleError | src/utils/errorManager.ts:59-80 | the stamped error is appended to the capped history, every listener is notified, and the critical path runs exactly for critical errors |
| ErrorManager.Manager.NotifyListeners | src/utils/errorManager.ts:160-162 | every listener is called, in registration order |
| ErrorManager.Manager.AddErrorListener | src/utils/errorManager.ts:152-154 | the listener is appended |
| ErrorManager.Manager.RemoveErrorListener | src/utils/errorManager.ts:156-158 | the listener is removed |
| ErrorManager.Manager.GetErrors | src/utils/errorManager.ts:165-167 | the whole history |
| ErrorManager.Manager.ClearErrors | src/utils/errorManager.ts:169-171 | the history is emptied |
| ErrorManager.Manager.GetErrorCount | src/utils/errorManager.ts:173-175 | the history's length, never above 100 |
| ErrorManager.Manager.GetErrorsBySeverity | src/utils/errorManager.ts:177-179 | the errors of that severity |
| StateManager.NewKeys | src/utils/stateManager.ts:36-41 | the keys of the update that the state does not have yet |
| StateManager.NewKeysDistinct | src/utils/stateManager.ts:36-41 | new keys are listed once each |
| StateManager.Merge | src/utils/stateManager.ts:36-41 | `{...state, ...partial}`: each key reads the update's value when present and the state's otherwise; old keys keep their order |
| StateManager.DistinctAppend | src/utils/stateManager.ts:36-41 | appending new keys keeps the key order free of duplicates |
| StateManager.MergedKeys | src/utils/stateManager.ts:36-41 | after a merge the key order lists exactly the keys with values |
| StateManager.Assign | src/utils/stateManager.ts:43-48 | one key takes the new value, every other key is unchanged, and an existing key keeps its place |
| StateManager.MergeOneIsAssign | src/utils/stateManager.ts:36-48 | `set(k, v)` equals `setState({k: v})` |
| StateManager.LoadState | src/utils/stateManager.ts:90-105 | the stored state is used only when persisting and something is stored; otherwise the initial state |
| StateManager.KeyCalls | src/utils/stateManager.ts:125-136 | a key whose value changed calls each of its listeners once with the new and old values, in order; an unchanged key calls none |
| StateManager.NotificationsExact | src/utils/stateManager.ts:125-136 | a notification is sent exactly for each changed key and each of its listeners, with the new and old values |
| StateManager.NoChangeNoCalls | src/utils/stateManager.ts:125-136 | an update that changes no value notifies nobody |
| StateManager.ResetWithoutPersistence | src/utils/stateManager.ts:51-63 | without persistence a reset restores the current state and notifies nobody |
| StateManager.RemoveListener | src/utils/stateManager.ts:66-75 | the key's listeners without the unsubscribed one, the others in their insertion (notification) order, without duplicates |
| StateManager.Store.constructor | src/utils/stateManager.ts:14-17 | the state is the loaded state and there are no listeners |
| StateManager.Store.GetState | src/utils/stateManager.ts:27-29 | the current state |
| StateManager.Store.Get | src/utils/stateManager.ts:31-33 | the key's current value |
| StateManager.Store.SaveState | src/utils/stateManager.ts:107-117 | the state is written exactly when persisting |
| StateManager.Store.NotifyListeners | src/utils/stateManager.ts:125-136 | the calls for every changed key, in key order |
| StateManager.Store.SetState | src/utils/stateManager.ts:36-41 | the state is merged with the update, changed keys' listeners are called and the state is saved |
| StateManager.Store.Set | src/utils/stateManager.ts:43-48 | one key is assigned, its listeners are called if it changed and the state is saved |
| StateManager.Store.Transform | src/utils/stateManager.ts:145-150 | the key is assigned the function of its old value, as `set` does |
| StateManager.Store.ResetState | src/utils/stateManager.ts:51-56 | the state becomes the loaded initial state, with notifications and saving |
| StateManager.Store.Reset | src/utils/stateManager.ts:58-63 | one key takes its value from the loaded initial state, with notifications and saving |
| StateManager.Store.Subscribe | src/utils/stateManager.ts:66-75 | the listener is registered once for the key |
| StateManager.Store.Unsubscribe | src/utils/stateManager.ts:66-75 | the listener is removed from that key only, the others keeping their notification order |
| StateManager.Instance.constructor | src/utils/stateManager.ts:19-24 | no instance yet |
| StateManager.Instance.GetInstance | src/utils/stateManager.ts:19-24 | the first call creates the store from the loaded state and later calls return the same one |
| FileSystem.Resolve | src/utils/fileSystem.ts:20-26 | the base directory, size limit and extensions default to `recordings`, 1 GiB and mp4/gif/webm when not given (or empty/zero) |
| FileSystem.ExtensionOf | src/utils/fileSystem.ts:44-47 | the extension is the lower-cased text after the last dot, or the whole name when there is no dot |
| FileSystem.ValidateFilePath | src/utils/fileSystem.ts:158-171 | a path is valid exactly when it has no `..`, and its extension is non-empty and allowed |
| FileSystem.ValidateDirectoryPath | src/utils/fileSystem.ts:173-180 | a directory is valid exactly when it has no `..` |
| FileSystem.TempDirectory | src/utils/fileSystem.ts:183-193 | the temp directory is the base directory followed by `/temp` |
| FileSystem.BaseName | src/utils/fileSystem.ts:134-146 | a name with a dot is its base, a dot and its extension |
| FileSystem.CandidatesDistinct | src/utils/fileSystem.ts:134-146 | different counters give different candidates, and none equals the original name |
| FileSystem.Manager.constructor | src/utils/fileSystem.ts:20-26 | the settings are the resolved options |
| FileSystem.Manager.GenerateUniqueFilename | src/utils/fileSystem.ts:134-155 | the name returned does not exist; it is the name itself when free, and otherwise the first free numbered candidate |
| FileSystem.Manager.SaveFile | src/utils/fileSystem.ts:36-65 | size, then extension, then directory, then write are checked in order, each failure with its own error and success exactly when all four pass; on success the file is written under the base directory with a name that was free |
| FileSystem.Manager.CleanupTempFiles | src/utils/fileSystem.ts:183-193 | the temp directory is deleted exactly when it exists, and the call fails exactly when that deletion fails |
| FileSystem.SavedPathMayExist | src/utils/fileSystem.ts:36-65 | running saveFile with defaults on `a.mp4` while `recordings/a.mp4` exists succeeds and writes to that existing path, because uniqueness is checked on the bare name |
| VideoProcessing.FilterStringIdentifies | src/utils/videoProcessing.ts:147-177 | different effects give different CSS filter strings |
| VideoProcessing.AppliedFilter | src/utils/videoProcessing.ts:116-145 | with effects, the canvas filter is the last effect's filter; without, it is unchanged |
| VideoProcessing.LastEffectWins | src/utils/videoProcessing.ts:116-145 | each effect overwrites the filter, so only the last one counts |
| VideoProcessing.Resolve | src/utils/videoProcessing.ts:49-55 | fps 30, 1920×1080, 5 Mbit/s and looping unless given |
| VideoProcessing.FindType | src/utils/videoProcessing.ts:104-109 | the first effect of the given type, or none exactly when there is none |
| VideoProcessing.Processor.constructor | src/utils/videoProcessing.ts:20-34 | no effects, not processing, a default 300×150 canvas |
| VideoProcessing.Processor.AddEffect | src/utils/videoProcessing.ts:96-98 | the effect is appended |
| VideoProcessing.Processor.RemoveEffect | src/utils/videoProcessing.ts:100-102 | exactly the effects of other types remain, in order |
| VideoProcessing.Processor.UpdateEffect | src/utils/videoProcessing.ts:104-109 | only the first effect of that type takes the new value |
| VideoProcessing.Processor.ClearEffects | src/utils/videoProcessing.ts:111-113 | no effects remain |
| VideoProcessing.Processor.ApplyEffects | src/utils/videoProcessing.ts:116-145 | the canvas filter becomes the applied filter |
| VideoProcessing.Processor.ProcessFrame | src/utils/videoProcessing.ts:80-90 | while processing, a frame is drawn with the current filter, a track frame is emitted and the filter is re-applied; otherwise nothing happens |
| VideoProcessing.Processor.ProcessVideo | src/utils/videoProcessing.ts:44-93 | the canvas takes the resolved size, which resets the filter to none; processing starts and the first frame is drawn unfiltered, after which the effects set the filter |
| VideoProcessing.Processor.ExportToGif | src/utils/videoProcessing.ts:219-265 | one frame per configured fps is captured, and an empty `image/gif` is returned |
| VideoProcessing.Processor.StopProcessing | src/utils/videoProcessing.ts:268-270 | processing stops |
| VideoProcessing.Processor.Cleanup | src/utils/videoProcessing.ts:272-277 | processing stops, effects are cleared, and the canvas is zero-sized with its filter reset to none |
| VideoProcessing.StoppedFrameDrawsNothing | src/utils/videoProcessing.ts:78-90 | after stopping, a scheduled frame draws nothing |
| VideoProcessing.FirstFrameUnfiltered | src/utils/videoProcessing.ts:57-90 | for any processor, a run's first frame is drawn with no filter, and the last effect's filter is in force afterwards |
| VideoProcessing.RerunFirstFrameUnfiltered | src/utils/videoProcessing.ts:57-90 | with a blur in place, a second run's first frame is unfiltered although the first run left the blur's filter set |
| VideoProcessing.Processor.Resize | src/utils/videoProcessing.ts:57-58 | setting the canvas size resets the context's filter to none |
| MediaDevices.ToRecord | src/utils/mediaDevices.ts:79-84 | a device keeps its id, kind and group, and an empty label becomes `Unknown <kind>` |
| MediaDevices.ToRecords | src/utils/mediaDevices.ts:79-84 | every enumerated device is converted, in order |
| MediaDevices.ToRecordsIdempotent | src/utils/mediaDevices.ts:76-89 | converting twice equals converting once |
| MediaDevices.OfKind | src/utils/mediaDevices.ts:106-116 | exactly the devices of that kind |
| MediaDevices.KindsPartition | src/utils/mediaDevices.ts:106-116 | the three kind filters together count every device once |
| MediaDevices.Known | src/utils/mediaDevices.ts:214-216 | a device id is known exactly when a device has it |
| MediaDevices.OrDefault | src/utils/mediaDevices.ts:128-133 | `value \|\| default`: zero and absent values take the default |
| MediaDevices.ScreenFor | src/utils/mediaDevices.ts:119-144 | the screen capture is pinned to the first source with equal min/max size and frame rate, 1920×1080 at 30 unless given |
| MediaDevices.AudioFor | src/utils/mediaDevices.ts:165-181 | echo cancellation, noise suppression and auto gain are on unless set to false |
| MediaDevices.Manager.constructor | src/utils/mediaDevices.ts:36-42 | no devices, streams or listeners, and no permission |
| MediaDevices.Manager.RequestPermissions | src/utils/mediaDevices.ts:65-74 | permission is granted when allowed, and a refusal is an error |
| MediaDevices.Manager.UpdateDevices | src/utils/mediaDevices.ts:76-89 | the device list becomes the converted enumeration |
| MediaDevices.Manager.GetDevices | src/utils/mediaDevices.ts:99-104 | permission is asked only when missing, and the devices are returned exactly when it is granted |
| MediaDevices.Manager.GetDevicesOfKind | src/utils/mediaDevices.ts:106-116 | the devices of that kind |
| MediaDevices.Manager.ValidateDevice | src/utils/mediaDevices.ts:214-216 | true exactly when some device has the id |
| MediaDevices.Manager.ValidateStreamOptions | src/utils/mediaDevices.ts:218-226 | invalid exactly when a requested video or audio device id is unknown |
| MediaDevices.Manager.GetScreenCaptureStream | src/utils/mediaDevices.ts:119-144 | no source and a failed capture are errors; otherwise the first source's constraints are used and the stream is kept as the screen stream |
| MediaDevices.Manager.GetCameraStream | src/utils/mediaDevices.ts:146-163 | a failed capture is an error; otherwise the video options, aspect ratio included, are passed on and the stream is kept as the camera stream |
| MediaDevices.Manager.GetAudioStream | src/utils/mediaDevices.ts:165-181 | a failed capture is an error; otherwise the audio constraints are used and the stream is kept |
| MediaDevices.Manager.StopStream | src/utils/mediaDevices.ts:184-190 | a kept stream of that type is stopped and forgotten |
| MediaDevices.Manager.StopAllStreams | src/utils/mediaDevices.ts:192-197 | every kept stream is stopped and none remains |
| MediaDevices.Manager.AddDeviceChangeListener | src/utils/mediaDevices.ts:202-207 | the listener is appended |
| MediaDevices.Manager.Unsubscribe | src/utils/mediaDevices.ts:202-207 | exactly the other listeners remain |
| MediaDevices.Manager.NotifyDeviceChange | src/utils/mediaDevices.ts:209-211 | every listener gets the current devices, in order |
| MediaDevices.Manager.OnDeviceChange | src/utils/mediaDevices.ts:91-96 | a device change refreshes the devices and then notifies every listener with the new list |
| BackgroundPanel.FindIndex | src/components/BackgroundPanel.tsx:55-68 | the first entry with the id, or none exactly when there is none |
| BackgroundPanel.KindOf | src/components/BackgroundPanel.tsx:62 | gradients and solid colours are emitted as colour, the other categories as image |
| BackgroundPanel.Emitted | src/components/BackgroundPanel.tsx:55-98 | a background is emitted exactly when the id is in the category's table, with that entry's value and the current blur and dim |
| BackgroundPanel.IdsUnique | src/components/BackgroundPanel.tsx:14-47 | no id appears twice, across all categories |
| BackgroundPanel.SelectionFound | src/components/BackgroundPanel.tsx:55-68 | selecting any table entry emits it, and its id is found in no other category |
| BackgroundPanel.Panel.constructor | src/components/BackgroundPanel.tsx:50-53 | the first gradient is selected, blur and dim 0 |
| BackgroundPanel.Panel.Select | src/components/BackgroundPanel.tsx:55-68 | the selection is stored and the background emitted |
| BackgroundPanel.Panel.BlurChange | src/components/BackgroundPanel.tsx:70-83 | the blur is stored and the selection re-emitted with it |
| BackgroundPanel.Panel.DimChange | src/components/BackgroundPanel.tsx:85-98 | the dim is stored and the selection re-emitted with it |
| BackgroundPanel.Panel.SelectCategory | src/components/BackgroundPanel.tsx:50-53 | the category tab changes |
| SettingsPage.Defaults | src/components/pages/SettingsPage.tsx:32-44 | 1920×1080 at 30 fps, default devices, camera top right at 200, blur on, dark theme |
| SettingsPage.SixteenByNineHeight | src/components/pages/SettingsPage.tsx:56 | the height is 9/16 of the width, rounded to the nearest integer |
| SettingsPage.ExactForMultiplesOf16 | src/components/pages/SettingsPage.tsx:56 | a width divisible by 16 gives the exact 16:9 height |
| SettingsPage.SliderHeights | src/components/pages/SettingsPage.tsx:99-101 | the slider's widths give 720, 1440 and 2160, and the default width gives the default height |
| SettingsPage.ResolutionChange | src/components/pages/SettingsPage.tsx:50-59 | only the resolution changes, to the width and its rounded 16:9 height |
| SettingsPage.FpsChange | src/components/pages/SettingsPage.tsx:61-66 | only the frame rate changes |
| SettingsPage.CameraSizeChange | src/components/pages/SettingsPage.tsx:68-73 | only the camera size changes |
| SettingsPage.AudioDeviceChange | src/components/pages/SettingsPage.tsx:126 | only the audio device changes |
| SettingsPage.VideoDeviceChange | src/components/pages/SettingsPage.tsx:138 | only the video device changes |
| SettingsPage.CameraPositionChange | src/components/pages/SettingsPage.tsx:156 | only the camera position changes |
| SettingsPage.BackgroundBlurChange | src/components/pages/SettingsPage.tsx:183 | only the blur flag changes |
| SettingsPage.ThemeChange | src/components/pages/SettingsPage.tsx:195 | only the theme changes |
| SettingsPage.HandlersIndependent | src/components/pages/SettingsPage.tsx:50-73 | handlers for different settings commute, and repeating one keeps only the last value |
| PreviewPage.Initial | src/components/pages/PreviewPage.tsx:38-45 | paused at 0 with no duration, exporting MP4 at high quality, not exporting |
| PreviewPage.GifFps | src/components/pages/PreviewPage.tsx:123 | high, medium and low quality give 30, 20 and 10 fps |
| PreviewPage.GifFpsOrdered | src/components/pages/PreviewPage.tsx:123 | better quality means a strictly higher GIF frame rate |
| PreviewPage.FormatTimeShape | src/components/pages/PreviewPage.tsx:135-139 | the clock reads back as whole minutes and seconds under 60, with two-digit seconds |
| PreviewPage.DefaultPathMatchesFilter | src/components/pages/PreviewPage.tsx:107-116 | the suggested file name's extension is the dialog's only filter extension |
| PreviewPage.ExportFor | src/components/pages/PreviewPage.tsx:118-126 | MP4 goes to the MP4 exporter; otherwise a looping GIF at the quality's frame rate, both to the chosen path |
| PreviewPage.Page.constructor | src/components/pages/PreviewPage.tsx:38-45 | the initial page state, no dialogs or exports |
| PreviewPage.Page.HandlePlayPause | src/components/pages/PreviewPage.tsx:65-74 | playing toggles |
| PreviewPage.Page.HandleTimeUpdate | src/components/pages/PreviewPage.tsx:76-83 | the time follows the video |
| PreviewPage.Page.HandleLoadedMetadata | src/components/pages/PreviewPage.tsx:85-92 | the duration follows the video |
| PreviewPage.Page.HandleSeek | src/components/pages/PreviewPage.tsx:94-99 | the time becomes the seek target |
| PreviewPage.Page.SetExportFormat | src/components/pages/PreviewPage.tsx:38-45 | only the format changes |
| PreviewPage.Page.SetExportQuality | src/components/pages/PreviewPage.tsx:38-45 | only the quality changes |
| PreviewPage.Page.HandleExport | src/components/pages/PreviewPage.tsx:101-133 | without a recording nothing happens; otherwise a save dialog opens, a chosen path is exported in the selected format, and the exporting flag ends cleared |
| PreviewPage.Page.RunExport | src/components/pages/PreviewPage.tsx:107-126 | one dialog, and an export exactly when a path is chosen |
| TimeFormat.JsRem | src/components/VideoEditor.tsx:645-650 | JavaScript's `%`: the remainder has the dividend's sign and is smaller than the divisor |
| TimeFormat.FormatClockReadsBack | src/components/VideoEditor.tsx:645-650 | an `m:ss` clock reads back as minutes and seconds, with exactly two seconds digits |
| TimeFormat.FormatClockPaddedReadsBack | src/components/TimelineEditor.tsx:52-56 | an `mm:ss` clock reads back as minutes and seconds, five characters under 100 minutes |

## Left out

- Everything that draws or streams media is not modelled. This covers ffmpeg, MediaRecorder, `getDisplayMedia`/`getUserMedia`, canvas drawing, `requestAnimationFrame`, object URLs and downloads. Each such call becomes a parameter carrying its outcome, or an entry in a call log.
- `applyCrop` (`src/components/VideoEditor.tsx:567-601`) draws frames onto a canvas; only the crop rectangle it reads is modelled.
- The frame loop of `exportVideo` (`src/components/VideoEditor.tsx:669-793`) is not modelled. Only its file naming is (`ExportFileNameExtension`, `SanitizeTitleShape`).
- The timers in `handleVideoClick` are not modelled.
- VideoProcessing.Processor.ExportToGif: the frames are not kept, because `createGIF` returns an empty blob whatever it is given; only the number of captures is stated.
- `exportToMP4` in `src/utils/videoProcessing.ts` (a MediaRecorder over a canvas stream) is not modelled, for the same reason as the other media streams.
- NaN is not modelled. Infinity and NaN are modelled only where the code tests `isFinite` (the `Num` datatype). Elsewhere numbers are exact reals, so floating-point rounding is not captured.
- VideoEditor.PointerPercent, VideoEditor.ZoomTransform and RecordingUI.Recorder.ScreenClick require a non-zero element size. JavaScript would produce Infinity or NaN for a zero-size element.
- The stale closure in `startRecording` is not modelled. The screen-click listener is registered while `isRecording` is still false. The model's `ScreenClick` reads the current flag.
- RecordingUI.ConvertResult: the empty-output error is then rewrapped by the surrounding `catch` into a generic message. The model keeps the specific error value instead of the message text.
- The camera drag's mouse-down handler and offset bookkeeping are not modelled. `CameraMouseMove` takes the down position and the start position as parameters.
- The `getInstance` singletons of the utilities are not modelled, except `StateManager.Instance`. Each other manager is a class constructed once.
- `subscribeToAll` in `src/utils/stateManager.ts` (a wildcard listener) is not modelled.
- `getDeviceCapabilities`, `getDeviceConstraints` and `initializeDevices` in `src/utils/mediaDevices.ts` are not modelled. They are thin wrappers around browser calls.
- `loadFile`, `deleteFile`, `listDirectory` and the watch functions in `src/utils/fileSystem.ts` are not modelled. They are thin wrappers around Electron calls.
- `logError`, the side effects of `handleCriticalError`, the notification toast and the global `window` error handlers in `src/utils/errorManager.ts` are not modelled. `HandleError` reports only whether the critical path runs.
- The effect `value` is an integer in `VideoProcessing`; the CSS unit text is kept.
- The settings page's saving to local storage is not modelled.
- The processing calls of the `useVideoEditor` hook (fetch, trim, background, export) are abstract stages with an outcome each. Their media content is a term recording which stages were applied.
- RecordingUI.Recorder.StopRecording: the `onstop` hand-off to `onRecordingComplete` (`src/components/RecordingUI.tsx:482-493`) is not modelled. That handler passes the `zoomEvents` captured when `startRecording` ran, so it hands on the events from before the reset rather than the clicks just recorded. `RecordedBlob` gives only the blob.
- VideoProcessing.Processor.UpdateEffect: the source changes the found effect object in place, so any caller still holding that object sees the new value. The model replaces an element of a sequence of values, so this sharing is not captured.
- StateManager.Merge: JavaScript lists integer-like keys first, in ascending order, for `Object.keys` and object spread. The model keeps plain insertion order for every key, so the order of notifications for such keys is not captured.
- VideoEditor.Editor.LoadedMetadata: when the duration is not yet finite, the source adds a one-shot `loadeddata` listener that retries (`src/components/VideoEditor.tsx:398-409`). That retry is not modelled; the model leaves the duration unchanged.
- TimelineEditor.JumpTime requires a bar with non-zero width. With a zero-width bar JavaScript would divide by zero and produce Infinity or NaN, which this model does not represent.
- Strings.Lower and Strings.Upper change only ASCII letters. JavaScript's `toLowerCase`/`toUpperCase` follow full Unicode case mapping, so keys and extensions outside ASCII are not modelled faithfully.
- `ExportModal`, `SmartEdits` and the Electron main and preload files are not part of this model.
