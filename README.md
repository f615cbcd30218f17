# BobrWhisper session coordination, in Dafny

BobrWhisper is a push-to-talk dictation tool. A C engine (`include/bobrwhisper.h`) records speech
and transcribes it with Whisper. Swift front ends on macOS and iOS drive the engine. This project
models the logic that coordinates a session between the user interface and that engine:

- **The session coordinator `AppState`, on macOS and on iOS.** It holds the status, the recording
  flag, the last transcript, the error message, the loaded model and the download state. It
  changes them through commands (start, stop, load, unload, download, cancel, clear) and through
  the engine's three callbacks (status change, transcript, error). On iOS every relevant change is
  also written through to a shared key/value suite that the keyboard extension reads.
- **The value types both apps share.** These are `Status` and its engine codes, the `ModelSize`
  tables (storage key, file name, download URL), the decoding of callback payloads and the
  download-progress formula.
- **The macOS transcript overlay.** This covers the `OverlayPanelController` (visibility, one
  pending auto-dismiss, the fade-out race guard) and the word-count-based dismiss delay. It also
  covers the overlay view's tap handling, elapsed-seconds counter and `m:ss` duration text.
- **The macOS global hotkey.** This is the combo predicate over the modifier flags and the
  start/stop dispatch.
- **The iOS shared store and the keyboard extension.** This covers the five typed slots, the
  snapshot with its defaults, the poller that types only the new part of the shared transcript,
  and the `canRecord` gate.
- **The iOS deep link `bobrwhisper://record`.** It toggles recording.

Each class whose Swift counterpart updates fields in place (both `AppState`s,
`OverlayPanelController`, `KeyboardSharedState`, `KeyboardViewController`, `AppDelegate`) is a
Dafny `class`. Its methods are specified against a pure transition function over a record of its
fields (`State()` / `View()`). Properties that span several calls are lemmas over those
transitions. The engine is an oracle: whatever it answers (`bobrwhisper_app_new`,
`bobrwhisper_start_recording_live`, `bobrwhisper_model_load`, the model file's existence, how a
download ended) is a parameter. Each closure the source posts to the main queue is a method of its
own. Applying such methods one after another stands for the main queue's serial order.

Modules: `Wrappers` (Option), `Engine` (status codes of `bobrwhisper.h`), `Strings`,
`SessionTypes`, `MacApp`, `Overlay`, `Hotkey`, `KeyboardShared`, `KeyboardState`, `Keyboard`,
`IosApp`, `DeepLink`.

## Model

| member | source | states |
|---|---|---|
| SessionTypes.FromCValue | macos/BobrWhisper/AppState.swift:400-410 | codes 0–5 give the status with that raw value, in the order idle, recording, transcribing, formatting, ready, error; every other code gives idle |
| SessionTypes.RawValue | macos/BobrWhisper/AppState.swift:400-406 | raw values lie in 0–5 and the failable initialiser inverts them |
| SessionTypes.FromRawValue | ios/BobrWhisper/AppState.swift:350-360 | `Status(rawValue:)` succeeds exactly on 0–5 |
| SessionTypes.StatusCodesFollowEngine | include/bobrwhisper.h:31-36 | each `BOBRWHISPER_STATUS_*` code maps to the status of the same name |
| SessionTypes.StorageKey | macos/BobrWhisper/AppState.swift:423-432 | every size has a non-empty storage key |
| SessionTypes.FromStorageKey | macos/BobrWhisper/AppState.swift:434-436 | a result is a size whose key is the argument; nil means no size has that key |
| SessionTypes.StorageKeysDistinct | macos/BobrWhisper/AppState.swift:423-432 | no two sizes share a storage key |
| SessionTypes.StorageKeyRoundTrip | macos/BobrWhisper/AppState.swift:423-436 | `fromStorageKey(m.storageKey) == m` for every size |
| SessionTypes.UnknownStorageKey | macos/BobrWhisper/AppState.swift:434-436 | a key outside the six known keys gives nil |
| SessionTypes.Filename | macos/BobrWhisper/AppState.swift:438-447 | every file name is `ggml-….bin` |
| SessionTypes.FilenamesDistinct | ios/BobrWhisper/AppState.swift:382-390 | each size has its own file |
| SessionTypes.DownloadUrl | macos/BobrWhisper/AppState.swift:449-451 | the URL is the Hugging Face base, then "/" and the file name |
| SessionTypes.TranscriptText | macos/BobrWhisper/AppState.swift:80-86 | a transcript payload gives its text; a null, empty or undecodable one gives "" |
| SessionTypes.ErrorText | macos/BobrWhisper/AppState.swift:99-105 | an error message is never "": an empty or null payload gives nil, otherwise the text itself |
| SessionTypes.DownloadFailureMessage | macos/BobrWhisper/AppState.swift:311-332 | every failed completion leaves a non-empty message ("Download failed: …", "Failed to save model: …") |
| SessionTypes.DownloadProgress | ios/BobrWhisper/AppState.swift:327-336 | with a known total (the transport's, else the response's) progress is written/expected, at most 1 while written ≤ expected; without one it is at most 0.99 |
| SessionTypes.Ratio | macos/BobrWhisper/AppState.swift:381-382 | written/expected times expected is written |
| SessionTypes.UnknownLengthProgressIsCapped | macos/BobrWhisper/AppState.swift:377-390 | unknown-length progress never exceeds 0.99 and equals written/100 000 000 below 99 000 000 bytes |
| SessionTypes.DownloadProgressExamples | ios/BobrWhisper/AppState.swift:329-335 | worked values: 250 of 1000 is 0.25 (from either total), 50 MB of unknown is 0.5, 150 MB of unknown is capped at 0.99 |
| MacApp.StatusText | macos/BobrWhisper/AppState.swift:44-53 | in the error state the text is the message or "Error"; it is never empty |
| MacApp.StatusTextIdentifiesStatus | macos/BobrWhisper/AppState.swift:44-53 | outside the error state different statuses show different texts |
| MacApp.Initial | macos/BobrWhisper/AppState.swift:7-31 | the initial fields: idle, not recording, no engine, consistent |
| MacApp.DefaultModelToLoad | macos/BobrWhisper/AppState.swift:139-146 | a size is restored only if the persisted key names it and its file exists |
| MacApp.StartRecordingEffect | macos/BobrWhisper/AppState.swift:172-184 | no handle or a refused start changes nothing; otherwise recording with the transcript cleared |
| MacApp.StartWhileRecordingRestarts | macos/BobrWhisper/AppState.swift:172-184 | there is no "already recording" guard: a start while recording clears the transcript |
| MacApp.StopRecordingEffect | macos/BobrWhisper/AppState.swift:186-217 | with a handle recording ends and the level is 0, whatever the engine returns, and status is untouched; without one nothing changes |
| MacApp.TranscriptEventEffect | macos/BobrWhisper/AppState.swift:77-95 | a missing or empty payload clears the transcript; a paste happens iff the event is final; status is untouched |
| MacApp.ErrorEventEffect | macos/BobrWhisper/AppState.swift:97-112 | an error event sets the error status and leaves `isRecording`; `statusText` then shows the message, or "Error" for an empty one |
| MacApp.RecordingFlagNotTiedToStatus | macos/BobrWhisper/AppState.swift:109-112 | a recording session that reports an error is recording with status error |
| MacApp.LoadModelEffect | macos/BobrWhisper/AppState.swift:258-279 | a load shows transcribing at once. Success ends idle and loaded, with the size's key persisted. Failure ends in error, unloaded, "Failed to load model" |
| MacApp.NextLaunchRestoresModel | macos/BobrWhisper/AppState.swift:139-146 | after a successful load, the next launch selects and loads the same size if its file exists |
| MacApp.DownloadIsExclusive | macos/BobrWhisper/AppState.swift:292-296 | a download request during a download changes nothing; otherwise downloading with progress 0 |
| MacApp.DownloadCompletionEffect | macos/BobrWhisper/AppState.swift:305-334 | every completion clears `isDownloading`; a failure sets error; a saved file sets progress 1, selects the size and starts its load |
| MacApp.CancelDoesNotNeutraliseCompletion | macos/BobrWhisper/AppState.swift:338-345 | a completion after a cancel still applies in full |
| MacApp.AppState.CreateApp | macos/BobrWhisper/AppState.swift:57-137 | the new state is `AfterCreateApp`; a failed create sets the error, otherwise the default model is loaded |
| MacApp.AppState.LoadDefaultModel | macos/BobrWhisper/AppState.swift:139-146 | selects and loads `DefaultModelToLoad`, or changes nothing |
| MacApp.AppState.DestroyApp | macos/BobrWhisper/AppState.swift:148-156 | drops the handle |
| MacApp.AppState.StartRecording | macos/BobrWhisper/AppState.swift:172-184 | the new state is `AfterStartRecording`; the overlay is shown exactly when the start succeeds |
| MacApp.AppState.StopRecording | macos/BobrWhisper/AppState.swift:186-204 | the new state is `AfterStopRecording` |
| MacApp.AppState.OnStatusChange | macos/BobrWhisper/AppState.swift:70-76 | the status becomes `Status(cValue:)` of the code |
| MacApp.AppState.OnTranscript | macos/BobrWhisper/AppState.swift:77-95 | the new state is `AfterTranscript`; a final transcript also schedules the overlay's dismissal for that transcript |
| MacApp.AppState.PasteToActiveApp | macos/BobrWhisper/AppState.swift:353-366 | the current transcript is appended to what was pasted |
| MacApp.AppState.OnError | macos/BobrWhisper/AppState.swift:96-112 | the new state is `AfterError` |
| MacApp.AppState.LoadModel | macos/BobrWhisper/AppState.swift:258-262 | with a handle, shows transcribing and returns the size being loaded; without one, nothing |
| MacApp.AppState.ModelLoadCompleted | macos/BobrWhisper/AppState.swift:264-277 | the new state is `AfterModelLoaded` |
| MacApp.AppState.UnloadModel | macos/BobrWhisper/AppState.swift:281-285 | with a handle the model is unloaded |
| MacApp.AppState.DownloadModel | macos/BobrWhisper/AppState.swift:292-336 | the new state is `AfterDownloadModel`; a task is started iff none was running |
| MacApp.AppState.DownloadProgressed | macos/BobrWhisper/AppState.swift:377-390 | progress becomes the delegate's formula |
| MacApp.AppState.DownloadCompleted | macos/BobrWhisper/AppState.swift:305-334 | the new state is `AfterDownloadCompleted`; a load starts only for a saved file with a handle |
| MacApp.AppState.CancelDownload | macos/BobrWhisper/AppState.swift:338-345 | no task, not downloading, progress 0 |
| MacApp.AppState.HandleOverlayTap | macos/BobrWhisper/Views/TranscriptOverlayView.swift:36-42 | a tap stops a recording, hides a finished overlay, or does nothing, per `TapResponseFor` |
| Overlay.Words | macos/BobrWhisper/Views/TranscriptOverlayView.swift:243 | the split pieces are non-empty and contain no space |
| Overlay.LeadingWordOfWord | macos/BobrWhisper/Views/TranscriptOverlayView.swift:243 | a run without spaces is its own leading word |
| Overlay.LeadingWordBeforeSpace | macos/BobrWhisper/Views/TranscriptOverlayView.swift:243 | the leading word ends at the first space |
| Overlay.WordsOfWord | macos/BobrWhisper/Views/TranscriptOverlayView.swift:243 | a non-empty run without spaces splits into exactly itself |
| Overlay.WordsAfterWord | macos/BobrWhisper/Views/TranscriptOverlayView.swift:243 | a word, a space and a rest split into the word followed by the rest's words |
| Overlay.WordsOfJoin | macos/BobrWhisper/Views/TranscriptOverlayView.swift:243 | words joined by single spaces split back into the same words, so the count is exact |
| Overlay.WordsKeepEveryOtherCharacter | macos/BobrWhisper/Views/TranscriptOverlayView.swift:243 | the words, written together, are the transcript without its spaces |
| Overlay.DismissDelayMs | macos/BobrWhisper/Views/TranscriptOverlayView.swift:243-244 | the delay lies in [1500, 5000]: 1500 up to 3 words, 400 per word from 4 to 12, 5000 from 13 |
| Overlay.DismissDelayExamples | macos/BobrWhisper/Views/TranscriptOverlayView.swift:243-244 | three space-separated words wait 1500 ms, ten wait 4000 ms |
| Overlay.TapResponseFor | macos/BobrWhisper/Views/TranscriptOverlayView.swift:36-42 | stop iff recording; dismiss iff not recording and ready |
| Overlay.ElapsedCounter.Tick | macos/BobrWhisper/Views/TranscriptOverlayView.swift:43-47 | the count rises by one per tick only while recording |
| Overlay.ElapsedCounter.RecordingChanged | macos/BobrWhisper/Views/TranscriptOverlayView.swift:48-50 | the count resets to 0 when recording begins |
| Overlay.Decimal | macos/BobrWhisper/Views/TranscriptOverlayView.swift:151 | `%d` gives a non-empty run of digits, one digit exactly below 10, led by "0" only for zero |
| Overlay.DecimalRoundTrip | macos/BobrWhisper/Views/TranscriptOverlayView.swift:151 | reading back `%d` gives the number |
| Overlay.FormatDuration | macos/BobrWhisper/Views/TranscriptOverlayView.swift:150-152 | the text is digits, ":" and two digits; the minutes carry no leading zero, so it starts with "0" exactly below one minute |
| Overlay.FormatDurationRoundTrip | macos/BobrWhisper/Views/TranscriptOverlayView.swift:150-152 | the text reads back as minutes·60 + seconds with seconds below 60 |
| Overlay.FormatDurationExample | macos/BobrWhisper/Views/TranscriptOverlayView.swift:150-152 | 75 s is "1:15", 5 s is "0:05" |
| Overlay.AfterShow | macos/BobrWhisper/Views/TranscriptOverlayView.swift:203-221 | `show` keeps the controller consistent |
| Overlay.AfterHide | macos/BobrWhisper/Views/TranscriptOverlayView.swift:223-238 | `hide` keeps the controller consistent |
| Overlay.AfterFadeOut | macos/BobrWhisper/Views/TranscriptOverlayView.swift:234-237 | the fade-out completion keeps the controller consistent |
| Overlay.AfterScheduleDismiss | macos/BobrWhisper/Views/TranscriptOverlayView.swift:240-251 | scheduling keeps the pending delay in [1500, 5000] |
| Overlay.ShowCancelsDismiss | macos/BobrWhisper/Views/TranscriptOverlayView.swift:203-214 | after `show` the panel is wanted, on screen, and nothing is pending |
| Overlay.ShowDuringFadeKeepsPanel | macos/BobrWhisper/Views/TranscriptOverlayView.swift:230-237 | a `show` during a fade-out keeps the panel on screen when the fade completes |
| Overlay.FadeAfterHideRemovesPanel | macos/BobrWhisper/Views/TranscriptOverlayView.swift:223-237 | without a `show` in between, the fade-out orders the panel out |
| Overlay.LatestScheduleWins | macos/BobrWhisper/Views/TranscriptOverlayView.swift:240-250 | only the latest scheduled dismiss is pending |
| Overlay.OverlayPanelController.Show | macos/BobrWhisper/Views/TranscriptOverlayView.swift:203-221 | the new view is `AfterShow` |
| Overlay.OverlayPanelController.Hide | macos/BobrWhisper/Views/TranscriptOverlayView.swift:223-238 | the new view is `AfterHide`; without a panel no fade starts |
| Overlay.OverlayPanelController.FadeOutCompleted | macos/BobrWhisper/Views/TranscriptOverlayView.swift:234-237 | the panel is ordered out only if it is still not wanted |
| Overlay.OverlayPanelController.ScheduleAutoDismiss | macos/BobrWhisper/Views/TranscriptOverlayView.swift:240-251 | the pending dismiss is replaced by one with the transcript's delay |
| Overlay.OverlayPanelController.DismissFired | macos/BobrWhisper/Views/TranscriptOverlayView.swift:246-248 | the fired work item hides the panel |
| Hotkey.ComboFor | macos/BobrWhisper/AppDelegate.swift:44-62 | each of the four other named combos selects its own case; everything else is fn+option |
| Hotkey.Required | macos/BobrWhisper/AppDelegate.swift:50-61 | the modifiers each combo lists |
| Hotkey.KeyPressed | macos/BobrWhisper/AppDelegate.swift:46-62 | pressed iff every modifier the combo lists is in the flag set |
| Hotkey.UnknownSettingIsFnOption | macos/BobrWhisper/AppDelegate.swift:44-61 | an unknown setting, "option+space" and no setting all mean fn+option |
| Hotkey.ExtraModifiersKeepPressed | macos/BobrWhisper/AppDelegate.swift:46-61 | extra modifiers keep the hotkey pressed; releasing a needed one releases it |
| Hotkey.IrrelevantModifiers | macos/BobrWhisper/AppDelegate.swift:49-62 | caps lock, shift, numeric pad and help never matter |
| Hotkey.HotkeyCommand | macos/BobrWhisper/AppDelegate.swift:64-70 | start iff pressed and not recording; stop iff released and recording |
| Hotkey.RecordingFollowsHotkey | macos/BobrWhisper/AppDelegate.swift:64-70 | with a working engine recording follows the hotkey, and a repeated event issues nothing |
| Hotkey.FailedStartIsRetried | macos/BobrWhisper/AppDelegate.swift:64-66 | after a refused start the next press starts again |
| Hotkey.AppDelegate.ApplicationDidFinishLaunching | macos/BobrWhisper/AppDelegate.swift:10-25 | launching creates the engine session |
| Hotkey.AppDelegate.ApplicationWillTerminate | macos/BobrWhisper/AppDelegate.swift:27-33 | terminating destroys it |
| Hotkey.AppDelegate.HandleFlagsChanged | macos/BobrWhisper/AppDelegate.swift:42-71 | issues `HotkeyCommand`, and the session and overlay change as that command says |
| KeyboardShared.Key | ios/Shared/KeyboardShared.swift:6-10 | every key is in the "keyboard." namespace |
| KeyboardShared.SlotKeysDistinct | ios/Shared/KeyboardShared.swift:6-10 | the five keys are distinct |
| KeyboardShared.Put | ios/Shared/KeyboardShared.swift:24-54 | with the suite the slot holds the value; without it nothing changes |
| KeyboardShared.Remove | ios/Shared/KeyboardShared.swift:56-65 | with the suite the slot is gone; without it nothing changes |
| KeyboardShared.LookupText | ios/Shared/KeyboardShared.swift:28-30 | a string read succeeds iff the suite exists and the slot holds a string |
| KeyboardShared.LookupNumber | ios/Shared/KeyboardShared.swift:36-38 | an `as? Int` read succeeds iff the slot holds a number |
| KeyboardShared.LookupFlag | ios/Shared/KeyboardShared.swift:44-54 | an `as? Bool` read succeeds iff the slot holds a flag |
| KeyboardShared.ReadYourWrites | ios/Shared/KeyboardShared.swift:24-54 | a read returns what was written, or nil without the suite |
| KeyboardShared.WriteLeavesOtherSlots | ios/Shared/KeyboardShared.swift:6-54 | a write leaves every other slot's reads unchanged |
| KeyboardShared.RemoveLeavesOtherSlots | ios/Shared/KeyboardShared.swift:56-65 | a removal leaves every other slot's reads unchanged |
| KeyboardShared.RemovedSlotReadsNil | ios/Shared/KeyboardShared.swift:56-68 | after a removal the slot reads nil |
| KeyboardShared.WrongTypeReadsNil | ios/Shared/KeyboardShared.swift:36-54 | a typed read of another type reads nil |
| KeyboardShared.SharedStore.WriteTranscript | ios/Shared/KeyboardShared.swift:24-26 | puts the transcript |
| KeyboardShared.SharedStore.ReadTranscript | ios/Shared/KeyboardShared.swift:28-30 | reads nil without the suite |
| KeyboardShared.SharedStore.WriteStatusRaw | ios/Shared/KeyboardShared.swift:32-34 | puts the status code |
| KeyboardShared.SharedStore.ReadStatusRaw | ios/Shared/KeyboardShared.swift:36-38 | reads nil without the suite |
| KeyboardShared.SharedStore.WriteIsRecording | ios/Shared/KeyboardShared.swift:40-42 | puts the recording flag |
| KeyboardShared.SharedStore.ReadIsRecording | ios/Shared/KeyboardShared.swift:44-46 | reads nil without the suite |
| KeyboardShared.SharedStore.WriteIsModelLoaded | ios/Shared/KeyboardShared.swift:48-50 | puts the loaded flag |
| KeyboardShared.SharedStore.ReadIsModelLoaded | ios/Shared/KeyboardShared.swift:52-54 | reads nil without the suite |
| KeyboardShared.SharedStore.WriteSelectedModelFilename | ios/Shared/KeyboardShared.swift:56-65 | a name is put; nil removes the slot |
| KeyboardShared.SharedStore.ReadSelectedModelFilename | ios/Shared/KeyboardShared.swift:67-69 | reads nil without the suite |
| KeyboardState.KeyboardRawValue | ios/Shared/KeyboardState.swift:3-10 | the keyboard's codes lie in 0–5 |
| KeyboardState.KeyboardStatusFromRaw | ios/Shared/KeyboardState.swift:3-10 | `KeyboardStatus(rawValue:)` succeeds exactly on 0–5 and inverts the raw values |
| KeyboardState.KeyboardCodesMatchAppCodes | ios/Shared/KeyboardState.swift:3-10 | the app's raw value for a status reads back as the same-named keyboard status; engine codes agree |
| KeyboardState.ReadSnapshot | ios/Shared/KeyboardState.swift:19-29 | missing flags read false, a missing transcript reads "", the filename passes through, and the status is nil when absent or outside 0–5 |
| KeyboardState.UnavailableStoreSnapshot | ios/Shared/KeyboardState.swift:19-29 | without the suite the snapshot is all defaults |
| Keyboard.ReplacingPrefix | ios/BobrWhisperKeyboard/KeyboardViewController.swift:153-157 | with the prefix, prefix + result is the string; without it, the string itself |
| Keyboard.CanRecord | ios/BobrWhisperKeyboard/KeyboardViewController.swift:87-91 | iff a model is loaded, a filename is stored and that file exists |
| Keyboard.ControlsFor | ios/BobrWhisperKeyboard/KeyboardViewController.swift:86-110 | the mic is enabled and configure hidden iff `canRecord`; the title is "Stop" iff recording; the status line as the source sets it |
| Keyboard.PollStep | ios/BobrWhisperKeyboard/KeyboardViewController.swift:121-135 | an empty or unchanged transcript types nothing; otherwise the new part (or the whole transcript if it diverged) is typed and becomes the baseline |
| Keyboard.DeltaNeverEmpty | ios/BobrWhisperKeyboard/KeyboardViewController.swift:127-132 | the empty-delta branch can never be taken |
| Keyboard.GrowingTranscriptIsTypedOnce | ios/BobrWhisperKeyboard/KeyboardViewController.swift:121-135 | across polls of a growing transcript, baseline + everything typed is the latest transcript, which is also the final baseline |
| Keyboard.PollExamples | ios/BobrWhisperKeyboard/KeyboardViewController.swift:124-134 | worked polls: an extension, a divergence, an empty transcript |
| Keyboard.KeyboardController.UpdateUI | ios/BobrWhisperKeyboard/KeyboardViewController.swift:86-110 | the controls become `ControlsFor` the snapshot |
| Keyboard.KeyboardController.HandlePoll | ios/BobrWhisperKeyboard/KeyboardViewController.swift:121-135 | controls refreshed; typed text and baseline follow `PollStep` |
| Keyboard.KeyboardController.TextWillChange | ios/BobrWhisperKeyboard/KeyboardViewController.swift:26-30 | the baseline resets to "" and the controls refresh |
| Keyboard.KeyboardController.HandleOpenApp | ios/BobrWhisperKeyboard/KeyboardViewController.swift:137-146 | opens exactly `bobrwhisper://record` |
| IosApp.StatusText | ios/BobrWhisper/AppState.swift:26-35 | idle reads "Ready" iff a model is loaded; error shows the message or "Error" |
| IosApp.Initial | ios/BobrWhisper/AppState.swift:7-24 | the initial fields keep the suite's old contents |
| IosApp.CreateAppResetsKeyboardView | ios/BobrWhisper/AppState.swift:79-82 | after `createApp` the keyboard sees not recording, not loaded, empty transcript, same filename |
| IosApp.CreateAppKeyboardStatus | ios/BobrWhisper/AppState.swift:82-148 | the keyboard sees status 0, or 5 when the engine was not created |
| IosApp.StartRecordingEffect | ios/BobrWhisper/AppState.swift:161-173 | a successful start records with an empty transcript, locally and for the keyboard; otherwise nothing changes |
| IosApp.StopRecordingEffect | ios/BobrWhisper/AppState.swift:175-191 | with a handle recording ends locally and for the keyboard, whatever the engine returns |
| IosApp.RecordingMirrorPreservedByStart | ios/BobrWhisper/AppState.swift:161-173 | starts and clears keep the shared recording flag equal to the local one |
| IosApp.RecordingMirrorPreservedByEvents | ios/BobrWhisper/AppState.swift:90-131 | the three callbacks keep it |
| IosApp.RecordingMirrorPreservedByModels | ios/BobrWhisper/AppState.swift:226-253 | load and unload keep it |
| IosApp.RecordingMirrorPreservedByLoad | ios/BobrWhisper/AppState.swift:234-244 | a load's completion keeps it |
| IosApp.RecordingMirrorPreservedByDownloads | ios/BobrWhisper/AppState.swift:255-307 | download, completion and cancel keep it |
| IosApp.StopEstablishesRecordingMirror | ios/BobrWhisper/AppState.swift:189-190 | a stop with a handle re-establishes it |
| IosApp.CreateAppRecordingMirror | ios/BobrWhisper/AppState.swift:79 | `createApp` establishes it iff the app was not recording |
| IosApp.DestroyWhileRecordingBreaksMirror | ios/BobrWhisper/AppState.swift:151-159 | `destroyApp` while recording breaks it |
| IosApp.StatusEventReachesKeyboard | ios/BobrWhisper/AppState.swift:90-97 | a code in 0–5 reaches the keyboard as the app's new status; other codes are idle in the app and no status for the keyboard |
| IosApp.TranscriptAndErrorReachKeyboard | ios/BobrWhisper/AppState.swift:110-131 | the keyboard sees the app's transcript, and status 5 after an error |
| IosApp.LoadModelEffect | ios/BobrWhisper/AppState.swift:226-246 | a load ends idle. Success marks the model loaded for both, stores its file name, and lets the keyboard record iff the file exists. Failure tells only the keyboard |
| IosApp.UnloadModelEffect | ios/BobrWhisper/AppState.swift:248-253 | an unload clears the flag for both; the keyboard then refuses to record |
| IosApp.DownloadCompletionEffect | ios/BobrWhisper/AppState.swift:268-296 | every completion clears `isDownloading`; a saved file only sets progress 1; a failure sets error |
| IosApp.DownloadIsExclusive | ios/BobrWhisper/AppState.swift:255-259 | one download at a time |
| IosApp.CancelDownloadEffect | ios/BobrWhisper/AppState.swift:300-307 | no download, no task, progress 0 |
| IosApp.PutKeepsTextSlots | ios/BobrWhisper/AppState.swift:79-82 | a write of text, or a write to a slot other than transcript and filename, keeps both text slots holding text |
| IosApp.TextSlotsKeepTextOnCreate | ios/BobrWhisper/AppState.swift:76-149 | `createApp` keeps the transcript and filename slots holding text |
| IosApp.TextSlotsKeepTextInSession | ios/BobrWhisper/AppState.swift:151-191 | `destroyApp`, `startRecording` and `stopRecording` keep both text slots holding text |
| IosApp.TextSlotsKeepTextOnEvents | ios/BobrWhisper/AppState.swift:93-131 | status, transcript and error events keep both text slots holding text |
| IosApp.TextSlotsKeepTextOnLoad | ios/BobrWhisper/AppState.swift:226-246 | a load's completion, either way, keeps both text slots holding text |
| IosApp.TextSlotsKeepTextForModels | ios/BobrWhisper/AppState.swift:248-298 | `unloadModel` and a download's completion keep both text slots holding text |
| IosApp.ClearTranscriptIsLocal | ios/BobrWhisper/AppState.swift:313-316 | the transcript clears and status is idle; the keyboard's view is unchanged |
| IosApp.AppState.CreateApp | ios/BobrWhisper/AppState.swift:76-149 | the new state, suite included, is `AfterCreateApp` |
| IosApp.AppState.DestroyApp | ios/BobrWhisper/AppState.swift:151-159 | the new state is `AfterDestroyApp` |
| IosApp.AppState.StartRecording | ios/BobrWhisper/AppState.swift:161-173 | the new state is `AfterStartRecording` |
| IosApp.AppState.StopRecording | ios/BobrWhisper/AppState.swift:175-191 | the new state is `AfterStopRecording` |
| IosApp.AppState.OnStatusChange | ios/BobrWhisper/AppState.swift:90-97 | the new state is `AfterStatusChange` |
| IosApp.AppState.OnTranscript | ios/BobrWhisper/AppState.swift:98-114 | the new state is `AfterTranscript` |
| IosApp.AppState.OnError | ios/BobrWhisper/AppState.swift:115-132 | the new state is `AfterError` |
| IosApp.AppState.LoadModel | ios/BobrWhisper/AppState.swift:226-230 | the new state is `AfterLoadModel`; returns the size being loaded |
| IosApp.AppState.ModelLoadCompleted | ios/BobrWhisper/AppState.swift:234-244 | the new state is `AfterModelLoaded` |
| IosApp.AppState.UnloadModel | ios/BobrWhisper/AppState.swift:248-253 | the new state is `AfterUnloadModel` |
| IosApp.AppState.DownloadModel | ios/BobrWhisper/AppState.swift:255-298 | the new state is `AfterDownloadModel`; a task starts iff none was running |
| IosApp.AppState.DownloadProgressed | ios/BobrWhisper/AppState.swift:327-340 | progress becomes the delegate's formula |
| IosApp.AppState.DownloadCompleted | ios/BobrWhisper/AppState.swift:268-296 | the new state is `AfterDownloadCompleted` |
| IosApp.AppState.CancelDownload | ios/BobrWhisper/AppState.swift:300-307 | the new state is `AfterCancelDownload` |
| IosApp.AppState.ClearTranscript | ios/BobrWhisper/AppState.swift:313-316 | the new state is `AfterClearTranscript` |
| DeepLink.IndexOfAny | ios/BobrWhisper/App.swift:29-30 | the first stop character, or the end |
| DeepLink.ParseUrl | ios/BobrWhisper/App.swift:29-30 | a scheme is the non-empty text before ':'; a host is the non-empty text after "//", up to '/', '?' or '#' |
| DeepLink.ParseComposedUrl | ios/BobrWhisper/App.swift:29-30 | a URL built from a scheme and a host parses back into them |
| DeepLink.OpenUrlCommand | ios/BobrWhisper/App.swift:28-36 | a wrong scheme or host issues nothing; the record link stops if recording, else starts |
| DeepLink.KeyboardLinkIsAccepted | ios/BobrWhisperKeyboard/KeyboardViewController.swift:142 | the keyboard's link parses as scheme "bobrwhisper", host "record", and issues a command |
| DeepLink.KeyboardLinkToggles | ios/BobrWhisper/App.swift:31-35 | the keyboard's link toggles recording, so two of them restore it |
| DeepLink.HandleOpenUrl | ios/BobrWhisper/App.swift:28-36 | issues `OpenUrlCommand` and the session changes as that command says |

## Left out

- Both macOS `AppState`s are modelled at the level of their fields. The C boundary is not: `Unmanaged` userdata, `strdup`/`free` of configuration strings, and UTF-8 decoding of `(ptr, len)` payloads. A payload is an already-copied `Option<string>` (`TranscriptText`, `ErrorText`).
- Dispatch queues, the background model-load thread and timers are not modelled. The keyboard's 0.5 s poll, the overlay's one-second duration timer and the audio-level timer become event methods applied in sequence. The audio level's value is left out; only its reset to 0 on stop is kept.
- Engine calls are parameters, not modelled calls. This covers `bobrwhisper_app_new`, `bobrwhisper_start_recording_live`, `bobrwhisper_model_load` and `bobrwhisper_model_exists`. `bobrwhisper_stop_recording_live`'s result, which the source ignores, is not modelled. `transcribe()`, `modelExists`, `getModelPath`, `persistSettings`, the `Tone` table and the transcription options are not part of this model.
- The network and the file system become outcomes. A download completion's transport error, missing file, failed save or success is a `DownloadOutcome`. The model files present are a set of names. Directory creation is left out.
- The clipboard and the simulated Cmd+V are left out; a paste appends the transcript to `pasted`. The same goes for `AVAudioSession` setup, the accessibility prompt, `bobrwhisper_init`/`fatalError`, `setenv` and `advanceToNextInputMode`.
- Rendering is left out: panel geometry, animations and the audio bars. So are the icon, colour and label tables (`statusIcon`, `statusColor`, `dotColor`, `statusLabel`), the view's `isExpanded` and the button alpha.
- The `show()`/`hide()` panel state keeps only whether the panel exists and is on screen, not its alpha or frame.
- `downloadProgress` is a real number; IEEE-754 rounding is not modelled.
- Strings are sequences of characters: `hasPrefix`, `dropFirst` and `split` work per character, not per grapheme cluster.
- UserDefaults is a map from the five slots to typed values. Bridging between number and boolean property-list values is not modelled: a flag is never read as a number, nor a number as a flag.
- KeyboardShared.LookupText: a number or flag stored in a slot reads as nil here. Foundation's `string(forKey:)` would return its string form. The iOS app only ever stores text in the transcript and filename slots (the `IosApp.TextSlotsKeepText…` lemmas; the other transitions leave the suite alone), so the difference cannot show in the system as written. `KeyboardShared.WrongTypeReadsNil`'s text clause shares this simplification.
- The shared suite's availability is fixed for the life of the process.
- The iOS lemmas about what the keyboard sees are stated for an available suite. `KeyboardState.UnavailableStoreSnapshot` covers the unavailable case, in which the keyboard sees the all-default snapshot.
- DeepLink.ParseUrl: reads only the scheme and host, the way RFC 3986 splits a `scheme://host/...` URL. Userinfo, ports, percent-encoding and Foundation's acceptance rules are not modelled.
- `modelsDirectory` and the app group container lookup are not modelled.
- The model follows the code as written, which:
  - does not tie `isRecording` to `status`;
  - types a diverging transcript whole;
  - gives `cancelDownload` no task token, so a later completion still applies;
  - treats "option+space" as fn+option;
  - ends a failed iOS load idle.
