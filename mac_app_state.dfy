/**
 * The macOS session coordinator (macos/BobrWhisper/AppState.swift).
 *
 * `AppState` is a class whose commands and engine callbacks update its fields
 * in place. Each method is specified by a pure transition over `Fields`, the
 * record of those fields, so that what holds across several calls can be
 * stated as lemmas. Engine calls are parameters: `engineStarted` is the result
 * of `bobrwhisper_start_recording_live`, `success` that of
 * `bobrwhisper_model_load`. Each callback closure, and each completion that the
 * source posts to the main queue, is a method of its own, applied in order.
 */
module MacApp {
  import opened Wrappers
  import opened SessionTypes
  import Overlay

  /** `statusText`. */
  function StatusText(status: Status, errorMessage: Option<string>): (text: string)
    ensures status == Error ==> text == errorMessage.GetOr("Error")
    ensures errorMessage != Some("") ==> text != ""
  {
    match status
    case Idle => "Ready"
    case Recording => "Recording..."
    case Transcribing => "Transcribing..."
    case Formatting => "Formatting..."
    case Ready => "Done"
    case Error => errorMessage.GetOr("Error")
  }

  /** Outside the error state the text names the status. */
  lemma StatusTextIdentifiesStatus(a: Status, b: Status, messageA: Option<string>, messageB: Option<string>)
    requires a != Error && b != Error
    ensures StatusText(a, messageA) == StatusText(b, messageB) ==> a == b
  {
  }

  /** The fields of `AppState` the model tracks. */
  datatype Fields = Fields(
    status: Status,
    isRecording: bool,
    lastTranscript: string,
    errorMessage: Option<string>,
    isDownloading: bool,
    downloadProgress: real,
    selectedWhisperModel: ModelSize,
    isModelLoaded: bool,
    audioLevel: real,
    hasEngine: bool,                  // `app` is non-nil
    hasDownloadTask: bool,            // `downloadTask` and `downloadSession` are set
    defaultModelKey: Option<string>,  // UserDefaults "defaultModel"
    pasted: seq<string>)              // texts pasted into the frontmost app, in order

  /** `init()`, with what an earlier run persisted under "defaultModel". */
  function Initial(defaultModelKey: Option<string>): (f: Fields)
    ensures Consistent(f) && !f.hasEngine && f.status == Idle && !f.isRecording
  {
    Fields(Idle, false, "", None, false, 0.0, Small, false, 0.0, false, false, defaultModelKey, [])
  }

  /** What every reachable state satisfies. */
  predicate Consistent(f: Fields) {
    && f.errorMessage != Some("")
    && 0.0 <= f.downloadProgress
    && (f.isDownloading ==> f.hasDownloadTask)
  }

  // ---------------------------------------------------------------------
  // Transitions
  // ---------------------------------------------------------------------

  /** `loadDefaultModel`'s choice: the persisted size, if the key names one and its file exists. */
  function DefaultModelToLoad(defaultModelKey: Option<string>, modelOnDisk: bool): (m: Option<ModelSize>)
    ensures m.Some? ==> defaultModelKey == Some(StorageKey(m.value)) && modelOnDisk
    ensures m.None? ==> !modelOnDisk || defaultModelKey.None? || FromStorageKey(defaultModelKey.value).None?
  {
    if defaultModelKey.None? || !modelOnDisk then None
    else FromStorageKey(defaultModelKey.value)
  }

  /** `createApp`: `created` is whether `bobrwhisper_app_new` returned a handle. */
  function AfterCreateApp(f: Fields, created: bool, modelOnDisk: bool): Fields {
    if !created then
      f.(hasEngine := false, errorMessage := Some("Failed to create BobrWhisper app"), status := Error)
    else
      var g := f.(hasEngine := true);
      match DefaultModelToLoad(g.defaultModelKey, modelOnDisk)
      case Some(m) => AfterLoadModel(g.(selectedWhisperModel := m))
      case None => g
  }

  function AfterDestroyApp(f: Fields): Fields {
    f.(hasEngine := false)
  }

  function AfterStartRecording(f: Fields, engineStarted: bool): Fields {
    if f.hasEngine && engineStarted then f.(isRecording := true, lastTranscript := "") else f
  }

  /** The engine's result is ignored: with a handle, recording always ends locally. */
  function AfterStopRecording(f: Fields): Fields {
    if f.hasEngine then f.(audioLevel := 0.0, isRecording := false) else f
  }

  function AfterStatusChange(f: Fields, code: int): Fields {
    f.(status := FromCValue(code))
  }

  /** A final transcript is also pasted into the frontmost app. */
  function AfterTranscript(f: Fields, payload: Option<string>, isFinal: bool): Fields {
    var transcript := TranscriptText(payload);
    f.(lastTranscript := transcript, pasted := if isFinal then f.pasted + [transcript] else f.pasted)
  }

  function AfterError(f: Fields, payload: Option<string>): Fields {
    f.(errorMessage := ErrorText(payload), status := Error)
  }

  /** `loadModel` up to the background load: show the loading state. */
  function AfterLoadModel(f: Fields): Fields {
    if f.hasEngine then f.(status := Transcribing) else f
  }

  /** The main-queue completion of a load of `model`. */
  function AfterModelLoaded(f: Fields, model: ModelSize, success: bool): Fields {
    if !success then
      f.(errorMessage := Some("Failed to load model"), status := Error, isModelLoaded := false)
    else
      f.(status := Idle, isModelLoaded := true, defaultModelKey := Some(StorageKey(model)))
  }

  function AfterUnloadModel(f: Fields): Fields {
    if f.hasEngine then f.(isModelLoaded := false) else f
  }

  /** `downloadModel` up to `resume()`: nothing while a download is in flight. */
  function AfterDownloadModel(f: Fields): Fields {
    if f.isDownloading then f else f.(isDownloading := true, downloadProgress := 0.0, hasDownloadTask := true)
  }

  /** A progress report from the download delegate. */
  function AfterDownloadProgress(f: Fields, totalWritten: nat, transportExpected: int, responseExpected: int): Fields {
    f.(downloadProgress := DownloadProgress(totalWritten, transportExpected, responseExpected))
  }

  /** The main-queue part of a download task's completion handler for `size`. */
  function AfterDownloadCompleted(f: Fields, size: ModelSize, outcome: DownloadOutcome): Fields {
    var g := f.(isDownloading := false);
    if outcome == Saved then AfterLoadModel(g.(downloadProgress := 1.0, selectedWhisperModel := size))
    else g.(errorMessage := Some(DownloadFailureMessage(outcome)), status := Error)
  }

  function AfterCancelDownload(f: Fields): Fields {
    f.(hasDownloadTask := false, isDownloading := false, downloadProgress := 0.0)
  }

  // ---------------------------------------------------------------------
  // Properties of the transitions
  // ---------------------------------------------------------------------

  /** A start does nothing without a handle or when the engine refuses; otherwise it records afresh. */
  lemma StartRecordingEffect(f: Fields, engineStarted: bool)
    ensures !f.hasEngine || !engineStarted ==> AfterStartRecording(f, engineStarted) == f
    ensures f.hasEngine && engineStarted ==>
      AfterStartRecording(f, engineStarted) == f.(isRecording := true, lastTranscript := "")
  {
  }

  /**
   * There is no "already recording" guard: a start while recording starts
   * the engine again and clears the transcript so far.
   */
  lemma StartWhileRecordingRestarts(f: Fields)
    requires f.hasEngine && f.isRecording && f.lastTranscript != ""
    ensures AfterStartRecording(f, true).lastTranscript == ""
    ensures AfterStartRecording(f, true).isRecording
  {
  }

  /** With a handle, a stop always ends recording and zeroes the level; without one it does nothing. */
  lemma StopRecordingEffect(f: Fields)
    ensures f.hasEngine ==> !AfterStopRecording(f).isRecording && AfterStopRecording(f).audioLevel == 0.0
    ensures f.hasEngine ==> AfterStopRecording(f).status == f.status
    ensures !f.hasEngine ==> AfterStopRecording(f) == f
  {
  }

  /** An empty or missing transcript clears the transcript; only a final one is pasted. */
  lemma TranscriptEventEffect(f: Fields, payload: Option<string>, isFinal: bool)
    ensures payload.None? || payload == Some("") ==> AfterTranscript(f, payload, isFinal).lastTranscript == ""
    ensures isFinal <==> |AfterTranscript(f, payload, isFinal).pasted| == |f.pasted| + 1
    ensures AfterTranscript(f, payload, isFinal).status == f.status
  {
  }

  /**
   * An error event sets the error state and message (nil for an empty
   * payload) and leaves `isRecording` as it was; the status text then shows
   * the message, or "Error".
   */
  lemma ErrorEventEffect(f: Fields, payload: Option<string>)
    ensures var g := AfterError(f, payload);
            && g.status == Error && g.isRecording == f.isRecording
            && (payload.Some? && payload.value != "" ==> StatusText(g.status, g.errorMessage) == payload.value)
            && (payload.None? || payload == Some("") ==> StatusText(g.status, g.errorMessage) == "Error")
  {
  }

  /** `isRecording` is not tied to `status`: a recording session that reports an error keeps recording. */
  lemma RecordingFlagNotTiedToStatus()
    ensures var f := AfterError(AfterStartRecording(AfterCreateApp(Initial(None), true, false), true), None);
            f.isRecording && f.status == Error
  {
  }

  /**
   * A load shows the loading state at once. Success ends idle with the model
   * loaded and its size persisted so that the next launch restores it;
   * failure ends in the error state with the model unloaded.
   */
  lemma LoadModelEffect(f: Fields, success: bool)
    requires f.hasEngine
    ensures AfterLoadModel(f).status == Transcribing
    ensures var g := AfterModelLoaded(AfterLoadModel(f), f.selectedWhisperModel, success);
            && (success ==> g.status == Idle && g.isModelLoaded
                            && g.defaultModelKey.Some? && FromStorageKey(g.defaultModelKey.value) == Some(f.selectedWhisperModel))
            && (!success ==> g.status == Error && !g.isModelLoaded && g.errorMessage == Some("Failed to load model"))
  {
    StorageKeyRoundTrip(f.selectedWhisperModel);
  }

  /** A size whose load succeeded is loaded again by the next launch, if its file is still there. */
  lemma {:induction false} NextLaunchRestoresModel(f: Fields, model: ModelSize)
    ensures var saved := AfterModelLoaded(f, model, true);
            var next := AfterCreateApp(Initial(saved.defaultModelKey), true, true);
            next.selectedWhisperModel == model && next.status == Transcribing
  {
    StorageKeyRoundTrip(model);
  }

  /** One download at a time: a download request during a download changes nothing. */
  lemma DownloadIsExclusive(f: Fields)
    ensures f.isDownloading ==> AfterDownloadModel(f) == f
    ensures !f.isDownloading ==> AfterDownloadModel(f).isDownloading && AfterDownloadModel(f).downloadProgress == 0.0
  {
  }

  /** Every completion clears `isDownloading`; a saved file selects its size, sets progress 1 and loads it. */
  lemma DownloadCompletionEffect(f: Fields, size: ModelSize, outcome: DownloadOutcome)
    ensures !AfterDownloadCompleted(f, size, outcome).isDownloading
    ensures outcome != Saved ==> AfterDownloadCompleted(f, size, outcome).status == Error
    ensures outcome == Saved ==>
      var g := AfterDownloadCompleted(f, size, outcome);
      g.downloadProgress == 1.0 && g.selectedWhisperModel == size && (f.hasEngine ==> g.status == Transcribing)
  {
  }

  /**
   * A cancel carries no task token: a completion that arrives after it still
   * applies in full.
   */
  lemma CancelDoesNotNeutraliseCompletion(f: Fields, size: ModelSize)
    ensures var g := AfterDownloadCompleted(AfterCancelDownload(f), size, Saved);
            g.downloadProgress == 1.0 && g.selectedWhisperModel == size
  {
  }

  // ---------------------------------------------------------------------
  // The class
  // ---------------------------------------------------------------------

  class AppState {
    var status: Status
    var isRecording: bool
    var lastTranscript: string
    var errorMessage: Option<string>
    var isDownloading: bool
    var downloadProgress: real
    var selectedWhisperModel: ModelSize
    var isModelLoaded: bool
    var audioLevel: real
    var hasEngine: bool
    var hasDownloadTask: bool
    var defaultModelKey: Option<string>
    var pasted: seq<string>
    /** `overlayController`; it may be nil, since nothing in the app assigns it. */
    const overlay: Overlay.OverlayPanelController?

    ghost function State(): Fields
      reads this
    {
      Fields(status, isRecording, lastTranscript, errorMessage, isDownloading, downloadProgress,
             selectedWhisperModel, isModelLoaded, audioLevel, hasEngine, hasDownloadTask, defaultModelKey, pasted)
    }

    ghost predicate Valid()
      reads this, overlay
    {
      Consistent(State()) && (overlay != null ==> overlay.Valid())
    }

    constructor (overlay: Overlay.OverlayPanelController?, defaultModelKey: Option<string>)
      requires overlay != null ==> overlay.Valid()
      ensures Valid() && State() == Initial(defaultModelKey) && this.overlay == overlay
    {
      status, isRecording, lastTranscript, errorMessage := Idle, false, "", None;
      isDownloading, downloadProgress, selectedWhisperModel := false, 0.0, Small;
      isModelLoaded, audioLevel, hasEngine, hasDownloadTask := false, 0.0, false, false;
      this.defaultModelKey := defaultModelKey;
      pasted := [];
      this.overlay := overlay;
    }

    /** `createApp`; `modelOnDisk` is the engine's `bobrwhisper_model_exists` for the persisted size. */
    method CreateApp(created: bool, modelOnDisk: bool)
      requires Valid()
      modifies this
      ensures Valid() && State() == AfterCreateApp(old(State()), created, modelOnDisk)
    {
      hasEngine := created;
      if !created {
        errorMessage := Some("Failed to create BobrWhisper app");
        status := Error;
        return;
      }
      LoadDefaultModel(modelOnDisk);
    }

    method LoadDefaultModel(modelOnDisk: bool)
      requires Valid()
      modifies this
      ensures Valid()
      ensures State() == match DefaultModelToLoad(old(defaultModelKey), modelOnDisk)
                         case Some(m) => AfterLoadModel(old(State()).(selectedWhisperModel := m))
                         case None => old(State())
    {
      if defaultModelKey.None? {
        return;
      }
      var model := FromStorageKey(defaultModelKey.value);
      if model.None? || !modelOnDisk {
        return;
      }
      selectedWhisperModel := model.value;
      var loading := LoadModel();
    }

    method DestroyApp()
      requires Valid()
      modifies this
      ensures Valid() && State() == AfterDestroyApp(old(State()))
    {
      hasEngine := false;
    }

    /** `startRecording`; a successful start also shows the overlay. */
    method StartRecording(engineStarted: bool)
      requires Valid()
      modifies this, overlay
      ensures Valid() && State() == AfterStartRecording(old(State()), engineStarted)
      ensures overlay != null ==>
        overlay.View() == if old(hasEngine) && engineStarted then Overlay.AfterShow(old(overlay.View())) else old(overlay.View())
    {
      if !hasEngine {
        return;
      }
      if engineStarted {
        isRecording := true;
        lastTranscript := "";
        if overlay != null {
          overlay.Show();
        }
      }
    }

    /** `stopRecording`, including `stopAudioLevelPolling`. */
    method StopRecording()
      requires Valid()
      modifies this
      ensures Valid() && State() == AfterStopRecording(old(State()))
    {
      if !hasEngine {
        return;
      }
      audioLevel := 0.0;
      isRecording := false;
    }

    /** The `on_status_change` callback. */
    method OnStatusChange(code: int)
      requires Valid()
      modifies this
      ensures Valid() && State() == AfterStatusChange(old(State()), code)
    {
      status := FromCValue(code);
    }

    /** The `on_transcript` callback; a final transcript is pasted and schedules the overlay's dismissal. */
    method OnTranscript(payload: Option<string>, isFinal: bool)
      requires Valid()
      modifies this, overlay
      ensures Valid() && State() == AfterTranscript(old(State()), payload, isFinal)
      ensures overlay != null ==>
        overlay.View() == if isFinal then Overlay.AfterScheduleDismiss(old(overlay.View()), TranscriptText(payload))
                          else old(overlay.View())
    {
      lastTranscript := TranscriptText(payload);
      if isFinal {
        PasteToActiveApp();
        if overlay != null {
          overlay.ScheduleAutoDismiss(lastTranscript);
        }
      }
    }

    /** `pasteToActiveApp`: the transcript goes to the clipboard and a Cmd+V is posted. */
    method PasteToActiveApp()
      requires Valid()
      modifies this
      ensures Valid() && State() == old(State()).(pasted := old(pasted) + [old(lastTranscript)])
    {
      pasted := pasted + [lastTranscript];
    }

    /** The `on_error` callback. */
    method OnError(payload: Option<string>)
      requires Valid()
      modifies this
      ensures Valid() && State() == AfterError(old(State()), payload)
    {
      errorMessage := ErrorText(payload);
      status := Error;
    }

    /** `loadModel` up to the background load; `loading` is the size the load was started for. */
    method LoadModel() returns (loading: Option<ModelSize>)
      requires Valid()
      modifies this
      ensures Valid() && State() == AfterLoadModel(old(State()))
      ensures loading == if old(hasEngine) then Some(old(selectedWhisperModel)) else None
    {
      if !hasEngine {
        return None;
      }
      loading := Some(selectedWhisperModel);
      status := Transcribing;
    }

    /** The main-queue completion of a load started for `model`. */
    method ModelLoadCompleted(model: ModelSize, success: bool)
      requires Valid()
      modifies this
      ensures Valid() && State() == AfterModelLoaded(old(State()), model, success)
    {
      if !success {
        errorMessage := Some("Failed to load model");
        status := Error;
        isModelLoaded := false;
      } else {
        status := Idle;
        isModelLoaded := true;
        defaultModelKey := Some(StorageKey(model));
      }
    }

    method UnloadModel()
      requires Valid()
      modifies this
      ensures Valid() && State() == AfterUnloadModel(old(State()))
    {
      if !hasEngine {
        return;
      }
      isModelLoaded := false;
    }

    /** `downloadModel`; `started` tells whether a task (and so a later completion) exists. */
    method DownloadModel(size: ModelSize) returns (started: bool)
      requires Valid()
      modifies this
      ensures Valid() && State() == AfterDownloadModel(old(State()))
      ensures started == !old(isDownloading)
    {
      if isDownloading {
        return false;
      }
      isDownloading := true;
      downloadProgress := 0.0;
      hasDownloadTask := true;
      started := true;
    }

    /** The download delegate's progress report, posted to the main queue. */
    method DownloadProgressed(totalWritten: nat, transportExpected: int, responseExpected: int)
      requires Valid()
      modifies this
      ensures Valid() && State() == AfterDownloadProgress(old(State()), totalWritten, transportExpected, responseExpected)
    {
      downloadProgress := DownloadProgress(totalWritten, transportExpected, responseExpected);
    }

    /** The completion handler of the download task started for `size`. */
    method DownloadCompleted(size: ModelSize, outcome: DownloadOutcome) returns (loading: Option<ModelSize>)
      requires Valid()
      modifies this
      ensures Valid() && State() == AfterDownloadCompleted(old(State()), size, outcome)
      ensures loading == if outcome == Saved && old(hasEngine) then Some(size) else None
    {
      isDownloading := false;
      if outcome != Saved {
        errorMessage := Some(DownloadFailureMessage(outcome));
        status := Error;
        return None;
      }
      downloadProgress := 1.0;
      selectedWhisperModel := size;
      loading := LoadModel();
    }

    method CancelDownload()
      requires Valid()
      modifies this
      ensures Valid() && State() == AfterCancelDownload(old(State()))
    {
      hasDownloadTask := false;
      isDownloading := false;
      downloadProgress := 0.0;
    }

    /** A tap on the overlay view, wired to `stopRecording` and the controller's `hide`. */
    method HandleOverlayTap()
      requires Valid() && overlay != null
      modifies this, overlay
      ensures Valid()
      ensures var response := Overlay.TapResponseFor(old(isRecording), old(status));
              && State() == (if response == Overlay.StopOnTap then AfterStopRecording(old(State())) else old(State()))
              && overlay.View() == (if response == Overlay.DismissOnTap then Overlay.AfterHide(old(overlay.View()))
                                    else old(overlay.View()))
    {
      var response := Overlay.TapResponseFor(isRecording, status);
      if response == Overlay.StopOnTap {
        StopRecording();
      } else if response == Overlay.DismissOnTap {
        overlay.Hide();
      }
    }
  }
}
