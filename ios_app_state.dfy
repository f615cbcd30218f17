/**
 * The iOS session coordinator (ios/BobrWhisper/AppState.swift).
 *
 * It follows the macOS coordinator but mirrors part of its state into the
 * shared suite the keyboard extension reads (`KeyboardSharedState`). The
 * fields of `AppState` and the suite's contents together form `Fields`; each
 * method is specified by a pure transition over it, and the lemmas state what
 * the keyboard then sees. The suite's availability is fixed for the life of
 * the process and is a parameter of every transition.
 */
module IosApp {
  import opened Wrappers
  import opened SessionTypes
  import opened KeyboardShared
  import KeyboardState
  import Keyboard

  /** `statusText`: unlike macOS, the idle text depends on whether a model is loaded. */
  function StatusText(status: Status, errorMessage: Option<string>, isModelLoaded: bool): (text: string)
    ensures status == Idle ==> (text == "Ready" <==> isModelLoaded)
    ensures status == Error ==> text == errorMessage.GetOr("Error")
    ensures errorMessage != Some("") ==> text != ""
  {
    match status
    case Idle => if isModelLoaded then "Ready" else "Load a model to start"
    case Recording => "Recording..."
    case Transcribing => "Transcribing..."
    case Formatting => "Formatting..."
    case Ready => "Done"
    case Error => errorMessage.GetOr("Error")
  }

  /** The fields of `AppState` the model tracks, and the shared suite's contents. */
  datatype Fields = Fields(
    status: Status,
    isRecording: bool,
    lastTranscript: string,
    errorMessage: Option<string>,
    isModelLoaded: bool,
    isDownloading: bool,
    downloadProgress: real,
    selectedModel: IosModelSize,
    hasEngine: bool,          // `app` is non-nil
    hasDownloadTask: bool,    // `downloadTask` and `downloadSession` are set
    shared: Entries)

  /** `init()`, with whatever the suite holds from earlier runs. */
  function Initial(shared: Entries): (f: Fields)
    ensures Consistent(f) && !f.hasEngine && f.status == Idle && !f.isRecording && f.shared == shared
  {
    Fields(Idle, false, "", None, false, false, 0.0, Small, false, false, shared)
  }

  predicate Consistent(f: Fields) {
    && f.errorMessage != Some("")
    && 0.0 <= f.downloadProgress
    && (f.isDownloading ==> f.hasDownloadTask)
  }

  /** The shared recording flag agrees with the local one (vacuous without the suite). */
  predicate RecordingMirrored(f: Fields, available: bool) {
    available ==> LookupFlag(available, f.shared, IsRecordingSlot) == Some(f.isRecording)
  }

  /** What the keyboard extension reads from the suite in state `f`. */
  function KeyboardView(f: Fields, available: bool): KeyboardState.KeyboardStateSnapshot {
    KeyboardState.ReadSnapshot(available, f.shared)
  }

  // ---------------------------------------------------------------------
  // Transitions
  // ---------------------------------------------------------------------

  /** The four writes `createApp` makes before it builds the engine configuration. */
  function ResetShared(available: bool, shared: Entries): Entries {
    var e1 := Put(available, shared, IsRecordingSlot, Flag(false));
    var e2 := Put(available, e1, IsModelLoadedSlot, Flag(false));
    var e3 := Put(available, e2, TranscriptSlot, Text(""));
    Put(available, e3, StatusSlot, Number(RawValue(Idle)))
  }

  /** `createApp`: `created` is whether `bobrwhisper_app_new` returned a handle. */
  function AfterCreateApp(f: Fields, available: bool, created: bool): Fields {
    var g := f.(shared := ResetShared(available, f.shared), hasEngine := created);
    if created then g
    else g.(errorMessage := Some("Failed to create BobrWhisper app"), status := Error,
            shared := Put(available, g.shared, StatusSlot, Number(RawValue(Error))))
  }

  /** `destroyApp`: the handle goes and the shared recording flag is cleared; the local one is not. */
  function AfterDestroyApp(f: Fields, available: bool): Fields {
    f.(hasEngine := false, shared := Put(available, f.shared, IsRecordingSlot, Flag(false)))
  }

  function AfterStartRecording(f: Fields, available: bool, engineStarted: bool): Fields {
    if f.hasEngine && engineStarted then
      var e := Put(available, f.shared, IsRecordingSlot, Flag(true));
      f.(isRecording := true, lastTranscript := "", shared := Put(available, e, TranscriptSlot, Text("")))
    else f
  }

  /** The engine's result is ignored: with a handle, recording always ends, locally and in the suite. */
  function AfterStopRecording(f: Fields, available: bool): Fields {
    if f.hasEngine then f.(isRecording := false, shared := Put(available, f.shared, IsRecordingSlot, Flag(false)))
    else f
  }

  /** The raw code is stored as received, even one outside 0..5 that the app reads as idle. */
  function AfterStatusChange(f: Fields, available: bool, code: int): Fields {
    f.(status := FromCValue(code), shared := Put(available, f.shared, StatusSlot, Number(code)))
  }

  /** iOS does not paste: final and partial transcripts are handled alike. */
  function AfterTranscript(f: Fields, available: bool, payload: Option<string>): Fields {
    var transcript := TranscriptText(payload);
    f.(lastTranscript := transcript, shared := Put(available, f.shared, TranscriptSlot, Text(transcript)))
  }

  function AfterError(f: Fields, available: bool, payload: Option<string>): Fields {
    f.(errorMessage := ErrorText(payload), status := Error,
       shared := Put(available, f.shared, StatusSlot, Number(RawValue(Error))))
  }

  function AfterLoadModel(f: Fields): Fields {
    if f.hasEngine then f.(status := Transcribing) else f
  }

  /** The main-queue completion of a load of `model`: idle either way. */
  function AfterModelLoaded(f: Fields, available: bool, model: IosModelSize, success: bool): Fields {
    if success then
      var e := Put(available, f.shared, IsModelLoadedSlot, Flag(true));
      f.(isModelLoaded := true, status := Idle,
         shared := Put(available, e, SelectedModelFilenameSlot, Text(Filename(model))))
    else
      f.(status := Idle, shared := Put(available, f.shared, IsModelLoadedSlot, Flag(false)))
  }

  function AfterUnloadModel(f: Fields, available: bool): Fields {
    if f.hasEngine then f.(isModelLoaded := false, shared := Put(available, f.shared, IsModelLoadedSlot, Flag(false)))
    else f
  }

  function AfterDownloadModel(f: Fields): Fields {
    if f.isDownloading then f else f.(isDownloading := true, downloadProgress := 0.0, hasDownloadTask := true)
  }

  /** `DownloadDelegate`'s progress report. */
  function AfterDownloadProgress(f: Fields, totalWritten: nat, transportExpected: int, responseExpected: int): Fields {
    f.(downloadProgress := DownloadProgress(totalWritten, transportExpected, responseExpected))
  }

  /** The completion handler; only a failed save is mirrored into the suite, and success neither selects nor loads. */
  function AfterDownloadCompleted(f: Fields, available: bool, outcome: DownloadOutcome): Fields {
    var g := f.(isDownloading := false);
    if outcome == Saved then g.(downloadProgress := 1.0)
    else
      var h := g.(errorMessage := Some(DownloadFailureMessage(outcome)), status := Error);
      if outcome.SaveFailed? then h.(shared := Put(available, h.shared, StatusSlot, Number(RawValue(Error)))) else h
  }

  function AfterCancelDownload(f: Fields): Fields {
    f.(hasDownloadTask := false, isDownloading := false, downloadProgress := 0.0)
  }

  /** `clearTranscript`: local only, the suite keeps the old transcript and status. */
  function AfterClearTranscript(f: Fields): Fields {
    f.(lastTranscript := "", status := Idle)
  }

  // ---------------------------------------------------------------------
  // Properties of the transitions
  //
  // What the keyboard sees is stated for a suite that is available; without
  // it every write is dropped and the keyboard sees the all-default snapshot
  // (KeyboardState.UnavailableStoreSnapshot).
  // ---------------------------------------------------------------------

  /**
   * `createApp` first resets the keyboard's view: not recording, no model
   * loaded and no transcript. The selected filename is left as it was.
   */
  lemma CreateAppResetsKeyboardView(f: Fields, created: bool)
    ensures var k := KeyboardView(AfterCreateApp(f, true, created), true);
            && !k.isRecording && !k.isModelLoaded && k.transcript == ""
            && k.selectedModelFilename == KeyboardView(f, true).selectedModelFilename
  {
  }

  /** After `createApp` the keyboard sees status 0, or 5 when the engine could not be created. */
  lemma CreateAppKeyboardStatus(f: Fields, created: bool)
    ensures KeyboardView(AfterCreateApp(f, true, created), true).status
            == Some(if created then KeyboardState.Idle else KeyboardState.Error)
  {
  }

  /**
   * A successful start sets `isRecording` and clears the transcript, locally
   * and for the keyboard; without a handle or when the engine refuses,
   * nothing changes.
   */
  lemma StartRecordingEffect(f: Fields, engineStarted: bool)
    ensures !f.hasEngine || !engineStarted ==> AfterStartRecording(f, true, engineStarted) == f
    ensures f.hasEngine && engineStarted ==>
      var g := AfterStartRecording(f, true, engineStarted);
      && g.isRecording && g.lastTranscript == ""
      && KeyboardView(g, true).isRecording && KeyboardView(g, true).transcript == ""
  {
  }

  /** With a handle a stop ends recording locally and for the keyboard, whatever the engine returns. */
  lemma StopRecordingEffect(f: Fields)
    ensures f.hasEngine ==>
      var g := AfterStopRecording(f, true);
      !g.isRecording && !KeyboardView(g, true).isRecording
    ensures !f.hasEngine ==> AfterStopRecording(f, true) == f
  {
  }

  /** A start keeps the mirror of the recording flag, and so does clearing the transcript. */
  lemma RecordingMirrorPreservedByStart(f: Fields, ok: bool)
    requires RecordingMirrored(f, true)
    ensures RecordingMirrored(AfterStartRecording(f, true, ok), true)
    ensures RecordingMirrored(AfterClearTranscript(f), true)
  {
  }

  /** The engine's events keep the mirror of the recording flag. */
  lemma RecordingMirrorPreservedByEvents(f: Fields, code: int, payload: Option<string>)
    requires RecordingMirrored(f, true)
    ensures RecordingMirrored(AfterStatusChange(f, true, code), true)
    ensures RecordingMirrored(AfterTranscript(f, true, payload), true)
    ensures RecordingMirrored(AfterError(f, true, payload), true)
  {
  }

  /** Starting a load and unloading keep the mirror of the recording flag. */
  lemma RecordingMirrorPreservedByModels(f: Fields)
    requires RecordingMirrored(f, true)
    ensures RecordingMirrored(AfterLoadModel(f), true)
    ensures RecordingMirrored(AfterUnloadModel(f, true), true)
  {
  }

  /** A load's completion keeps the mirror of the recording flag. */
  lemma RecordingMirrorPreservedByLoad(f: Fields, ok: bool, model: IosModelSize)
    requires RecordingMirrored(f, true)
    ensures RecordingMirrored(AfterModelLoaded(f, true, model, ok), true)
  {
  }

  /** The download commands keep the mirror of the recording flag. */
  lemma RecordingMirrorPreservedByDownloads(f: Fields, outcome: DownloadOutcome)
    requires RecordingMirrored(f, true)
    ensures RecordingMirrored(AfterDownloadModel(f), true)
    ensures RecordingMirrored(AfterDownloadCompleted(f, true, outcome), true)
    ensures RecordingMirrored(AfterCancelDownload(f), true)
  {
  }

  /** A stop with a handle re-establishes the mirror from any state. */
  lemma StopEstablishesRecordingMirror(f: Fields)
    requires f.hasEngine
    ensures RecordingMirrored(AfterStopRecording(f, true), true)
  {
  }

  /** `createApp` establishes the mirror only when the app was not recording: it does not reset `isRecording`. */
  lemma CreateAppRecordingMirror(f: Fields, created: bool)
    ensures RecordingMirrored(AfterCreateApp(f, true, created), true) <==> !f.isRecording
  {
  }

  /** `destroyApp` while recording leaves the keyboard believing recording has stopped. */
  lemma DestroyWhileRecordingBreaksMirror(f: Fields)
    requires f.isRecording
    ensures !RecordingMirrored(AfterDestroyApp(f, true), true)
  {
  }

  /**
   * A status event with a code in 0..5 reaches the keyboard as the status
   * the app now has; a code outside that range is idle in the app but no
   * status at all for the keyboard.
   */
  lemma StatusEventReachesKeyboard(f: Fields, code: int)
    ensures 0 <= code <= 5 ==>
      var g := AfterStatusChange(f, true, code);
      KeyboardView(g, true).status == Some(KeyboardState.FromAppStatus(g.status))
    ensures !(0 <= code <= 5) ==>
      AfterStatusChange(f, true, code).status == Idle
      && KeyboardView(AfterStatusChange(f, true, code), true).status.None?
  {
  }

  /** A transcript event reaches the keyboard as the app's transcript, an error event as status 5. */
  lemma TranscriptAndErrorReachKeyboard(f: Fields, payload: Option<string>)
    ensures var g := AfterTranscript(f, true, payload);
            KeyboardView(g, true).transcript == g.lastTranscript
    ensures KeyboardView(AfterError(f, true, payload), true).status == Some(KeyboardState.Error)
  {
  }

  /**
   * A load always ends idle. Success marks the model loaded and stores its
   * filename, so the keyboard lets the user record exactly when that file
   * exists; failure tells only the keyboard that no model is loaded.
   */
  lemma LoadModelEffect(f: Fields, model: IosModelSize, success: bool, modelFiles: set<string>)
    ensures AfterModelLoaded(f, true, model, success).status == Idle
    ensures success ==>
      var g := AfterModelLoaded(f, true, model, success);
      && g.isModelLoaded
      && KeyboardView(g, true).isModelLoaded
      && KeyboardView(g, true).selectedModelFilename == Some(Filename(model))
      && (Keyboard.CanRecord(KeyboardView(g, true), modelFiles) <==> Filename(model) in modelFiles)
    ensures !success ==>
      var g := AfterModelLoaded(f, true, model, success);
      g.isModelLoaded == f.isModelLoaded && !KeyboardView(g, true).isModelLoaded
  {
  }

  /** An unload clears the loaded flag locally and for the keyboard, which then refuses to record. */
  lemma UnloadModelEffect(f: Fields, modelFiles: set<string>)
    requires f.hasEngine
    ensures var g := AfterUnloadModel(f, true);
            !g.isModelLoaded && !Keyboard.CanRecord(KeyboardView(g, true), modelFiles)
  {
  }

  /** A download completion clears `isDownloading`; a saved file sets progress 1 and nothing else. */
  lemma DownloadCompletionEffect(f: Fields, available: bool, outcome: DownloadOutcome)
    ensures !AfterDownloadCompleted(f, available, outcome).isDownloading
    ensures outcome == Saved ==> AfterDownloadCompleted(f, available, outcome) == f.(isDownloading := false, downloadProgress := 1.0)
    ensures outcome != Saved ==> AfterDownloadCompleted(f, available, outcome).status == Error
  {
  }

  /** One download at a time, as on macOS. */
  lemma DownloadIsExclusive(f: Fields)
    ensures f.isDownloading ==> AfterDownloadModel(f) == f
    ensures !f.isDownloading ==> AfterDownloadModel(f).isDownloading && AfterDownloadModel(f).downloadProgress == 0.0
  {
  }

  /** A cancel leaves no download, no task and zero progress. */
  lemma CancelDownloadEffect(f: Fields)
    ensures var g := AfterCancelDownload(f);
            !g.isDownloading && !g.hasDownloadTask && g.downloadProgress == 0.0
  {
  }

  /** Clearing the transcript is not mirrored: the keyboard's view is unchanged. */
  lemma ClearTranscriptIsLocal(f: Fields, available: bool)
    ensures AfterClearTranscript(f).lastTranscript == "" && AfterClearTranscript(f).status == Idle
    ensures KeyboardView(AfterClearTranscript(f), available) == KeyboardView(f, available)
  {
  }

  /**
   * The app writes only text to the transcript and filename slots, so a
   * suite that starts that way stays that way, whatever the availability.
   */
  predicate TextSlotsHoldText(e: Entries) {
    && (TranscriptSlot in e ==> e[TranscriptSlot].Text?)
    && (SelectedModelFilenameSlot in e ==> e[SelectedModelFilenameSlot].Text?)
  }

  /** A write keeps the invariant when it puts text, or puts into neither text slot. */
  lemma PutKeepsTextSlots(available: bool, e: Entries, slot: Slot, value: StoredValue)
    requires TextSlotsHoldText(e)
    requires value.Text? || (slot != TranscriptSlot && slot != SelectedModelFilenameSlot)
    ensures TextSlotsHoldText(Put(available, e, slot, value))
  {
  }

  lemma TextSlotsKeepTextOnCreate(f: Fields, available: bool, created: bool)
    requires TextSlotsHoldText(f.shared)
    ensures TextSlotsHoldText(AfterCreateApp(f, available, created).shared)
  {
    var e1 := Put(available, f.shared, IsRecordingSlot, Flag(false));
    PutKeepsTextSlots(available, f.shared, IsRecordingSlot, Flag(false));
    var e2 := Put(available, e1, IsModelLoadedSlot, Flag(false));
    PutKeepsTextSlots(available, e1, IsModelLoadedSlot, Flag(false));
    var e3 := Put(available, e2, TranscriptSlot, Text(""));
    PutKeepsTextSlots(available, e2, TranscriptSlot, Text(""));
    PutKeepsTextSlots(available, e3, StatusSlot, Number(RawValue(Idle)));
    PutKeepsTextSlots(available, ResetShared(available, f.shared), StatusSlot, Number(RawValue(Error)));
  }

  lemma TextSlotsKeepTextInSession(f: Fields, available: bool, engineStarted: bool)
    requires TextSlotsHoldText(f.shared)
    ensures TextSlotsHoldText(AfterDestroyApp(f, available).shared)
    ensures TextSlotsHoldText(AfterStartRecording(f, available, engineStarted).shared)
    ensures TextSlotsHoldText(AfterStopRecording(f, available).shared)
  {
    PutKeepsTextSlots(available, f.shared, IsRecordingSlot, Flag(false));
    var started := Put(available, f.shared, IsRecordingSlot, Flag(true));
    PutKeepsTextSlots(available, f.shared, IsRecordingSlot, Flag(true));
    PutKeepsTextSlots(available, started, TranscriptSlot, Text(""));
  }

  lemma TextSlotsKeepTextOnEvents(f: Fields, available: bool, code: int, payload: Option<string>)
    requires TextSlotsHoldText(f.shared)
    ensures TextSlotsHoldText(AfterStatusChange(f, available, code).shared)
    ensures TextSlotsHoldText(AfterTranscript(f, available, payload).shared)
    ensures TextSlotsHoldText(AfterError(f, available, payload).shared)
  {
    PutKeepsTextSlots(available, f.shared, StatusSlot, Number(code));
    PutKeepsTextSlots(available, f.shared, TranscriptSlot, Text(TranscriptText(payload)));
    PutKeepsTextSlots(available, f.shared, StatusSlot, Number(RawValue(Error)));
  }

  lemma TextSlotsKeepTextOnLoad(f: Fields, available: bool, model: IosModelSize, success: bool)
    requires TextSlotsHoldText(f.shared)
    ensures TextSlotsHoldText(AfterModelLoaded(f, available, model, success).shared)
  {
    if success {
      var loaded := Put(available, f.shared, IsModelLoadedSlot, Flag(true));
      PutKeepsTextSlots(available, f.shared, IsModelLoadedSlot, Flag(true));
      var name := Filename(model);
      PutKeepsTextSlots(available, loaded, SelectedModelFilenameSlot, Text(name));
    } else {
      PutKeepsTextSlots(available, f.shared, IsModelLoadedSlot, Flag(false));
    }
  }

  lemma TextSlotsKeepTextForModels(f: Fields, available: bool, outcome: DownloadOutcome)
    requires TextSlotsHoldText(f.shared)
    ensures TextSlotsHoldText(AfterUnloadModel(f, available).shared)
    ensures TextSlotsHoldText(AfterDownloadCompleted(f, available, outcome).shared)
  {
    PutKeepsTextSlots(available, f.shared, IsModelLoadedSlot, Flag(false));
    PutKeepsTextSlots(available, f.shared, StatusSlot, Number(RawValue(Error)));
  }

  // ---------------------------------------------------------------------
  // The class
  // ---------------------------------------------------------------------

  class AppState {
    var status: Status
    var isRecording: bool
    var lastTranscript: string
    var errorMessage: Option<string>
    var isModelLoaded: bool
    var isDownloading: bool
    var downloadProgress: real
    var selectedModel: IosModelSize
    var hasEngine: bool
    var hasDownloadTask: bool
    /** The app group's suite, shared with the keyboard extension. */
    const store: SharedStore

    ghost function State(): Fields
      reads this, store
    {
      Fields(status, isRecording, lastTranscript, errorMessage, isModelLoaded, isDownloading, downloadProgress,
             selectedModel, hasEngine, hasDownloadTask, store.entries)
    }

    ghost predicate Valid()
      reads this, store
    {
      Consistent(State())
    }

    constructor (store: SharedStore)
      ensures Valid() && State() == Initial(store.entries) && this.store == store
    {
      status, isRecording, lastTranscript, errorMessage := Idle, false, "", None;
      isModelLoaded, isDownloading, downloadProgress := false, false, 0.0;
      selectedModel, hasEngine, hasDownloadTask := Small, false, false;
      this.store := store;
    }

    /** `createApp`: `created` is whether `bobrwhisper_app_new` returned a handle. */
    method CreateApp(created: bool)
      requires Valid()
      modifies this, store
      ensures Valid() && State() == AfterCreateApp(old(State()), store.available, created)
    {
      store.WriteIsRecording(false);
      store.WriteIsModelLoaded(false);
      store.WriteTranscript("");
      store.WriteStatusRaw(RawValue(Idle));
      hasEngine := created;
      if !created {
        errorMessage := Some("Failed to create BobrWhisper app");
        status := Error;
        store.WriteStatusRaw(RawValue(Error));
      }
    }

    method DestroyApp()
      requires Valid()
      modifies this, store
      ensures Valid() && State() == AfterDestroyApp(old(State()), store.available)
    {
      hasEngine := false;
      store.WriteIsRecording(false);
    }

    method StartRecording(engineStarted: bool)
      requires Valid()
      modifies this, store
      ensures Valid() && State() == AfterStartRecording(old(State()), store.available, engineStarted)
    {
      if !hasEngine {
        return;
      }
      if engineStarted {
        isRecording := true;
        lastTranscript := "";
        store.WriteIsRecording(true);
        store.WriteTranscript("");
      }
    }

    method StopRecording()
      requires Valid()
      modifies this, store
      ensures Valid() && State() == AfterStopRecording(old(State()), store.available)
    {
      if !hasEngine {
        return;
      }
      isRecording := false;
      store.WriteIsRecording(false);
    }

    /** The `on_status_change` callback. */
    method OnStatusChange(code: int)
      requires Valid()
      modifies this, store
      ensures Valid() && State() == AfterStatusChange(old(State()), store.available, code)
    {
      status := FromCValue(code);
      store.WriteStatusRaw(code);
    }

    /** The `on_transcript` callback; `isFinal` is not used on iOS. */
    method OnTranscript(payload: Option<string>, isFinal: bool)
      requires Valid()
      modifies this, store
      ensures Valid() && State() == AfterTranscript(old(State()), store.available, payload)
    {
      var transcript := TranscriptText(payload);
      lastTranscript := transcript;
      store.WriteTranscript(transcript);
    }

    /** The `on_error` callback. */
    method OnError(payload: Option<string>)
      requires Valid()
      modifies this, store
      ensures Valid() && State() == AfterError(old(State()), store.available, payload)
    {
      errorMessage := ErrorText(payload);
      status := Error;
      store.WriteStatusRaw(RawValue(Error));
    }

    /** `loadModel` up to the background load; `loading` is the size the load was started for. */
    method LoadModel() returns (loading: Option<IosModelSize>)
      requires Valid()
      modifies this
      ensures Valid() && State() == AfterLoadModel(old(State()))
      ensures loading == if old(hasEngine) then Some(old(selectedModel)) else None
    {
      if !hasEngine {
        return None;
      }
      loading := Some(selectedModel);
      status := Transcribing;
    }

    /** The main-queue completion of a load started for `model`. */
    method ModelLoadCompleted(model: IosModelSize, success: bool)
      requires Valid()
      modifies this, store
      ensures Valid() && State() == AfterModelLoaded(old(State()), store.available, model, success)
    {
      if success {
        isModelLoaded := true;
        store.WriteIsModelLoaded(true);
        store.WriteSelectedModelFilename(Some(Filename(model)));
      } else {
        store.WriteIsModelLoaded(false);
      }
      status := Idle;
    }

    method UnloadModel()
      requires Valid()
      modifies this, store
      ensures Valid() && State() == AfterUnloadModel(old(State()), store.available)
    {
      if !hasEngine {
        return;
      }
      isModelLoaded := false;
      store.WriteIsModelLoaded(false);
    }

    /** `downloadModel`; `started` tells whether a task (and so a later completion) exists. */
    method DownloadModel(size: IosModelSize) returns (started: bool)
      requires Valid()
      modifies this
      ensures Valid() && State() == AfterDownloadModel(old(State()))
      ensures started == !old(isDownloading)
    {
      if isDownloading {
        return false;
      }
      isDownloading := true;
      downloadProgress := 0.0;
      hasDownloadTask := true;
      started := true;
    }

    method DownloadProgressed(totalWritten: nat, transportExpected: int, responseExpected: int)
      requires Valid()
      modifies this
      ensures Valid() && State() == AfterDownloadProgress(old(State()), totalWritten, transportExpected, responseExpected)
    {
      downloadProgress := DownloadProgress(totalWritten, transportExpected, responseExpected);
    }

    /** The completion handler of the download task. */
    method DownloadCompleted(outcome: DownloadOutcome)
      requires Valid()
      modifies this, store
      ensures Valid() && State() == AfterDownloadCompleted(old(State()), store.available, outcome)
    {
      isDownloading := false;
      if outcome == Saved {
        downloadProgress := 1.0;
        return;
      }
      errorMessage := Some(DownloadFailureMessage(outcome));
      status := Error;
      if outcome.SaveFailed? {
        store.WriteStatusRaw(RawValue(Error));
      }
    }

    method CancelDownload()
      requires Valid()
      modifies this
      ensures Valid() && State() == AfterCancelDownload(old(State()))
    {
      hasDownloadTask := false;
      isDownloading := false;
      downloadProgress := 0.0;
    }

    method ClearTranscript()
      requires Valid()
      modifies this
      ensures Valid() && State() == AfterClearTranscript(old(State()))
    {
      lastTranscript := "";
      status := Idle;
    }
  }
}
