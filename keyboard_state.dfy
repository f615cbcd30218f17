/**
 * What the keyboard extension reads from the shared store
 * (ios/Shared/KeyboardState.swift): the status enum and one snapshot of the
 * five slots, with defaults for the missing ones.
 */
module KeyboardState {
  import opened Wrappers
  import opened KeyboardShared
  import SessionTypes
  import Engine

  datatype KeyboardStatus = Idle | Recording | Transcribing | Formatting | Ready | Error

  /** `KeyboardStatus.rawValue`. */
  function KeyboardRawValue(s: KeyboardStatus): (code: int)
    ensures 0 <= code <= 5
  {
    match s
    case Idle => 0
    case Recording => 1
    case Transcribing => 2
    case Formatting => 3
    case Ready => 4
    case Error => 5
  }

  /** `KeyboardStatus(rawValue:)`: nil outside 0...5. */
  function KeyboardStatusFromRaw(code: int): (s: Option<KeyboardStatus>)
    ensures s.Some? <==> 0 <= code <= 5
    ensures s.Some? ==> KeyboardRawValue(s.value) == code
  {
    if code == 0 then Some(Idle)
    else if code == 1 then Some(Recording)
    else if code == 2 then Some(Transcribing)
    else if code == 3 then Some(Formatting)
    else if code == 4 then Some(Ready)
    else if code == 5 then Some(Error)
    else None
  }

  /** The keyboard's status for the app's status of the same name. */
  function FromAppStatus(s: SessionTypes.Status): KeyboardStatus {
    match s
    case Idle => Idle
    case Recording => Recording
    case Transcribing => Transcribing
    case Formatting => Formatting
    case Ready => Ready
    case Error => Error
  }

  /**
   * The keyboard's codes are the app's raw values and the engine's status
   * codes: the code the app writes for a status reads back as the same-named
   * keyboard status.
   */
  lemma KeyboardCodesMatchAppCodes(s: SessionTypes.Status)
    ensures KeyboardRawValue(FromAppStatus(s)) == SessionTypes.RawValue(s)
    ensures KeyboardStatusFromRaw(SessionTypes.RawValue(s)) == Some(FromAppStatus(s))
    ensures KeyboardStatusFromRaw(Engine.STATUS_ERROR) == Some(Error)
    ensures KeyboardStatusFromRaw(Engine.STATUS_IDLE) == Some(Idle)
  {
  }

  datatype KeyboardStateSnapshot = KeyboardStateSnapshot(
    isRecording: bool,
    isModelLoaded: bool,
    selectedModelFilename: Option<string>,
    transcript: string,
    status: Option<KeyboardStatus>)

  /**
   * `KeyboardStateSnapshot()` over a suite whose availability and contents are
   * given: every slot is read once; missing flags are false, a missing
   * transcript is "".
   */
  function ReadSnapshot(available: bool, entries: Entries): (snap: KeyboardStateSnapshot)
    ensures snap.isRecording <==> LookupFlag(available, entries, IsRecordingSlot) == Some(true)
    ensures snap.isModelLoaded <==> LookupFlag(available, entries, IsModelLoadedSlot) == Some(true)
    ensures snap.selectedModelFilename == LookupText(available, entries, SelectedModelFilenameSlot)
    ensures LookupText(available, entries, TranscriptSlot).Some? ==>
      snap.transcript == LookupText(available, entries, TranscriptSlot).value
    ensures LookupText(available, entries, TranscriptSlot).None? ==> snap.transcript == ""
    ensures snap.status.Some? <==>
      LookupNumber(available, entries, StatusSlot).Some? && 0 <= LookupNumber(available, entries, StatusSlot).value <= 5
    ensures snap.status.Some? ==> KeyboardRawValue(snap.status.value) == LookupNumber(available, entries, StatusSlot).value
  {
    KeyboardStateSnapshot(
      LookupFlag(available, entries, IsRecordingSlot).GetOr(false),
      LookupFlag(available, entries, IsModelLoadedSlot).GetOr(false),
      LookupText(available, entries, SelectedModelFilenameSlot),
      LookupText(available, entries, TranscriptSlot).GetOr(""),
      match LookupNumber(available, entries, StatusSlot)
      case Some(raw) => KeyboardStatusFromRaw(raw)
      case None => None)
  }

  /** Without the shared suite the keyboard sees nothing: the all-default snapshot. */
  lemma UnavailableStoreSnapshot(entries: Entries)
    ensures ReadSnapshot(false, entries) == KeyboardStateSnapshot(false, false, None, "", None)
  {
  }
}
