/**
 * The value types both apps' AppState.swift declare identically: the session
 * status, the Whisper model sizes and their tables, the decoding of callback
 * payloads, the download-progress formula, and the commands a front end
 * (hotkey, deep link, overlay tap) can issue to a session.
 */
module SessionTypes {
  import opened Wrappers
  import Engine

  // ---------------------------------------------------------------------
  // Status
  // ---------------------------------------------------------------------

  datatype Status = Idle | Recording | Transcribing | Formatting | Ready | Error

  /** `Status.rawValue`. */
  function RawValue(s: Status): (code: int)
    ensures 0 <= code <= 5
    ensures FromRawValue(code) == Some(s)
  {
    match s
    case Idle => 0
    case Recording => 1
    case Transcribing => 2
    case Formatting => 3
    case Ready => 4
    case Error => 5
  }

  /** `Status(rawValue:)`: the failable initialiser. */
  function FromRawValue(code: int): (s: Option<Status>)
    ensures s.Some? <==> 0 <= code <= 5
  {
    if code == 0 then Some(Idle)
    else if code == 1 then Some(Recording)
    else if code == 2 then Some(Transcribing)
    else if code == 3 then Some(Formatting)
    else if code == 4 then Some(Ready)
    else if code == 5 then Some(Error)
    else None
  }

  /** `Status(cValue:)`: an engine status code, with every unknown code read as idle. */
  function FromCValue(code: int): (s: Status)
    ensures 0 <= code <= 5 ==> RawValue(s) == code
    ensures !(0 <= code <= 5) ==> s == Idle
  {
    FromRawValue(code).GetOr(Idle)
  }

  /** The six statuses have the engine's `BOBRWHISPER_STATUS_*` codes, in the same order. */
  lemma StatusCodesFollowEngine()
    ensures FromCValue(Engine.STATUS_IDLE) == Idle
    ensures FromCValue(Engine.STATUS_RECORDING) == Recording
    ensures FromCValue(Engine.STATUS_TRANSCRIBING) == Transcribing
    ensures FromCValue(Engine.STATUS_FORMATTING) == Formatting
    ensures FromCValue(Engine.STATUS_READY) == Ready
    ensures FromCValue(Engine.STATUS_ERROR) == Error
  {
  }

  // ---------------------------------------------------------------------
  // Model sizes
  // ---------------------------------------------------------------------

  datatype ModelSize = Tiny | Base | Small | Medium | Large | LargeTurbo

  /** `ModelSize.allCases`, in declaration order. */
  const AllModelSizes: seq<ModelSize> := [Tiny, Base, Small, Medium, Large, LargeTurbo]

  /** The iOS app's ModelSize enum has no large-turbo case; its other tables agree. */
  type IosModelSize = m: ModelSize | m != LargeTurbo witness Small

  /** `storageKey`: the value persisted under "defaultModel". */
  function StorageKey(m: ModelSize): (key: string)
    ensures key != []
  {
    match m
    case Tiny => "tiny"
    case Base => "base"
    case Small => "small"
    case Medium => "medium"
    case Large => "large"
    case LargeTurbo => "large_turbo"
  }

  /** `allCases.first { $0.storageKey == key }`, over any list of cases. */
  function FirstWithKey(cases: seq<ModelSize>, key: string): (m: Option<ModelSize>)
    ensures m.Some? ==> m.value in cases && StorageKey(m.value) == key
    ensures m.None? ==> forall c :: c in cases ==> StorageKey(c) != key
  {
    if cases == [] then None
    else if StorageKey(cases[0]) == key then Some(cases[0])
    else FirstWithKey(cases[1..], key)
  }

  /** `ModelSize.fromStorageKey`. */
  function FromStorageKey(key: string): (m: Option<ModelSize>)
    ensures m.Some? ==> StorageKey(m.value) == key
    ensures m.None? ==> forall c: ModelSize :: StorageKey(c) != key
  {
    FirstWithKey(AllModelSizes, key)
  }

  /** No two sizes share a storage key. */
  lemma StorageKeysDistinct(a: ModelSize, b: ModelSize)
    ensures StorageKey(a) == StorageKey(b) ==> a == b
  {
  }

  /** Persisting a size and reading it back gives the same size. */
  lemma StorageKeyRoundTrip(m: ModelSize)
    ensures FromStorageKey(StorageKey(m)) == Some(m)
  {
    var r := FromStorageKey(StorageKey(m));
    assert m in AllModelSizes;
    StorageKeysDistinct(r.value, m);
  }

  /** A key that no size uses is not recognised. */
  lemma UnknownStorageKey(key: string)
    requires key !in {"tiny", "base", "small", "medium", "large", "large_turbo"}
    ensures FromStorageKey(key) == None
  {
  }

  /** `filename`: the model file's name in the models directory. */
  function Filename(m: ModelSize): (name: string)
    ensures |name| > 9 && name[..5] == "ggml-" && name[|name| - 4..] == ".bin"
  {
    match m
    case Tiny => "ggml-tiny.bin"
    case Base => "ggml-base.bin"
    case Small => "ggml-small.bin"
    case Medium => "ggml-medium.bin"
    case Large => "ggml-large-v3.bin"
    case LargeTurbo => "ggml-large-v3-turbo.bin"
  }

  /** Each size is stored in a file of its own. */
  lemma FilenamesDistinct(a: ModelSize, b: ModelSize)
    ensures Filename(a) == Filename(b) ==> a == b
  {
  }

  const DownloadBase := "https://huggingface.co/ggerganov/whisper.cpp/resolve/main"

  /** `downloadURL`: the file name appended to the repository's download base. */
  function DownloadUrl(m: ModelSize): (url: string)
    ensures DownloadBase <= url
    ensures url[|DownloadBase|..] == "/" + Filename(m)
  {
    DownloadBase + "/" + Filename(m)
  }

  // ---------------------------------------------------------------------
  // Callback payloads
  // ---------------------------------------------------------------------

  /*
   * A callback payload arrives as (ptr, len). It is copied before the
   * callback returns; `None` stands for a null pointer or bytes that are not
   * UTF-8, `Some(s)` for the decoded copy (empty when len is 0).
   */

  /** The transcript a transcript callback delivers: the text, or "" when there is none. */
  function TranscriptText(payload: Option<string>): (text: string)
    ensures payload.Some? ==> text == payload.value
    ensures payload.None? ==> text == ""
  {
    payload.GetOr("")
  }

  /** The message an error callback delivers: never an empty string, nil instead. */
  function ErrorText(payload: Option<string>): (message: Option<string>)
    ensures message.Some? ==> message.value != ""
    ensures message.None? <==> payload.None? || payload == Some("")
    ensures message.Some? ==> message == payload
  {
    if payload.Some? && payload.value != "" then payload else None
  }

  // ---------------------------------------------------------------------
  // Downloads
  // ---------------------------------------------------------------------

  /** How a download task's completion handler finds things. */
  datatype DownloadOutcome =
    | TransportFailed(description: string)   // `error` is non-nil
    | NoFileReceived                         // no temporary file URL
    | SaveFailed(description: string)        // removing the old file or moving the new one threw
    | Saved                                  // the file is in place under its final name

  /** The error message a failed download leaves behind. */
  function DownloadFailureMessage(outcome: DownloadOutcome): (message: string)
    requires outcome != Saved
    ensures message != ""
  {
    match outcome
    case TransportFailed(description) => "Download failed: " + description
    case NoFileReceived => "Download failed: No file received"
    case SaveFailed(description) => "Failed to save model: " + description
  }

  /** The byte count the progress of a download of unknown length is measured against. */
  const UnknownLengthReference: int := 100_000_000

  /**
   * `DownloadDelegate`'s progress: bytes written over the expected total when
   * one is known (the transport's own, else the response's), otherwise bytes
   * written over a fixed reference, capped at 0.99.
   */
  function DownloadProgress(totalWritten: nat, transportExpected: int, responseExpected: int): (p: real)
    ensures var expected := if transportExpected > 0 then transportExpected else responseExpected;
            && (expected > 0 ==> p * expected as real == totalWritten as real)
            && (expected > 0 && totalWritten <= expected ==> p <= 1.0)
            && (expected <= 0 ==> p <= 0.99)
    ensures 0.0 <= p <= Max(1.0, totalWritten as real)
  {
    var expected := if transportExpected > 0 then transportExpected else responseExpected;
    if expected > 0 then
      Ratio(totalWritten, expected)
    else
      Min(0.99, totalWritten as real / UnknownLengthReference as real)
  }

  /** `Double(written) / Double(expected)` for a known, positive total. */
  function Ratio(written: nat, expected: int): (r: real)
    requires expected > 0
    ensures r * expected as real == written as real
    ensures 0.0 <= r <= written as real
    ensures written <= expected ==> r <= 1.0
  {
    written as real / expected as real
  }

  /** Without a known total, progress never reaches 0.99 before the reference size is nearly written. */
  lemma UnknownLengthProgressIsCapped(totalWritten: nat, transportExpected: int, responseExpected: int)
    requires transportExpected <= 0 && responseExpected <= 0
    ensures DownloadProgress(totalWritten, transportExpected, responseExpected) <= 0.99
    ensures totalWritten < 99_000_000 ==>
      DownloadProgress(totalWritten, transportExpected, responseExpected) * UnknownLengthReference as real == totalWritten as real
  {
  }

  function Min(a: real, b: real): real { if a <= b then a else b }

  function Max(a: real, b: real): real { if a <= b then b else a }

  /** Worked values: a known total, and an unknown one below and past the cap. */
  lemma DownloadProgressExamples()
    ensures DownloadProgress(250, 1000, 0) == 0.25
    ensures DownloadProgress(250, -1, 1000) == 0.25
    ensures DownloadProgress(50_000_000, -1, 0) == 0.5
    ensures DownloadProgress(150_000_000, 0, -1) == 0.99
  {
  }

  // ---------------------------------------------------------------------
  // Commands
  // ---------------------------------------------------------------------

  /** What a front end asks of a session. */
  datatype Command = NoCommand | StartRecording | StopRecording
}
