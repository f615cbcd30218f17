/**
 * The keyboard extension's controller
 * (ios/BobrWhisperKeyboard/KeyboardViewController.swift): every poll it
 * refreshes its controls from the shared store and types into the host
 * text field whatever part of the shared transcript it has not typed yet.
 */
module Keyboard {
  import opened Wrappers
  import opened Strings
  import opened KeyboardShared
  import opened KeyboardState

  /** The deep link the keyboard opens to ask the app to start or stop recording. */
  const OpenAppUrl := "bobrwhisper://record"

  /** `s.replacingPrefix(prefix)`: `s` without `prefix` when `s` starts with it, else `s` itself. */
  function ReplacingPrefix(s: string, prefix: string): (r: string)
    ensures prefix <= s ==> prefix + r == s
    ensures !(prefix <= s) ==> r == s
  {
    if prefix <= s then s[|prefix|..] else s
  }

  /** `canRecord`: a model is loaded and its file is present in the models directory. */
  function CanRecord(snap: KeyboardStateSnapshot, modelFiles: set<string>): (can: bool)
    ensures can <==> snap.isModelLoaded && snap.selectedModelFilename.Some? && snap.selectedModelFilename.value in modelFiles
  {
    var hasModelFile := match snap.selectedModelFilename
      case Some(name) => name in modelFiles
      case None => false;
    snap.isModelLoaded && hasModelFile
  }

  /** The controls `updateUI` sets (colours and alpha left out). */
  datatype Controls = Controls(micEnabled: bool, micTitle: string, configureHidden: bool, statusText: string)

  function ControlsFor(snap: KeyboardStateSnapshot, modelFiles: set<string>): (c: Controls)
    ensures c.micEnabled <==> CanRecord(snap, modelFiles)
    ensures c.configureHidden <==> CanRecord(snap, modelFiles)
    ensures c.micTitle == (if snap.isRecording then "Stop" else "Start")
    ensures !CanRecord(snap, modelFiles) ==> c.statusText == "Open BobrWhisper to download and load a model."
    ensures CanRecord(snap, modelFiles) ==> c.statusText == (if snap.isRecording then "Recording…" else "Ready")
  {
    var canRecord := CanRecord(snap, modelFiles);
    var title := if snap.isRecording then "Stop" else "Start";
    var text :=
      if !canRecord then "Open BobrWhisper to download and load a model."
      else if snap.isRecording then "Recording…"
      else "Ready";
    Controls(canRecord, title, canRecord, text)
  }

  /** What one poll does with the shared transcript: what it types, and the new baseline. */
  datatype PollResult = PollResult(insertion: Option<string>, baseline: string)

  function PollStep(baseline: string, transcript: string): (r: PollResult)
    ensures transcript == [] ==> r == PollResult(None, baseline)
    ensures transcript == baseline ==> r == PollResult(None, baseline)
    ensures transcript != [] ==> r.baseline == transcript
    ensures transcript != [] && transcript != baseline ==>
      r.insertion == Some(ReplacingPrefix(transcript, baseline)) && r.insertion.value != []
    ensures r.insertion.Some? && baseline <= transcript ==> baseline + r.insertion.value == transcript
    ensures r.insertion.Some? && !(baseline <= transcript) ==> r.insertion.value == transcript
  {
    if transcript == [] then PollResult(None, baseline)
    else if transcript == baseline then PollResult(None, baseline)
    else
      var delta := ReplacingPrefix(transcript, baseline);
      if delta == [] then PollResult(None, transcript)
      else PollResult(Some(delta), transcript)
  }

  /** A poll's delta is never empty, so the source's empty-delta branch never runs. */
  lemma DeltaNeverEmpty(baseline: string, transcript: string)
    requires transcript != [] && transcript != baseline
    ensures ReplacingPrefix(transcript, baseline) != []
  {
  }

  /** A sequence of polls: the texts typed, in order, and the final baseline. */
  function Polls(baseline: string, transcripts: seq<string>): (seq<string>, string)
    decreases |transcripts|
  {
    if transcripts == [] then ([], baseline)
    else
      var step := PollStep(baseline, transcripts[0]);
      var (rest, last) := Polls(step.baseline, transcripts[1..]);
      (match step.insertion
       case Some(delta) => [delta] + rest
       case None => rest,
       last)
  }

  /** Each transcript extends the one before it. */
  predicate Growing(transcripts: seq<string>) {
    forall i :: 0 < i < |transcripts| ==> transcripts[i - 1] <= transcripts[i]
  }

  /** One poll, then the rest: what the first poll typed comes first, the final baseline is the rest's. */
  lemma PollsFirstStep(baseline: string, transcripts: seq<string>)
    requires transcripts != []
    ensures var step := PollStep(baseline, transcripts[0]);
            var later := Polls(step.baseline, transcripts[1..]);
            && Concat(Polls(baseline, transcripts).0) == step.insertion.GetOr([]) + Concat(later.0)
            && Polls(baseline, transcripts).1 == later.1
  {
  }

  /** A growing sequence still grows without its first element. */
  lemma GrowingTail(transcripts: seq<string>)
    requires transcripts != [] && Growing(transcripts)
    ensures Growing(transcripts[1..])
  {
    var rest := transcripts[1..];
    forall i | 0 < i < |rest| ensures rest[i - 1] <= rest[i] {
      assert rest[i - 1] == transcripts[i] && rest[i] == transcripts[i + 1];
    }
  }

  /** A poll on a transcript that extends the baseline types exactly the extension. */
  lemma PollOnExtension(baseline: string, transcript: string)
    requires baseline <= transcript
    ensures var step := PollStep(baseline, transcript);
            step.baseline == transcript && baseline + step.insertion.GetOr([]) == transcript
  {
  }

  /**
   * While the shared transcript only grows, the keyboard types each character
   * exactly once: the baseline followed by everything typed is the latest
   * transcript, which is also the final baseline.
   */
  lemma {:induction false} GrowingTranscriptIsTypedOnce(baseline: string, transcripts: seq<string>)
    requires transcripts != [] && baseline <= transcripts[0] && Growing(transcripts)
    ensures baseline + Concat(Polls(baseline, transcripts).0) == transcripts[|transcripts| - 1]
    ensures Polls(baseline, transcripts).1 == transcripts[|transcripts| - 1]
    decreases |transcripts|
  {
    var t := transcripts[0];
    var step := PollStep(baseline, t);
    var later := Polls(step.baseline, transcripts[1..]);
    PollsFirstStep(baseline, transcripts);
    PollOnExtension(baseline, t);
    if |transcripts| == 1 {
      assert transcripts[1..] == [];
      assert later == ([], t);
    } else {
      GrowingTail(transcripts);
      assert transcripts[1..][0] == transcripts[1];
      assert t <= transcripts[1];
      GrowingTranscriptIsTypedOnce(t, transcripts[1..]);
      assert baseline + step.insertion.GetOr([]) + Concat(later.0) == t + Concat(later.0);
    }
  }

  /** "hello " then "hello world" types "world"; a diverging "goodbye" is typed whole. */
  lemma PollExamples()
    ensures PollStep("hello ", "hello world") == PollResult(Some("world"), "hello world")
    ensures PollStep("hello world", "goodbye") == PollResult(Some("goodbye"), "goodbye")
    ensures PollStep("hello", "") == PollResult(None, "hello")
  {
    assert "hello " <= "hello world";
    assert !("hello world" <= "goodbye") by {
      assert "hello world"[0] != "goodbye"[0];
    }
  }

  class KeyboardController {
    /** `lastInsertedTranscript`: the shared transcript the keyboard has caught up with. */
    var lastInsertedTranscript: string
    /** The texts handed to `textDocumentProxy.insertText`, in order. */
    var typed: seq<string>
    var controls: Controls
    /** The URLs handed to `extensionContext.open`, in order. */
    var openedUrls: seq<string>

    constructor ()
      ensures lastInsertedTranscript == "" && typed == [] && openedUrls == []
    {
      lastInsertedTranscript := "";
      typed := [];
      controls := Controls(false, "Start", false, "");
      openedUrls := [];
    }

    /** `updateUI`, given the files present in the models directory. */
    method UpdateUI(store: SharedStore, modelFiles: set<string>)
      modifies this
      ensures controls == ControlsFor(ReadSnapshot(store.available, store.entries), modelFiles)
      ensures lastInsertedTranscript == old(lastInsertedTranscript) && typed == old(typed) && openedUrls == old(openedUrls)
    {
      var state := ReadSnapshot(store.available, store.entries);
      var hasModelFile := match state.selectedModelFilename
        case Some(name) => name in modelFiles
        case None => false;
      var canRecord := state.isModelLoaded && hasModelFile;
      var title := if state.isRecording then "Stop" else "Start";
      var text;
      if !canRecord {
        text := "Open BobrWhisper to download and load a model.";
      } else if state.isRecording {
        text := "Recording…";
      } else {
        text := "Ready";
      }
      controls := Controls(canRecord, title, canRecord, text);
    }

    /** `handlePoll`: refresh the controls, then type what the shared transcript adds. */
    method HandlePoll(store: SharedStore, modelFiles: set<string>)
      modifies this
      ensures controls == ControlsFor(ReadSnapshot(store.available, store.entries), modelFiles)
      ensures var step := PollStep(old(lastInsertedTranscript), ReadSnapshot(store.available, store.entries).transcript);
              && lastInsertedTranscript == step.baseline
              && typed == old(typed) + (if step.insertion.Some? then [step.insertion.value] else [])
      ensures openedUrls == old(openedUrls)
    {
      UpdateUI(store, modelFiles);
      var state := ReadSnapshot(store.available, store.entries);
      if state.transcript == [] {
        return;
      }
      if state.transcript == lastInsertedTranscript {
        return;
      }
      var delta := ReplacingPrefix(state.transcript, lastInsertedTranscript);
      if delta == [] {
        // The source adopts the transcript as the baseline here; DeltaNeverEmpty shows this never happens.
        assert false;
      }
      typed := typed + [delta];
      lastInsertedTranscript := state.transcript;
    }

    /** `textWillChange`: the host field changed under the keyboard; start over from "". */
    method TextWillChange(store: SharedStore, modelFiles: set<string>)
      modifies this
      ensures lastInsertedTranscript == ""
      ensures controls == ControlsFor(ReadSnapshot(store.available, store.entries), modelFiles)
      ensures typed == old(typed) && openedUrls == old(openedUrls)
    {
      lastInsertedTranscript := "";
      UpdateUI(store, modelFiles);
    }

    /** `handleMicTap` and `handleOpenApp`: open the app's record deep link. */
    method HandleOpenApp()
      modifies this
      ensures openedUrls == old(openedUrls) + [OpenAppUrl]
      ensures lastInsertedTranscript == old(lastInsertedTranscript) && typed == old(typed) && controls == old(controls)
    {
      openedUrls := openedUrls + [OpenAppUrl];
    }
  }
}
