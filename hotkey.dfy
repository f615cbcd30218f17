/**
 * The global hotkey of the macOS app (macos/BobrWhisper/AppDelegate.swift):
 * a predicate over the modifier flags of a `flagsChanged` event and the
 * configured combo name, then a start or stop on `AppState` depending on
 * whether it is recording.
 */
module Hotkey {
  import opened Wrappers
  import SessionTypes
  import MacApp
  import Overlay

  /** The device-independent modifier flags of an `NSEvent`. */
  datatype Modifier = CapsLock | Shift | Control | Option | Command | NumericPad | Help | Function

  /** The combos the switch names; anything else is treated as fn+option. */
  datatype Combo = FnOptionCmd | FnCmd | OptionCmd | ControlOption | FnOption

  /** The value used when "hotkeyCombo" is not set. */
  const DefaultComboName := "fn+option"

  /** The case of the switch a combo setting selects. */
  function ComboFor(setting: Option<string>): (c: Combo)
    ensures setting == Some("fn+option+cmd") <==> c == FnOptionCmd
    ensures setting == Some("fn+cmd") <==> c == FnCmd
    ensures setting == Some("option+cmd") <==> c == OptionCmd
    ensures setting == Some("control+option") <==> c == ControlOption
  {
    match setting.GetOr(DefaultComboName)
    case "fn+option+cmd" => FnOptionCmd
    case "fn+cmd" => FnCmd
    case "option+cmd" => OptionCmd
    case "control+option" => ControlOption
    case "fn+option" => FnOption
    case _ => FnOption
  }

  /** The modifiers a combo needs. */
  function Required(c: Combo): (mods: set<Modifier>)
    ensures Function in mods <==> c in {FnOptionCmd, FnCmd, FnOption}
    ensures Option in mods <==> c in {FnOptionCmd, OptionCmd, ControlOption, FnOption}
    ensures Command in mods <==> c in {FnOptionCmd, FnCmd, OptionCmd}
    ensures Control in mods <==> c == ControlOption
    ensures mods <= {Function, Option, Command, Control}
  {
    match c
    case FnOptionCmd => {Function, Option, Command}
    case FnCmd => {Function, Command}
    case OptionCmd => {Option, Command}
    case ControlOption => {Control, Option}
    case FnOption => {Function, Option}
  }

  /** `keyPressed`: the switch over the setting, each case a conjunction of `flags.contains`. */
  function KeyPressed(setting: Option<string>, flags: set<Modifier>): (pressed: bool)
    ensures pressed <==> Required(ComboFor(setting)) <= flags
  {
    match ComboFor(setting)
    case FnOptionCmd => Function in flags && Option in flags && Command in flags
    case FnCmd => Function in flags && Command in flags
    case OptionCmd => Option in flags && Command in flags
    case ControlOption => Control in flags && Option in flags
    case FnOption => Function in flags && Option in flags
  }

  /** An unknown setting, "option+space" among them, and no setting at all are all fn+option. */
  lemma UnknownSettingIsFnOption(setting: Option<string>, flags: set<Modifier>)
    requires setting !in {Some("fn+option+cmd"), Some("fn+cmd"), Some("option+cmd"), Some("control+option")}
    ensures KeyPressed(setting, flags) <==> Function in flags && Option in flags
    ensures KeyPressed(setting, flags) == KeyPressed(None, flags)
    ensures KeyPressed(Some("option+space"), flags) == KeyPressed(None, flags)
  {
  }

  /** Holding more modifiers never releases the hotkey; releasing one it needs always does. */
  lemma ExtraModifiersKeepPressed(setting: Option<string>, flags: set<Modifier>, more: set<Modifier>)
    ensures KeyPressed(setting, flags) ==> KeyPressed(setting, flags + more)
    ensures forall m :: m in Required(ComboFor(setting)) ==> !KeyPressed(setting, flags - {m})
  {
  }

  /** Caps Lock, Shift, the numeric pad and Help never take part in any combo. */
  lemma IrrelevantModifiers(setting: Option<string>, flags: set<Modifier>)
    ensures KeyPressed(setting, flags) == KeyPressed(setting, flags - {CapsLock, Shift, NumericPad, Help})
  {
  }

  /** The dispatch: start when pressed and idle, stop when released and recording, else nothing. */
  function HotkeyCommand(pressed: bool, isRecording: bool): (cmd: SessionTypes.Command)
    ensures cmd == SessionTypes.StartRecording <==> pressed && !isRecording
    ensures cmd == SessionTypes.StopRecording <==> !pressed && isRecording
  {
    if pressed && !isRecording then SessionTypes.StartRecording
    else if !pressed && isRecording then SessionTypes.StopRecording
    else SessionTypes.NoCommand
  }

  /** The state after `handleFlagsChanged`. */
  function AfterFlagsChanged(f: MacApp.Fields, pressed: bool, engineStarted: bool): MacApp.Fields {
    match HotkeyCommand(pressed, f.isRecording)
    case StartRecording => MacApp.AfterStartRecording(f, engineStarted)
    case StopRecording => MacApp.AfterStopRecording(f)
    case NoCommand => f
  }

  /**
   * With an engine that starts, recording follows the hotkey: after an event
   * the app records exactly when the combo is held, and a second event with
   * the same pressed value issues no command.
   */
  lemma RecordingFollowsHotkey(f: MacApp.Fields, pressed: bool)
    requires f.hasEngine
    ensures AfterFlagsChanged(f, pressed, true).isRecording == pressed
    ensures HotkeyCommand(pressed, AfterFlagsChanged(f, pressed, true).isRecording) == SessionTypes.NoCommand
  {
  }

  /** When the engine refuses to start, the next press tries again. */
  lemma FailedStartIsRetried(f: MacApp.Fields)
    requires !f.isRecording
    ensures HotkeyCommand(true, AfterFlagsChanged(f, true, false).isRecording) == SessionTypes.StartRecording
  {
  }

  /** `AppDelegate`: owns the session and reads the combo setting on every event. */
  class AppDelegate {
    const appState: MacApp.AppState

    constructor (appState: MacApp.AppState)
      ensures this.appState == appState
    {
      this.appState := appState;
    }

    /** `applicationDidFinishLaunching`: create the engine (the hotkey monitor is installed by the system). */
    method ApplicationDidFinishLaunching(created: bool, modelOnDisk: bool)
      requires appState.Valid()
      modifies appState
      ensures appState.Valid()
      ensures appState.State() == MacApp.AfterCreateApp(old(appState.State()), created, modelOnDisk)
    {
      appState.CreateApp(created, modelOnDisk);
    }

    /** `applicationWillTerminate`. */
    method ApplicationWillTerminate()
      requires appState.Valid()
      modifies appState
      ensures appState.Valid() && appState.State() == MacApp.AfterDestroyApp(old(appState.State()))
    {
      appState.DestroyApp();
    }

    /**
     * `handleFlagsChanged`; `setting` is the "hotkeyCombo" default and
     * `engineStarted` what the engine would answer to a start.
     */
    method HandleFlagsChanged(setting: Option<string>, flags: set<Modifier>, engineStarted: bool)
      returns (cmd: SessionTypes.Command)
      requires appState.Valid()
      modifies appState, appState.overlay
      ensures appState.Valid()
      ensures cmd == HotkeyCommand(KeyPressed(setting, flags), old(appState.isRecording))
      ensures appState.State() == AfterFlagsChanged(old(appState.State()), KeyPressed(setting, flags), engineStarted)
      ensures appState.overlay != null ==>
        appState.overlay.View() ==
          if cmd == SessionTypes.StartRecording && old(appState.hasEngine) && engineStarted
          then Overlay.AfterShow(old(appState.overlay.View()))
          else old(appState.overlay.View())
    {
      var pressed := KeyPressed(setting, flags);
      cmd := HotkeyCommand(pressed, appState.isRecording);
      if cmd == SessionTypes.StartRecording {
        appState.StartRecording(engineStarted);
      } else if cmd == SessionTypes.StopRecording {
        appState.StopRecording();
      }
    }
  }
}
