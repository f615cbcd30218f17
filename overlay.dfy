/**
 * The transcript overlay (macos/BobrWhisper/Views/TranscriptOverlayView.swift):
 * the panel controller's visibility flag, its single pending auto-dismiss and
 * the fade-out race guard; the auto-dismiss delay; the overlay view's tap
 * handling, elapsed-seconds counter and duration text.
 */
module Overlay {
  import opened Wrappers
  import opened Strings
  import opened SessionTypes

  // ---------------------------------------------------------------------
  // Words of a transcript
  // ---------------------------------------------------------------------

  /** The characters of `s` up to its first space. */
  function LeadingWord(s: string): (w: string)
    ensures w <= s && ' ' !in w
    ensures |w| < |s| ==> s[|w|] == ' '
    ensures s != [] && s[0] != ' ' ==> w != []
  {
    if s == [] || s[0] == ' ' then [] else [s[0]] + LeadingWord(s[1..])
  }

  /** `s.split(separator: " ")`: the maximal runs of non-space characters, empty pieces omitted. */
  function Words(s: string): (words: seq<string>)
    ensures forall i :: 0 <= i < |words| ==> words[i] != [] && ' ' !in words[i]
    decreases |s|
  {
    if s == [] then []
    else if s[0] == ' ' then Words(s[1..])
    else
      var w := LeadingWord(s);
      [w] + Words(s[|w|..])
  }

  /** `s` with its spaces removed. */
  function WithoutSpaces(s: string): string {
    if s == [] then [] else (if s[0] == ' ' then [] else [s[0]]) + WithoutSpaces(s[1..])
  }

  lemma {:induction false} WithoutSpacesAppend(a: string, b: string)
    ensures WithoutSpaces(a + b) == WithoutSpaces(a) + WithoutSpaces(b)
  {
    if a != [] {
      assert (a + b)[1..] == a[1..] + b;
      WithoutSpacesAppend(a[1..], b);
    } else {
      assert a + b == b;
    }
  }

  lemma {:induction false} WithoutSpacesOfWord(w: string)
    requires ' ' !in w
    ensures WithoutSpaces(w) == w
  {
    if w != [] {
      WithoutSpacesOfWord(w[1..]);
    }
  }

  /** Splitting loses exactly the spaces: the words, written together, are the non-space characters. */
  lemma {:induction false} WordsKeepEveryOtherCharacter(s: string)
    ensures Concat(Words(s)) == WithoutSpaces(s)
    decreases |s|
  {
    if s == [] {
    } else if s[0] == ' ' {
      WordsKeepEveryOtherCharacter(s[1..]);
    } else {
      var w := LeadingWord(s);
      var rest := s[|w|..];
      assert s == w + rest;
      WordsKeepEveryOtherCharacter(rest);
      WithoutSpacesAppend(w, rest);
      WithoutSpacesOfWord(w);
      assert ([w] + Words(rest))[1..] == Words(rest);
    }
  }

  /** A run of non-space characters is its own leading word. */
  lemma LeadingWordOfWord(w: string)
    requires ' ' !in w
    ensures LeadingWord(w) == w
  {
  }

  /** The leading word stops at the first space, whatever follows it. */
  lemma {:induction false} LeadingWordBeforeSpace(a: string, b: string)
    requires ' ' !in a
    ensures LeadingWord(a + " " + b) == a
  {
    if a != [] {
      assert (a + " " + b)[1..] == a[1..] + " " + b;
      LeadingWordBeforeSpace(a[1..], b);
    }
  }

  /** A single run of non-space characters is one word. */
  lemma WordsOfWord(w: string)
    requires w != [] && ' ' !in w
    ensures Words(w) == [w]
  {
    LeadingWordOfWord(w);
    assert w[|w|..] == [];
  }

  /** A word followed by a space and more text: the word, then the words of the rest. */
  lemma WordsAfterWord(w: string, rest: string)
    requires w != [] && ' ' !in w
    ensures Words(w + " " + rest) == [w] + Words(rest)
  {
    var s := w + " " + rest;
    LeadingWordBeforeSpace(w, rest);
    assert s[|w|..] == " " + rest;
    assert (" " + rest)[1..] == rest;
  }

  /** Words written out with one space between each. */
  function JoinWords(words: seq<string>): string {
    if words == [] then [] else if |words| == 1 then words[0] else words[0] + " " + JoinWords(words[1..])
  }

  /** Splitting words joined by single spaces gives the words back: no word is lost, split or merged. */
  lemma {:induction false} WordsOfJoin(words: seq<string>)
    requires forall i :: 0 <= i < |words| ==> words[i] != [] && ' ' !in words[i]
    ensures Words(JoinWords(words)) == words
  {
    if |words| == 1 {
      WordsOfWord(words[0]);
    } else if |words| > 1 {
      WordsOfJoin(words[1..]);
      WordsAfterWord(words[0], JoinWords(words[1..]));
    }
  }

  // ---------------------------------------------------------------------
  // Auto-dismiss delay
  // ---------------------------------------------------------------------

  function MinInt(a: int, b: int): int { if a <= b then a else b }
  function MaxInt(a: int, b: int): int { if a <= b then b else a }

  /**
   * The delay in milliseconds before a final transcript's overlay hides:
   * 400 ms per word, at least one word, clamped to [1500, 5000].
   */
  function DismissDelayMs(transcript: string): (ms: int)
    ensures 1500 <= ms <= 5000
    ensures |Words(transcript)| <= 3 ==> ms == 1500
    ensures 4 <= |Words(transcript)| <= 12 ==> ms == 400 * |Words(transcript)|
    ensures |Words(transcript)| >= 13 ==> ms == 5000
  {
    var wordCount := MaxInt(1, |Words(transcript)|);
    MinInt(5000, MaxInt(1500, wordCount * 400))
  }

  /** Three words wait the 1.5 s minimum, ten words 4 s. */
  lemma DismissDelayExamples(words: seq<string>)
    requires forall i :: 0 <= i < |words| ==> words[i] != [] && ' ' !in words[i]
    ensures |words| == 3 ==> DismissDelayMs(JoinWords(words)) == 1500
    ensures |words| == 10 ==> DismissDelayMs(JoinWords(words)) == 4000
  {
    WordsOfJoin(words);
  }

  // ---------------------------------------------------------------------
  // The overlay view: tap, elapsed seconds, duration text
  // ---------------------------------------------------------------------

  /** What a tap on the overlay does. */
  datatype TapResponse = StopOnTap | DismissOnTap | IgnoreTap

  /** A tap stops a recording; otherwise it dismisses a finished transcript; otherwise nothing. */
  function TapResponseFor(isRecording: bool, status: Status): (r: TapResponse)
    ensures r == StopOnTap <==> isRecording
    ensures r == DismissOnTap <==> !isRecording && status == Ready
  {
    if isRecording then StopOnTap
    else if status == Ready then DismissOnTap
    else IgnoreTap
  }

  /** The overlay view's `elapsedSeconds` state. */
  class ElapsedCounter {
    var elapsedSeconds: nat

    constructor ()
      ensures elapsedSeconds == 0
    {
      elapsedSeconds := 0;
    }

    /** A one-second timer tick counts only while recording. */
    method Tick(isRecording: bool)
      modifies this
      ensures elapsedSeconds == if isRecording then old(elapsedSeconds) + 1 else old(elapsedSeconds)
    {
      if isRecording {
        elapsedSeconds := elapsedSeconds + 1;
      }
    }

    /** A change of `isRecording` restarts the count when recording begins. */
    method RecordingChanged(recording: bool)
      modifies this
      ensures elapsedSeconds == if recording then 0 else old(elapsedSeconds)
    {
      if recording {
        elapsedSeconds := 0;
      }
    }
  }

  function DigitChar(d: nat): (c: char)
    requires d < 10
    ensures '0' <= c <= '9' && c as int - '0' as int == d
  {
    (('0' as int) + d) as char
  }

  predicate AllDigits(s: string) {
    forall i :: 0 <= i < |s| ==> '0' <= s[i] <= '9'
  }

  /** `%d` of a non-negative number. */
  function Decimal(n: nat): (s: string)
    ensures s != [] && AllDigits(s)
    ensures n < 10 <==> |s| == 1
    ensures s[0] == '0' <==> n == 0
  {
    if n < 10 then [DigitChar(n)] else Decimal(n / 10) + [DigitChar(n % 10)]
  }

  /** The number a string of decimal digits denotes. */
  function DecimalValue(s: string): nat
    requires AllDigits(s)
  {
    if s == [] then 0 else DecimalValue(s[..|s| - 1]) * 10 + (s[|s| - 1] as int - '0' as int)
  }

  /** Reading back a formatted number gives the number. */
  lemma {:induction false} DecimalRoundTrip(n: nat)
    ensures DecimalValue(Decimal(n)) == n
  {
    if n >= 10 {
      var s := Decimal(n);
      assert s[..|s| - 1] == Decimal(n / 10);
      DecimalRoundTrip(n / 10);
    }
  }

  /** `formatDuration`: `String(format: "%d:%02d", s / 60, s % 60)`. */
  function FormatDuration(totalSeconds: nat): (text: string)
    ensures |text| >= 4 && text[|text| - 3] == ':'
    ensures AllDigits(text[..|text| - 3]) && AllDigits(text[|text| - 2..])
    ensures text[0] == '0' <==> totalSeconds < 60
  {
    var seconds := totalSeconds % 60;
    Decimal(totalSeconds / 60) + ":" + [DigitChar(seconds / 10), DigitChar(seconds % 10)]
  }

  lemma TwoDigitsValue(tens: nat, units: nat)
    requires tens < 10 && units < 10
    ensures DecimalValue([DigitChar(tens), DigitChar(units)]) == tens * 10 + units
  {
    var s := [DigitChar(tens), DigitChar(units)];
    assert s[..1] == [DigitChar(tens)];
    assert s[..1][..0] == [];
    assert DecimalValue(s[..1]) == tens;
  }

  /** The label reads back as minutes, then seconds below 60 in two digits. */
  lemma FormatDurationRoundTrip(totalSeconds: nat)
    ensures var text := FormatDuration(totalSeconds);
            && DecimalValue(text[|text| - 2..]) < 60
            && DecimalValue(text[..|text| - 3]) * 60 + DecimalValue(text[|text| - 2..]) == totalSeconds
  {
    var text := FormatDuration(totalSeconds);
    var minutes, seconds := totalSeconds / 60, totalSeconds % 60;
    var ss := [DigitChar(seconds / 10), DigitChar(seconds % 10)];
    assert text == Decimal(minutes) + ":" + ss;
    assert text[..|text| - 3] == Decimal(minutes);
    assert text[|text| - 2..] == ss;
    DecimalRoundTrip(minutes);
    TwoDigitsValue(seconds / 10, seconds % 10);
  }

  lemma FormatDurationExample()
    ensures FormatDuration(75) == "1:15"
    ensures FormatDuration(5) == "0:05"
  {
  }

  // ---------------------------------------------------------------------
  // The panel controller
  // ---------------------------------------------------------------------

  /** The controller's state, as one value. */
  datatype PanelView = PanelView(
    hasPanel: bool,                  // `panel` has been created (it is never released)
    onScreen: bool,                  // the panel is ordered front and not yet ordered out
    shouldBeVisible: bool,
    pendingDismissMs: Option<int>,   // the uncancelled `dismissWorkItem` and its delay
    fadeOutsInFlight: nat)           // hide animations whose completion has not run

  /** What every reachable state satisfies. */
  predicate Consistent(v: PanelView) {
    && (v.onScreen ==> v.hasPanel)
    && (v.fadeOutsInFlight > 0 ==> v.hasPanel)
    && (v.pendingDismissMs.Some? ==> 1500 <= v.pendingDismissMs.value <= 5000)
  }

  /** `show()`: want visible, drop the pending dismiss, create the panel if needed, order it front. */
  function AfterShow(v: PanelView): (w: PanelView)
    ensures Consistent(v) ==> Consistent(w)
  {
    v.(shouldBeVisible := true, pendingDismissMs := None, hasPanel := true, onScreen := true)
  }

  /** `hide()`: want hidden, drop the pending dismiss, and start a fade-out if there is a panel. */
  function AfterHide(v: PanelView): (w: PanelView)
    ensures Consistent(v) ==> Consistent(w)
  {
    v.(shouldBeVisible := false, pendingDismissMs := None,
       fadeOutsInFlight := if v.hasPanel then v.fadeOutsInFlight + 1 else v.fadeOutsInFlight)
  }

  /** A fade-out completes: the panel is ordered out only if nothing wants it visible by now. */
  function AfterFadeOut(v: PanelView): (w: PanelView)
    requires v.fadeOutsInFlight > 0
    ensures Consistent(v) ==> Consistent(w)
  {
    v.(onScreen := v.onScreen && v.shouldBeVisible, fadeOutsInFlight := v.fadeOutsInFlight - 1)
  }

  /** `scheduleAutoDismiss()`: replace any pending dismiss by one for this transcript. */
  function AfterScheduleDismiss(v: PanelView, transcript: string): (w: PanelView)
    ensures Consistent(v) ==> Consistent(w)
  {
    v.(pendingDismissMs := Some(DismissDelayMs(transcript)))
  }

  /** `show` clears any pending dismiss and leaves the panel on screen and wanted. */
  lemma ShowCancelsDismiss(v: PanelView)
    ensures var w := AfterShow(v); w.shouldBeVisible && w.onScreen && w.pendingDismissMs == None
  {
  }

  /** A `show` issued while a fade-out runs keeps the panel on screen when the fade completes. */
  lemma ShowDuringFadeKeepsPanel(v: PanelView)
    requires v.hasPanel
    ensures var w := AfterFadeOut(AfterShow(AfterHide(v))); w.onScreen && w.shouldBeVisible
  {
  }

  /** Without an intervening `show`, the fade-out orders the panel out. */
  lemma FadeAfterHideRemovesPanel(v: PanelView)
    requires v.hasPanel
    ensures !AfterFadeOut(AfterHide(v)).onScreen
  {
  }

  /** Only the latest schedule is pending: scheduling twice is scheduling once with the later transcript. */
  lemma LatestScheduleWins(v: PanelView, first: string, second: string)
    ensures AfterScheduleDismiss(AfterScheduleDismiss(v, first), second) == AfterScheduleDismiss(v, second)
  {
  }

  class OverlayPanelController {
    var hasPanel: bool
    var onScreen: bool
    var shouldBeVisible: bool
    var pendingDismissMs: Option<int>
    var fadeOutsInFlight: nat

    ghost function View(): PanelView
      reads this
    {
      PanelView(hasPanel, onScreen, shouldBeVisible, pendingDismissMs, fadeOutsInFlight)
    }

    ghost predicate Valid()
      reads this
    {
      Consistent(View())
    }

    constructor ()
      ensures Valid()
      ensures View() == PanelView(false, false, false, None, 0)
    {
      hasPanel, onScreen, shouldBeVisible := false, false, false;
      pendingDismissMs, fadeOutsInFlight := None, 0;
    }

    method Show()
      requires Valid()
      modifies this
      ensures Valid() && View() == AfterShow(old(View()))
    {
      shouldBeVisible := true;
      pendingDismissMs := None;
      if !hasPanel {
        hasPanel := true;
      }
      onScreen := true;
    }

    method Hide()
      requires Valid()
      modifies this
      ensures Valid() && View() == AfterHide(old(View()))
    {
      shouldBeVisible := false;
      pendingDismissMs := None;
      if !hasPanel {
        return;
      }
      fadeOutsInFlight := fadeOutsInFlight + 1;
    }

    /** The completion block of a fade-out started by `Hide`. */
    method FadeOutCompleted()
      requires Valid() && fadeOutsInFlight > 0
      modifies this
      ensures Valid() && View() == AfterFadeOut(old(View()))
    {
      fadeOutsInFlight := fadeOutsInFlight - 1;
      if !shouldBeVisible {
        onScreen := false;
      }
    }

    /** `scheduleAutoDismiss`, given the app state's current transcript. */
    method ScheduleAutoDismiss(transcript: string)
      requires Valid()
      modifies this
      ensures Valid() && View() == AfterScheduleDismiss(old(View()), transcript)
    {
      pendingDismissMs := Some(DismissDelayMs(transcript));
    }

    /** The pending dismiss work item runs after its delay: it hides the panel. */
    method DismissFired()
      requires Valid() && pendingDismissMs.Some?
      modifies this
      ensures Valid() && View() == AfterHide(old(View()))
    {
      Hide();
    }
  }
}
