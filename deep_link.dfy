/**
 * The iOS app's URL handler (ios/BobrWhisper/App.swift): a
 * `bobrwhisper://record` link, sent by the keyboard extension, toggles
 * recording. URLs are reduced to the two components the handler reads, the
 * scheme and the host, split off the text the way an RFC 3986 parser does
 * for this kind of link.
 */
module DeepLink {
  import opened Wrappers
  import SessionTypes
  import IosApp
  import Keyboard

  /** The components of a URL the handler reads. */
  datatype Url = Url(scheme: Option<string>, host: Option<string>)

  const AppScheme := "bobrwhisper"
  const RecordHost := "record"

  /** The characters that end the host part of an authority. */
  const HostTerminators: set<char> := {'/', '?', '#'}

  /** The index of the first character of `s` in `stops`, or `|s|`. */
  function IndexOfAny(s: string, stops: set<char>): (i: nat)
    ensures i <= |s|
    ensures i < |s| ==> s[i] in stops
    ensures forall j :: 0 <= j < i ==> s[j] !in stops
  {
    if s == [] then 0
    else if s[0] in stops then 0
    else 1 + IndexOfAny(s[1..], stops)
  }

  /**
   * The scheme is the non-empty text before the first ':'; the host is the
   * non-empty text after a following "//", up to the first '/', '?' or '#'.
   */
  function ParseUrl(s: string): (u: Url)
    ensures u.scheme.Some? ==> u.scheme.value != "" && ':' !in u.scheme.value && u.scheme.value + ":" <= s
    ensures u.host.Some? ==>
      && u.scheme.Some? && u.host.value != ""
      && (forall c :: c in u.host.value ==> c !in HostTerminators)
      && u.scheme.value + "://" + u.host.value <= s
  {
    var i := IndexOfAny(s, {':'});
    if i == 0 || i == |s| then Url(None, None)
    else
      var scheme := s[..i];
      var rest := s[i + 1..];
      assert s[..i + 1] == scheme + ":";
      if |rest| < 2 || rest[..2] != "//" then Url(Some(scheme), None)
      else
        var authority := rest[2..];
        var j := IndexOfAny(authority, HostTerminators);
        var host := authority[..j];
        assert s[..i + 3 + j] == scheme + "://" + host;
        Url(Some(scheme), if host == "" then None else Some(host))
  }

  /** The search stops at the end of a prefix free of `stops` when what follows starts with one of them. */
  lemma IndexOfAnyAfterPrefix(prefix: string, tail: string, stops: set<char>)
    requires forall c :: c in prefix ==> c !in stops
    requires tail == [] || tail[0] in stops
    ensures IndexOfAny(prefix + tail, stops) == |prefix|
  {
    var s := prefix + tail;
    if tail != [] {
      assert s[|prefix|] == tail[0];
    }
  }

  /** A link composed from a scheme and a host parses back into them. */
  lemma {:induction false} ParseComposedUrl(scheme: string, host: string, tail: string)
    requires scheme != "" && ':' !in scheme
    requires host != "" && forall c :: c in host ==> c !in HostTerminators
    requires tail == [] || tail[0] in HostTerminators
    ensures ParseUrl(scheme + "://" + host + tail) == Url(Some(scheme), Some(host))
  {
    var s := scheme + "://" + host + tail;
    assert s == scheme + ("://" + host + tail);
    IndexOfAnyAfterPrefix(scheme, "://" + host + tail, {':'});
    var i := |scheme|;
    assert s[..i] == scheme;
    var rest := s[i + 1..];
    assert rest == "//" + host + tail;
    assert rest[..2] == "//";
    var authority := rest[2..];
    assert authority == host + tail;
    IndexOfAnyAfterPrefix(host, tail, HostTerminators);
    assert authority[..|host|] == host;
  }

  /** `handleOpenURL`'s decision. */
  function OpenUrlCommand(u: Url, isRecording: bool): (cmd: SessionTypes.Command)
    ensures u.scheme != Some(AppScheme) ==> cmd == SessionTypes.NoCommand
    ensures u.host != Some(RecordHost) ==> cmd == SessionTypes.NoCommand
    ensures u == Url(Some(AppScheme), Some(RecordHost)) ==>
      cmd == if isRecording then SessionTypes.StopRecording else SessionTypes.StartRecording
  {
    if u.scheme != Some(AppScheme) then SessionTypes.NoCommand
    else if u.host != Some(RecordHost) then SessionTypes.NoCommand
    else if isRecording then SessionTypes.StopRecording
    else SessionTypes.StartRecording
  }

  /** The link the keyboard's "open app" action sends is one this handler accepts. */
  lemma KeyboardLinkIsAccepted(isRecording: bool)
    ensures ParseUrl(Keyboard.OpenAppUrl) == Url(Some(AppScheme), Some(RecordHost))
    ensures OpenUrlCommand(ParseUrl(Keyboard.OpenAppUrl), isRecording) != SessionTypes.NoCommand
  {
    assert Keyboard.OpenAppUrl == AppScheme + "://" + RecordHost + "";
    ParseComposedUrl(AppScheme, RecordHost, "");
  }

  /** The state after the handler ran. */
  function AfterOpenUrl(f: IosApp.Fields, available: bool, url: string, engineStarted: bool): IosApp.Fields {
    match OpenUrlCommand(ParseUrl(url), f.isRecording)
    case StartRecording => IosApp.AfterStartRecording(f, available, engineStarted)
    case StopRecording => IosApp.AfterStopRecording(f, available)
    case NoCommand => f
  }

  /** With an engine that starts, the keyboard's link toggles recording, so two of them restore it. */
  lemma KeyboardLinkToggles(f: IosApp.Fields, available: bool)
    requires f.hasEngine
    ensures AfterOpenUrl(f, available, Keyboard.OpenAppUrl, true).isRecording == !f.isRecording
    ensures AfterOpenUrl(AfterOpenUrl(f, available, Keyboard.OpenAppUrl, true), available, Keyboard.OpenAppUrl, true).isRecording
            == f.isRecording
  {
    KeyboardLinkIsAccepted(f.isRecording);
    KeyboardLinkIsAccepted(!f.isRecording);
  }

  /** `handleOpenURL` on the app's session. */
  method HandleOpenUrl(appState: IosApp.AppState, url: string, engineStarted: bool) returns (cmd: SessionTypes.Command)
    requires appState.Valid()
    modifies appState, appState.store
    ensures appState.Valid()
    ensures cmd == OpenUrlCommand(ParseUrl(url), old(appState.isRecording))
    ensures appState.State() == AfterOpenUrl(old(appState.State()), appState.store.available, url, engineStarted)
  {
    cmd := OpenUrlCommand(ParseUrl(url), appState.isRecording);
    if cmd == SessionTypes.StopRecording {
      appState.StopRecording();
    } else if cmd == SessionTypes.StartRecording {
      appState.StartRecording(engineStarted);
    }
  }
}
