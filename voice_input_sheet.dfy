/** The voice input sheet: five pieces of component state driven by the
    microphone-permission request, start/stop, the mock recognition timer,
    close/reopen and the permission-status callbacks, plus the pure choices
    of error message, secure context and what the sheet displays.

    The platform (media API, permission query, window location) enters as
    input values; the two-second mock timer is a pending count that the
    event `MockTimerFired` consumes. */
module VoiceInputSheet {
  import opened Js

  // ---------------------------------------------------------------------
  // Messages

  const MockTranscript := "Take me to Central Park"
  const UnsupportedMessage := "Microphone access is not supported in this browser. Please use a modern browser like Chrome, Firefox, or Safari."
  const InsecureMessage := "Microphone access requires a secure connection. Please use localhost or HTTPS."
  const DeniedMessage := "Microphone permission denied."
  const NotAllowedMessage := "Microphone permission denied. Please allow microphone access in your browser settings and try again."
  const NotFoundMessage := "No microphone found. Please connect a microphone and try again."
  const NotSupportedMessage := "Microphone access is not supported in this browser."
  const NotReadableMessage := "Microphone is being used by another application. Please close other apps and try again."
  const OverconstrainedMessage := "Microphone constraints cannot be satisfied. Please try again."
  const SecurityMessage := "Microphone access blocked due to security restrictions. Please use HTTPS."
  const BlockedMessage := "Microphone access is blocked. Please enable it in your browser settings."

  /** The error names the permission request recognises. */
  const KnownErrorNames: set<string> :=
    {"NotAllowedError", "NotFoundError", "NotSupportedError", "NotReadableError",
     "OverconstrainedError", "SecurityError"}

  /** The message shown when `getUserMedia` rejects with an error of the given name. */
  function ErrorMessage(name: string): string {
    if name == "NotAllowedError" then NotAllowedMessage
    else if name == "NotFoundError" then NotFoundMessage
    else if name == "NotSupportedError" then NotSupportedMessage
    else if name == "NotReadableError" then NotReadableMessage
    else if name == "OverconstrainedError" then OverconstrainedMessage
    else if name == "SecurityError" then SecurityMessage
    else DeniedMessage
  }

  /** Every name gets a message; the six known names get six different
      messages, none of them the generic one, and every other name gets the
      generic one. */
  lemma ErrorMessageDistinguishesKnownNames(a: string, b: string)
    ensures a !in KnownErrorNames ==> ErrorMessage(a) == DeniedMessage
    ensures a in KnownErrorNames ==> ErrorMessage(a) != DeniedMessage
    ensures a in KnownErrorNames && ErrorMessage(a) == ErrorMessage(b) ==> a == b
  {
  }

  // ---------------------------------------------------------------------
  // The platform, as input values

  /** Which microphone API the browser offers: the standard one, only a
      legacy or vendor-prefixed one, or none. */
  datatype MediaApi = StandardApi | LegacyApiOnly | NoMediaApi

  datatype Platform = Platform(
    api: MediaApi,
    windowIsSecureContext: bool,
    protocol: string,
    hostname: string)

  /** How `getUserMedia` settles. */
  datatype MediaOutcome = Granted | Rejected(errorName: string)

  /** Answer of the permission query and of its change callback. */
  datatype PermissionState = PermissionGranted | PermissionDenied | PermissionPrompt

  /** HTTPS, localhost or a browser-declared secure context. */
  predicate IsSecureContext(p: Platform) {
    || p.windowIsSecureContext
    || p.protocol == "https:"
    || p.hostname == "localhost"
    || p.hostname == "127.0.0.1"
    || EndsWith(p.hostname, ".localhost")
  }

  /** Any host under `.localhost` counts as secure, whatever the protocol. */
  lemma LocalhostSubdomainIsSecure(p: Platform, sub: string)
    requires p.hostname == sub + ".localhost"
    ensures IsSecureContext(p)
  {
    EndsWithIff(p.hostname, ".localhost");
  }

  /** A plain-HTTP page on any other host, not declared secure, is not secure. */
  lemma PlainHttpElsewhereIsInsecure(p: Platform)
    requires !p.windowIsSecureContext && p.protocol == "http:"
    requires p.hostname != "localhost" && p.hostname != "127.0.0.1"
    requires !(exists sub :: p.hostname == sub + ".localhost")
    ensures !IsSecureContext(p)
  {
    EndsWithIff(p.hostname, ".localhost");
  }

  /** How a permission request ends: it stops early with a message and no
      change to the permission, or it settles granted or failed. */
  datatype RequestResult = StoppedEarly(message: string) | Succeeded | Failed(message: string)

  /** The permission request. When only a legacy API exists the code still
      calls `navigator.mediaDevices.getUserMedia`, which throws a TypeError. */
  function PermissionRequest(p: Platform, outcome: MediaOutcome): (r: RequestResult)
    ensures r.StoppedEarly? <==> p.api == NoMediaApi || !IsSecureContext(p)
    ensures p.api == NoMediaApi ==> r == StoppedEarly(UnsupportedMessage)
    ensures r.StoppedEarly? && p.api != NoMediaApi ==> r.message == InsecureMessage
    ensures r == Succeeded ==> p.api == StandardApi && IsSecureContext(p) && outcome == Granted
    ensures p.api == StandardApi && IsSecureContext(p) && outcome == Granted ==> r == Succeeded
    ensures p.api == LegacyApiOnly && IsSecureContext(p) ==> r == Failed(DeniedMessage)
    ensures p.api == StandardApi && IsSecureContext(p) && outcome.Rejected? ==>
              r == Failed(ErrorMessage(outcome.errorName))
    ensures r.Failed? ==> r.message in {DeniedMessage, NotAllowedMessage, NotFoundMessage,
                                        NotSupportedMessage, NotReadableMessage,
                                        OverconstrainedMessage, SecurityMessage}
  {
    if p.api == NoMediaApi then StoppedEarly(UnsupportedMessage)
    else if !IsSecureContext(p) then StoppedEarly(InsecureMessage)
    else if p.api == LegacyApiOnly then Failed(ErrorMessage("TypeError"))
    else
      assert p.api == StandardApi;
      if outcome.Granted? then Succeeded else Failed(ErrorMessage(outcome.errorName))
  }

  // ---------------------------------------------------------------------
  // State and events

  datatype SheetState = SheetState(
    isRecording: bool,
    isListening: bool,
    permissionGranted: bool,
    transcribedText: string,
    error: Option<string>,
    pendingMockTimers: nat)  // mock recognition timers scheduled and not yet fired

  const Initial := SheetState(false, false, false, "", None, 0)

  datatype Event =
    | RequestPermission(platform: Platform, outcome: MediaOutcome)
    | StartRecording(platform: Platform, outcome: MediaOutcome)
    | StopRecording
    | MockTimerFired
    | Close
    | Open
    | PermissionChecked(state: PermissionState)   // the query made on mount
    | PermissionChanged(state: PermissionState)   // the query's change callback

  function ApplyRequest(s: SheetState, r: RequestResult): SheetState {
    match r
    case StoppedEarly(m) => s.(error := Some(m))
    case Succeeded => s.(permissionGranted := true, error := None)
    case Failed(m) => s.(error := Some(m), permissionGranted := false)
  }

  /** A request that fails in a secure context, whether only a legacy API
      exists or `getUserMedia` rejects, always revokes the permission and
      shows the message for the error's name (the generic one for the
      TypeError of a legacy-only browser). */
  lemma FailedRequestRevokesPermission(s: SheetState, p: Platform, o: MediaOutcome)
    requires IsSecureContext(p) && (p.api == LegacyApiOnly || (p.api == StandardApi && o.Rejected?))
    ensures var t := Step(s, RequestPermission(p, o));
      !t.permissionGranted
      && t.error == Some(if p.api == LegacyApiOnly then DeniedMessage else ErrorMessage(o.errorName))
      && t.isRecording == s.isRecording && t.transcribedText == s.transcribedText
  {
  }

  function Stopped(s: SheetState): SheetState {
    s.(isRecording := false, isListening := false)
  }

  /** The state after one event. A mock timer firing when none is pending
      cannot happen and leaves the state as it is. */
  function Step(s: SheetState, e: Event): SheetState {
    match e
    case RequestPermission(p, o) => ApplyRequest(s, PermissionRequest(p, o))
    case StartRecording(p, o) =>
      if !s.permissionGranted then ApplyRequest(s, PermissionRequest(p, o))
      else s.(isRecording := true, isListening := true, transcribedText := "",
              error := None, pendingMockTimers := s.pendingMockTimers + 1)
    case StopRecording => Stopped(s)
    case MockTimerFired =>
      if s.pendingMockTimers == 0 then s
      else s.(transcribedText := MockTranscript, isListening := false, isRecording := false,
              pendingMockTimers := s.pendingMockTimers - 1)
    case Close =>
      var t := if s.isRecording then Stopped(s) else s;
      t.(transcribedText := "", error := None)
    case Open =>
      s.(transcribedText := "", error := None, isRecording := false, isListening := false)
    case PermissionChecked(st) =>
      (match st
       case PermissionGranted => s.(permissionGranted := true)
       case PermissionDenied => s.(error := Some(BlockedMessage), permissionGranted := false)
       case PermissionPrompt => s)
    case PermissionChanged(st) =>
      match st
      case PermissionGranted => s.(permissionGranted := true, error := None)
      case PermissionDenied => s.(permissionGranted := false, error := Some(BlockedMessage))
      case PermissionPrompt => s
  }

  function Run(s: SheetState, es: seq<Event>): SheetState
    decreases |es|
  {
    if es == [] then s else Run(Step(s, es[0]), es[1..])
  }

  /** What every reachable state satisfies: the two flags always move
      together, and a recording always has a mock timer that will end it. */
  predicate Consistent(s: SheetState) {
    && s.isListening == s.isRecording
    && (s.isRecording ==> s.pendingMockTimers > 0)
  }

  lemma StepKeepsConsistent(s: SheetState, e: Event)
    requires Consistent(s)
    ensures Consistent(Step(s, e))
  {
  }

  /** From the initial state, every sequence of events reaches a consistent
      state: "recording" and "listening" are never apart. */
  lemma {:induction false} RunKeepsConsistent(s: SheetState, es: seq<Event>)
    requires Consistent(s)
    ensures Consistent(Run(s, es))
    decreases |es|
  {
    if es != [] {
      StepKeepsConsistent(s, es[0]);
      RunKeepsConsistent(Step(s, es[0]), es[1..]);
    }
  }

  /** Which events may change `permissionGranted`: only the permission
      request (directly or through a start without permission) and the two
      permission-status callbacks. */
  predicate TouchesPermission(e: Event) {
    e.RequestPermission? || e.StartRecording? || e.PermissionChecked? || e.PermissionChanged?
  }

  lemma {:induction false} PermissionOnlyChangedByPermissionEvents(s: SheetState, es: seq<Event>)
    requires forall i :: 0 <= i < |es| ==> !TouchesPermission(es[i])
    ensures Run(s, es).permissionGranted == s.permissionGranted
    decreases |es|
  {
    if es != [] {
      assert !TouchesPermission(es[0]);
      PermissionOnlyChangedByPermissionEvents(Step(s, es[0]), es[1..]);
    }
  }

  // ---------------------------------------------------------------------
  // What the sheet shows

  datatype ActionButton = AllowMicrophone | StopRecordingButton | StartRecordingButton

  datatype StatusText =
    | ErrorText(message: string, secureOriginHint: bool, browserSettingsHint: bool)
    | ListeningText
    | TranscriptText(text: string)
    | PromptText(text: string)

  /** The main button: ask for permission first, then stop or start. */
  function Button(s: SheetState): (b: ActionButton)
    ensures b == AllowMicrophone <==> !s.permissionGranted
    ensures b == StopRecordingButton <==> s.permissionGranted && (s.isRecording || s.isListening)
    ensures b == StartRecordingButton <==> s.permissionGranted && !s.isRecording && !s.isListening
  {
    if !s.permissionGranted then AllowMicrophone
    else if s.isRecording || s.isListening then StopRecordingButton
    else StartRecordingButton
  }

  /** The "Use This Text" button is there exactly when some text was transcribed. */
  function ShowsUseThisText(s: SheetState): bool {
    s.transcribedText != ""
  }

  /** The microphone pulses while recording or listening. */
  function ShowsRecordingIndicator(s: SheetState): bool {
    s.isRecording || s.isListening
  }

  const TapToSpeakPrompt := "Tap the microphone to start speaking"
  const AllowAccessPrompt := "Allow microphone access to use voice search"

  /** The status line: a (non-empty) error wins over "Listening...", which
      wins over the transcript, which wins over the prompt, and the prompt
      depends on whether the permission is granted. */
  function Status(s: SheetState): (t: StatusText)
    ensures t.ErrorText? <==> Truthy(s.error)
    ensures t.ErrorText? ==> t.message == s.error.value
    ensures t.ListeningText? <==> !Truthy(s.error) && s.isListening
    ensures t.TranscriptText? <==> !Truthy(s.error) && !s.isListening && s.transcribedText != ""
    ensures t.TranscriptText? ==> t.text == s.transcribedText
    ensures t.PromptText? ==> t.text == if s.permissionGranted then TapToSpeakPrompt else AllowAccessPrompt
  {
    if Truthy(s.error) then
      var m := s.error.value;
      ErrorText(m, Contains(m, "HTTPS") || Contains(m, "secure connection"), Contains(m, "browser settings"))
    else if s.isListening then ListeningText
    else if s.transcribedText != "" then TranscriptText(s.transcribedText)
    else if s.permissionGranted then PromptText(TapToSpeakPrompt)
    else PromptText(AllowAccessPrompt)
  }

  /** `handleSubmit`: the transcript is handed on, untrimmed, exactly when it
      is not all whitespace. */
  function Submit(s: SheetState): (forwarded: Option<string>)
    ensures forwarded.Some? <==> !AllWhitespace(s.transcribedText)
    ensures forwarded.Some? ==> forwarded.value == s.transcribedText
  {
    TrimEmptyIff(s.transcribedText);
    if Trim(s.transcribedText) != "" then Some(s.transcribedText) else None
  }

  // ---------------------------------------------------------------------
  // Scenarios

  /** A start with permission leads, once the mock timer fires, to the mock
      transcript with both flags down: the status shows the text, the
      "Use This Text" button appears, and submitting forwards it. */
  lemma StartThenTimerTranscribes(s: SheetState, p: Platform, o: MediaOutcome)
    requires Consistent(s) && s.permissionGranted
    ensures var t := Step(s, StartRecording(p, o));
      t.isRecording && t.isListening && t.transcribedText == "" && t.error == None
      && Button(t) == StopRecordingButton && Status(t) == ListeningText
    ensures var t := Step(Step(s, StartRecording(p, o)), MockTimerFired);
      !t.isRecording && !t.isListening && t.transcribedText == MockTranscript
      && t.permissionGranted && t.pendingMockTimers == s.pendingMockTimers
      && Button(t) == StartRecordingButton && ShowsUseThisText(t)
      && Status(t) == TranscriptText(MockTranscript) && Submit(t) == Some(MockTranscript)
  {
    assert MockTranscript[0] == 'T';
  }

  /** Starting without permission only requests it: recording and the
      transcript are untouched, and a successful request leaves the sheet
      ready to start. */
  lemma StartWithoutPermissionOnlyRequests(s: SheetState, p: Platform, o: MediaOutcome)
    requires !s.permissionGranted
    ensures var t := Step(s, StartRecording(p, o));
      t == Step(s, RequestPermission(p, o))
      && t.isRecording == s.isRecording && t.transcribedText == s.transcribedText
    ensures p.api == StandardApi && IsSecureContext(p) && o == Granted ==>
      var t := Step(s, StartRecording(p, o));
      t.permissionGranted && t.error == None
    ensures !IsSecureContext(p) && p.api != NoMediaApi ==>
      var t := Step(s, StartRecording(p, o));
      t.permissionGranted == s.permissionGranted && t.error == Some(InsecureMessage)
  {
  }

  /** Stopping does not cancel the mock timer: a stop followed by the timer
      still produces the mock transcript. */
  lemma StopDoesNotCancelMockTimer(s: SheetState, p: Platform, o: MediaOutcome)
    requires s.permissionGranted
    ensures Step(Step(Step(s, StartRecording(p, o)), StopRecording), MockTimerFired).transcribedText == MockTranscript
  {
  }

  /** Nor does closing: a timer scheduled before the sheet was closed and
      reopened writes its transcript into the reopened sheet. */
  lemma StaleMockTimerReachesReopenedSheet(s: SheetState, p: Platform, o: MediaOutcome)
    requires s.permissionGranted
    ensures var t := Step(Step(Step(s, StartRecording(p, o)), Close), Open);
      t.transcribedText == "" && !t.isRecording && t.pendingMockTimers > 0
    ensures Step(Step(Step(Step(s, StartRecording(p, o)), Close), Open), MockTimerFired).transcribedText == MockTranscript
  {
  }

  /** Close and reopen clear transcript and error, stop recording, and leave
      the permission as it was. */
  lemma CloseAndOpenReset(s: SheetState)
    requires Consistent(s)
    ensures var t := Step(s, Close);
      t.transcribedText == "" && t.error == None && !t.isRecording && !t.isListening
      && t.permissionGranted == s.permissionGranted && t.pendingMockTimers == s.pendingMockTimers
    ensures var t := Step(s, Open);
      t.transcribedText == "" && t.error == None && !t.isRecording && !t.isListening
      && t.permissionGranted == s.permissionGranted
  {
  }

  // ---------------------------------------------------------------------
  // The component

  class Sheet {
    var isRecording: bool
    var isListening: bool
    var permissionGranted: bool
    var transcribedText: string
    var error: Option<string>
    var pendingMockTimers: nat

    function State(): SheetState
      reads this
    {
      SheetState(isRecording, isListening, permissionGranted, transcribedText, error, pendingMockTimers)
    }

    ghost predicate Valid()
      reads this
    {
      Consistent(State())
    }

    /** The component's initial `useState` values. */
    constructor ()
      ensures Valid() && State() == Initial
    {
      isRecording, isListening, permissionGranted := false, false, false;
      transcribedText, error, pendingMockTimers := "", None, 0;
    }

    method Apply(r: RequestResult)
      modifies this
      ensures State() == ApplyRequest(old(State()), r)
    {
      match r
      case StoppedEarly(m) =>
        error := Some(m);
      case Succeeded =>
        permissionGranted := true;
        error := None;
      case Failed(m) =>
        error := Some(m);
        permissionGranted := false;
    }

    /** `requestMicrophonePermission`, taken as one step at the moment the
        request ends. */
    method RequestMicrophonePermission(p: Platform, o: MediaOutcome)
      requires Valid()
      modifies this
      ensures Valid() && State() == Step(old(State()), RequestPermission(p, o))
      ensures isRecording == old(isRecording) && transcribedText == old(transcribedText)
    {
      Apply(PermissionRequest(p, o));
    }

    /** `startRecording`, with `mockRecognition.start()` scheduling the timer. */
    method StartRecording(p: Platform, o: MediaOutcome)
      requires Valid()
      modifies this
      ensures Valid() && State() == Step(old(State()), Event.StartRecording(p, o))
      ensures old(permissionGranted) ==> isRecording && isListening && transcribedText == "" && error == None
    {
      if !permissionGranted {
        RequestMicrophonePermission(p, o);
        return;
      }
      isRecording := true;
      transcribedText := "";
      error := None;
      isListening := true;
      pendingMockTimers := pendingMockTimers + 1;
    }

    /** `stopRecording`; the mock timer stays scheduled. */
    method StopRecording()
      requires Valid()
      modifies this
      ensures Valid() && State() == Step(old(State()), Event.StopRecording)
      ensures !isRecording && !isListening && pendingMockTimers == old(pendingMockTimers)
    {
      isRecording := false;
      isListening := false;
    }

    /** The mock recognition timer fires two seconds after a start. */
    method MockTimerFires()
      requires Valid() && pendingMockTimers > 0
      modifies this
      ensures Valid() && State() == Step(old(State()), MockTimerFired)
      ensures transcribedText == MockTranscript && !isRecording && !isListening
    {
      transcribedText := MockTranscript;
      isListening := false;
      isRecording := false;
      pendingMockTimers := pendingMockTimers - 1;
    }

    /** `handleClose`; the parent's `onClose` is not part of the sheet's state. */
    method HandleClose()
      requires Valid()
      modifies this
      ensures Valid() && State() == Step(old(State()), Close)
      ensures permissionGranted == old(permissionGranted)
    {
      if isRecording {
        StopRecording();
      }
      transcribedText := "";
      error := None;
    }

    /** The effect that resets the sheet when `isOpen` becomes true. */
    method Reopen()
      requires Valid()
      modifies this
      ensures Valid() && State() == Step(old(State()), Open)
      ensures permissionGranted == old(permissionGranted)
    {
      transcribedText := "";
      error := None;
      isRecording := false;
      isListening := false;
    }

    /** The answer of the permission query made on mount. */
    method PermissionStatusChecked(st: PermissionState)
      requires Valid()
      modifies this
      ensures Valid() && State() == Step(old(State()), PermissionChecked(st))
    {
      match st
      case PermissionGranted =>
        permissionGranted := true;
      case PermissionDenied =>
        error := Some(BlockedMessage);
        permissionGranted := false;
      case PermissionPrompt =>
    }

    /** The permission query's change callback. */
    method PermissionStatusChanged(st: PermissionState)
      requires Valid()
      modifies this
      ensures Valid() && State() == Step(old(State()), PermissionChanged(st))
    {
      match st
      case PermissionGranted =>
        permissionGranted := true;
        error := None;
      case PermissionDenied =>
        permissionGranted := false;
        error := Some(BlockedMessage);
      case PermissionPrompt =>
    }

    /** `handleSubmit`: what is passed to `onResult`, if anything. */
    method HandleSubmit() returns (forwarded: Option<string>)
      ensures forwarded.Some? <==> !AllWhitespace(transcribedText)
      ensures forwarded.Some? ==> forwarded.value == transcribedText
    {
      forwarded := Submit(State());
    }
  }
}
