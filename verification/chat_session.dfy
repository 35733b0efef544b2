/**
 * The interpreter screen's conversation logic: the push-to-talk buttons
 * (one per role, each toggling recording, each ignored while the other
 * role records), the typed-instruction box, and `handleFinalInput`, which
 * posts a turn to the translation route, adds the reply bubble for the
 * opposite role and hands the translation to speech synthesis.
 */
module ChatSession {
  import opened Wrappers
  import opened Strings
  import TranslateRoute
  import Remote

  datatype Role = Manager | Worker {
    function Opposite(): Role {
      match this
      case Manager => Worker
      case Worker => Manager
    }
  }

  // ---------------------------------------------------------------------
  // Push-to-talk

  /** The recogniser-related state of the screen. */
  datatype PttState = PttState(
    recording: bool,
    role: Option<Role>,
    transcript: string,
    timer: nat,
    recognizerLang: Option<string>)

  /** What the screen cannot decide itself: whether speech recognition exists, the selected
      worker language, and whether the recogniser's `start()` throws on this press. */
  datatype Env = Env(hasRecognizer: bool, currentLang: string, startThrows: bool)

  /** A finished utterance handed to `handleFinalInput`. */
  datatype Submission = Submission(text: string, role: Role)

  datatype Step = Step(state: PttState, submitted: Option<Submission>)

  const Idle := PttState(false, None, [], 0, None)

  /** A role is recorded exactly while recording is on. */
  predicate Consistent(s: PttState) {
    s.recording <==> s.role.Some?
  }

  /** `startPTT`. */
  function StartPtt(s: PttState, role: Role, env: Env): (t: PttState)
    ensures s.recording ==> t == s
    ensures !env.hasRecognizer ==> t == s
    ensures !s.recording && env.hasRecognizer && !env.startThrows
            ==> t.recording && t.role == Some(role) && t.transcript == [] && t.timer == 0
    // the manager is heard in Korean, the worker in the selected language
    ensures !s.recording && env.hasRecognizer
            ==> t.recognizerLang == Some(if role == Manager then "ko-KR" else env.currentLang)
    ensures env.startThrows ==> !t.recording || t == s
  {
    if s.recording || !env.hasRecognizer then s
    else
      var lang := if role == Manager then "ko-KR" else env.currentLang;
      if env.startThrows then s.(recording := false, recognizerLang := Some(lang))
      else PttState(true, Some(role), [], 0, Some(lang))
  }

  /** `stopPTT`: a non-blank transcript is submitted for the role that was recording. */
  function StopPtt(s: PttState, env: Env): (r: Step)
    requires Consistent(s)
    ensures !s.recording ==> r == Step(s, None)
    ensures !env.hasRecognizer ==> r == Step(s, None)
    ensures s.recording && env.hasRecognizer
            ==> !r.state.recording && r.state.role.None? && r.state.transcript == []
    ensures r.submitted.Some? ==> !IsBlank(r.submitted.value.text)
    ensures r.submitted.Some? ==> r.submitted.value == Submission(s.transcript, s.role.value)
    ensures s.recording && env.hasRecognizer && !IsBlank(s.transcript) ==> r.submitted.Some?
  {
    if !s.recording || !env.hasRecognizer then Step(s, None)
    else
      var submitted := if Trim(s.transcript) != [] then Some(Submission(s.transcript, s.role.value)) else None;
      Step(s.(recording := false, role := None, transcript := []), submitted)
  }

  /** The click handler of one role's round button. */
  function Press(s: PttState, button: Role, env: Env): (r: Step)
    requires Consistent(s)
    // a button is dead while the other role records
    ensures s.role == Some(button.Opposite()) ==> r == Step(s, None)
    // pressing the recording role's button stops it
    ensures s.role == Some(button) && env.hasRecognizer ==> !r.state.recording
    // pressing while idle starts recording for that role (when the recogniser starts)
    ensures !s.recording && env.hasRecognizer && !env.startThrows
            ==> r.state.recording && r.state.role == Some(button) && r.submitted.None?
    ensures r.submitted.Some? ==> r.submitted.value.role == button && !IsBlank(r.submitted.value.text)
  {
    if s.role == Some(button.Opposite()) then Step(s, None)
    else if s.role == Some(button) then StopPtt(s, env)
    else Step(StartPtt(s, button, env), None)
  }

  datatype Event = ButtonPressed(button: Role) | Heard(transcript: string) | Tick

  /** One event of the screen: a button press, an interim recognition result, or a timer tick.
      Recognition results and ticks only arrive while recording. */
  function Next(s: PttState, e: Event, env: Env): (r: Step)
    requires Consistent(s)
    ensures Consistent(r.state)
    ensures r.submitted.Some? ==> !IsBlank(r.submitted.value.text)
  {
    match e
    case ButtonPressed(b) => Press(s, b, env)
    case Heard(t) => Step(if s.recording then s.(transcript := t) else s, None)
    case Tick => Step(if s.recording then s.(timer := s.timer + 1) else s, None)
  }

  /** Every sequence of events from the idle screen keeps the state consistent, and each
      submission carries non-blank text. */
  function Run(s: PttState, events: seq<Event>, env: Env): (r: (PttState, seq<Submission>))
    requires Consistent(s)
    ensures Consistent(r.0)
    ensures forall i :: 0 <= i < |r.1| ==> !IsBlank(r.1[i].text)
    ensures |r.1| <= |events|
    decreases |events|
  {
    if events == [] then (s, [])
    else
      var step := Next(s, events[0], env);
      var rest := Run(step.state, events[1..], env);
      (rest.0, (if step.submitted.Some? then [step.submitted.value] else []) + rest.1)
  }

  /** The typed instruction box (Enter or the send button): non-blank input is submitted as
      the manager's and the box is cleared. */
  function SendTyped(input: string): (r: (Option<Submission>, string))
    ensures IsBlank(input) ==> r == (None, input)
    ensures !IsBlank(input) ==> r == (Some(Submission(input, Manager)), [])
  {
    if Trim(input) != [] then (Some(Submission(input, Manager)), []) else (None, input)
  }

  // ---------------------------------------------------------------------
  // handleFinalInput

  datatype AiStatus = Ready | Processing | Delayed

  /** A chat bubble (ids and timestamps are not modelled). */
  datatype Bubble = Bubble(text: string, role: Role, verification: Option<string>)

  /** The JSON body the screen posts to the translation route. */
  datatype TranslateBody = TranslateBody(text: string, langName: string, isManager: bool, sourceLang: string)

  /** What the screen reads back: the parsed JSON fields it uses, or an exception. */
  datatype Reply = Data(success: bool, translation: string, verification: Option<string>) | Threw

  /** A call of `playGeminiTTS`. */
  datatype Speak = Speak(text: string, langCode: string)

  datatype Effect = Effect(
    bubbles: seq<Bubble>,
    lastSource: Option<string>,
    request: Option<TranslateBody>,
    statuses: seq<AiStatus>,
    speak: Option<Speak>)

  const NoEffect := Effect([], None, None, [], None)

  function RequestFor(text: string, role: Role, currentLang: string): TranslateBody {
    TranslateBody(text, currentLang, role == Manager, if role == Manager then "ko-KR" else currentLang)
  }

  /** `handleFinalInput(text, role)` with the translation reply `reply`. */
  function HandleFinalInput(text: string, role: Role, currentLang: string, reply: Reply): (e: Effect)
    // whitespace-only text is never submitted
    ensures IsBlank(text) ==> e == NoEffect
    ensures !IsBlank(text) ==> |e.bubbles| >= 1 && e.bubbles[0] == Bubble(text, role, None)
    ensures !IsBlank(text) ==> e.request == Some(RequestFor(text, role, currentLang))
    // only the manager's text becomes the "last Korean source"
    ensures e.lastSource.Some? <==> !IsBlank(text) && role == Manager
    ensures e.lastSource.Some? ==> e.lastSource.value == text
    // the status ends READY on every path that got past the guard (the finally clause)
    ensures !IsBlank(text) ==> |e.statuses| >= 2 && e.statuses[0] == Processing && e.statuses[|e.statuses| - 1] == Ready
    // a successful reply is shown as the opposite role's bubble and spoken in that role's language
    ensures !IsBlank(text) && reply.Data? && reply.success ==>
              |e.bubbles| == 2 && e.bubbles[1].role == role.Opposite()
              && e.bubbles[1].text == reply.translation
              && e.speak == Some(Speak(reply.translation, if role == Manager then currentLang else "ko-KR"))
    // otherwise the turn is marked delayed and nothing is spoken
    ensures !IsBlank(text) && !(reply.Data? && reply.success) ==>
              |e.bubbles| == 1 && e.speak.None? && Delayed in e.statuses
    ensures Delayed in e.statuses ==> !(reply.Data? && reply.success)
  {
    if Trim(text) == [] then NoEffect
    else
      var request := RequestFor(text, role, currentLang);
      var source := if role == Manager then Some(text) else None;
      var mine := Bubble(text, role, None);
      match reply
      case Data(true, translation, verification) =>
        var ttsLang := if role == Manager then currentLang else "ko-KR";
        Effect([mine, Bubble(translation, role.Opposite(), verification)], source, Some(request),
               [Processing, Ready], Some(Speak(translation, ttsLang)))
      case _ =>
        Effect([mine], source, Some(request), [Processing, Delayed, Ready], None)
  }

  /**
   * `handleFinalInput` as the home page mounts the screen. The screen calls
   * its `onLastManagerText` prop on every manager turn; the home page passes
   * none, so the call throws right after the last source is recorded,
   * before the bubble, the status change and the request. `callbackGiven`
   * says whether the prop is present.
   */
  function MountedFinalInput(text: string, role: Role, currentLang: string, reply: Reply, callbackGiven: bool): (e: Effect)
    // the last source is recorded before the callback is reached
    ensures e.lastSource == HandleFinalInput(text, role, currentLang, reply).lastSource
    // without the callback a manager turn stops there: nothing shown, sent, flagged or spoken
    ensures !callbackGiven && role == Manager ==> e.bubbles == [] && e.request.None? && e.statuses == [] && e.speak.None?
    // with it, or on a worker turn, the handler runs to the end
    ensures callbackGiven || role == Worker ==> e == HandleFinalInput(text, role, currentLang, reply)
  {
    if role == Manager && !callbackGiven then NoEffect.(lastSource := if IsBlank(text) then None else Some(text))
    else HandleFinalInput(text, role, currentLang, reply)
  }

  /** As mounted, the manager's words are never shown or translated, whatever the route would answer. */
  lemma MountedManagerTurnLost(text: string, currentLang: string, reply: Reply)
    requires !IsBlank(text)
    ensures var e := MountedFinalInput(text, Manager, currentLang, reply, false);
            e.bubbles == [] && e.request.None? && e.lastSource == Some(text)
    // while the same turn with the callback present shows the manager's bubble and sends the request
    ensures var e := MountedFinalInput(text, Manager, currentLang, reply, true);
            |e.bubbles| >= 1 && e.bubbles[0] == Bubble(text, Manager, None) && e.request.Some?
  {
  }

  /** The route request the screen's body amounts to: it names `langName` but no `targetLang`. */
  function AsRouteRequest(body: TranslateBody): (r: TranslateRoute.Request)
    // whatever the text, the route's 400 test refuses it
    ensures !TranslateRoute.Valid(r)
  {
    TranslateRoute.Request(Some(body.text), None, Some(body.langName))
  }

  /** How the screen reads a route response: only the `success` flag and the texts matter. */
  function ReadResponse(r: TranslateRoute.Response): Reply {
    Data(r.success, r.translation.GetOr([]), None)
  }

  /** The screen and the route disagree on the body: every turn is refused with 400, so no
      reply bubble is ever added and the turn is marked delayed. */
  lemma ScreenBodyRejected(text: string, role: Role, currentLang: string, apiKeyPresent: bool, model: Remote.ModelReply)
    requires !IsBlank(text)
    ensures var body := AsRouteRequest(RequestFor(text, role, currentLang));
            var response := TranslateRoute.Post(Some(body), apiKeyPresent, model);
            response.status == 400
            && |HandleFinalInput(text, role, currentLang, ReadResponse(response)).bubbles| == 1
            && Delayed in HandleFinalInput(text, role, currentLang, ReadResponse(response)).statuses
  {
  }

  /** Even a key-less echo (`fallback: true`) is treated as a failure by the screen. */
  lemma EchoIsFailure(text: string, role: Role, currentLang: string, targetLang: string)
    requires !IsBlank(text) && targetLang != []
    ensures var response := TranslateRoute.Post(Some(TranslateRoute.Request(Some(text), Some(targetLang), None)), false, Remote.Raised);
            response.translation == Some(text)
            && HandleFinalInput(text, role, currentLang, ReadResponse(response)).speak.None?
  {
    assert text != [];
  }

  /**
   * The body the screen evidently means to send: the same text, with the
   * language to translate into named as `targetLang` (the worker's language
   * for a manager, Korean for a worker).
   */
  function IntendedRouteRequest(body: TranslateBody): (r: TranslateRoute.Request)
    ensures r.text == Some(body.text) && r.langName == Some(body.langName)
    ensures r.targetLang == Some(if body.isManager then body.langName else "ko-KR")
    // it passes the route's 400 test exactly when there is text and, for a manager, a language
    ensures TranslateRoute.Valid(r) <==> body.text != [] && (body.isManager ==> body.langName != [])
  {
    TranslateRoute.Request(Some(body.text), Some(if body.isManager then body.langName else "ko-KR"), Some(body.langName))
  }

  /**
   * With the intended body, a configured key and a model answer, the turn
   * completes: reply bubble and speech. The route still asks the model to
   * translate from Korean into the screen's language for either role, which
   * is the intended direction for a manager's turn only: a worker's turn is
   * spoken as Korean although the model was asked for the worker's language.
   */
  lemma IntendedBodyTranslates(text: string, role: Role, currentLang: string, out: string)
    requires !IsBlank(text) && currentLang != []
    ensures var body := IntendedRouteRequest(RequestFor(text, role, currentLang));
            var response := TranslateRoute.Post(Some(body), true, Remote.Generated(out));
            var e := HandleFinalInput(text, role, currentLang, ReadResponse(response));
            && response.status == 200 && response.success
            && response.asked == Some(TranslateRoute.Prompt("Korean", currentLang, text))
            && |e.bubbles| == 2 && e.bubbles[1].role == role.Opposite()
            && e.speak == Some(Speak(Trim(out), if role == Manager then currentLang else "ko-KR"))
  {
    assert text != [];
  }
}
