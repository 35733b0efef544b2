/**
 * `POST /api/translate`: validates the body, echoes the text back when no
 * model key is configured, otherwise returns the model's trimmed output;
 * any exception (including an unparsable body) yields an empty translation
 * with status 500.
 */
module TranslateRoute {
  import opened Wrappers
  import opened Strings
  import opened Remote

  /** The fields the handler destructures from the JSON body; `None` when absent. */
  datatype Request = Request(text: Option<string>, targetLang: Option<string>, langName: Option<string>)

  /** What the prompt asks of the model: translate `text` from `source` into `target`. */
  datatype Prompt = Prompt(source: string, target: string, text: string)

  /**
   * The JSON reply: `translation`, `success`, `fallback` and `error` are
   * omitted when `None`/false. `asked` is the prompt sent to the model, if any.
   */
  datatype Response = Response(
    status: nat,
    translation: Option<string>,
    success: bool,
    fallback: bool,
    error: Option<string>,
    asked: Option<Prompt>)

  /** A possibly-missing string interpolated into a template literal. */
  function Interpolate(s: Option<string>): string {
    if s.Some? then s.value else "undefined"
  }

  predicate Valid(req: Request) {
    Truthy(req.text) && Truthy(req.targetLang)
  }

  /** The handler; `body` is `None` when the body is not valid JSON (the parse throws). */
  function Post(body: Option<Request>, apiKeyPresent: bool, reply: ModelReply): (r: Response)
    // a body without text or target language is refused before anything else
    ensures body.Some? && !Valid(body.value) ==> r.status == 400 && !r.success && r.translation.None?
    // with no key the input is echoed as a fallback, without the success flag
    ensures body.Some? && Valid(body.value) && !apiKeyPresent
            ==> r.status == 200 && r.translation == body.value.text && r.fallback && !r.success
    // success exactly when a valid request reached a configured model that answered
    ensures r.success <==> body.Some? && Valid(body.value) && apiKeyPresent && reply.Generated?
    ensures r.success ==> r.status == 200 && r.translation == Some(Trim(reply.text)) && !r.fallback
    // every failure of the model (or of the body parse) is a 500 with an empty translation
    ensures (body.None? || (Valid(body.value) && apiKeyPresent && reply.Raised?))
            <==> r.status == 500
    ensures r.status == 500 ==> r.translation == Some([]) && r.fallback && r.error == Some("Translation failed")
    ensures r.success ==> !r.fallback
    // the model is consulted exactly for a valid request with a key, and is always asked
    // to translate from Korean into `langName`: `targetLang` is never read past the 400 test
    ensures r.asked.Some? <==> body.Some? && Valid(body.value) && apiKeyPresent
    ensures r.asked.Some? ==> r.asked.value == Prompt("Korean", Interpolate(body.value.langName), body.value.text.value)
  {
    match body
    case None => Response(500, Some([]), false, true, Some("Translation failed"), None)
    case Some(req) =>
      if !Valid(req) then Response(400, None, false, false, Some("Missing text or targetLang"), None)
      else if !apiKeyPresent then Response(200, req.text, false, true, None, None)
      else
        var prompt := Prompt("Korean", Interpolate(req.langName), req.text.value);
        match reply
        case Generated(out) => Response(200, Some(Trim(out)), true, false, None, Some(prompt))
        case Raised => Response(500, Some([]), false, true, Some("Translation failed"), Some(prompt))
  }

  /** Any non-empty `targetLang` gives the same response: the field only guards the 400. */
  lemma TargetLangIgnored(req: Request, t: string, apiKeyPresent: bool, reply: ModelReply)
    requires Truthy(req.targetLang) && t != []
    ensures Post(Some(req.(targetLang := Some(t))), apiKeyPresent, reply) == Post(Some(req), apiKeyPresent, reply)
  {
  }
}
