/**
 * The text-to-speech endpoint: it checks the request, then asks the
 * ElevenLabs service (when its key is configured), then the Gemini speech
 * model (when its key is configured), and otherwise tells the browser to
 * speak the text itself. The two remote services are inputs: the reply
 * each would give. Which keys are configured is an input as well.
 */
module TtsRoute {
  import opened Wrappers
  import opened Strings

  /** The request body; `Malformed` when it is not valid JSON. */
  datatype Body =
    | Malformed
    | Parsed(text: Option<string>, langCode: Option<string>, gender: Option<string>)

  /** What the ElevenLabs call would produce. */
  datatype ElevenLabsReply = ElevenOk(audio: string) | ElevenNotOk | ElevenThrew

  /** What the Gemini call would produce; `inlineData` is the audio payload, when the reply has one. */
  datatype GeminiReply = GeminiOk(inlineData: Option<string>) | GeminiNotOk | GeminiThrew

  /** A call made to a speech service, with the voice requested. */
  datatype ProviderCall = ElevenLabsCall(voiceId: string) | GeminiCall(voiceName: string)

  datatype Payload =
    | MissingParams
    | Fallback
    | Audio(audioContent: string, mimeType: string, sampleRate: Option<nat>, source: string)

  datatype Response = Response(status: nat, payload: Payload)

  /** The response together with the service calls made to produce it, in order. */
  datatype Outcome = Outcome(response: Response, calls: seq<ProviderCall>)

  // ---------------------------------------------------------------------
  // Voices

  const ElevenFemale := "EXAVITQu4vr4xnSDxMaL"
  const ElevenMale := "onwK4e9ZLuTAKqWW03F9"

  /** The gender field with its default applied. */
  function GenderOf(gender: Option<string>): string {
    gender.GetOr("female")
  }

  /** The ElevenLabs voice: the male voice exactly for "male", the female voice otherwise. */
  function ElevenVoice(gender: string): (id: string)
    ensures id == ElevenMale <==> gender == "male"
    ensures id == ElevenFemale <==> gender != "male"
  {
    assert ElevenMale[0] != ElevenFemale[0];
    if gender == "male" then ElevenMale else ElevenFemale
  }

  /** A row of the Gemini voice table. */
  datatype VoicePair = VoicePair(f: string, m: string)

  const DefaultVoices := VoicePair("Zephyr", "Fenrir")

  /** The Gemini voice table, with the `default` row for every unlisted code. */
  function GeminiRow(langCode: string): VoicePair {
    if langCode == "vi-VN" then VoicePair("Zephyr", "Fenrir")
    else if langCode == "th-TH" then VoicePair("Zephyr", "Fenrir")
    else if langCode == "ko-KR" then VoicePair("Kore", "Puck")
    else if langCode == "en-US" then VoicePair("Zephyr", "Puck")
    else if langCode == "zh-CN" then VoicePair("Aoede", "Fenrir")
    else if langCode == "ru-RU" then VoicePair("Aoede", "Charon")
    else DefaultVoices
  }

  /** The names the Gemini speech model is ever asked for. */
  predicate IsPrebuiltVoice(name: string) {
    name in {"Zephyr", "Fenrir", "Kore", "Puck", "Aoede", "Charon"}
  }

  /** The Gemini voice: the row for the code, then its male voice for "male" and its female voice otherwise. */
  function GeminiVoice(langCode: string, gender: string): (name: string)
    ensures IsPrebuiltVoice(name)
    ensures gender == "male" ==> name == GeminiRow(langCode).m
    ensures gender != "male" ==> name == GeminiRow(langCode).f
  {
    var v := GeminiRow(langCode);
    if gender == "male" then v.m else v.f
  }

  /** Korean female speech uses Kore; an unlisted code spoken by a man uses Fenrir. */
  lemma GeminiVoiceExamples()
    ensures GeminiVoice("ko-KR", "female") == "Kore"
    ensures GeminiVoice("ko-KR", "male") == "Puck"
    ensures GeminiVoice("km-KH", "male") == "Fenrir"
    ensures GeminiVoice("km-KH", "female") == "Zephyr"
  {
    assert "ko-KR"[0] != "vi-VN"[0] && "ko-KR"[0] != "th-TH"[0];
    assert "km-KH"[1] != "ko-KR"[1];
  }

  // ---------------------------------------------------------------------
  // The handler

  /** Both required fields are present and non-empty. */
  predicate HasParams(b: Body) {
    b.Parsed? && Truthy(b.text) && Truthy(b.langCode)
  }

  /** The ElevenLabs reply turned into a response, when it carries audio. */
  function ElevenLabsResponse(reply: ElevenLabsReply): Option<Response> {
    match reply
    case ElevenOk(audio) => Some(Response(200, Audio(audio, "audio/mp3", None, "elevenlabs")))
    case _ => None
  }

  /** The Gemini reply turned into a response, when it carries non-empty audio data. */
  function GeminiResponse(reply: GeminiReply): Option<Response> {
    if reply.GeminiOk? && Truthy(reply.inlineData) then
      Some(Response(200, Audio(reply.inlineData.value, "audio/L16", Some(24000), "gemini")))
    else None
  }

  function Post(body: Body, elevenKey: bool, geminiKey: bool,
                eleven: ElevenLabsReply, gemini: GeminiReply): (out: Outcome)
    // a body that does not parse ends in the catch: the browser speaks, status 200
    ensures body.Malformed? ==> out == Outcome(Response(200, Fallback), [])
    // missing text or language: 400, and no service is consulted
    ensures body.Parsed? && !HasParams(body) ==> out == Outcome(Response(400, MissingParams), [])
    // ElevenLabs is consulted exactly when the request is valid and its key is set, and it comes first
    ensures (exists i :: 0 <= i < |out.calls| && out.calls[i].ElevenLabsCall?) <==> HasParams(body) && elevenKey
    ensures |out.calls| > 0 && out.calls[0].GeminiCall? ==> !elevenKey
    // Gemini is consulted exactly when the request is valid, its key is set and ElevenLabs gave no audio
    ensures (exists i :: 0 <= i < |out.calls| && out.calls[i].GeminiCall?)
            <==> HasParams(body) && geminiKey && !(elevenKey && eleven.ElevenOk?)
    ensures |out.calls| <= 2
    // every answer other than the 400 has status 200
    ensures out.response.status == 400 <==> body.Parsed? && !HasParams(body)
    ensures out.response.status != 400 ==> out.response.status == 200
    // the voices asked for follow the gender field with its default
    ensures forall i :: 0 <= i < |out.calls| && out.calls[i].ElevenLabsCall? ==>
              out.calls[i].voiceId == ElevenVoice(GenderOf(body.gender))
    ensures forall i :: 0 <= i < |out.calls| && out.calls[i].GeminiCall? ==>
              out.calls[i].voiceName == GeminiVoice(body.langCode.value, GenderOf(body.gender))
    // audio comes from the first service that delivered it; otherwise the browser speaks
    ensures out.response.payload.Audio? && out.response.payload.source == "elevenlabs"
            <==> HasParams(body) && elevenKey && eleven.ElevenOk?
    ensures out.response.payload.Audio? && out.response.payload.source == "elevenlabs" ==>
              && out.response.payload.mimeType == "audio/mp3"
              && out.response.payload.sampleRate == None
              && eleven == ElevenOk(out.response.payload.audioContent)
    ensures out.response.payload.Audio? && out.response.payload.source == "gemini"
            <==> HasParams(body) && !(elevenKey && eleven.ElevenOk?) && geminiKey && GeminiResponse(gemini).Some?
    ensures out.response.payload.Audio? && out.response.payload.source == "gemini" ==>
              && out.response.payload.mimeType == "audio/L16"
              && out.response.payload.sampleRate == Some(24000)
              && gemini == GeminiOk(Some(out.response.payload.audioContent))
    ensures out.response.payload == Fallback <==>
              body.Malformed? || (HasParams(body) && ElevenLabsResponse(if elevenKey then eleven else ElevenNotOk).None?
                                   && (!geminiKey || GeminiResponse(gemini).None?))
  {
    if body.Malformed? then Outcome(Response(200, Fallback), [])
    else if !HasParams(body) then Outcome(Response(400, MissingParams), [])
    else
      var gender := GenderOf(body.gender);
      assert "gemini"[0] != "elevenlabs"[0];
      var first: seq<ProviderCall> := if elevenKey then [ElevenLabsCall(ElevenVoice(gender))] else [];
      if elevenKey && ElevenLabsResponse(eleven).Some? then
        assert first[0].ElevenLabsCall?;
        Outcome(ElevenLabsResponse(eleven).value, first)
      else
        var calls := first + (if geminiKey then [GeminiCall(GeminiVoice(body.langCode.value, gender))] else []);
        assert geminiKey ==> calls[|calls| - 1].GeminiCall?;
        assert elevenKey ==> calls[0].ElevenLabsCall?;
        if geminiKey && GeminiResponse(gemini).Some? then Outcome(GeminiResponse(gemini).value, calls)
        else Outcome(Response(200, Fallback), calls)
  }

  /** With no key configured the endpoint never calls out and always lets the browser speak. */
  lemma NoKeysMeansBrowserSpeech(body: Body, eleven: ElevenLabsReply, gemini: GeminiReply)
    requires HasParams(body)
    ensures Post(body, false, false, eleven, gemini) == Outcome(Response(200, Fallback), [])
  {
  }

  /** A failed ElevenLabs call hands the same text to Gemini, whose audio is then returned. */
  lemma GeminiAfterElevenLabsFails(text: string, code: string, gemini: string)
    requires text != [] && code != [] && gemini != []
    ensures Post(Parsed(Some(text), Some(code), None), true, true, ElevenNotOk, GeminiOk(Some(gemini)))
            == Outcome(Response(200, Audio(gemini, "audio/L16", Some(24000), "gemini")),
                       [ElevenLabsCall(ElevenFemale), GeminiCall(GeminiRow(code).f)])
  {
    assert "female" != "male";
  }
}
