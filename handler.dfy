/** The `/transcribe-translate` request handler: the empty-transcript guard,
    the direction resolution against the process-wide reference language, the
    translation prompt and the result record. The results of the
    speech-to-text service, the language detector, the translation service
    and speech synthesis are inputs, each able to fail; the name of the
    synthesized audio file is an input. */
module Handler {
  import opened Strings
  import opened Direction

  /** The error text returned when the transcript holds no speech. */
  const NoVoiceError: string := "No se ha detectado voz"

  /** The instruction text before the quoted target language. */
  const PromptHead: string :=
    "Eres un int\U{e9}rprete profesional.\n" +
    "Devuelve \U{fa}nicamente la traducci\U{f3}n final al idioma '"

  /** The instruction text between the quoted target language and the text
      label. */
  const PromptRules: string :=
    "'.\n" +
    "No expliques nada.\n" +
    "No a\U{f1}adas comentarios.\n" +
    "No incluyas comillas.\n\n"

  /** The label that introduces the text to translate. */
  const TextLabel: string := "Texto:\n"

  /** The fixed instruction sent to the translation service. */
  function Prompt(target: string, text: string): (p: string)
    ensures |p| == |PromptHead| + |target| + |PromptRules| + |TextLabel| + |text|
    ensures p[..|PromptHead|] == PromptHead
    // the target language sits, quoted, right after the instruction head (the
    // opening quote is the last character of `PromptHead`, restated for the reader)
    ensures p[|PromptHead| - 1] == '\'' && p[|PromptHead| + |target|] == '\''
    ensures p[|PromptHead|..|PromptHead| + |target|] == target
    // the prompt ends with the label "Texto:" and the text on its own line
    ensures |p| >= |TextLabel + text| && p[|p| - |TextLabel + text|..] == "Texto:\n" + text
  {
    var head := PromptHead + target;
    var body := head + PromptRules;
    var tail := TextLabel + text;
    assert head[..|PromptHead|] == PromptHead;
    assert head[|PromptHead|..] == target;
    assert (body + tail)[..|head|] == head;
    assert (body + tail)[|body| ..] == tail;
    assert (body + tail)[|head|] == PromptRules[0];
    body + tail
  }

  /** The record returned on success. */
  datatype TranslationResult = TranslationResult(
    detectedLanguage: string,
    referenceLanguage: Option<string>,
    direction: string,
    originalText: string,
    translatedText: string,
    audioFile: string)

  /** The step whose exception ends a request: storing the upload or the
      speech-to-text call, the language detector, the translation call (or a
      reply without content), and speech synthesis or removing the upload. */
  datatype Stage = Transcription | Detection | Translation | Synthesis

  /** The handler's reply: the error object, the result record, or the server
      error an uncaught exception turns into. */
  datatype Response = NoVoice(error: string) | Translated(result: TranslationResult) | Failed(stage: Stage)

  /** Everything one request does, as a value: the reference language after
      it, the reply, and the prompt sent to the translation service (`None`
      when no translation is asked for). */
  datatype Exchange = Exchange(reference: Option<string>, response: Response, prompt: Option<string>)

  /** One request, from the speech-to-text result to the reply. Each external
      step is an input, `None` or `false` where it raises: `transcript` is the
      transcription, `detect` the language detector, `translate` the reply
      content of the translation service, and `speak` whether synthesizing the
      translated text and removing the upload succeed. */
  function Handle(reference: Option<string>, transcript: Option<string>,
                  detect: string -> Option<string>, translate: string -> Option<string>,
                  speak: string -> bool, audioName: string): (x: Exchange)
    // failures before the update at main.py:65 leave the slot as it was
    ensures transcript.None? ==> x == Exchange(reference, Failed(Transcription), None)
    // a blank transcript is refused before anything else happens
    ensures x.response.NoVoice? <==> transcript.Some? && IsBlank(transcript.value)
    ensures x.response.NoVoice? ==>
      x.response.error == NoVoiceError && x.reference == reference && x.prompt == None
    ensures transcript.Some? && !IsBlank(transcript.value) && detect(Strip(transcript.value)).None? ==>
      x == Exchange(reference, Failed(Detection), None)
    // once a code is detected the slot is updated, whatever happens afterwards
    ensures transcript.Some? && !IsBlank(transcript.value) && detect(Strip(transcript.value)).Some? ==>
      var text := Strip(transcript.value);
      var detected := detect(text).value;
      var step := Step(reference, detected);
      var prompt := Prompt(step.target, text);
      text != "" &&
      x.reference == step.reference &&
      x.prompt == Some(prompt) &&
      x.response == (
        if translate(prompt).None? then Failed(Translation)
        else if !speak(Strip(translate(prompt).value)) then Failed(Synthesis)
        else Translated(TranslationResult(detected, step.reference, step.direction, text,
                                          Strip(translate(prompt).value), audioName)))
  {
    if transcript.None? then
      Exchange(reference, Failed(Transcription), None)
    else
      var text := Strip(transcript.value);
      if text == "" then
        Exchange(reference, NoVoice(NoVoiceError), None)
      else if detect(text).None? then
        Exchange(reference, Failed(Detection), None)
      else
        var detected := detect(text).value;
        var step := Step(reference, detected);
        var prompt := Prompt(step.target, text);
        var reply := translate(prompt);
        if reply.None? then
          Exchange(step.reference, Failed(Translation), Some(prompt))
        else
          var translated := Strip(reply.value);
          if !speak(translated) then
            Exchange(step.reference, Failed(Synthesis), Some(prompt))
          else
            Exchange(step.reference,
                     Translated(TranslationResult(detected, step.reference, step.direction,
                                                  text, translated, audioName)),
                     Some(prompt))
  }

  /** A request never stores "es" in a slot that did not hold it. */
  lemma HandleKeepsReferenceNotSpanish(reference: Option<string>, transcript: Option<string>,
                                       detect: string -> Option<string>,
                                       translate: string -> Option<string>,
                                       speak: string -> bool, audioName: string)
    requires reference != Some(Spanish)
    ensures Handle(reference, transcript, detect, translate, speak, audioName).reference != Some(Spanish)
  {
  }

  /** A request that fails after detecting a code other than "es" returns no
      record, yet the slot already holds that code: the next Spanish request is
      translated into it. */
  lemma FailedRequestSteersNext(reference: Option<string>, first: string, second: string,
                                code: string, detect: string -> Option<string>,
                                translate: string -> Option<string>, speak: string -> bool,
                                audioName: string)
    requires code != Spanish && code != ""
    requires !IsBlank(first) && !IsBlank(second)
    requires detect(Strip(first)) == Some(code)
    requires detect(Strip(second)) == Some(Spanish)
    requires Handle(reference, Some(first), detect, translate, speak, audioName).response.Failed?
    ensures
      var x := Handle(reference, Some(first), detect, translate, speak, audioName);
      var y := Handle(x.reference, Some(second), detect, translate, speak, audioName);
      x.reference == Some(code) &&
      y.prompt == Some(Prompt(code, Strip(second))) &&
      (y.response.Translated? ==> y.response.result.direction == "ES \U{2192} " + code)
  {
  }

  /** The process-wide state: the single reference-language slot shared by
      every request. */
  class Session {
    var reference: Option<string>

    /** Only codes other than "es" are ever stored. This is an invariant the
        constructor establishes and every method keeps; no method needs it. */
    ghost predicate NeverHoldsSpanish()
      reads this
    {
      reference != Some(Spanish)
    }

    /** The slot at process start: unset. */
    constructor ()
      ensures NeverHoldsSpanish() && reference == None
    {
      reference := None;
    }

    /** The read-modify-write of the slot for one detected code. */
    method Resolve(detected: string) returns (target: string, direction: string)
      modifies this
      ensures old(NeverHoldsSpanish()) ==> NeverHoldsSpanish()
      ensures reference == Step(old(reference), detected).reference
      ensures target == Step(old(reference), detected).target
      ensures direction == Step(old(reference), detected).direction
    {
      if detected != Spanish {
        reference := Some(detected);
      }
      if detected == Spanish && HasReference(reference) {
        target := reference.value;
        direction := SpanishLabel + Arrow + reference.value;
      } else {
        target := Spanish;
        direction := detected + Arrow + SpanishLabel;
      }
    }

    /** One request to `/transcribe-translate`. `prompt` is what is sent to the
        translation service, `None` when nothing is sent. A `Failed` response
        stands for the exception that ends the request at that stage. */
    method TranscribeTranslate(transcript: Option<string>, detect: string -> Option<string>,
                               translate: string -> Option<string>, speak: string -> bool,
                               audioName: string)
      returns (response: Response, prompt: Option<string>)
      modifies this
      ensures old(NeverHoldsSpanish()) ==> NeverHoldsSpanish()
      ensures Exchange(reference, response, prompt) ==
              Handle(old(reference), transcript, detect, translate, speak, audioName)
    {
      if transcript.None? {
        return Failed(Transcription), None;
      }
      var text := Strip(transcript.value);
      if text == "" {
        return NoVoice(NoVoiceError), None;
      }
      var detection := detect(text);
      if detection.None? {
        return Failed(Detection), None;
      }
      var detected := detection.value;
      var target, direction := Resolve(detected);
      var request := Prompt(target, text);
      prompt := Some(request);
      var reply := translate(request);
      if reply.None? {
        return Failed(Translation), prompt;
      }
      var translated := Strip(reply.value);
      if !speak(translated) {
        return Failed(Synthesis), prompt;
      }
      response := Translated(TranslationResult(detected, reference, direction,
                                               text, translated, audioName));
    }
  }

  /** A conversation in four turns, reasoned about from the contracts alone. */
  method Conversation()
  {
    var s := new Session();
    var t, d := s.Resolve("en");
    assert t == "es" && d == "en \U{2192} ES" && s.reference == Some("en");
    t, d := s.Resolve("es");
    assert t == "en" && d == "ES \U{2192} en" && s.reference == Some("en");
    t, d := s.Resolve("es");
    assert t == "en" && d == "ES \U{2192} en" && s.reference == Some("en");
    t, d := s.Resolve("fr");
    assert t == "es" && d == "fr \U{2192} ES" && s.reference == Some("fr");
  }
}
