/**
 * The one-shot file workflow: `text_to_speech`, `process_audio_translation`
 * and the decisions of the `/upload` route. Saving and deleting the upload
 * are reported as flags instead of being performed.
 */
module FileFlow {
  import opened Wrappers
  import opened Speech
  import opened Events
  import Paths
  import Wav
  import Voices

  const UploadFolder := "uploads"
  const OutputPrefix := "translated_"
  const DownloadPrefix := "/download/"
  const TranslationFailed := "Translation failed"
  const NoFileProvided := "No file provided"

  /** The JSON object `process_audio_translation` returns. */
  datatype TranslationResult =
    | Success(original: string, translated: string, audioUrl: string)
    | Failure(message: string)

  /** Its `"status"` field. */
  function StatusField(r: TranslationResult): (s: string)
    ensures s == "success" <==> r.Success?
    ensures s == "error" <==> r.Failure?
  {
    if r.Success? then "success" else "error"
  }

  /** Whether `process_audio_translation` returned a result or raised. */
  datatype Completion = Returned(result: TranslationResult) | Raised

  /** The synthesis call made, and the output path when synthesis completed. */
  datatype Rendering = Rendering(request: SynthRequest, outputFile: Option<string>)

  datatype Processed = Processed(completion: Completion, emits: seq<Event>, synthesis: Option<Rendering>)

  /** Python's `s[:2]`: the first two characters, or all of a shorter string. */
  function FirstTwo(s: string): (r: string)
    ensures r <= s
    ensures |r| == if |s| < 2 then |s| else 2
  {
    if |s| <= 2 then s else s[..2]
  }

  /**
   * `text_to_speech`: synthesise `text` with the table's voice for
   * `language` into `outputPath`; the path when synthesis completed,
   * `None` on any other outcome.
   */
  function TextToSpeech(text: string, language: string, outputPath: string, synth: SynthOutcome): (r: Rendering)
    ensures r.request.text == text && r.request.language == language
    ensures r.request.voice == Some(Voices.VoiceFor(language))
    ensures r.outputFile.Some? <==> synth.Completed?
    ensures r.outputFile.Some? ==> r.outputFile.value == outputPath
  {
    var request := SynthRequest(text, language, Some(Voices.VoiceFor(language)));
    if synth.Completed? then Rendering(request, Some(outputPath)) else Rendering(request, None)
  }

  /** The side whose own-text event the file path emits: any role but "customer" is the agent. */
  function SpeakerFor(role: string): (side: string)
    ensures side == Customer <==> role == Customer
    ensures side == Customer || side == Agent
  {
    if role == Customer then Customer else Agent
  }

  /** The download address of the rendered translation of the upload at `filePath`. */
  function DownloadUrl(filePath: string): string {
    DownloadPrefix + OutputPrefix + Paths.Basename(filePath)
  }

  /**
   * The two emits of a translated file, on the channels `role` selects: the
   * customer's own text and the agent's delivery for "customer", the agent's
   * own text and the customer's delivery for every other role.
   */
  function FileRelay(role: string, original: string, translated: string, url: string): (e: seq<Event>)
    ensures Relayed(e, SpeakerFor(role), original, FileTranslation(original, translated, url))
  {
    if role == Customer then
      ChannelNames();
      [Event("show_customer_original", OriginalOnly(original)),
       Event("send_to_agent_translated", FileTranslation(original, translated, url))]
    else
      ChannelNames();
      [Event("show_agent_original", OriginalOnly(original)),
       Event("send_to_customer_translated", FileTranslation(original, translated, url))]
  }

  /**
   * The rendered translation is written next to the upload as
   * `translated_<name>`, and its download address names exactly that file.
   */
  lemma OutputIsDownloadable(filePath: string)
    ensures DownloadPrefix + Paths.Basename(Paths.Join(UploadFolder, OutputPrefix + Paths.Basename(filePath)))
            == DownloadUrl(filePath)
  {
    var name := OutputPrefix + Paths.Basename(filePath);
    assert '/' !in name by {
      assert '/' !in OutputPrefix && '/' !in Paths.Basename(filePath);
    }
    Paths.BasenameOfJoin(UploadFolder, name);
  }

  /**
   * `process_audio_translation` given the recognition and synthesis outcomes.
   * When synthesis fails, `os.path.basename(None)` raises after the
   * speaker's own event has gone out, so the call ends in an exception.
   */
  function ProcessAudioTranslation(filePath: string, sourceLang: string, targetLang: string, role: string,
                                   rec: RecognitionOutcome, synth: SynthOutcome): (p: Processed)
    ensures !rec.TranslatedSpeech? ==>
      p.completion == Returned(Failure(TranslationFailed)) && p.emits == [] && p.synthesis.None?
    ensures rec.TranslatedSpeech? ==>
      && p.synthesis.Some?
      && p.synthesis.value.request.text == GetOr(rec.translations, FirstTwo(targetLang), "")
      && p.synthesis.value.request.language == targetLang
      && p.synthesis.value.request.voice == Some(Voices.VoiceFor(targetLang))
      && p.synthesis.value.outputFile
         == (if synth.Completed? then Some(Paths.Join(UploadFolder, OutputPrefix + Paths.Basename(filePath))) else None)
    ensures rec.TranslatedSpeech? && synth.Completed? ==>
      var translated := GetOr(rec.translations, FirstTwo(targetLang), "");
      && p.completion == Returned(Success(rec.text, translated, DownloadUrl(filePath)))
      && Relayed(p.emits, SpeakerFor(role), rec.text, FileTranslation(rec.text, translated, DownloadUrl(filePath)))
    ensures rec.TranslatedSpeech? && synth.Failed? ==>
      && p.completion == Raised
      && p.emits == [Event(ShowOriginal(SpeakerFor(role)), OriginalOnly(rec.text))]
  {
    match rec
    case TranslatedSpeech(original, translations) =>
      var translated := GetOr(translations, FirstTwo(targetLang), "");
      var outputName := OutputPrefix + Paths.Basename(filePath);
      var outputPath := Paths.Join(UploadFolder, outputName);
      var speech := TextToSpeech(translated, targetLang, outputPath, synth);
      if speech.outputFile.None? then
        // the first emit has gone out when building the second one raises
        Processed(Raised, [FileRelay(role, original, translated, "")[0]], Some(speech))
      else
        OutputIsDownloadable(filePath);
        var url := DownloadPrefix + Paths.Basename(speech.outputFile.value);
        Processed(Returned(Success(original, translated, url)), FileRelay(role, original, translated, url), Some(speech))
    case _ => Processed(Returned(Failure(TranslationFailed)), [], None)
  }

  /** A file part of the upload request: its name after `secure_filename`, and what `wave` reads from it. */
  datatype UploadedFile = UploadedFile(filename: string, header: Wav.WavRead)

  /** The HTTP answer: a JSON body with a status code, or Flask's 500 page for an unhandled exception. */
  datatype Reply = Json(body: TranslationResult, status: int) | ServerError

  /**
   * What a request to `/upload` leads to: the reply, whether the saved upload
   * is still on disk afterwards, the emitted events, and whether recognition ran.
   */
  datatype UploadOutcome = UploadOutcome(reply: Reply, uploadLeft: bool, emits: seq<Event>, recognized: bool)

  /** `upload_file`: reject, validate, translate, clean up, and pick the status code. */
  function Upload(file: Option<UploadedFile>, sourceLang: string, targetLang: string, role: string,
                  rec: RecognitionOutcome, synth: SynthOutcome): (u: UploadOutcome)
    ensures file.None? ==> u == UploadOutcome(Json(Failure(NoFileProvided), 400), false, [], false)
    ensures file.Some? && Wav.Validate(file.value.header).Some? ==>
      u == UploadOutcome(Json(Failure(Wav.Validate(file.value.header).value), 400), false, [], false)
    ensures u.recognized <==> file.Some? && Wav.Acceptable(file.value.header)
    ensures u.recognized ==>
      && (u.reply.ServerError? <==> rec.TranslatedSpeech? && synth.Failed?)
      && (u.uploadLeft <==> u.reply.ServerError?)
      && (u.reply.Json? ==> (u.reply.status == 200 <==> u.reply.body.Success?))
      && (u.reply.Json? ==> u.reply.status == 200 || u.reply.status == 500)
    ensures u.reply.Json? && u.reply.body.Success? ==>
      u.reply.body.audioUrl == DownloadUrl(Paths.Join(UploadFolder, file.value.filename))
    ensures u.recognized ==>
      var p := ProcessAudioTranslation(Paths.Join(UploadFolder, file.value.filename), sourceLang, targetLang, role, rec, synth);
      && u.emits == p.emits
      && (p.completion.Returned? ==> u.reply == Json(p.completion.result, if p.completion.result.Success? then 200 else 500))
    ensures u.recognized && !rec.TranslatedSpeech? ==>
      u == UploadOutcome(Json(Failure(TranslationFailed), 500), false, [], true)
  {
    match file
    case None => UploadOutcome(Json(Failure(NoFileProvided), 400), false, [], false)
    case Some(f) =>
      var filePath := Paths.Join(UploadFolder, f.filename);
      var error := Wav.Validate(f.header);
      if error.Some? && |error.value| > 0 then
        UploadOutcome(Json(Failure(error.value), 400), false, [], false)
      else
        var processed := ProcessAudioTranslation(filePath, sourceLang, targetLang, role, rec, synth);
        match processed.completion
        case Raised => UploadOutcome(ServerError, true, processed.emits, true)
        case Returned(result) =>
          UploadOutcome(Json(result, if StatusField(result) == "success" then 200 else 500), false, processed.emits, true)
  }

  /**
   * An acceptable upload whose speech is recognised and rendered is answered
   * with status 200 and the translation found under the target's first two
   * letters, is removed, and is relayed with the address of
   * `translated_<name>`.
   */
  lemma UploadDeliversTranslation(file: UploadedFile, sourceLang: string, targetLang: string, role: string,
                                  rec: RecognitionOutcome, audio: seq<byte>)
    requires '/' !in file.filename
    requires Wav.Acceptable(file.header) && rec.TranslatedSpeech?
    ensures
      var u := Upload(Some(file), sourceLang, targetLang, role, rec, Completed(audio));
      var translated := GetOr(rec.translations, FirstTwo(targetLang), "");
      var url := DownloadPrefix + OutputPrefix + file.filename;
      && u.reply == Json(Success(rec.text, translated, url), 200)
      && !u.uploadLeft
      && Relayed(u.emits, SpeakerFor(role), rec.text, FileTranslation(rec.text, translated, url))
  {
    Paths.BasenameOfJoin(UploadFolder, file.filename);
  }
}
