/**
 * The speech service seen from app.py: only the outcomes of its calls. The
 * recogniser, translator and synthesiser themselves are outside the model.
 */
module Speech {
  import opened Wrappers

  newtype byte = x: int | 0 <= x < 256

  /** What a single recognise-and-translate pass reports. */
  datatype RecognitionOutcome =
    | TranslatedSpeech(text: string, translations: map<string, string>)
    | NoMatch
    | Canceled(reason: string)

  /**
   * What a synthesis call reports. In `text_to_speech` an exception is caught
   * and reads as `Failed` too; the live handler catches nothing.
   */
  datatype SynthOutcome = Completed(audio: seq<byte>) | Failed

  /** The parameters a synthesis call is configured with. */
  datatype SynthRequest = SynthRequest(text: string, language: string, voice: Option<string>)

  /**
   * The text `base64.b64encode(bytes).decode("utf-8")`, kept as a term: the
   * encoding is a library routine (section 4 of RFC 4648) and injective, so
   * two such texts are equal exactly when their bytes are.
   */
  datatype Base64Text = Base64(bytes: seq<byte>)
}
