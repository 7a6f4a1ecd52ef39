/**
 * The upload's format check: a WAV header must describe mono, 16-bit audio
 * at 8, 16 or 44.1 kHz. Header parsing itself belongs to Python's `wave`
 * module and is replaced by its outcome: the three header fields, or the
 * text of the exception it raised.
 */
module Wav {
  import opened Wrappers

  datatype WavRead =
    | Header(channels: int, sampleWidth: int, frameRate: int)
    | ReadError(reason: string)

  const MonoMessage := "Audio must be mono (1 channel)"
  const WidthMessage := "Audio must be 16-bit PCM"
  const RateMessage := "Sample rate must be 8kHz, 16kHz, or 44.1kHz"
  const InvalidPrefix := "Invalid WAV file: "

  /** The frame rates the validator admits, in the order the source lists them. */
  const AllowedRates: seq<int> := [8000, 16000, 44100]

  /** The reasons a file can be refused, one per check. */
  datatype Violation = NotMono | NotSixteenBit | UnsupportedRate | Unreadable

  /** Reference definition: the headers the rest of the system can process. */
  predicate Acceptable(w: WavRead) {
    && w.Header?
    && w.channels == 1
    && w.sampleWidth == 2
    && w.frameRate in AllowedRates
  }

  /** Reference definition of the first check a header fails, in check order. */
  function FirstViolation(w: WavRead): (v: Option<Violation>)
    ensures v.None? <==> Acceptable(w)
  {
    if w.ReadError? then Some(Unreadable)
    else if w.channels != 1 then Some(NotMono)
    else if w.sampleWidth != 2 then Some(NotSixteenBit)
    else if w.frameRate !in AllowedRates then Some(UnsupportedRate)
    else None
  }

  /** `validate_wav_file`: `None` when the file is usable, otherwise the message of the first failed check. */
  function Validate(w: WavRead): (r: Option<string>)
    ensures r.None? <==> Acceptable(w)
    ensures r.None? <==> w.Header? && w.channels == 1 && w.sampleWidth == 2
                         && (w.frameRate == 8000 || w.frameRate == 16000 || w.frameRate == 44100)
    ensures w.ReadError? ==> r == Some(InvalidPrefix + w.reason)
    ensures w.Header? && w.channels != 1 ==> r == Some(MonoMessage)
    ensures w.Header? && w.channels == 1 && w.sampleWidth != 2 ==> r == Some(WidthMessage)
    ensures w.Header? && w.channels == 1 && w.sampleWidth == 2 && !Acceptable(w) ==> r == Some(RateMessage)
    ensures r.Some? ==> |r.value| > 0
  {
    match w
    case ReadError(reason) => Some(InvalidPrefix + reason)
    case Header(channels, width, rate) =>
      if channels != 1 then Some(MonoMessage)
      else if width != 2 then Some(WidthMessage)
      else if rate !in AllowedRates then Some(RateMessage)
      else None
  }

  /**
   * Reads a message back into the check that produced it: the inverse of the
   * message choice in `Validate`.
   */
  function Classify(message: string): Option<Violation> {
    if message == MonoMessage then Some(NotMono)
    else if message == WidthMessage then Some(NotSixteenBit)
    else if message == RateMessage then Some(UnsupportedRate)
    else if InvalidPrefix <= message then Some(Unreadable)
    else None
  }

  /**
   * Every message `Validate` produces identifies the first failed check, so
   * the four diagnostics are pairwise distinct and a read failure is never
   * mistaken for a constraint violation.
   */
  lemma ValidateIdentifiesViolation(w: WavRead)
    ensures Validate(w).Some? ==> Classify(Validate(w).value) == FirstViolation(w)
    ensures Validate(w).None? ==> FirstViolation(w).None?
  {
    if w.ReadError? {
      var m := InvalidPrefix + w.reason;
      assert m[0] == 'I';
      assert InvalidPrefix <= m;
    }
  }

  /** A stereo, 8-bit header is reported as not mono: the first check wins. */
  lemma FirstFailureWins()
    ensures Validate(Header(2, 1, 22050)) == Some(MonoMessage)
    ensures Validate(Header(1, 1, 22050)) == Some(WidthMessage)
  {
  }
}
