/**
 * The handler attached to a live recogniser (`recognized_callback`): for
 * each recognised phrase it looks up the translation, asks for speech in the
 * target language and relays the phrase to both sides.
 */
module Live {
  import opened Wrappers
  import opened Speech
  import opened Events

  /** The event names the two start handlers pass to `recognize_speech`. */
  const CustomerUpdate := "customer_translation_update"
  const AgentUpdate := "agent_translation_update"

  /** What one recognised phrase causes: one synthesis call and the emitted events. */
  datatype Reaction = Reaction(synthesis: SynthRequest, emits: seq<Event>)

  /** The payload's `target` field, decided from the event name alone. */
  function Target(eventName: string): (t: string)
    ensures t == Agent <==> eventName == CustomerUpdate
    ensures t == Customer <==> eventName != CustomerUpdate
  {
    if eventName == CustomerUpdate then Agent else Customer
  }

  /** The side whose words a recogniser hears, if its event name is one the callback routes. */
  function SpeakerOf(eventName: string): (s: Option<string>)
    ensures s.Some? <==> eventName == CustomerUpdate || eventName == AgentUpdate
    ensures s.Some? ==> s.value == Customer || s.value == Agent
    ensures s.Some? ==> Counterpart(s.value) == Target(eventName)
  {
    if eventName == CustomerUpdate then Some(Customer)
    else if eventName == AgentUpdate then Some(Agent)
    else None
  }

  /** The `audio` field: the encoded bytes when synthesis completed, `None` otherwise. */
  function AudioOf(synth: SynthOutcome): (a: Option<Base64Text>)
    ensures a.None? <==> synth.Failed?
    ensures synth.Completed? ==> a == Some(Base64(synth.audio))
  {
    match synth
    case Completed(bytes) => Some(Base64(bytes))
    case Failed => None
  }

  /**
   * `recognized_callback` for a recogniser created with `eventName` and
   * `targetLanguage`, given the phrase's text and translations and the
   * outcome of synthesising the translation.
   */
  function RecognizedCallback(eventName: string, targetLanguage: string, text: string,
                              translations: map<string, string>, synth: SynthOutcome): (r: Reaction)
    ensures r.synthesis.language == targetLanguage && r.synthesis.voice.None?
    ensures targetLanguage in translations ==> r.synthesis.text == translations[targetLanguage]
    ensures targetLanguage !in translations ==> r.synthesis.text == ""
    ensures SpeakerOf(eventName).None? ==> r.emits == []
    ensures SpeakerOf(eventName).Some? ==>
      && |r.emits| == 2
      && Relayed(r.emits, SpeakerOf(eventName).value, text, r.emits[1].payload)
      && r.emits[1].payload.LiveTranslation?
      && r.emits[1].payload.original == text
      && r.emits[1].payload.translated == r.synthesis.text
      && r.emits[1].payload.target == Target(eventName)
      && r.emits[1].payload.audio == AudioOf(synth)
      && (r.emits[1].payload.audio.None? <==> synth.Failed?)
  {
    var translated := GetOr(translations, targetLanguage, "");
    var request := SynthRequest(translated, targetLanguage, None);
    var payload := LiveTranslation(text, translated, AudioOf(synth), Target(eventName));
    if eventName == CustomerUpdate then
      ChannelNames();
      Reaction(request, [Event("show_customer_original", OriginalOnly(text)), Event("send_to_agent_translated", payload)])
    else if eventName == AgentUpdate then
      ChannelNames();
      Reaction(request, [Event("show_agent_original", OriginalOnly(text)), Event("send_to_customer_translated", payload)])
    else
      Reaction(request, [])
  }
}
