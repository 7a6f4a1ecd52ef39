/** The language-to-voice table consulted when rendering a translated file. */
module Voices {

  /** The languages the application offers. */
  const DefaultLanguages: seq<string> :=
    ["en-US", "si-LK", "ja-JP", "fr-FR", "wuu-CN", "es-ES", "de-DE", "ru-RU", "hi-IN"]

  const DefaultVoice := "en-US-GuyNeural"

  const VoiceTable: map<string, string> := map[
    "si-LK" := "si-LK-SameeraNeural",
    "en-US" := "en-US-GuyNeural",
    "fr-FR" := "fr-FR-HenriNeural",
    "ja-JP" := "ja-JP-NanamiNeural",
    "wuu-CN" := "wuu-CN-XiaotongNeural",
    "es-ES" := "es-ES-ElviraNeural",
    "de-DE" := "de-DE-KatjaNeural",
    "ru-RU" := "ru-RU-SvetlanaNeural",
    "hi-IN" := "hi-IN-AaravNeural"
  ]

  /** Every voice in the table is one of its key's own voices: its name starts with the tag and a dash. */
  predicate NamedAfter(tag: string, voice: string) {
    tag + "-" <= voice
  }

  lemma TableVoicesNamedAfterTags(tag: string)
    requires tag in VoiceTable
    ensures NamedAfter(tag, VoiceTable[tag])
  {
  }

  /** `voice_map.get(language, "en-US-GuyNeural")`. */
  function VoiceFor(tag: string): (v: string)
    ensures v in VoiceTable.Values
    ensures tag !in VoiceTable ==> v == DefaultVoice
    ensures tag in VoiceTable ==> NamedAfter(tag, v)
  {
    if tag in VoiceTable then
      TableVoicesNamedAfterTags(tag);
      VoiceTable[tag]
    else
      assert VoiceTable["en-US"] == DefaultVoice;
      DefaultVoice
  }

  /** The table has an entry for exactly the offered languages. */
  lemma TableCoversOfferedLanguages()
    ensures VoiceTable.Keys == set l | l in DefaultLanguages
  {
  }
}
