/** Whole-request behaviour on concrete inputs, for both paths. */
module Scenarios {
  import opened Wrappers
  import opened Speech
  import opened Events
  import Paths
  import Wav
  import Live
  import Session
  import FileFlow

  /** A stereo upload is refused with status 400 and removed; nothing is recognised or emitted. */
  lemma StereoUploadRefused(rec: RecognitionOutcome, synth: SynthOutcome)
    ensures
      var u := FileFlow.Upload(Some(FileFlow.UploadedFile("call.wav", Wav.Header(2, 2, 16000))),
                               "en-US", "fr-FR", "customer", rec, synth);
      && u.reply == FileFlow.Json(FileFlow.Failure("Audio must be mono (1 channel)"), 400)
      && !u.uploadLeft && u.emits == [] && !u.recognized
  {
  }

  /**
   * A customer session from Japanese to English: a recognised phrase shows
   * the original on the customer's side and delivers the translation and
   * audio to the agent.
   */
  lemma LiveCustomerPhrase(audio: seq<byte>)
    ensures
      var run := Session.Run(Session.Initial,
                             [Session.StartCustomerSpeech("en-US", "ja-JP"),
                              Session.Recognized(0, "こんにちは", map["en-US" := "hello"], Completed(audio))]);
      run.emits == [Event("listening", SidePayload("customer")),
                    Event("show_customer_original", OriginalOnly("こんにちは")),
                    Event("send_to_agent_translated", LiveTranslation("こんにちは", "hello", Some(Base64(audio)), "agent"))]
  {
    var cmds := [Session.StartCustomerSpeech("en-US", "ja-JP"),
                 Session.Recognized(0, "こんにちは", map["en-US" := "hello"], Completed(audio))];
    assert cmds[..1] == [cmds[0]];
    assert cmds[..1][..0] == [];
    var c0 := cmds[0];
    var empty := Session.Run(Session.Initial, []);
    assert empty == Session.Transition(Session.Initial, [], []);
    var first := Session.Step(Session.Initial, c0);
    assert first == Session.Start(Session.Initial, Live.CustomerUpdate, Customer, "en-US", "ja-JP");
    var started := Session.Run(Session.Initial, [c0]);
    assert [c0][..0] == [];
    assert started.state == first.state && started.emits == first.emits;
    assert started.state.running[0] == Session.Recognizer(0, Live.CustomerUpdate, "en-US", "ja-JP");
    var reaction := Live.RecognizedCallback(Live.CustomerUpdate, "en-US", "こんにちは", map["en-US" := "hello"], Completed(audio));
    assert reaction.emits == [Event("show_customer_original", OriginalOnly("こんにちは")),
                              Event("send_to_agent_translated", LiveTranslation("こんにちは", "hello", Some(Base64(audio)), "agent"))];
    assert Session.Step(started.state, cmds[1]).emits == reaction.emits;
  }

  /**
   * The live path looks a translation up by the full target tag and the file
   * path by its first two letters: the same translations give the live
   * listener the text and the file caller an empty string.
   */
  lemma LookupKeysDiffer()
    ensures Live.RecognizedCallback(Live.CustomerUpdate, "fr-FR", "hi", map["fr-FR" := "salut"], Failed).synthesis.text == "salut"
    ensures FileFlow.ProcessAudioTranslation("uploads/a.wav", "en-US", "fr-FR", "customer",
                                             TranslatedSpeech("hi", map["fr-FR" := "salut"]), Failed).synthesis.value.request.text == ""
  {
    assert FileFlow.FirstTwo("fr-FR") == "fr";
  }
}
