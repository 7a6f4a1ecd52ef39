# Real-time speech translator: decision layer

This project models the decision layer of a two-party speech relay. In this relay a
customer and an agent speak different languages. Each recognised phrase is translated,
spoken in the listener's language, and broadcast over Socket.IO events. The same pipeline
also runs once over an uploaded WAV file. Everything in `app.py` that is not plumbing for
Flask, Socket.IO or the speech service is modelled here as pure functions over immutable
datatypes.

- `Wav` covers `validate_wav_file`. The header read by Python's `wave` module becomes a
  record (channels, sample width, frame rate) or the text of a read error. Checks run in
  source order and the first failure wins.
- `Voices` covers the `voice_map` of `text_to_speech`. It also covers the list of offered
  languages.
- `Live` covers `recognized_callback`. It looks up the translation by the full target tag
  and asks for speech in that language. It then emits the speaker's `show_*_original`
  followed by the counterpart's `send_to_*_translated`.
- `Session` covers the global `recognizer_instance` slot and the handlers
  `start_customer_speech`, `start_agent_speech` and `stop_speech`. It also covers phrases
  delivered to running recognisers and whole command sequences.
- `FileFlow` covers `text_to_speech`, `process_audio_translation` and the decisions of
  `/upload`. Those decisions are the reply, the status code, whether the upload is left on
  disk, and the events emitted.
- `Paths` covers `os.path.join` and `os.path.basename` with POSIX semantics. These build
  the `translated_<name>` output and its `/download/` address.
- `Speech` holds the speech-service outcomes. A recognition is `TranslatedSpeech`,
  `NoMatch` or `Canceled`. A synthesis is `Completed(bytes)` or `Failed`. The text
  `base64.b64encode(bytes)` is kept as the term `Base64(bytes)`.
- `Events` holds payloads, event names and the relay shape shared by both paths.
- `Scenarios` holds whole-request examples.

The model follows what the code does, including these behaviours a reader might not expect:

- Starting a session overwrites the slot and never stops the recogniser that was there.
  The model assumes that recogniser keeps relaying under its own role
  (`Session.RestartKeepsPreviousRecognizer`); see "## Left out".
- `stop_speech` emits `stopped_listening` on every call, even when nothing is running.
- The live path looks translations up by the full target tag. The file path uses the tag's
  first two characters (`Scenarios.LookupKeysDiffer`).
- The live callback does not check the recognition result's reason. Every phrase the
  service reports is relayed with its text and translations.
- The live path never consults the voice table. It sets only the synthesis language.
- In the file path, any role other than `"customer"` is routed as the agent. In the live
  path, an unknown event name emits nothing.
- In the file path a synthesis failure is not degraded gracefully. `os.path.basename(None)`
  raises after `show_*_original` has gone out. Flask then answers 500 and the upload is not
  removed.

## Model

| member | source | states |
|---|---|---|
| Wrappers.GetOr | app.py:41 | Python's `dict.get(key, default)`, used at app.py lines 41, 120 and 145: the stored value for a present key, the default for an absent one |
| FileFlow.StatusField | app.py:175 | the `"status"` field is "success" exactly for a successful result and "error" exactly for a failure, which drives the 200/500 choice |
| Paths.Join | app.py:146 | the second component ends the joined path; a relative one follows the first component, with one '/' added exactly when the first component is non-empty and does not already end in '/'; an absolute one replaces it |
| Paths.Basename | app.py:151 | the result is the slash-free tail of the path, preceded by a '/' whenever it is shorter than the path |
| Paths.BasenameOfName | app.py:146-151 | a slash-free name after a separator is exactly what basename returns |
| Paths.BasenameOfJoin | app.py:146-151 | basename recovers the slash-free file name joined onto any directory |
| Wav.FirstViolation | app.py:95-100 | reference order of the checks: unreadable, then mono, then 16-bit, then rate; no violation exactly for acceptable headers |
| Wav.Validate | app.py:92-103 | no error iff the header reads as 1 channel, width 2 and rate in {8000, 16000, 44100}; otherwise the exact message of the first failing check, or "Invalid WAV file: " plus the read error; every message is non-empty |
| Wav.ValidateIdentifiesViolation | app.py:95-103 | each message identifies its check, so the four diagnostics are distinct and a read failure is never confused with a constraint violation |
| Wav.FirstFailureWins | app.py:95-98 | a stereo 8-bit header gets the mono message; a mono 8-bit one gets the 16-bit message |
| Voices.TableVoicesNamedAfterTags | app.py:109-119 | every voice in the table starts with its own tag and a dash |
| Voices.VoiceFor | app.py:120 | lookup is total: an unmapped tag gets "en-US-GuyNeural", a mapped tag a voice named after it, and every result is a voice in the table |
| Voices.TableCoversOfferedLanguages | app.py:17 | the table has an entry for exactly the offered languages |
| Events.Counterpart | app.py:149-154 | the counterpart is "agent" exactly for "customer", is always one of the two roles and never the side itself |
| Events.ChannelNames | app.py:63-67 | the relay channel names built from a side are the literal event names the clients listen on |
| Events.SendTranslatedInjective | app.py:62-67 | distinct sides have distinct delivery channels |
| Events.DeliveryNeverEchoes | app.py:62-67 | the counterpart's delivery channel is never the speaker's own delivery channel |
| Live.Target | app.py:59 | the payload's target is "agent" iff the event name is customer_translation_update, otherwise "customer" |
| Live.SpeakerOf | app.py:62-67 | only the two known event names are routed; the speaker is one of the two roles, and the target of a routed event is its speaker's counterpart, so customer_translation_update is spoken by the customer and agent_translation_update by the agent |
| Live.AudioOf | app.py:49-53 | audio is absent exactly when synthesis did not complete, otherwise it is the encoding of the synthesised bytes |
| Live.RecognizedCallback | app.py:39-67 | synthesis is asked for the translation under the full target tag, or "" when that key is missing; a routed phrase emits exactly two events, the speaker's original-only event first and the counterpart's full payload second, whose audio is the encoding of the synthesised bytes or absent when synthesis did not complete, with text kept either way; an unknown event name emits nothing |
| Session.InitialValid | app.py:16 | the empty slot at start-up satisfies the session invariant |
| Session.Start | app.py:24-37 | a fresh recogniser with the request's event name and languages fills the slot and is started; every recogniser that was running keeps running; `listening` names the side |
| Session.StartCustomer | app.py:72-75 | the slot holds a customer_translation_update recogniser with the request's languages, which is started and nothing is stopped, and `listening` names the customer |
| Session.StartAgent | app.py:77-80 | the slot holds an agent_translation_update recogniser with the request's languages, which is started and nothing is stopped, and `listening` names the agent |
| Session.Stop | app.py:82-88 | the slot ends empty; the async stop is called only for a filled slot, only that recogniser leaves the running set and nothing else in the state changes; `stopped_listening` is emitted on every call |
| Session.Deliver | app.py:39-69 | a phrase from a running recogniser, slotted or not, runs that recogniser's callback with its own event name and language; a stopped one emits nothing |
| Session.RunPreservesValid | app.py:16-88 | any sequence of starts, stops and phrases keeps the slot pointing at a running recogniser with never-reused identifiers |
| Session.AnnouncementsMatchRequests | app.py:72-88 | over any command sequence, `stopped_listening` is emitted once per stop request and `listening` once per start request |
| Session.SlotFollowsLastControl | app.py:34-87 | after any command sequence the slot is decided by the last start or stop: empty after a stop, the requested side's recogniser with the requested languages after a start |
| Session.RestartKeepsPreviousRecognizer | app.py:34-37 | a start while a session is active does not stop the old recogniser, which still relays phrases under its original role |
| Session.StopTwice | app.py:84-88 | a second stop calls nothing and changes nothing, yet `stopped_listening` is emitted twice in total |
| FileFlow.FirstTwo | app.py:145 | Python's `[:2]`: a prefix of the tag of length min(2, length) |
| FileFlow.TextToSpeech | app.py:105-128 | synthesis uses the table's voice for the language; the output path is returned exactly when synthesis completed |
| FileFlow.SpeakerFor | app.py:149 | "customer" selects the customer side; every other role selects the agent side |
| FileFlow.FileRelay | app.py:149-154 | the two file-path emits have the same relay shape as the live path, on the channels the role selects |
| FileFlow.OutputIsDownloadable | app.py:146-151 | the download address names exactly `translated_<basename of the upload>` |
| FileFlow.ProcessAudioTranslation | app.py:130-157 | a non-translated outcome gives "Translation failed" with no emits and no synthesis; otherwise synthesis of the translation found under the tag's first two letters with the table's voice, rendered into `uploads/translated_<basename of the upload>` exactly when synthesis completes; on completion a success result and the two relay emits carrying `/download/translated_<name>`; on synthesis failure an exception after only the speaker's own event |
| FileFlow.Upload | app.py:159-175 | no file gives 400 "No file provided"; a validator message gives 400 with that message, the upload removed and nothing recognised; otherwise the reply is the JSON result of the translation step with its emits, status 200 iff that result is a success, else 500, and the upload removed; an unrecognised outcome gives 500 "Translation failed" with no emits; a synthesis failure ends in a server error that leaves the upload on disk |
| FileFlow.UploadDeliversTranslation | app.py:143-175 | an acceptable upload whose speech is recognised and rendered gets 200 with the first-two-letters translation and `/download/translated_<name>`, is removed, and is relayed to the counterpart |
| Scenarios.StereoUploadRefused | app.py:168-171 | a stereo upload gets 400 "Audio must be mono (1 channel)", is removed, and triggers no recognition and no events |
| Scenarios.LiveCustomerPhrase | app.py:39-75 | a customer session from ja-JP to en-US relays a phrase as `listening`, `show_customer_original` and `send_to_agent_translated` with the audio |
| Scenarios.LookupKeysDiffer | app.py:145 | with a translation keyed "fr-FR", the live path finds it and the file path looks up "fr" and synthesises "" |

## Left out

- Speech-service calls (recogniser, synthesiser, configurations, endpoints, credentials) are external. Their outcomes are parameters, so an initialisation failure of the service is not modelled.
- Flask routing, Socket.IO transport and broadcast delivery are left out. An emit is an entry in an ordered event list, and a reply is a JSON body with a status or a server error.
- Templates, `home`/`customer`/`agent`, `download_file` and `send_from_directory` are left out because they have no decision logic.
- `secure_filename` is left out because it is a library routine. The upload carries the name it produced.
- Saving and removing files are reported as the `uploadLeft` flag and are not performed.
- A save that fails on an unusable name is not modelled.
- Header parsing by the `wave` module is left out. Its result is the input to `Wav.Validate`.
- `base64.b64encode` (section 4 of RFC 4648) is a library routine. It is kept as the injective term `Base64(bytes)`.
- Asynchrony is left out: the out-of-band recognition callback and threading. Phrases are commands in one sequence.
- Session.Stop: the recogniser is removed from the running set at once. The fire-and-forget stop can still deliver a late phrase while it drains. That race is concurrency and is not modelled.
- The relay handlers `send_to_agent`, `send_to_customer` and `update_agent_language` are left out. They re-emit their input without logic.
- Missing `target_language`/`source_language` in a start request, or missing form fields in an upload, would pass `None` into the speech-service configuration. How the service reacts is not visible, so these fields are strings. A missing `role` behaves like any role other than `"customer"`, and `FileFlow.SpeakerFor` covers that.
- Live.RecognizedCallback: the live handler has no exception handling, so an exception from the synthesis call there would end the handler before either emit; synthesis outcomes are modelled as `Completed` or `Failed` only, and that exceptional path is not modelled.
- Session.Deliver: app.py drops its only reference to a replaced recogniser without stopping it. That the speech service keeps such a recogniser listening and calling its handler is an assumption about the service's object lifetime, not something app.py states; `Session.RestartKeepsPreviousRecognizer` rests on it.
