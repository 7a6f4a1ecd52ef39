/**
 * The live-session handlers: `start_customer_speech`, `start_agent_speech`
 * and `stop_speech` around the one global recogniser slot, plus the
 * recognised phrases the speech service delivers to running recognisers.
 *
 * Besides the slot, the state records every recogniser that was started and
 * not stopped, because starting a new session overwrites the slot without
 * stopping the recogniser it held. The model assumes the speech service
 * keeps such an unreferenced recogniser listening and calling its handler.
 */
module Session {
  import opened Wrappers
  import opened Speech
  import opened Events
  import Live

  /** A `TranslationRecognizer` with the configuration `recognize_speech` gave it and its callback's event name. */
  datatype Recognizer = Recognizer(id: nat, eventName: string, targetLanguage: string, sourceLanguage: string)

  datatype State = State(slot: Option<Recognizer>, running: map<nat, Recognizer>, nextId: nat)

  /** Calls into the speech service. */
  datatype SdkCall =
    | StartContinuous(id: nat)
    | StopContinuousAsync(id: nat)
    | Synthesize(request: SynthRequest)

  /** What reaches the core: the three client events, and phrases recognised by a running recogniser. */
  datatype Command =
    | StartCustomerSpeech(target: string, source: string)
    | StartAgentSpeech(target: string, source: string)
    | StopSpeech
    | Recognized(recognizer: nat, text: string, translations: map<string, string>, synth: SynthOutcome)

  datatype Transition = Transition(state: State, calls: seq<SdkCall>, emits: seq<Event>)

  /** `recognizer_instance = None` at import time. */
  const Initial := State(None, map[], 0)

  /** The slot holds a running recogniser, and identifiers are never reused. */
  predicate Valid(s: State) {
    && (s.slot.Some? ==> s.slot.value.id in s.running && s.running[s.slot.value.id] == s.slot.value)
    && (forall id | id in s.running :: id < s.nextId && s.running[id].id == id)
  }

  lemma InitialValid()
    ensures Valid(Initial)
  {
  }

  /**
   * `recognize_speech` followed by the `listening` emit: a new recogniser
   * fills the slot and starts; whatever the slot held before is not stopped.
   */
  function Start(s: State, eventName: string, side: string, target: string, source: string): (t: Transition)
    ensures t.state.slot.Some?
    ensures t.state.slot.value.eventName == eventName
    ensures t.state.slot.value.targetLanguage == target && t.state.slot.value.sourceLanguage == source
    ensures Valid(s) ==> Valid(t.state) && t.state.slot.value.id !in s.running
    ensures Valid(s) ==> t.state.running == s.running[t.state.slot.value.id := t.state.slot.value]
    ensures t.calls == [StartContinuous(t.state.slot.value.id)]
    ensures t.emits == [Event(Listening, SidePayload(side))]
  {
    var r := Recognizer(s.nextId, eventName, target, source);
    Transition(State(Some(r), s.running[r.id := r], s.nextId + 1), [StartContinuous(r.id)], [Event(Listening, SidePayload(side))])
  }

  /** `start_customer_speech`. */
  function StartCustomer(s: State, target: string, source: string): (t: Transition)
    ensures t.state.slot.Some? && t.state.slot.value.eventName == Live.CustomerUpdate
    ensures t.state.slot.value.targetLanguage == target && t.state.slot.value.sourceLanguage == source
    ensures t.calls == [StartContinuous(t.state.slot.value.id)]
    ensures t.emits == [Event(Listening, SidePayload(Customer))]
  {
    Start(s, Live.CustomerUpdate, Customer, target, source)
  }

  /** `start_agent_speech`. */
  function StartAgent(s: State, target: string, source: string): (t: Transition)
    ensures t.state.slot.Some? && t.state.slot.value.eventName == Live.AgentUpdate
    ensures t.state.slot.value.targetLanguage == target && t.state.slot.value.sourceLanguage == source
    ensures t.calls == [StartContinuous(t.state.slot.value.id)]
    ensures t.emits == [Event(Listening, SidePayload(Agent))]
  {
    Start(s, Live.AgentUpdate, Agent, target, source)
  }

  /**
   * `stop_speech`: stops the slot's recogniser without waiting, empties the
   * slot, and announces `stopped_listening` whether or not anything was running.
   */
  function Stop(s: State): (t: Transition)
    ensures t.state.slot.None?
    ensures t.emits == [Event(StoppedListening, NoPayload)]
    ensures s.slot.None? ==> t.calls == [] && t.state == s
    ensures s.slot.Some? ==> t.calls == [StopContinuousAsync(s.slot.value.id)]
    ensures s.slot.Some? ==> t.state == State(None, s.running - {s.slot.value.id}, s.nextId)
    ensures Valid(s) ==> Valid(t.state)
  {
    match s.slot
    case None => Transition(s, [], [Event(StoppedListening, NoPayload)])
    case Some(r) =>
      Transition(State(None, s.running - {r.id}, s.nextId), [StopContinuousAsync(r.id)], [Event(StoppedListening, NoPayload)])
  }

  /**
   * A phrase recognised by recogniser `id`: its callback runs if the
   * recogniser is still running, whether or not it is the one in the slot.
   */
  function Deliver(s: State, id: nat, text: string, translations: map<string, string>, synth: SynthOutcome): (t: Transition)
    ensures t.state == s
    ensures id !in s.running ==> t.calls == [] && t.emits == []
    ensures id in s.running ==>
      && t.calls == [Synthesize(Live.RecognizedCallback(s.running[id].eventName, s.running[id].targetLanguage, text, translations, synth).synthesis)]
      && t.emits == Live.RecognizedCallback(s.running[id].eventName, s.running[id].targetLanguage, text, translations, synth).emits
  {
    if id in s.running then
      var rec := s.running[id];
      var reaction := Live.RecognizedCallback(rec.eventName, rec.targetLanguage, text, translations, synth);
      Transition(s, [Synthesize(reaction.synthesis)], reaction.emits)
    else Transition(s, [], [])
  }

  function Step(s: State, c: Command): Transition {
    match c
    case StartCustomerSpeech(target, source) => StartCustomer(s, target, source)
    case StartAgentSpeech(target, source) => StartAgent(s, target, source)
    case StopSpeech => Stop(s)
    case Recognized(id, text, translations, synth) => Deliver(s, id, text, translations, synth)
  }

  /** The commands handled one after another, calls and emits concatenated in order. */
  function Run(s: State, cmds: seq<Command>): Transition
    decreases |cmds|
  {
    if cmds == [] then Transition(s, [], [])
    else
      var before := Run(s, cmds[..|cmds| - 1]);
      var last := Step(before.state, cmds[|cmds| - 1]);
      Transition(last.state, before.calls + last.calls, before.emits + last.emits)
  }

  lemma {:induction false} RunPreservesValid(s: State, cmds: seq<Command>)
    requires Valid(s)
    ensures Valid(Run(s, cmds).state)
    decreases |cmds|
  {
    if cmds != [] {
      RunPreservesValid(s, cmds[..|cmds| - 1]);
    }
  }

  function CountStops(cmds: seq<Command>): nat {
    if cmds == [] then 0
    else CountStops(cmds[..|cmds| - 1]) + (if cmds[|cmds| - 1].StopSpeech? then 1 else 0)
  }

  function CountStarts(cmds: seq<Command>): nat {
    if cmds == [] then 0
    else CountStarts(cmds[..|cmds| - 1]) + (if cmds[|cmds| - 1].StartCustomerSpeech? || cmds[|cmds| - 1].StartAgentSpeech? then 1 else 0)
  }

  /** Every command's own emits, with the session notifications counted. */
  lemma StepAnnouncements(s: State, c: Command)
    ensures CountNamed(Step(s, c).emits, StoppedListening) == (if c.StopSpeech? then 1 else 0)
    ensures CountNamed(Step(s, c).emits, Listening) == (if c.StartCustomerSpeech? || c.StartAgentSpeech? then 1 else 0)
  {
    var e := Step(s, c).emits;
    if c.Recognized? && c.recognizer in s.running {
      var rec := s.running[c.recognizer];
      var speaker := Live.SpeakerOf(rec.eventName);
      if speaker.Some? {
        RelayNamesAreNotSessionNames(speaker.value);
        RelayNamesAreNotSessionNames(Counterpart(speaker.value));
        assert e[..1] == [e[0]];
      }
    }
  }

  /**
   * Over any sequence of commands, `stopped_listening` is emitted once per
   * stop request (also when nothing was listening) and `listening` once per
   * start request.
   */
  lemma {:induction false} AnnouncementsMatchRequests(s: State, cmds: seq<Command>)
    ensures CountNamed(Run(s, cmds).emits, StoppedListening) == CountStops(cmds)
    ensures CountNamed(Run(s, cmds).emits, Listening) == CountStarts(cmds)
    decreases |cmds|
  {
    if cmds != [] {
      var init := cmds[..|cmds| - 1];
      var before := Run(s, init);
      var last := Step(before.state, cmds[|cmds| - 1]);
      AnnouncementsMatchRequests(s, init);
      StepAnnouncements(before.state, cmds[|cmds| - 1]);
      CountNamedAppend(before.emits, last.emits, StoppedListening);
      CountNamedAppend(before.emits, last.emits, Listening);
    }
  }

  /** The last start or stop request among `cmds`, if any. */
  function LastControl(cmds: seq<Command>): (c: Option<Command>)
    ensures c.Some? ==> !c.value.Recognized?
  {
    if cmds == [] then None
    else if !cmds[|cmds| - 1].Recognized? then Some(cmds[|cmds| - 1])
    else LastControl(cmds[..|cmds| - 1])
  }

  /**
   * The slot after a run is decided by the last start or stop request alone:
   * empty after a stop, holding the requested side's recogniser with the
   * requested languages after a start, and untouched when there was neither.
   */
  lemma {:induction false} SlotFollowsLastControl(s: State, cmds: seq<Command>)
    ensures LastControl(cmds).None? ==> Run(s, cmds).state.slot == s.slot
    ensures LastControl(cmds) == Some(StopSpeech) ==> Run(s, cmds).state.slot.None?
    ensures LastControl(cmds).Some? && LastControl(cmds).value.StartCustomerSpeech? ==>
      var slot := Run(s, cmds).state.slot;
      && slot.Some?
      && slot.value.eventName == Live.CustomerUpdate
      && slot.value.targetLanguage == LastControl(cmds).value.target
      && slot.value.sourceLanguage == LastControl(cmds).value.source
    ensures LastControl(cmds).Some? && LastControl(cmds).value.StartAgentSpeech? ==>
      var slot := Run(s, cmds).state.slot;
      && slot.Some?
      && slot.value.eventName == Live.AgentUpdate
      && slot.value.targetLanguage == LastControl(cmds).value.target
      && slot.value.sourceLanguage == LastControl(cmds).value.source
    decreases |cmds|
  {
    if cmds != [] && cmds[|cmds| - 1].Recognized? {
      SlotFollowsLastControl(s, cmds[..|cmds| - 1]);
    }
  }

  /**
   * Restarting does not stop the previous recogniser: after a start, the
   * recogniser that was in the slot is still running, and a phrase it
   * recognises is still relayed under its own event name and language.
   */
  lemma RestartKeepsPreviousRecognizer(s: State, c: Command, text: string, translations: map<string, string>, synth: SynthOutcome)
    requires Valid(s) && s.slot.Some?
    requires c.StartCustomerSpeech? || c.StartAgentSpeech?
    ensures
      var prev := s.slot.value;
      var after := Step(s, c);
      && after.state.slot.value.id != prev.id
      && StopContinuousAsync(prev.id) !in after.calls
      && prev.id in after.state.running
      && Step(after.state, Recognized(prev.id, text, translations, synth)).emits
         == Live.RecognizedCallback(prev.eventName, prev.targetLanguage, text, translations, synth).emits
  {
  }

  /**
   * Stopping twice: the second request calls nothing and changes nothing,
   * yet `stopped_listening` is announced again.
   */
  lemma StopTwice(s: State)
    ensures
      var first := Run(s, [StopSpeech]);
      var both := Run(s, [StopSpeech, StopSpeech]);
      && both.state == first.state
      && both.calls == first.calls
      && CountNamed(both.emits, StoppedListening) == 2
  {
    assert [StopSpeech, StopSpeech][..1] == [StopSpeech];
    AnnouncementsMatchRequests(s, [StopSpeech, StopSpeech]);
    assert [StopSpeech, StopSpeech][..1][..0] == [];
  }
}
