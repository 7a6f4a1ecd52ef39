/**
 * The Socket.IO events the core emits. Every emit is a broadcast: an event
 * is a name and a payload, and a run of the core produces a list of them in
 * emission order.
 */
module Events {
  import opened Wrappers
  import opened Speech

  const Customer := "customer"
  const Agent := "agent"

  const Listening := "listening"
  const StoppedListening := "stopped_listening"

  datatype Payload =
    | NoPayload
    | SidePayload(side: string)
    | OriginalOnly(original: string)
    | LiveTranslation(original: string, translated: string, audio: Option<Base64Text>, target: string)
    | FileTranslation(original: string, translated: string, audioUrl: string)

  datatype Event = Event(name: string, payload: Payload)

  /** The event on which a side sees its own words transcribed. */
  function ShowOriginal(side: string): string {
    "show_" + side + "_original"
  }

  /** The event on which a side receives the other side's translated words. */
  function SendTranslated(side: string): string {
    "send_to_" + side + "_translated"
  }

  /** The other party of the two-party conversation; every non-customer value counts as the agent. */
  function Counterpart(side: string): (c: string)
    ensures c == Agent <==> side == Customer
    ensures c == Customer || c == Agent
    ensures c != side
  {
    if side == Customer then Agent else Customer
  }

  /**
   * The relay shape shared by the live and the file paths: first the speaker
   * sees only the original text, then the counterpart receives `delivered`.
   */
  predicate Relayed(emits: seq<Event>, speaker: string, original: string, delivered: Payload) {
    emits == [Event(ShowOriginal(speaker), OriginalOnly(original)), Event(SendTranslated(Counterpart(speaker)), delivered)]
  }

  /** The four relay channel names as the clients know them. */
  lemma ChannelNames()
    ensures ShowOriginal(Customer) == "show_customer_original"
    ensures ShowOriginal(Agent) == "show_agent_original"
    ensures SendTranslated(Customer) == "send_to_customer_translated"
    ensures SendTranslated(Agent) == "send_to_agent_translated"
  {
  }

  /** Occurrences of events called `name`. */
  function CountNamed(emits: seq<Event>, name: string): (n: nat)
    ensures n <= |emits|
  {
    if emits == [] then 0
    else CountNamed(emits[..|emits| - 1], name) + (if emits[|emits| - 1].name == name then 1 else 0)
  }

  lemma {:induction false} CountNamedAppend(a: seq<Event>, b: seq<Event>, name: string)
    ensures CountNamed(a + b, name) == CountNamed(a, name) + CountNamed(b, name)
    decreases |b|
  {
    if b == [] {
      assert a + b == a;
    } else {
      assert (a + b)[..|a + b| - 1] == a + b[..|b| - 1];
      CountNamedAppend(a, b[..|b| - 1], name);
    }
  }

  /** Delivery channel names are injective in the side they name. */
  lemma SendTranslatedInjective(a: string, b: string)
    requires SendTranslated(a) == SendTranslated(b)
    ensures a == b
  {
    var sa, sb := SendTranslated(a), SendTranslated(b);
    assert |a| == |b|;
    forall i | 0 <= i < |a|
      ensures a[i] == b[i]
    {
      assert a[i] == sa[8 + i] == sb[8 + i] == b[i];
    }
  }

  /** A translation is never delivered on the speaker's own delivery channel. */
  lemma DeliveryNeverEchoes(side: string)
    ensures SendTranslated(Counterpart(side)) != SendTranslated(side)
  {
    if SendTranslated(Counterpart(side)) == SendTranslated(side) {
      SendTranslatedInjective(Counterpart(side), side);
    }
  }

  /** Relay events never carry the session notifications' names. */
  lemma RelayNamesAreNotSessionNames(side: string)
    ensures ShowOriginal(side) != Listening && ShowOriginal(side) != StoppedListening
    ensures SendTranslated(side) != Listening && SendTranslated(side) != StoppedListening
  {
    assert ShowOriginal(side)[1] == 'h';
    assert SendTranslated(side)[1] == 'e';
  }
}
