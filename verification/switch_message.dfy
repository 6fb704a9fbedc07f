/**
 * The RFLink power-switch message: decoding a split key/value frame into an
 * on/off command, an open/closed contact derived from it and a device id
 * extended by the SWITCH sub-address; projecting that state onto channels;
 * and building an outbound message from a channel command.
 *
 * The base message (frame splitting, the base device id, the wire
 * serializer) and the type conversion utilities are not part of this model:
 * they enter as parameters.
 */
module SwitchMessages {
  import opened Wrappers
  import opened Types

  const KeySwitch := "SWITCH"
  const KeyCmd := "CMD"

  /** Separator the base message places between identity fields. */
  const IdDelimiter := "-"

  /** Channel names of the switch thing type. */
  const ChannelCommand := "command"
  const ChannelContact := "contact"

  /** The fields of a switch message; a `None` contact is Java's null. */
  datatype SwitchState = SwitchState(deviceId: string, command: TypeValue, contact: Option<TypeValue>)

  /** A freshly constructed message: OFF and CLOSED. */
  function Fresh(deviceId: string): (s: SwitchState)
    ensures s.deviceId == deviceId
    ensures s.command == OnOffType(OFF) && s.contact == Some(OpenClosedType(CLOSED))
  {
    SwitchState(deviceId, OnOffType(OFF), Some(OpenClosedType(CLOSED)))
  }

  /** The keys the switch message declares, in frame order. */
  function Keys(): (r: seq<string>)
    ensures |r| == 2 && r[0] == KeySwitch && r[1] == KeyCmd
  {
    [KeySwitch, KeyCmd]
  }

  /** The contact field set from the outcome of the open/closed synonym lookup. */
  function ContactFrom(synonym: Option<OpenClosed>): (c: Option<TypeValue>)
    ensures c.Some? <==> synonym.Some?
    ensures c.Some? ==> c.value == OpenClosedType(synonym.value)
  {
    match synonym
    case Some(oc) => Some(OpenClosedType(oc))
    case None => None
  }

  /**
   * The message state after decoding `frame`, whose base part has already set
   * the device id to `baseId`; `prior` holds the command and contact the
   * message had before. `toType` is the string-to-type conversion (None: it
   * threw) and `synonym` the open/closed synonym lookup (None: absent or threw).
   */
  function Decode(frame: map<string, string>, baseId: string, prior: SwitchState,
                  toType: string -> Option<TypeValue>, synonym: TypeValue -> Option<OpenClosed>): (r: SwitchState)
    // Without CMD the command and contact keep their values.
    ensures KeyCmd !in frame ==> r.command == prior.command && r.contact == prior.contact
    // A convertible CMD sets the command; an unconvertible one leaves it alone.
    ensures KeyCmd in frame && toType(frame[KeyCmd]).Some? ==> r.command == toType(frame[KeyCmd]).value
    ensures KeyCmd in frame && toType(frame[KeyCmd]).None? ==> r.command == prior.command
    // With CMD the contact is the synonym of the resulting command, null when there is none.
    ensures KeyCmd in frame ==> r.contact == ContactFrom(synonym(r.command))
    // SWITCH extends the base id; otherwise the base id stands.
    ensures KeySwitch in frame ==> r.deviceId == baseId + IdDelimiter + frame[KeySwitch]
    ensures KeySwitch !in frame ==> r.deviceId == baseId
  {
    var command :=
      if KeyCmd in frame && toType(frame[KeyCmd]).Some? then toType(frame[KeyCmd]).value
      else prior.command;
    var contact := if KeyCmd in frame then ContactFrom(synonym(command)) else prior.contact;
    var id := if KeySwitch in frame then baseId + IdDelimiter + frame[KeySwitch] else baseId;
    SwitchState(id, command, contact)
  }

  /** The frame restricted to the keys the message declares. */
  function DeclaredPart(frame: map<string, string>): (d: map<string, string>)
    ensures d.Keys == frame.Keys * {KeySwitch, KeyCmd}
    ensures forall k :: k in d ==> d[k] == frame[k]
  {
    map k | k in frame && k in Keys() :: frame[k]
  }

  /** Decoding reads only the declared keys: any other field of the frame is ignored. */
  lemma DecodeReadsOnlyDeclaredKeys(frame: map<string, string>, baseId: string, prior: SwitchState,
                                    toType: string -> Option<TypeValue>, synonym: TypeValue -> Option<OpenClosed>)
    ensures Decode(frame, baseId, prior, toType, synonym) == Decode(DeclaredPart(frame), baseId, prior, toType, synonym)
  {
  }

  /**
   * Identity stability: for one base id, two frames give the same device id
   * exactly when they agree on SWITCH (both lack it, or both carry the same
   * value), whatever their CMD and whatever the prior state.
   */
  lemma DeviceIdDeterminedBySwitch(f1: map<string, string>, f2: map<string, string>, baseId: string,
                                   p1: SwitchState, p2: SwitchState,
                                   toType: string -> Option<TypeValue>, synonym: TypeValue -> Option<OpenClosed>)
    ensures Decode(f1, baseId, p1, toType, synonym).deviceId == Decode(f2, baseId, p2, toType, synonym).deviceId
        <==> (KeySwitch in f1 <==> KeySwitch in f2) && (KeySwitch in f1 && KeySwitch in f2 ==> f1[KeySwitch] == f2[KeySwitch])
  {
    var id1 := Decode(f1, baseId, p1, toType, synonym).deviceId;
    var id2 := Decode(f2, baseId, p2, toType, synonym).deviceId;
    var n := |baseId| + |IdDelimiter|;
    if KeySwitch in f1 && KeySwitch in f2 && id1 == id2 {
      assert id1[n..] == f1[KeySwitch];
      assert id2[n..] == f2[KeySwitch];
    }
    if KeySwitch in f1 && KeySwitch !in f2 {
      assert |id1| > |id2|;
    }
    if KeySwitch !in f1 && KeySwitch in f2 {
      assert |id1| < |id2|;
    }
  }

  /**
   * The channel states of a message: exactly the command and contact
   * channels, carrying the command and the (possibly null) contact.
   */
  function States(s: SwitchState): (m: map<string, Option<TypeValue>>)
    ensures m.Keys == {ChannelCommand, ChannelContact}
    ensures m[ChannelCommand] == Some(s.command)
    ensures m[ChannelContact] == s.contact
  {
    map[ChannelCommand := Some(s.command), ChannelContact := s.contact]
  }

  /**
   * The wire text of a message: the base serializer `serialize` is given the
   * command's full string in place of the suffix the caller passed.
   */
  function DecodeMessageAsString(s: SwitchState, suffix: string, serialize: (SwitchState, string) -> string): (r: string)
    ensures r == serialize(s, FullString(s.command))
  {
    serialize(s, FullString(s.command))
  }

  /** The suffix argument has no influence on the wire text. */
  lemma SuffixIgnored(s: SwitchState, suffix1: string, suffix2: string, serialize: (SwitchState, string) -> string)
    ensures DecodeMessageAsString(s, suffix1, serialize) == DecodeMessageAsString(s, suffix2, serialize)
  {
  }

  /**
   * For the state a successful channel initialisation leaves (its command the
   * on/off constant named by the triggering command), the serializer receives
   * exactly the text of the triggering command, whatever the suffix.
   */
  lemma SerializesTriggeringCommand(c: Command, s: SwitchState, suffix: string, serialize: (SwitchState, string) -> string)
    requires OnOffValueOf(CommandFullString(c)).Some?
    requires s.command == OnOffType(OnOffValueOf(CommandFullString(c)).value)
    ensures DecodeMessageAsString(s, suffix, serialize) == serialize(s, CommandFullString(c))
  {
  }

  /**
   * Outbound then inbound: the CMD text written for a message initialised
   * from channel command `c` is the text of `c`, and a frame carrying it
   * decodes back to the command the message held, provided the conversion
   * utility maps the name of each on/off constant to that constant.
   */
  lemma CommandRoundTrip(c: Command, s: SwitchState, frame: map<string, string>, baseId: string, prior: SwitchState,
                         toType: string -> Option<TypeValue>, synonym: TypeValue -> Option<OpenClosed>)
    requires OnOffValueOf(CommandFullString(c)).Some?
    requires s.command == OnOffType(OnOffValueOf(CommandFullString(c)).value)
    requires forall o: OnOff :: toType(OnOffName(o)) == Some(OnOffType(o))
    requires KeyCmd in frame && frame[KeyCmd] == FullString(s.command)
    ensures frame[KeyCmd] == CommandFullString(c)
    ensures Decode(frame, baseId, prior, toType, synonym).command == s.command
    ensures Decode(frame, baseId, prior, toType, synonym).contact == ContactFrom(synonym(s.command))
  {
  }

  /** A switch message object, whose fields decoding and channel initialisation update in place. */
  class SwitchMessage {
    /** The split frame the base message keeps. */
    var values: map<string, string>
    var deviceId: string
    var command: TypeValue
    var contact: Option<TypeValue>

    function Snapshot(): SwitchState
      reads this
    {
      SwitchState(deviceId, command, contact)
    }

    /** The no-argument constructor: command OFF, contact CLOSED. */
    constructor ()
      ensures Snapshot() == Fresh("") && values == map[]
    {
      values := map[];
      deviceId := "";
      command := OnOffType(OFF);
      contact := Some(OpenClosedType(CLOSED));
    }

    /** The constructor that decodes a frame straight away. */
    constructor FromFrame(frame: map<string, string>, baseId: string,
                          toType: string -> Option<TypeValue>, synonym: TypeValue -> Option<OpenClosed>)
      ensures values == frame
      ensures Snapshot() == Decode(frame, baseId, Fresh(""), toType, synonym)
      ensures KeyCmd !in frame ==> command == OnOffType(OFF) && contact == Some(OpenClosedType(CLOSED))
      ensures KeyCmd in frame && toType(frame[KeyCmd]).None? ==> command == OnOffType(OFF)
    {
      values := map[];
      deviceId := "";
      command := OnOffType(OFF);
      contact := Some(OpenClosedType(CLOSED));
      new;
      EncodeMessage(frame, baseId, toType, synonym);
    }

    /**
     * Decodes `frame` into this message; the base part has set `values` and
     * the base device id `baseId`.
     */
    method EncodeMessage(frame: map<string, string>, baseId: string,
                         toType: string -> Option<TypeValue>, synonym: TypeValue -> Option<OpenClosed>)
      modifies this
      ensures values == frame
      ensures Snapshot() == Decode(frame, baseId, old(Snapshot()), toType, synonym)
    {
      values := frame;
      deviceId := baseId;
      if KeyCmd in values {
        var converted := toType(values[KeyCmd]);
        if converted.Some? {
          command := converted.value;
        }
        contact := ContactFrom(synonym(command));
      }
      if KeySwitch in values {
        deviceId := deviceId + IdDelimiter + values[KeySwitch];
      }
    }

    /**
     * Sets the command from a channel command: the on/off constant named by
     * the command's full string. Any other name raises IllegalArgument and
     * leaves the message as it was.
     */
    method InitializeFromChannel(triggered: Command) returns (raised: Option<Failure>)
      modifies this`command
      ensures raised.None? <==> OnOffValueOf(CommandFullString(triggered)).Some?
      ensures raised.Some? ==> raised.value == IllegalArgument && command == old(command)
      ensures raised.None? ==> command == OnOffType(OnOffValueOf(CommandFullString(triggered)).value)
      ensures triggered.ValueCommand? && triggered.value.OnOffType? ==> raised.None? && command == triggered.value
    {
      var named := OnOffValueOf(CommandFullString(triggered));
      if named.None? {
        raised := Some(IllegalArgument);
      } else {
        command := OnOffType(named.value);
        raised := None;
      }
    }
  }
}
