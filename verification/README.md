# RFLink switch message and device handler

A Dafny model of two pieces of the openHAB RFLink binding, which connects a
433 MHz RFLink transceiver to openHAB things:

- **The power-switch message** (`RfLinkSwitchMessage`, module `SwitchMessages`).
  It decodes an already split key/value frame into an on/off `command`, an
  open/closed `contact` derived from it as a synonym, and a device id made by
  appending the `SWITCH` sub-address to the base id. It projects that state onto
  the `command` and `contact` channels and builds outbound state from a channel
  command. Decoding is specified by the function `Decode`. The class
  `SwitchMessage` updates its fields in place. Its decoding members
  (`EncodeMessage` and the `FromFrame` constructor) are proved against
  `Decode`. `InitializeFromChannel` is specified through `OnOffValueOf`, the
  on/off constant lookup by name.
- **The device handler** (`RfLinkHandler`, module `Handler`). It clamps the
  configured repeat count to [1, 20]. Its send loop pauses before every repeat
  except the first. It matches inbound messages against the configured device
  id by exact string equality. It sets the thing status from the device id,
  the bridge handler and the bridge status, and it registers with the bridge
  and unregisters on disposal. Framework side effects are recorded as events on
  a ghost `trace`: status updates, channel state updates, calls to the
  bridge's `sendMessage`, pauses, and listener registration. The send loop's
  effect is specified by `SendSchedule`, and the lemmas about that function
  give its shape and its counts.

The base message class (frame splitting, the base device id, the wire
serializer) and the type conversion utilities are not part of this model.
They enter as parameters:
- `toType` stands for the string-to-type conversion. `None` means it threw.
- `synonym` stands for the open/closed synonym lookup. `None` means it
  returned null or threw; in both cases the contact becomes null.
- `serialize` stands for the base serializer.

Java's null is `Option.None`. Unchecked exceptions that escape the handler
are returned as `raised`:
- `IllegalArgumentException`, from `OnOffType.valueOf` on a name other than ON
  or OFF;
- `NullPointerException`, when a message arrives while the configuration or
  its device id is missing.

Three facts about the handler's source shape the model:
- A transmission error raised by a send ends the send loop. It is caught
  outside the loop (RfLinkHandler.java:73-81), so the remaining repeats are
  abandoned.
- `initializeBridge` has four status outcomes (RfLinkHandler.java:116-129):
  OFFLINE/CONFIGURATION_ERROR, ONLINE, OFFLINE/BRIDGE_OFFLINE, and a plain
  OFFLINE when the bridge handler or the bridge status is unknown.
- A call to `initializeBridge` without a bridge handler keeps the previously
  registered bridge handler.

## Model

| member | source | states |
|---|---|---|
| `Types.OnOffValueOf` | src/main/java/org/openhab/binding/rflink/messages/RfLinkSwitchMessage.java:111 | the on/off constant is found exactly when the name is that constant's name ("ON" or "OFF"); every other name fails |
| `SwitchMessages.Fresh` | src/main/java/org/openhab/binding/rflink/messages/RfLinkSwitchMessage.java:45-46 | a fresh message keeps the given device id and has command OFF and contact CLOSED |
| `SwitchMessages.Keys` | src/main/java/org/openhab/binding/rflink/messages/RfLinkSwitchMessage.java:95-97 | the declared keys are exactly SWITCH then CMD |
| `SwitchMessages.ContactFrom` | src/main/java/org/openhab/binding/rflink/messages/RfLinkSwitchMessage.java:78-85 | the contact is present exactly when the synonym lookup gave a value, and it is then that open/closed value; otherwise it is null |
| `SwitchMessages.Decode` | src/main/java/org/openhab/binding/rflink/messages/RfLinkSwitchMessage.java:72-91 | without CMD, command and contact keep their prior values; a convertible CMD sets the command and an unconvertible one keeps the prior command; with CMD the contact is the synonym of the resulting command; with SWITCH the id is base id + delimiter + the SWITCH value, and without it the base id is unchanged |
| `SwitchMessages.DeclaredPart` | src/main/java/org/openhab/binding/rflink/messages/RfLinkSwitchMessage.java:42 | the frame restricted to the declared keys has exactly the frame's keys among SWITCH and CMD, each with the frame's value |
| `SwitchMessages.DecodeReadsOnlyDeclaredKeys` | src/main/java/org/openhab/binding/rflink/messages/RfLinkSwitchMessage.java:72-91 | decoding a frame gives the same result as decoding only its declared keys, so undeclared fields are ignored |
| `SwitchMessages.DeviceIdDeterminedBySwitch` | src/main/java/org/openhab/binding/rflink/messages/RfLinkSwitchMessage.java:89-91 | for one base id, two frames give equal device ids if and only if both lack SWITCH or both have the same SWITCH value, whatever their CMD and prior state |
| `SwitchMessages.CommandRoundTrip` | src/main/java/org/openhab/binding/rflink/messages/RfLinkSwitchMessage.java:72-117 | for a message initialised from channel command c, the CMD text written is the text of c; a frame carrying that text decodes back to the message's command, with that command's synonym as the contact, provided the conversion maps each on/off name to its constant |
| `SwitchMessages.States` | src/main/java/org/openhab/binding/rflink/messages/RfLinkSwitchMessage.java:100-105 | the state map has exactly the command and contact channels; they carry the command and the possibly null contact |
| `SwitchMessages.SerializesTriggeringCommand` | src/main/java/org/openhab/binding/rflink/messages/RfLinkSwitchMessage.java:111-117 | after a successful channel initialisation, the base serializer receives exactly the text of the triggering command, whatever suffix the caller passed |
| `SwitchMessages.SuffixIgnored` | src/main/java/org/openhab/binding/rflink/messages/RfLinkSwitchMessage.java:115-117 | two different suffixes give the same wire text |
| `SwitchMessages.SwitchMessage.constructor` | src/main/java/org/openhab/binding/rflink/messages/RfLinkSwitchMessage.java:45-49 | a new message has command OFF and contact CLOSED |
| `SwitchMessages.SwitchMessage.FromFrame` | src/main/java/org/openhab/binding/rflink/messages/RfLinkSwitchMessage.java:51-53 | the message is the frame decoded over the defaults; without CMD, or with an unconvertible CMD, the command stays OFF, and without CMD the contact also stays CLOSED |
| `SwitchMessages.SwitchMessage.EncodeMessage` | src/main/java/org/openhab/binding/rflink/messages/RfLinkSwitchMessage.java:69-92 | the fields after the step-by-step update equal `Decode` of the frame over the message's previous state, and `values` is the frame |
| `SwitchMessages.SwitchMessage.InitializeFromChannel` | src/main/java/org/openhab/binding/rflink/messages/RfLinkSwitchMessage.java:108-112 | succeeds exactly when the command's full string names ON or OFF, and then sets the command to that constant; an on/off command is kept as it is; any other name raises IllegalArgument and leaves the command unchanged |
| `Handler.EffectiveRepeats` | src/main/java/org/openhab/binding/rflink/handler/RfLinkHandler.java:68-72 | the repeat count always lies in [1, 20]; it is 1 without a setting, the setting itself when that is in range, 1 below the range and 20 above it |
| `Handler.EffectiveRepeatsIdempotent` | src/main/java/org/openhab/binding/rflink/handler/RfLinkHandler.java:72 | clamping an already effective count leaves it unchanged |
| `Handler.Attempts` | src/main/java/org/openhab/binding/rflink/handler/RfLinkHandler.java:73-80 | there are between 1 and `repeats` send calls; all `repeats` are made when no send fails, and the loop stops right after the failing send when one does |
| `Handler.SendSchedule` | src/main/java/org/openhab/binding/rflink/handler/RfLinkHandler.java:73-94 | the events of n loop iterations: none for n = 0, otherwise 2n-1 events that begin and end with a send |
| `Handler.ScheduleAlternates` | src/main/java/org/openhab/binding/rflink/handler/RfLinkHandler.java:73-94 | n iterations produce 2n-1 events (none for n = 0), with sends at even positions and 50 ms pauses at odd ones: the first event is a send, no pause comes before it, and every pause is followed by a send |
| `Handler.ScheduleCounts` | src/main/java/org/openhab/binding/rflink/handler/RfLinkHandler.java:73-76 | n iterations make exactly n send calls and n-1 pauses (none for n = 0) |
| `Handler.Publications` | src/main/java/org/openhab/binding/rflink/handler/RfLinkHandler.java:164-170 | one state update per listed channel, in order, each carrying that channel's state |
| `Handler.BridgeStatusInfo` | src/main/java/org/openhab/binding/rflink/handler/RfLinkHandler.java:116-129 | ONLINE if and only if the device id is configured, the handler and status are known and the bridge is ONLINE; otherwise OFFLINE; CONFIGURATION_ERROR (with a description) if and only if the device id is missing; BRIDGE_OFFLINE if and only if the device id is configured, the handler and status are known and the bridge is not ONLINE |
| `Handler.RegistrationOutcome` | src/main/java/org/openhab/binding/rflink/handler/RfLinkHandler.java:116-129 | the listener is registered (device id configured, handler and status known) if and only if the status set is ONLINE or OFFLINE/BRIDGE_OFFLINE |
| `Handler.MissingDeviceIdIgnoresBridge` | src/main/java/org/openhab/binding/rflink/handler/RfLinkHandler.java:116-117 | a missing device id gives OFFLINE/CONFIGURATION_ERROR whatever the bridge handler and bridge status |
| `Handler.RfLinkHandler.constructor` | src/main/java/org/openhab/binding/rflink/handler/RfLinkHandler.java:51-53 | a new handler has no bridge handler, no configuration and an empty trace |
| `Handler.RfLinkHandler.UpdateThingStates` | src/main/java/org/openhab/binding/rflink/handler/RfLinkHandler.java:164-170 | every channel of the state map is published exactly once, with its state, in some order |
| `Handler.RfLinkHandler.WaitBeforeCommandExecution` | src/main/java/org/openhab/binding/rflink/handler/RfLinkHandler.java:86-94 | pauses exactly when the iteration index is positive |
| `Handler.RfLinkHandler.SendRepeatedly` | src/main/java/org/openhab/binding/rflink/handler/RfLinkHandler.java:73-80 | the loop appends exactly `SendSchedule(Attempts(repeats, failAt))` to the trace |
| `Handler.RfLinkHandler.HandleCommand` | src/main/java/org/openhab/binding/rflink/handler/RfLinkHandler.java:56-84 | nothing happens when there is no bridge, for a refresh command, or for an unsupported thing type; a command name other than ON/OFF raises IllegalArgument before anything is published or sent; otherwise the message's states are published once (command ON or OFF as named, contact the untouched default CLOSED), and then the send schedule for the effective repeat count runs, stopping after a failing send |
| `Handler.RfLinkHandler.InitializeBridge` | src/main/java/org/openhab/binding/rflink/handler/RfLinkHandler.java:112-132 | the configuration is re-read and the status becomes `BridgeStatusInfo`; the listener is registered and the bridge handler kept exactly when the device id is configured and the handler and status are known; otherwise the previous bridge handler stays |
| `Handler.RfLinkHandler.Initialize` | src/main/java/org/openhab/binding/rflink/handler/RfLinkHandler.java:99-104 | without a bridge both handler and status count as unknown; the status, the bridge handler and the trace are those of `initializeBridge` with the bridge's handler and status, or with both null |
| `Handler.RfLinkHandler.BridgeStatusChanged` | src/main/java/org/openhab/binding/rflink/handler/RfLinkHandler.java:107-110 | the new bridge status is always known and the handler only when there is a bridge; the status, the bridge handler and the trace are those of `initializeBridge` with them |
| `Handler.RfLinkHandler.Dispose` | src/main/java/org/openhab/binding/rflink/handler/RfLinkHandler.java:135-142 | unregisters from the bridge exactly when a bridge handler was held, and always leaves no bridge handler |
| `Handler.RfLinkHandler.OnDeviceMessageReceived` | src/main/java/org/openhab/binding/rflink/handler/RfLinkHandler.java:145-162 | when the configured device id equals the message's id, the status becomes ONLINE and the message's states are published once each; on a mismatch, status and trace are unchanged; a missing configuration or device id raises NullPointer and changes nothing |

## Left out

- Logging, `toString` and `getThingType`: they have no observable effect on state.
- Real timing: `Thread.sleep(TIME_BETWEEN_COMMANDS)` and its `InterruptedException`. Each pause is a `Delayed` event carrying its 50 ms length.
- `RfLinkBaseMessage` is not part of this model: frame parsing, the base device id, the `ID_DELIMITER` constant, the base `initializeFromChannel` and the serializer. The frame and base id are inputs, the serializer is a parameter, and the delimiter is taken as "-". The identity lemma needs only a non-empty delimiter.
- `RfLinkTypeUtils` is not part of this model. `getTypeFromStringValue` and `getSynonym` are parameters.
- `RfLinkBindingConstants` is not part of this model. The channel names are taken as "command" and "contact"; only their distinctness matters.
- SwitchMessages.SwitchMessage.constructor: the base class's initial `deviceId` and `values` are modelled as "" and an empty map, because the base class is not shown.
- SwitchMessages.SwitchMessage.InitializeFromChannel: the base class's part (configuration and channel UID) is not modelled. Only the command is set.
- Handler.RfLinkHandler.HandleCommand: `RfLinkMessageFactory` dispatch by thing type is reduced to `factorySupports`. A false value stands for the caught not-implemented error, and nothing is sent. The message built is always the switch message. The channel UID argument is not modelled, because the switch message uses it only through the base class.
- Handler.RfLinkHandler.HandleCommand: the `repeats` setting is taken as an integer. `BigDecimal.intValue()` truncation is not modelled.
- Handler.RfLinkHandler.HandleCommand: the bridge's `sendMessage` is reduced to a `SendCalled` event. A transmission error is injected as `failAt`, the index of the send that raises. The raising call is still recorded.
- Handler.RfLinkHandler.OnDeviceMessageReceived: the handler accepts any message type in the source, but only the switch message is modelled here. A transmission error raised while reading the message's id or states is not modelled, because those base-class methods are not shown.
- Framework internals are not modelled: the `updateStatus`/`updateState` bookkeeping, `ChannelUID` construction, `getConfigAs`, `super.dispose()` and the bridge's listener registry. They appear only as trace events and parameters. The initial thing status is taken as UNINITIALIZED.
- A `ClassCastException` in `getStates` is not modelled. It would arise for a converted command that is not a framework state.
- Concurrency between device sessions that share the bridge.
