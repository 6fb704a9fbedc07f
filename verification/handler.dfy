/**
 * The RFLink device handler: the link between one configured device and the
 * bridge. It sends channel commands to the bridge with a clamped repeat
 * count and a pause between repeats, matches inbound messages to its device
 * id, and tracks the thing status as the bridge comes and goes.
 *
 * The framework side effects (status and state updates, sends, pauses,
 * listener registration) are recorded as events on a ghost trace.
 */
module Handler {
  import opened Wrappers
  import opened Types
  import opened SwitchMessages

  /** Pause between two repeats of one command, in milliseconds. */
  const TimeBetweenCommands := 50
  const MinRepeats := 1
  const MaxRepeats := 20

  datatype ThingStatus = UNINITIALIZED | INITIALIZING | UNKNOWN | ONLINE | OFFLINE | REMOVING | REMOVED
  datatype ThingStatusDetail = NONE | CONFIGURATION_ERROR | BRIDGE_OFFLINE
  datatype StatusInfo = StatusInfo(status: ThingStatus, detail: ThingStatusDetail, description: Option<string>)

  /** The bridge handler a device handler registers with. */
  datatype BridgeRef = BridgeRef(uid: string)

  /** What the framework knows of the bridge thing: its handler (possibly null) and its status. */
  datatype Bridge = Bridge(handler: Option<BridgeRef>, status: ThingStatus)

  /** The device configuration; a `None` device id is a missing one. */
  datatype DeviceConfig = DeviceConfig(deviceId: Option<string>)

  /** Observable effects of the handler. */
  datatype Event =
    | StatusUpdated(info: StatusInfo)
    | StateUpdated(channel: string, state: Option<TypeValue>)
    | SendCalled(message: SwitchState)
    | Delayed(millis: nat)
    | ListenerRegistered(bridge: BridgeRef)
    | ListenerUnregistered(bridge: BridgeRef)

  const MissingDeviceId := "RFLink device missing deviceId"

  /**
   * The number of times a command is sent: the configured `repeats` (1 when
   * the key is absent) clamped to [1, 20].
   */
  function EffectiveRepeats(setting: Option<int>): (r: int)
    ensures MinRepeats <= r <= MaxRepeats
    ensures setting.None? ==> r == 1
    ensures setting.Some? && MinRepeats <= setting.value <= MaxRepeats ==> r == setting.value
    ensures setting.Some? && setting.value < MinRepeats ==> r == MinRepeats
    ensures setting.Some? && setting.value > MaxRepeats ==> r == MaxRepeats
  {
    var repeats := if setting.Some? then setting.value else 1;
    var atLeastOne := if repeats < MinRepeats then MinRepeats else repeats;
    if atLeastOne > MaxRepeats then MaxRepeats else atLeastOne
  }

  /** Clamping a setting that is already effective changes nothing. */
  lemma EffectiveRepeatsIdempotent(setting: Option<int>)
    ensures EffectiveRepeats(Some(EffectiveRepeats(setting))) == EffectiveRepeats(setting)
  {
  }

  /**
   * The number of send calls made when the send with index `failAt` (if any)
   * raises a transmission error: the loop stops right after it.
   */
  function Attempts(repeats: int, failAt: Option<nat>): (r: nat)
    requires repeats >= 1
    ensures 1 <= r <= repeats
    ensures failAt.None? || failAt.value >= repeats ==> r == repeats
    ensures failAt.Some? && failAt.value < repeats ==> r == failAt.value + 1
  {
    if failAt.Some? && failAt.value < repeats then failAt.value + 1 else repeats
  }

  /** The effects of `n` iterations of the send loop for message `m`. */
  function SendSchedule(n: nat, m: SwitchState): (r: seq<Event>)
    ensures n == 0 ==> r == []
    ensures n > 0 ==> |r| == 2 * n - 1 && r[0] == SendCalled(m) && r[|r| - 1] == SendCalled(m)
  {
    if n == 0 then []
    else SendSchedule(n - 1, m) + (if n - 1 > 0 then [Delayed(TimeBetweenCommands)] else []) + [SendCalled(m)]
  }

  /**
   * The send loop alternates: a send first, then a pause and a send for each
   * further repeat, so no pause comes before the first send and every pause
   * is followed by a send.
   */
  lemma {:induction false} ScheduleAlternates(n: nat, m: SwitchState)
    ensures n == 0 ==> SendSchedule(n, m) == []
    ensures n > 0 ==> |SendSchedule(n, m)| == 2 * n - 1
    ensures forall j :: 0 <= j < |SendSchedule(n, m)| ==>
              SendSchedule(n, m)[j] == if j % 2 == 0 then SendCalled(m) else Delayed(TimeBetweenCommands)
  {
    if n > 1 {
      ScheduleAlternates(n - 1, m);
    }
  }

  /** `n` iterations make exactly `n` send calls and `n - 1` pauses. */
  lemma {:induction false} ScheduleCounts(n: nat, m: SwitchState)
    ensures multiset(SendSchedule(n, m))[SendCalled(m)] == n
    ensures multiset(SendSchedule(n, m))[Delayed(TimeBetweenCommands)] == if n == 0 then 0 else n - 1
  {
    if n > 0 {
      ScheduleCounts(n - 1, m);
      var prev := SendSchedule(n - 1, m);
      var pause: seq<Event> := if n - 1 > 0 then [Delayed(TimeBetweenCommands)] else [];
      assert SendSchedule(n, m) == prev + pause + [SendCalled(m)];
      assert multiset(SendSchedule(n, m)) == multiset(prev) + multiset(pause) + multiset{SendCalled(m)};
    }
  }

  /** The state updates for the channels in `order`, one per channel. */
  function Publications(order: seq<string>, states: map<string, Option<TypeValue>>): (r: seq<Event>)
    requires forall i :: 0 <= i < |order| ==> order[i] in states
    ensures |r| == |order|
    ensures forall i :: 0 <= i < |order| ==> r[i] == StateUpdated(order[i], states[order[i]])
  {
    if order == [] then []
    else Publications(order[..|order| - 1], states) + [StateUpdated(order[|order| - 1], states[order[|order| - 1]])]
  }

  /** Publishing one more channel appends its one state update. */
  lemma PublicationsSnoc(order: seq<string>, channel: string, states: map<string, Option<TypeValue>>)
    requires forall i :: 0 <= i < |order| ==> order[i] in states
    requires channel in states
    ensures Publications(order + [channel], states) == Publications(order, states) + [StateUpdated(channel, states[channel])]
  {
    assert (order + [channel])[..|order|] == order;
  }

  /** `order` lists every channel of `states` exactly once. */
  ghost predicate Enumerates(order: seq<string>, states: map<string, Option<TypeValue>>)
  {
    && (forall i, j :: 0 <= i < j < |order| ==> order[i] != order[j])
    && (forall c :: c in order <==> c in states)
  }

  /** `getBridge().getHandler()`, null when there is no bridge. */
  function BridgeHandlerOf(bridge: Option<Bridge>): Option<BridgeRef>
  {
    if bridge.Some? then bridge.value.handler else None
  }

  /** `getBridge().getStatus()`, null when there is no bridge. */
  function BridgeStatusOf(bridge: Option<Bridge>): Option<ThingStatus>
  {
    if bridge.Some? then Some(bridge.value.status) else None
  }

  /** Registration happens when the device id is configured and both bridge handler and bridge status are known. */
  predicate Registers(config: DeviceConfig, thingHandler: Option<BridgeRef>, bridgeStatus: Option<ThingStatus>)
  {
    config.deviceId.Some? && thingHandler.Some? && bridgeStatus.Some?
  }

  /**
   * The status `initializeBridge` sets. ONLINE only with a device id, a
   * bridge handler and an ONLINE bridge; a configuration error exactly when
   * the device id is missing; bridge-offline exactly when the bridge is known
   * but not ONLINE; plain OFFLINE otherwise.
   */
  function BridgeStatusInfo(config: DeviceConfig, thingHandler: Option<BridgeRef>, bridgeStatus: Option<ThingStatus>): (r: StatusInfo)
    ensures r.status == ONLINE <==> Registers(config, thingHandler, bridgeStatus) && bridgeStatus.value == ONLINE
    ensures r.status != ONLINE ==> r.status == OFFLINE
    ensures r.detail == CONFIGURATION_ERROR <==> config.deviceId.None?
    ensures r.detail == BRIDGE_OFFLINE <==> Registers(config, thingHandler, bridgeStatus) && bridgeStatus.value != ONLINE
    ensures r.description.Some? <==> config.deviceId.None?
  {
    if config.deviceId.None? then StatusInfo(OFFLINE, CONFIGURATION_ERROR, Some(MissingDeviceId))
    else if thingHandler.Some? && bridgeStatus.Some? then
      (if bridgeStatus.value == ONLINE then StatusInfo(ONLINE, NONE, None) else StatusInfo(OFFLINE, BRIDGE_OFFLINE, None))
    else StatusInfo(OFFLINE, NONE, None)
  }

  /**
   * The handler registers with the bridge exactly when the status it sets is
   * ONLINE or OFFLINE/BRIDGE_OFFLINE; the configuration error and plain
   * OFFLINE outcomes never register.
   */
  lemma RegistrationOutcome(config: DeviceConfig, thingHandler: Option<BridgeRef>, bridgeStatus: Option<ThingStatus>)
    ensures Registers(config, thingHandler, bridgeStatus)
        <==> BridgeStatusInfo(config, thingHandler, bridgeStatus).status == ONLINE
             || BridgeStatusInfo(config, thingHandler, bridgeStatus).detail == BRIDGE_OFFLINE
  {
  }

  /** A missing device id gives a configuration error whatever the bridge. */
  lemma MissingDeviceIdIgnoresBridge(h1: Option<BridgeRef>, s1: Option<ThingStatus>, h2: Option<BridgeRef>, s2: Option<ThingStatus>)
    ensures BridgeStatusInfo(DeviceConfig(None), h1, s1) == BridgeStatusInfo(DeviceConfig(None), h2, s2)
    ensures BridgeStatusInfo(DeviceConfig(None), h1, s1) == StatusInfo(OFFLINE, CONFIGURATION_ERROR, Some(MissingDeviceId))
  {
  }

  class RfLinkHandler {
    var bridgeHandler: Option<BridgeRef>
    var config: Option<DeviceConfig>
    /** The thing status last set through the framework. */
    var status: StatusInfo
    ghost var trace: seq<Event>

    constructor ()
      ensures bridgeHandler.None? && config.None? && trace == []
      ensures status == StatusInfo(UNINITIALIZED, NONE, None)
    {
      bridgeHandler := None;
      config := None;
      status := StatusInfo(UNINITIALIZED, NONE, None);
      trace := [];
    }

    method UpdateStatus(info: StatusInfo)
      modifies this`status, this`trace
      ensures status == info && trace == old(trace) + [StatusUpdated(info)]
    {
      status := info;
      trace := trace + [StatusUpdated(info)];
    }

    /**
     * Publishes every channel state of a message, once each, in the map's
     * own (unspecified) key order, which `order` reports.
     */
    method UpdateThingStates(states: map<string, Option<TypeValue>>) returns (ghost order: seq<string>)
      modifies this`trace
      ensures Enumerates(order, states)
      ensures trace == old(trace) + Publications(order, states)
    {
      var remaining := states.Keys;
      order := [];
      while remaining != {}
        invariant remaining <= states.Keys
        invariant forall i, j :: 0 <= i < j < |order| ==> order[i] != order[j]
        invariant forall i :: 0 <= i < |order| ==> order[i] in states && order[i] !in remaining
        invariant forall c :: c in states && c !in remaining ==> c in order
        invariant trace == old(trace) + Publications(order, states)
        decreases remaining
      {
        var channel :| channel in remaining;
        assert channel !in order;
        PublicationsSnoc(order, channel, states);
        trace := trace + [StateUpdated(channel, states[channel])];
        order := order + [channel];
        remaining := remaining - {channel};
      }
    }

    /** Pauses before every repeat but the first. */
    method WaitBeforeCommandExecution(i: int)
      modifies this`trace
      ensures trace == old(trace) + (if i > 0 then [Delayed(TimeBetweenCommands)] else [])
    {
      if i > 0 {
        trace := trace + [Delayed(TimeBetweenCommands)];
      }
    }

    /**
     * The send loop: `repeats` sends of `message`, each but the first after a
     * pause, stopping right after the send with index `failAt` (if any)
     * raises a transmission error.
     */
    method SendRepeatedly(message: SwitchMessage, repeats: int, failAt: Option<nat>)
      requires repeats >= 1
      modifies this`trace
      ensures trace == old(trace) + SendSchedule(Attempts(repeats, failAt), message.Snapshot())
    {
      var i := 0;
      var failed := false;
      while i < repeats && !failed
        invariant 0 <= i <= repeats
        invariant failed ==> i >= 1 && failAt == Some(i - 1)
        invariant !failed ==> failAt.None? || failAt.value >= i
        invariant trace == old(trace) + SendSchedule(i, message.Snapshot())
      {
        WaitBeforeCommandExecution(i);
        // The bridge's sendMessage; a transmission error ends the loop.
        trace := trace + [SendCalled(message.Snapshot())];
        failed := failAt == Some(i);
        i := i + 1;
      }
    }

    /**
     * Handles a channel command. `repeatsSetting` is the thing's `repeats`
     * configuration, `factorySupports` whether the message factory has an
     * outbound message for the thing type, and `failAt` the index of the
     * send (if any) that raises a transmission error.
     */
    method HandleCommand(command: Command, repeatsSetting: Option<int>, factorySupports: bool, failAt: Option<nat>)
      returns (raised: Option<Failure>, ghost sent: SwitchState, ghost order: seq<string>)
      modifies this`trace
      // No bridge, a refresh request or an unsupported thing type: nothing happens.
      ensures bridgeHandler.None? || command.RefreshCommand? || !factorySupports ==>
                raised.None? && trace == old(trace)
      // A command that is not ON or OFF escapes as IllegalArgument before anything is published or sent.
      ensures bridgeHandler.Some? && command.ValueCommand? && factorySupports ==>
                (raised.Some? <==> OnOffValueOf(CommandFullString(command)).None?)
      ensures raised.Some? ==> raised.value == IllegalArgument && trace == old(trace)
      // Otherwise: the states are published once, then the send loop runs.
      ensures bridgeHandler.Some? && command.ValueCommand? && factorySupports && raised.None? ==>
                && sent.command == OnOffType(OnOffValueOf(CommandFullString(command)).value)
                && sent.contact == Some(OpenClosedType(CLOSED))
                && Enumerates(order, States(sent))
                && trace == old(trace) + Publications(order, States(sent))
                                       + SendSchedule(Attempts(EffectiveRepeats(repeatsSetting), failAt), sent)
    {
      raised, sent, order := None, Fresh(""), [];
      if bridgeHandler.Some? {
        if command.RefreshCommand? {
          // Refresh is not supported.
        } else if factorySupports {
          var message := new SwitchMessage();
          raised := message.InitializeFromChannel(command);
          if raised.Some? {
            return;
          }
          sent := message.Snapshot();
          order := UpdateThingStates(States(message.Snapshot()));
          var repeats := EffectiveRepeats(repeatsSetting);
          SendRepeatedly(message, repeats, failAt);
        }
        // else: the factory raised a not-implemented error, which is logged.
      }
    }

    /**
     * Re-reads the configuration and sets the status from the bridge handler
     * and the bridge status, registering with the bridge when both are known
     * and the device id is configured.
     */
    method InitializeBridge(configured: DeviceConfig, thingHandler: Option<BridgeRef>, bridgeStatus: Option<ThingStatus>)
      modifies this
      ensures config == Some(configured)
      ensures status == BridgeStatusInfo(configured, thingHandler, bridgeStatus)
      ensures bridgeHandler == if Registers(configured, thingHandler, bridgeStatus) then thingHandler else old(bridgeHandler)
      ensures trace == old(trace)
                       + (if Registers(configured, thingHandler, bridgeStatus) then [ListenerRegistered(thingHandler.value)] else [])
                       + [StatusUpdated(status)]
    {
      config := Some(configured);
      if configured.deviceId.None? {
        UpdateStatus(StatusInfo(OFFLINE, CONFIGURATION_ERROR, Some(MissingDeviceId)));
      } else if thingHandler.Some? && bridgeStatus.Some? {
        bridgeHandler := thingHandler;
        trace := trace + [ListenerRegistered(thingHandler.value)];
        if bridgeStatus.value == ONLINE {
          UpdateStatus(StatusInfo(ONLINE, NONE, None));
        } else {
          UpdateStatus(StatusInfo(OFFLINE, BRIDGE_OFFLINE, None));
        }
      } else {
        UpdateStatus(StatusInfo(OFFLINE, NONE, None));
      }
    }

    /** Initialisation: the bridge's handler and status, both null when there is no bridge. */
    method Initialize(configured: DeviceConfig, bridge: Option<Bridge>)
      modifies this
      ensures config == Some(configured)
      ensures status == BridgeStatusInfo(configured, BridgeHandlerOf(bridge), BridgeStatusOf(bridge))
      ensures bridgeHandler == if Registers(configured, BridgeHandlerOf(bridge), BridgeStatusOf(bridge))
                               then BridgeHandlerOf(bridge) else old(bridgeHandler)
      ensures trace == old(trace)
                       + (if Registers(configured, BridgeHandlerOf(bridge), BridgeStatusOf(bridge))
                          then [ListenerRegistered(BridgeHandlerOf(bridge).value)] else [])
                       + [StatusUpdated(status)]
    {
      config := Some(configured);
      InitializeBridge(configured, BridgeHandlerOf(bridge), BridgeStatusOf(bridge));
    }

    /** A bridge status change: the new status is always known, the handler only when there is a bridge. */
    method BridgeStatusChanged(configured: DeviceConfig, bridge: Option<Bridge>, newStatus: ThingStatus)
      modifies this
      ensures config == Some(configured)
      ensures status == BridgeStatusInfo(configured, BridgeHandlerOf(bridge), Some(newStatus))
      ensures bridgeHandler == if Registers(configured, BridgeHandlerOf(bridge), Some(newStatus))
                               then BridgeHandlerOf(bridge) else old(bridgeHandler)
      ensures trace == old(trace)
                       + (if Registers(configured, BridgeHandlerOf(bridge), Some(newStatus))
                          then [ListenerRegistered(BridgeHandlerOf(bridge).value)] else [])
                       + [StatusUpdated(status)]
    {
      InitializeBridge(configured, BridgeHandlerOf(bridge), Some(newStatus));
    }

    /** Unregisters from the bridge when registered, and forgets the bridge. */
    method Dispose()
      modifies this`bridgeHandler, this`trace
      ensures bridgeHandler.None?
      ensures trace == old(trace) + if old(bridgeHandler).Some? then [ListenerUnregistered(old(bridgeHandler).value)] else []
    {
      if bridgeHandler.Some? {
        trace := trace + [ListenerUnregistered(bridgeHandler.value)];
      }
      bridgeHandler := None;
    }

    /**
     * An inbound message: when its device id equals the configured one the
     * thing goes ONLINE and the message's states are published; otherwise
     * nothing changes. A missing configuration or device id raises NullPointer.
     */
    method OnDeviceMessageReceived(message: SwitchMessage) returns (raised: Option<Failure>, ghost order: seq<string>)
      modifies this`status, this`trace
      ensures raised.Some? <==> config.None? || config.value.deviceId.None?
      ensures raised.Some? ==> raised.value == NullPointer
      ensures raised.None? && config.value.deviceId.value == message.deviceId ==>
                && status == StatusInfo(ONLINE, NONE, None)
                && Enumerates(order, States(message.Snapshot()))
                && trace == old(trace) + [StatusUpdated(status)] + Publications(order, States(message.Snapshot()))
      ensures (raised.Some? || config.value.deviceId.value != message.deviceId) ==>
                status == old(status) && trace == old(trace)
    {
      raised, order := None, [];
      if config.None? || config.value.deviceId.None? {
        raised := Some(NullPointer);
        return;
      }
      if config.value.deviceId.value == message.deviceId {
        UpdateStatus(StatusInfo(ONLINE, NONE, None));
        order := UpdateThingStates(States(message.Snapshot()));
      }
    }
  }
}
