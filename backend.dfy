/**
 * OpenZWaveBackend: the network registry (serial ports, home ids and the
 * first-in-first-out list of setups waiting for a home id), the table of
 * controller-command replies pending per home id, the slots the notification
 * callback queues, and the signals they emit.
 *
 * OpenZWave's Manager is not modelled: whatever it answers is a parameter,
 * and every call that acts on a network is appended to `managerCalls`.
 * Replies live in `replies`, indexed by the id handed to the caller.
 */
module Backend {
  import opened ZWaveTypes
  import opened ValueCodec
  import opened LinkQuality
  import opened Signals
  import opened NotificationRouter
  import opened CommandCorrelator

  class OpenZWaveBackend {
    /** The OZW_16 build switch. */
    const ozw16: bool

    /** m_options / m_manager are set (initOZW) or null (deinitOZW). */
    var managerPresent: bool
    /** m_serialPorts: network uuid to serial port. */
    var serialPorts: map<Uuid, string>
    /** m_homeIds: network uuid to OpenZWave home id. */
    var homeIds: map<Uuid, HomeId>
    /** m_pendingNetworkSetups: networks whose driver was added and which wait for DriverReady. */
    var pendingNetworkSetups: seq<Uuid>
    /** m_pendingControllerCommands: the one outstanding reply per home id. */
    var pendingControllerCommands: map<HomeId, ReplyId>
    /** m_controllerCommand: the kind of the last add or remove started (builds before 1.6). */
    var controllerCommand: ControllerCommand
    /** Every reply handed out so far, by id. */
    var replies: seq<ReplyStatus>
    /** Every signal emitted so far, in order. */
    var events: seq<Event>
    /** Every Manager call that acts on a network, in order. */
    var managerCalls: seq<ManagerCall>

    /**
     * The manager lives while a serial port is registered; a reply is running
     * exactly when it is pending under some home id, and under only one; the
     * remembered kind is an add, a remove or nothing, and always nothing with 1.6.
     */
    predicate Valid()
      reads this`managerPresent, this`serialPorts, this`pendingControllerCommands,
            this`replies, this`controllerCommand
    {
      (serialPorts != map[] ==> managerPresent) &&
      (forall h :: h in pendingControllerCommands ==> pendingControllerCommands[h] < |replies|) &&
      (forall id :: 0 <= id < |replies| ==>
        (replies[id].Running? <==> id in pendingControllerCommands.Values)) &&
      Injective(pendingControllerCommands) &&
      (ozw16 ==> controllerCommand == NoCommand) &&
      controllerCommand in {NoCommand, AddDevice, RemoveDevice}
    }

    constructor (ozw16: bool)
      ensures Valid() && this.ozw16 == ozw16
      ensures !managerPresent && serialPorts == map[] && homeIds == map[] && pendingNetworkSetups == []
      ensures pendingControllerCommands == map[] && controllerCommand == NoCommand
      ensures replies == [] && events == [] && managerCalls == []
    {
      this.ozw16 := ozw16;
      managerPresent := false;
      serialPorts := map[];
      homeIds := map[];
      pendingNetworkSetups := [];
      pendingControllerCommands := map[];
      controllerCommand := NoCommand;
      replies := [];
      events := [];
      managerCalls := [];
    }

    // -------------------------------------------------------------------------
    // Network registry

    /**
     * startNetwork: creates the manager if there is none, adds a driver for the
     * serial port and, if the Manager accepts it, queues the network for the
     * next DriverReady and records its port.
     */
    method StartNetwork(network: Uuid, serialPort: string, addDriverOk: bool) returns (ok: bool)
      requires Valid()
      modifies this`managerPresent, this`pendingNetworkSetups, this`serialPorts, this`managerCalls
      ensures Valid()
      ensures managerPresent
      ensures managerCalls == old(managerCalls) + [AddDriver(serialPort)]
      ensures ok == addDriverOk
      ensures ok ==> pendingNetworkSetups == old(pendingNetworkSetups) + [network]
      ensures ok ==> serialPorts == old(serialPorts)[network := serialPort]
      ensures !ok ==> pendingNetworkSetups == old(pendingNetworkSetups) && serialPorts == old(serialPorts)
    {
      if !managerPresent {
        managerPresent := true;
      }
      managerCalls := managerCalls + [AddDriver(serialPort)];
      if addDriverOk {
        pendingNetworkSetups := pendingNetworkSetups + [network];
        serialPorts := serialPorts[network := serialPort];
        ok := true;
      } else {
        ok := false;
      }
    }

    /**
     * stopNetwork: removes the driver of a known network and forgets its port
     * and home id; the manager is torn down once no port is left. Pending
     * setups and pending replies are not touched.
     */
    method StopNetwork(network: Uuid, removeDriverOk: bool) returns (ok: bool)
      requires Valid()
      modifies this`managerPresent, this`serialPorts, this`homeIds, this`managerCalls
      ensures Valid()
      ensures network !in old(serialPorts) ==>
        !ok && managerPresent == old(managerPresent) && serialPorts == old(serialPorts) &&
        homeIds == old(homeIds) && managerCalls == old(managerCalls)
      ensures network in old(serialPorts) ==>
        ok == removeDriverOk &&
        managerCalls == old(managerCalls) + [RemoveDriver(old(serialPorts)[network])] &&
        serialPorts == old(serialPorts) - {network} &&
        homeIds == old(homeIds) - {network} &&
        (managerPresent <==> serialPorts != map[])
    {
      if network !in serialPorts {
        return false;
      }
      managerCalls := managerCalls + [RemoveDriver(serialPorts[network])];
      ok := removeDriverOk;
      serialPorts := serialPorts - {network};
      homeIds := homeIds - {network};
      if serialPorts == map[] {
        managerPresent := false;
      }
    }

    /** factoryResetNetwork: resets the controller of a known network and queues it for DriverReady again. */
    method FactoryResetNetwork(network: Uuid) returns (ok: bool)
      modifies this`pendingNetworkSetups, this`managerCalls
      ensures ok <==> network in homeIds
      ensures ok ==> pendingNetworkSetups == old(pendingNetworkSetups) + [network]
      ensures ok ==> managerCalls == old(managerCalls) + [ResetController(homeIds[network])]
      ensures !ok ==> pendingNetworkSetups == old(pendingNetworkSetups) && managerCalls == old(managerCalls)
    {
      if network !in homeIds {
        return false;
      }
      pendingNetworkSetups := pendingNetworkSetups + [network];
      managerCalls := managerCalls + [ResetController(homeIds[network])];
      ok := true;
    }

    /**
     * onDriverReady: the oldest pending setup gets the reported home id, and
     * networkStarted is emitted for the network that home id now maps to.
     */
    method OnDriverReady(homeId: HomeId)
      modifies this`pendingNetworkSetups, this`homeIds, this`events
      ensures old(pendingNetworkSetups) == [] ==>
        pendingNetworkSetups == [] && homeIds == old(homeIds) && events == old(events)
      ensures old(pendingNetworkSetups) != [] ==>
        pendingNetworkSetups == old(pendingNetworkSetups)[1..] &&
        homeIds == old(homeIds)[old(pendingNetworkSetups)[0] := homeId] &&
        homeId in homeIds.Values &&
        events == old(events) + [NetworkStarted(KeyOf(homeIds, homeId))]
      ensures var head := if old(pendingNetworkSetups) == [] then 0 else old(pendingNetworkSetups)[0];
        old(pendingNetworkSetups) != [] &&
        (forall u :: u in old(homeIds) && old(homeIds)[u] == homeId ==> u == head) ==>
        events == old(events) + [NetworkStarted(head)]
    {
      if pendingNetworkSetups == [] {
        return;
      }
      var network := pendingNetworkSetups[0];
      pendingNetworkSetups := pendingNetworkSetups[1..];
      homeIds := homeIds[network := homeId];
      assert homeIds[network] == homeId;
      if forall u :: u in old(homeIds) && old(homeIds)[u] == homeId ==> u == network {
        KeyOfUnique(homeIds, network);
      }
      events := events + [NetworkStarted(KeyOf(homeIds, homeId))];
    }

    /** onDriverFailed before 1.6: the oldest pending setup has failed. */
    method OnDriverFailed()
      requires !ozw16 && pendingNetworkSetups != []
      modifies this`pendingNetworkSetups, this`events
      ensures pendingNetworkSetups == old(pendingNetworkSetups)[1..]
      ensures events == old(events) + [NetworkFailed(old(pendingNetworkSetups)[0])]
    {
      var network := pendingNetworkSetups[0];
      pendingNetworkSetups := pendingNetworkSetups[1..];
      events := events + [NetworkFailed(network)];
    }

    /**
     * onDriverFailed with 1.6: the network whose serial port failed, if the
     * port is known; the pending setups are left as they are.
     */
    method OnDriverFailedForPort(serialPort: string)
      requires ozw16
      modifies this`events
      ensures serialPort !in serialPorts.Values ==> events == old(events)
      ensures serialPort in serialPorts.Values ==>
        events == old(events) + [NetworkFailed(KeyOf(serialPorts, serialPort))]
    {
      if serialPort in serialPorts.Values {
        events := events + [NetworkFailed(KeyOf(serialPorts, serialPort))];
      }
    }

    // -------------------------------------------------------------------------
    // Controller commands

    /**
     * addNode, removeNode and removeFailedNode: a new reply that fails at once
     * for an unknown network or a home id that already has a reply pending, and
     * otherwise issues the Manager call and stays pending under the home id
     * unless the Manager rejects it. Before 1.6 add and remove remember their
     * kind before the call, whether it succeeds or not.
     */
    method RequestControllerCommand(network: Uuid, req: CommandRequest, accepted: bool) returns (reply: ReplyId)
      requires Valid()
      modifies this`pendingControllerCommands, this`controllerCommand, this`replies, this`managerCalls
      ensures Valid()
      ensures reply == |old(replies)| && |replies| == reply + 1 && replies[..reply] == old(replies)
      ensures network !in homeIds ==>
        replies[reply] == Finished(NetworkUuidNotFound) &&
        pendingControllerCommands == old(pendingControllerCommands) &&
        controllerCommand == old(controllerCommand) && managerCalls == old(managerCalls)
      ensures network in homeIds && homeIds[network] in old(pendingControllerCommands) ==>
        replies[reply] == Finished(InUse) &&
        pendingControllerCommands == old(pendingControllerCommands) &&
        controllerCommand == old(controllerCommand) && managerCalls == old(managerCalls)
      ensures network in homeIds && homeIds[network] !in old(pendingControllerCommands) ==>
        controllerCommand == RememberRequest(ozw16, req, old(controllerCommand)) &&
        managerCalls == old(managerCalls) + [RequestCall(homeIds[network], req)]
      ensures network in homeIds && homeIds[network] !in old(pendingControllerCommands) && accepted ==>
        replies[reply] == Running &&
        pendingControllerCommands == old(pendingControllerCommands)[homeIds[network] := reply]
      ensures network in homeIds && homeIds[network] !in old(pendingControllerCommands) && !accepted ==>
        replies[reply] == Finished(BackendError) &&
        pendingControllerCommands == old(pendingControllerCommands)
    {
      if network !in homeIds {
        reply := NewFinishedReply(NetworkUuidNotFound);
        return;
      }
      var homeId := homeIds[network];
      if homeId in pendingControllerCommands {
        reply := NewFinishedReply(InUse);
        return;
      }
      IssueRequest(homeId, req);
      if !accepted {
        reply := NewFinishedReply(BackendError);
        return;
      }
      reply := RegisterReply(homeId);
    }

    /** The Manager call of a request, with the kind remembered before it in pre-1.6 builds. */
    method IssueRequest(homeId: HomeId, req: CommandRequest)
      requires Valid()
      modifies this`controllerCommand, this`managerCalls
      ensures Valid()
      ensures controllerCommand == RememberRequest(ozw16, req, old(controllerCommand))
      ensures managerCalls == old(managerCalls) + [RequestCall(homeId, req)]
    {
      controllerCommand := RememberRequest(ozw16, req, controllerCommand);
      managerCalls := managerCalls + [RequestCall(homeId, req)];
    }

    /** A new reply, finished at once with error (finishReply on a fresh ZWaveReply). */
    method NewFinishedReply(error: ZWaveError) returns (reply: ReplyId)
      requires Valid()
      modifies this`replies
      ensures Valid()
      ensures reply == |old(replies)| && replies == old(replies) + [Finished(error)]
    {
      reply := |replies|;
      assert reply !in pendingControllerCommands.Values;
      replies := replies + [Finished(error)];
    }

    /** A new running reply, pending under a home id that had none (startReply and insert). */
    method RegisterReply(homeId: HomeId) returns (reply: ReplyId)
      requires Valid() && homeId !in pendingControllerCommands
      modifies this`replies, this`pendingControllerCommands
      ensures Valid()
      ensures reply == |old(replies)| && replies == old(replies) + [Running]
      ensures pendingControllerCommands == old(pendingControllerCommands)[homeId := reply]
    {
      reply := |replies|;
      assert reply !in pendingControllerCommands.Values;
      AddKeyValues(pendingControllerCommands, homeId, reply);
      replies := replies + [Running];
      pendingControllerCommands := pendingControllerCommands[homeId := reply];
    }

    /**
     * cancelPendingOperation: asks the Manager to cancel and answers at once;
     * the reply pending for the home id, if any, stays pending.
     */
    method CancelPendingOperation(network: Uuid, acknowledged: bool) returns (reply: ReplyId)
      requires Valid()
      modifies this`replies, this`managerCalls
      ensures Valid()
      ensures reply == |old(replies)| && |replies| == reply + 1 && replies[..reply] == old(replies)
      ensures replies[reply].Finished?
      ensures network !in homeIds ==>
        replies[reply].error == NetworkUuidNotFound && managerCalls == old(managerCalls)
      ensures network in homeIds ==>
        managerCalls == old(managerCalls) + [CancelControllerCommand(homeIds[network])] &&
        (replies[reply].error == NoError <==> acknowledged) &&
        (replies[reply].error == InUse <==> !acknowledged)
    {
      if network !in homeIds {
        reply := NewFinishedReply(NetworkUuidNotFound);
        return;
      }
      managerCalls := managerCalls + [CancelControllerCommand(homeIds[network])];
      reply := NewFinishedReply(if acknowledged then NoError else InUse);
    }

    /**
     * onControllerCommand: for a known home id, does what ControllerCommandEffect
     * describes; a reply that is already finished is never touched again.
     */
    method OnControllerCommand(homeId: HomeId, command: ControllerCommand, state: ControllerState)
      requires Valid()
      modifies this`pendingControllerCommands, this`controllerCommand, this`replies, this`events
      ensures Valid()
      ensures homeId !in homeIds.Values ==>
        pendingControllerCommands == old(pendingControllerCommands) &&
        controllerCommand == old(controllerCommand) && replies == old(replies) && events == old(events)
      ensures homeId in homeIds.Values ==>
        var e := ControllerCommandEffect(ozw16, old(controllerCommand), old(pendingControllerCommands),
                                         KeyOf(homeIds, homeId), homeId, command, state);
        pendingControllerCommands == e.pending && controllerCommand == e.remembered &&
        events == old(events) + e.events &&
        replies == (if e.resolved.Some?
                    then old(replies)[e.resolved.value.reply := Finished(e.resolved.value.error)]
                    else old(replies))
      ensures |replies| == |old(replies)|
      ensures forall id :: 0 <= id < |replies| && old(replies)[id].Finished? ==> replies[id] == old(replies)[id]
    {
      if homeId !in homeIds.Values {
        return;
      }
      var network := KeyOf(homeIds, homeId);
      var kind := command;
      if !ozw16 {
        kind := controllerCommand;
      }
      if kind == AddDevice || kind == RemoveDevice {
        OnTrackedCommand(network, homeId, command, kind, state);
      } else {
        OnUntrackedCommand(network, homeId, command, state);
      }
    }

    /** The other commands of onControllerCommand: only Completed has an effect, lowering both signals. */
    method OnUntrackedCommand(network: Uuid, homeId: HomeId, command: ControllerCommand, state: ControllerState)
      requires Valid() && !Tracked(EffectiveCommand(ozw16, controllerCommand, command))
      modifies this`events
      ensures var e := ControllerCommandEffect(ozw16, controllerCommand, pendingControllerCommands,
                                               network, homeId, command, state);
        pendingControllerCommands == e.pending && controllerCommand == e.remembered &&
        e.resolved.None? && events == old(events) + e.events
    {
      UntrackedEffect(ozw16, controllerCommand, pendingControllerCommands, network, homeId, command, state);
      if state == Completed {
        events := events + [WaitingForNodeAdditionChanged(network, false),
                            WaitingForNodeRemovalChanged(network, false)];
      }
    }

    /** The AddDevice and RemoveDevice cases of onControllerCommand, which differ only in their signal. */
    method OnTrackedCommand(network: Uuid, homeId: HomeId, command: ControllerCommand, kind: ControllerCommand,
                            state: ControllerState)
      requires Valid() && Tracked(kind) && kind == EffectiveCommand(ozw16, controllerCommand, command)
      modifies this`pendingControllerCommands, this`controllerCommand, this`replies, this`events
      ensures Valid()
      ensures var e := ControllerCommandEffect(ozw16, old(controllerCommand), old(pendingControllerCommands),
                                               network, homeId, command, state);
        pendingControllerCommands == e.pending && controllerCommand == e.remembered &&
        events == old(events) + e.events &&
        replies == (if e.resolved.Some?
                    then old(replies)[e.resolved.value.reply := Finished(e.resolved.value.error)]
                    else old(replies))
      ensures |replies| == |old(replies)|
      ensures forall id :: 0 <= id < |replies| && old(replies)[id].Finished? ==> replies[id] == old(replies)[id]
    {
      if state == Error || state == Failed {
        ResolvePending(homeId, BackendError);
        if !ozw16 {
          controllerCommand := NoCommand;
        }
      } else if state == Waiting || state == Normal {
        ResolvePending(homeId, NoError);
        events := events + [WaitingSignal(kind, network, true)];
      } else if state == Completed {
        events := events + [WaitingSignal(kind, network, false)];
        if !ozw16 {
          controllerCommand := NoCommand;
        }
      }
    }

    /** finishReply(m_pendingControllerCommands.take(homeId), error), when homeId has a reply pending. */
    method ResolvePending(homeId: HomeId, error: ZWaveError)
      requires Valid()
      modifies this`pendingControllerCommands, this`replies
      ensures Valid()
      ensures pendingControllerCommands == old(pendingControllerCommands) - {homeId}
      ensures var r := Take(old(pendingControllerCommands), homeId, error);
        replies == if r.Some? then old(replies)[r.value.reply := Finished(r.value.error)] else old(replies)
      ensures |replies| == |old(replies)|
      ensures forall id :: 0 <= id < |replies| && old(replies)[id].Finished? ==> replies[id] == old(replies)[id]
    {
      RemoveKeyValues(pendingControllerCommands, homeId);
      if homeId in pendingControllerCommands {
        var reply := pendingControllerCommands[homeId];
        pendingControllerCommands := pendingControllerCommands - {homeId};
        replies := replies[reply := Finished(error)];
      }
    }

    // -------------------------------------------------------------------------
    // Values

    /**
     * setValue: for a known network, the write the value calls for, if any,
     * goes to the Manager, whose answer is returned; otherwise false and no write.
     */
    method SetValue(network: Uuid, node: NodeId, value: ZWaveValue, accepted: bool) returns (ok: bool)
      modifies this`managerCalls
      ensures network !in homeIds || WriteFor(value).None? ==> !ok && managerCalls == old(managerCalls)
      ensures network in homeIds && WriteFor(value).Some? ==>
        ok == accepted && managerCalls == old(managerCalls) + [SetValueCall(homeIds[network], WriteFor(value).value)]
    {
      if network !in homeIds {
        return false;
      }
      var write := WriteFor(value);
      if write.None? {
        return false;
      }
      managerCalls := managerCalls + [SetValueCall(homeIds[network], write.value)];
      ok := accepted;
    }

    /** updateNodeLinkQuality, with the signed RSSI average. */
    method UpdateNodeLinkQuality(homeId: HomeId, node: NodeId, stats: NodeStatistics)
      requires homeId in homeIds.Values
      modifies this`events
      ensures events == old(events) +
        [NodeLinkQualityStatus(KeyOf(homeIds, homeId), node, LinkQualityOf(ozw16, stats))]
    {
      var quality;
      if ozw16 {
        var avg := AverageRssi(stats.rssi);
        quality := SignalQuality(avg);
      } else {
        quality := SignalQuality(stats.quality);
      }
      events := events + [NodeLinkQualityStatus(KeyOf(homeIds, homeId), node, quality)];
    }

    /** onValueAdded: valueAdded with the value read, then the node's link quality. */
    method OnValueAdded(homeId: HomeId, node: NodeId, desc: ValueDescriptor, reading: ValueReading,
                        stats: NodeStatistics)
      modifies this`events
      ensures homeId !in homeIds.Values ==> events == old(events)
      ensures homeId in homeIds.Values ==>
        var network := KeyOf(homeIds, homeId);
        events == old(events) + [ValueAdded(network, node, ReadValue(desc, reading)),
                                 NodeLinkQualityStatus(network, node, LinkQualityOf(ozw16, stats))]
    {
      if homeId !in homeIds.Values {
        return;
      }
      events := events + [ValueAdded(KeyOf(homeIds, homeId), node, ReadValue(desc, reading))];
      UpdateNodeLinkQuality(homeId, node, stats);
    }

    /** onValueChanged: valueChanged, then reachable, then the node's link quality. */
    method OnValueChanged(homeId: HomeId, node: NodeId, desc: ValueDescriptor, reading: ValueReading,
                          stats: NodeStatistics)
      modifies this`events
      ensures homeId !in homeIds.Values ==> events == old(events)
      ensures homeId in homeIds.Values ==>
        var network := KeyOf(homeIds, homeId);
        events == old(events) + [ValueChanged(network, node, ReadValue(desc, reading)),
                                 NodeReachableStatus(network, node, true),
                                 NodeLinkQualityStatus(network, node, LinkQualityOf(ozw16, stats))]
    {
      if homeId !in homeIds.Values {
        return;
      }
      var network := KeyOf(homeIds, homeId);
      events := events + [ValueChanged(network, node, ReadValue(desc, reading))];
      events := events + [NodeReachableStatus(network, node, true)];
      UpdateNodeLinkQuality(homeId, node, stats);
    }

    /** onValueRemoved */
    method OnValueRemoved(homeId: HomeId, node: NodeId, valueId: ValueId)
      modifies this`events
      ensures homeId !in homeIds.Values ==> events == old(events)
      ensures homeId in homeIds.Values ==>
        events == old(events) + [ValueRemoved(KeyOf(homeIds, homeId), node, valueId)]
    {
      if homeId in homeIds.Values {
        events := events + [ValueRemoved(KeyOf(homeIds, homeId), node, valueId)];
      }
    }

    // -------------------------------------------------------------------------
    // Nodes

    /** onNewNode: nodeAdded, as soon as a node joins. */
    method OnNewNode(homeId: HomeId, node: NodeId)
      modifies this`events
      ensures homeId !in homeIds.Values ==> events == old(events)
      ensures homeId in homeIds.Values ==> events == old(events) + [NodeAdded(KeyOf(homeIds, homeId), node)]
    {
      if homeId in homeIds.Values {
        events := events + [NodeAdded(KeyOf(homeIds, homeId), node)];
      }
    }

    /** onNodeAdded: nodeAdded again, with no deduplication against onNewNode. */
    method OnNodeAdded(homeId: HomeId, node: NodeId)
      modifies this`events
      ensures homeId !in homeIds.Values ==> events == old(events)
      ensures homeId in homeIds.Values ==> events == old(events) + [NodeAdded(KeyOf(homeIds, homeId), node)]
    {
      if homeId in homeIds.Values {
        events := events + [NodeAdded(KeyOf(homeIds, homeId), node)];
      }
    }

    /** onNodeNaming */
    method OnNodeNaming(homeId: HomeId, node: NodeId)
      modifies this`events
      ensures homeId !in homeIds.Values ==> events == old(events)
      ensures homeId in homeIds.Values ==> events == old(events) + [NodeDataChanged(KeyOf(homeIds, homeId), node)]
    {
      if homeId in homeIds.Values {
        events := events + [NodeDataChanged(KeyOf(homeIds, homeId), node)];
      }
    }

    /** onNodeRemoved */
    method OnNodeRemoved(homeId: HomeId, node: NodeId)
      modifies this`events
      ensures homeId !in homeIds.Values ==> events == old(events)
      ensures homeId in homeIds.Values ==> events == old(events) + [NodeRemoved(KeyOf(homeIds, homeId), node)]
    {
      if homeId in homeIds.Values {
        events := events + [NodeRemoved(KeyOf(homeIds, homeId), node)];
      }
    }

    /** onNodeProtocolInfoReceived */
    method OnNodeProtocolInfoReceived(homeId: HomeId, node: NodeId)
      modifies this`events
      ensures homeId !in homeIds.Values ==> events == old(events)
      ensures homeId in homeIds.Values ==> events == old(events) + [NodeDataChanged(KeyOf(homeIds, homeId), node)]
    {
      if homeId in homeIds.Values {
        events := events + [NodeDataChanged(KeyOf(homeIds, homeId), node)];
      }
    }

    /** onNodeQueryComplete */
    method OnNodeQueryComplete(homeId: HomeId, node: NodeId)
      modifies this`events
      ensures homeId !in homeIds.Values ==> events == old(events)
      ensures homeId in homeIds.Values ==> events == old(events) + [NodeInitialized(KeyOf(homeIds, homeId), node)]
    {
      if homeId in homeIds.Values {
        events := events + [NodeInitialized(KeyOf(homeIds, homeId), node)];
      }
    }

    // -------------------------------------------------------------------------
    // Status notifications

    /** Home id 0 with a Timeout while a setup is pending: OpenZWave gave up adding that driver. */
    predicate DriverTimeout(homeId: HomeId, code: NotificationCode)
      reads this`pendingNetworkSetups
    {
      homeId == 0 && code == Timeout && pendingNetworkSetups != []
    }

    /**
     * onZWaveNotification: a driver timeout fails the oldest pending setup and
     * removes its driver (its serial port stays registered); otherwise a known
     * network gets the signals of StatusEvents and an unknown one nothing.
     */
    method OnZWaveNotification(homeId: HomeId, node: NodeId, code: NotificationCode)
      modifies this`pendingNetworkSetups, this`managerCalls, this`events
      ensures old(DriverTimeout(homeId, code)) ==>
        var network := old(pendingNetworkSetups)[0];
        pendingNetworkSetups == old(pendingNetworkSetups)[1..] &&
        managerCalls == old(managerCalls) + [RemoveDriver(ValueOr(serialPorts, network, ""))] &&
        events == old(events) + [NetworkFailed(network)]
      ensures !old(DriverTimeout(homeId, code)) ==>
        pendingNetworkSetups == old(pendingNetworkSetups) && managerCalls == old(managerCalls)
      ensures !old(DriverTimeout(homeId, code)) && homeId !in homeIds.Values ==> events == old(events)
      ensures !old(DriverTimeout(homeId, code)) && homeId in homeIds.Values ==>
        events == old(events) + StatusEvents(code, KeyOf(homeIds, homeId), node)
    {
      if homeId == 0 && code == Timeout && pendingNetworkSetups != [] {
        var network := pendingNetworkSetups[0];
        pendingNetworkSetups := pendingNetworkSetups[1..];
        managerCalls := managerCalls + [RemoveDriver(ValueOr(serialPorts, network, ""))];
        events := events + [NetworkFailed(network)];
        return;
      }
      if homeId !in homeIds.Values {
        return;
      }
      events := events + StatusEvents(code, KeyOf(homeIds, homeId), node);
    }
  }
}
