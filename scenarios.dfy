/**
 * Sequences of calls on one backend, with what each leaves behind, checked
 * from the contracts of the class alone.
 */
module Scenarios {
  import opened ZWaveTypes
  import opened Signals
  import opened CommandCorrelator
  import opened Backend

  /** A network is started, its driver comes up, and it gets its home id. */
  method StartThenReady() {
    var b := new OpenZWaveBackend(true);
    var ok := b.StartNetwork(1, "/dev/ttyACM0", true);
    assert ok && b.pendingNetworkSetups == [1] && b.managerPresent;
    b.OnDriverReady(7);
    assert b.pendingNetworkSetups == [] && b.homeIds == map[1 := 7];
    assert b.events == [NetworkStarted(1)];
  }

  /** Two setups are matched with DriverReady in the order they were started. */
  method TwoNetworksInOrder() {
    var b := new OpenZWaveBackend(true);
    var ok1 := b.StartNetwork(1, "/dev/ttyACM0", true);
    var ok2 := b.StartNetwork(2, "/dev/ttyUSB0", true);
    assert b.pendingNetworkSetups == [1, 2];
    b.OnDriverReady(7);
    b.OnDriverReady(9);
    assert b.homeIds == map[1 := 7, 2 := 9];
    assert b.events == [NetworkStarted(1), NetworkStarted(2)];
  }

  /**
   * A network stopped before its driver is ready stays in the setup list, so
   * the next DriverReady is matched with it.
   */
  method StoppedSetupStillMatched() {
    var b := new OpenZWaveBackend(true);
    var ok1 := b.StartNetwork(1, "/dev/ttyACM0", true);
    var ok2 := b.StartNetwork(2, "/dev/ttyUSB0", true);
    var stopped := b.StopNetwork(1, true);
    assert b.serialPorts == map[2 := "/dev/ttyUSB0"] && b.pendingNetworkSetups == [1, 2];
    b.OnDriverReady(9);
    assert b.homeIds == map[1 := 9] && b.pendingNetworkSetups == [2];
    assert b.events == [NetworkStarted(1)];
  }

  /** Stopping the last network tears the manager down. */
  method StopLastNetwork() {
    var b := new OpenZWaveBackend(false);
    var ok := b.StartNetwork(1, "/dev/ttyACM0", true);
    var stopped := b.StopNetwork(1, true);
    assert stopped && !b.managerPresent && b.serialPorts == map[];
    assert b.managerCalls == [AddDriver("/dev/ttyACM0"), RemoveDriver("/dev/ttyACM0")];
  }

  /** A Timeout with home id 0 fails the pending setup and removes its driver. */
  method DriverTimeout() {
    var b := new OpenZWaveBackend(true);
    var ok := b.StartNetwork(1, "/dev/ttyACM0", true);
    b.OnZWaveNotification(0, 0, Timeout);
    assert b.pendingNetworkSetups == [] && b.serialPorts == map[1 := "/dev/ttyACM0"];
    assert b.managerCalls == [AddDriver("/dev/ttyACM0"), RemoveDriver("/dev/ttyACM0")];
    assert b.events == [NetworkFailed(1)];
  }

  /** One network, uuid 1 on /dev/ttyACM0, whose driver came up with home id 7. */
  method ReadyNetwork(ozw16: bool) returns (b: OpenZWaveBackend)
    ensures fresh(b) && b.Valid() && b.ozw16 == ozw16
    ensures b.homeIds == map[1 := 7] && 7 in b.homeIds.Values && KeyOf(b.homeIds, 7) == 1
    ensures b.pendingNetworkSetups == [] && b.serialPorts == map[1 := "/dev/ttyACM0"]
    ensures b.pendingControllerCommands == map[] && b.controllerCommand == NoCommand
    ensures b.replies == [] && b.events == [NetworkStarted(1)]
    ensures b.managerCalls == [AddDriver("/dev/ttyACM0")]
  {
    b := new OpenZWaveBackend(ozw16);
    var ok := b.StartNetwork(1, "/dev/ttyACM0", true);
    b.OnDriverReady(7);
    KeyOfUnique(b.homeIds, 1);
  }

  /** ReadyNetwork with a request of the given kind pending on it. */
  method RequestPending(ozw16: bool, req: CommandRequest) returns (b: OpenZWaveBackend)
    ensures fresh(b) && b.Valid() && b.ozw16 == ozw16
    ensures b.homeIds == map[1 := 7] && 7 in b.homeIds.Values && KeyOf(b.homeIds, 7) == 1
    ensures b.pendingControllerCommands == map[7 := 0] && b.replies == [Running]
    ensures b.controllerCommand == RememberRequest(ozw16, req, NoCommand)
    ensures b.events == [NetworkStarted(1)]
    ensures b.managerCalls == [AddDriver("/dev/ttyACM0"), RequestCall(7, req)]
  {
    b := ReadyNetwork(ozw16);
    var r := b.RequestControllerCommand(1, req, true);
  }

  /** Adding a node: the reply stays pending until the controller waits for the user. */
  method AddNodeWaiting() {
    var b := RequestPending(true, AddNodeRequest(true));
    ghost var effect := ControllerCommandEffect(true, NoCommand, map[7 := 0], 1, 7, AddDevice, Waiting);
    assert effect == CommandEffect(Some(Resolution(0, NoError)), map[], NoCommand,
                                   [WaitingForNodeAdditionChanged(1, true)]);
    b.OnControllerCommand(7, AddDevice, Waiting);
    assert b.replies == [Finished(NoError)] && b.pendingControllerCommands == map[];
    assert b.events == [NetworkStarted(1), WaitingForNodeAdditionChanged(1, true)];
  }

  /** A second request while one is pending is refused and leaves the first alone. */
  method SecondRequestInUse() {
    var b := RequestPending(true, AddNodeRequest(true));
    var busy := b.RequestControllerCommand(1, RemoveNodeRequest, true);
    assert b.replies == [Running, Finished(InUse)] && b.pendingControllerCommands == map[7 := 0];
    assert b.managerCalls == [AddDriver("/dev/ttyACM0"), AddNodeCall(7, true)];
  }

  /** Completed lowers the waiting signal and leaves the replies alone. */
  method AddNodeCompleted() {
    var b := ReadyNetwork(true);
    ghost var effect := ControllerCommandEffect(true, NoCommand, map[], 1, 7, AddDevice, Completed);
    assert effect == CommandEffect(None, map[], NoCommand, [WaitingForNodeAdditionChanged(1, false)]);
    b.OnControllerCommand(7, AddDevice, Completed);
    assert b.events == [NetworkStarted(1), WaitingForNodeAdditionChanged(1, false)];
  }

  /** A controller error finishes the pending reply with BackendError. */
  method RemoveNodeFails() {
    var b := RequestPending(true, RemoveNodeRequest);
    ghost var effect := ControllerCommandEffect(true, NoCommand, map[7 := 0], 1, 7, RemoveDevice, Failed);
    assert effect == CommandEffect(Some(Resolution(0, BackendError)), map[], NoCommand, []);
    b.OnControllerCommand(7, RemoveDevice, Failed);
    assert b.replies == [Finished(BackendError)] && b.pendingControllerCommands == map[];
    assert b.events == [NetworkStarted(1)];
  }

  /** An unknown network and a rejected Manager call finish the reply at once. */
  method RequestsThatFailAtOnce() {
    var b := new OpenZWaveBackend(true);
    var r1 := b.RequestControllerCommand(1, AddNodeRequest(false), true);
    assert b.replies == [Finished(NetworkUuidNotFound)] && b.managerCalls == [];
    b := ReadyNetwork(true);
    var r2 := b.RequestControllerCommand(1, RemoveFailedNodeRequest(4), false);
    assert b.replies == [Finished(BackendError)] && b.pendingControllerCommands == map[];
    assert b.managerCalls == [AddDriver("/dev/ttyACM0"), RemoveFailedNodeCall(7, 4)];
  }

  /** Cancelling answers at once and leaves the pending reply running. */
  method CancelLeavesPendingReply() {
    var b := RequestPending(true, AddNodeRequest(false));
    var c := b.CancelPendingOperation(1, true);
    assert b.replies == [Running, Finished(NoError)] && b.pendingControllerCommands == map[7 := 0];
  }

  /** Two networks before 1.6, uuids 1 and 2, whose drivers came up with home ids 7 and 9. */
  method Pre16TwoNetworks() returns (b: OpenZWaveBackend)
    ensures fresh(b) && b.Valid() && !b.ozw16
    ensures b.homeIds == map[1 := 7, 2 := 9] && 7 in b.homeIds.Values && KeyOf(b.homeIds, 7) == 1
    ensures b.pendingControllerCommands == map[] && b.replies == [] && b.controllerCommand == NoCommand
  {
    b := new OpenZWaveBackend(false);
    var ok1 := b.StartNetwork(1, "/dev/ttyACM0", true);
    var ok2 := b.StartNetwork(2, "/dev/ttyUSB0", true);
    b.OnDriverReady(7);
    b.OnDriverReady(9);
    assert b.homeIds == map[1 := 7, 2 := 9];
    KeyOfUnique(b.homeIds, 1);
  }

  /** Pre16TwoNetworks with a removal pending on the second network. */
  method Pre16RemovalOnSecondNetwork() returns (b: OpenZWaveBackend)
    ensures fresh(b) && b.Valid() && !b.ozw16
    ensures b.homeIds == map[1 := 7, 2 := 9] && 7 in b.homeIds.Values && KeyOf(b.homeIds, 7) == 1
    ensures b.pendingControllerCommands == map[9 := 0] && b.replies == [Running]
    ensures b.controllerCommand == RemoveDevice
  {
    b := Pre16TwoNetworks();
    var remove := b.RequestControllerCommand(2, RemoveNodeRequest, true);
  }

  /**
   * Before 1.6 the remembered kind is shared by all networks: a removal
   * started on one network makes an add reported on another read as a removal.
   */
  method Pre16RememberedKindIsShared() {
    var b := Pre16RemovalOnSecondNetwork();
    ghost var effect := ControllerCommandEffect(false, RemoveDevice, map[9 := 0], 1, 7, AddDevice, Waiting);
    assert effect == CommandEffect(None, map[9 := 0], RemoveDevice, [WaitingForNodeRemovalChanged(1, true)]);
    b.OnControllerCommand(7, AddDevice, Waiting);
    assert b.events[|b.events| - 1] == WaitingForNodeRemovalChanged(1, true);
    assert b.replies == [Running];
  }

  /** A Dead node is reported failed and unreachable; an unknown home id is ignored. */
  method DeadNode() {
    var b := ReadyNetwork(true);
    b.OnZWaveNotification(7, 3, Dead);
    assert b.events[1..] == [NodeFailedStatus(1, 3, true), NodeReachableStatus(1, 3, false)];
    b.OnZWaveNotification(8, 3, Alive);
    assert |b.events| == 3;
  }
}
