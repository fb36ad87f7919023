/**
 * What the backend does to the outside: the signals it emits to the Z-Wave
 * manager of the host (the domain events) and the calls it makes into
 * OpenZWave's Manager that act on a network.
 */
module Signals {
  import opened ZWaveTypes
  import opened ValueCodec

  /** The signals of ZWaveBackend that this backend emits. */
  datatype Event =
    | NetworkStarted(network: Uuid)
    | NetworkFailed(network: Uuid)
    | NodeAdded(network: Uuid, node: NodeId)
    | NodeRemoved(network: Uuid, node: NodeId)
    | NodeDataChanged(network: Uuid, node: NodeId)
    | NodeInitialized(network: Uuid, node: NodeId)
    | ValueAdded(network: Uuid, node: NodeId, value: ZWaveValue)
    | ValueChanged(network: Uuid, node: NodeId, value: ZWaveValue)
    | ValueRemoved(network: Uuid, node: NodeId, valueId: ValueId)
    | NodeReachableStatus(network: Uuid, node: NodeId, reachable: bool)
    | NodeFailedStatus(network: Uuid, node: NodeId, failed: bool)
    | NodeSleepStatus(network: Uuid, node: NodeId, sleeping: bool)
    | NodeLinkQualityStatus(network: Uuid, node: NodeId, quality: int)
    | WaitingForNodeAdditionChanged(network: Uuid, waiting: bool)
    | WaitingForNodeRemovalChanged(network: Uuid, waiting: bool)

  /** Calls into OpenZWave's Manager that act on a network (reads are not listed). */
  datatype ManagerCall =
    | AddDriver(port: string)
    | RemoveDriver(port: string)
    | ResetController(homeId: HomeId)
    | AddNodeCall(homeId: HomeId, useSecurity: bool)
    | RemoveNodeCall(homeId: HomeId)
    | RemoveFailedNodeCall(homeId: HomeId, node: NodeId)
    | CancelControllerCommand(homeId: HomeId)
    | SetValueCall(homeId: HomeId, write: ValueWrite)
}
