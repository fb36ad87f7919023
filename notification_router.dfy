/**
 * The notification router: how ozwCallback classifies a raw OpenZWave
 * notification and which slot of the backend it queues, with which
 * arguments; and the table by which onZWaveNotification turns a status code
 * into reachable / failed / sleep signals.
 */
module NotificationRouter {
  import opened ZWaveTypes
  import opened ValueCodec
  import opened Signals

  /** OpenZWave's Notification::NotificationType, as far as the callback distinguishes it. */
  datatype NotificationType =
    | NotifyValueAdded | NotifyValueRemoved | NotifyValueChanged | NotifyValueRefreshed
    | NotifyGroup | NotifyNodeNew | NotifyNodeAdded | NotifyNodeRemoved
    | NotifyNodeProtocolInfo | NotifyNodeNaming | NotifyNodeEvent
    | NotifyDriverReady | NotifyDriverFailed | NotifyDriverRemoved
    | NotifyEssentialNodeQueriesComplete | NotifyNodeQueriesComplete
    | NotifyAwakeNodesQueried | NotifyAllNodesQueriedSomeDead | NotifyAllNodesQueried
    | NotifyNotification | NotifyControllerCommand | NotifyUserAlerts
    | NotifyOther(code: int)   // every type the callback has no case for

  /**
   * What the callback reads from a notification: its type, home and node,
   * the value id, the serial port (GetComPort, OpenZWave 1.6), and the raw
   * numbers GetNotification, GetEvent and GetCommand (1.6) answer.
   */
  datatype RawNotification = RawNotification(
    kind: NotificationType, homeId: HomeId, nodeId: NodeId, value: ValueDescriptor,
    comPort: string, notification: int, event: int, command: int)

  /** The slot invocation ozwCallback queues for a notification, or NoSlot when it only logs. */
  datatype SlotCall =
    | CallValueAdded(homeId: HomeId, node: NodeId, value: ValueDescriptor)
    | CallValueChanged(homeId: HomeId, node: NodeId, value: ValueDescriptor)
    | CallValueRemoved(homeId: HomeId, node: NodeId, valueId: ValueId)
    | CallNodeNaming(homeId: HomeId, node: NodeId)
    | CallDriverReady(homeId: HomeId)
    | CallDriverFailed(port: Option<string>)   // the serial port with 1.6, nothing before
    | CallNewNode(homeId: HomeId, node: NodeId)
    | CallNodeAdded(homeId: HomeId, node: NodeId)
    | CallNodeRemoved(homeId: HomeId, node: NodeId)
    | CallNodeProtocolInfo(homeId: HomeId, node: NodeId)
    | CallZWaveNotification(homeId: HomeId, node: NodeId, code: NotificationCode)
    | CallEssentialNodeQueriesComplete(homeId: HomeId)
    | CallNodeQueryComplete(homeId: HomeId, node: NodeId)
    | CallAwakeNodesQueried(homeId: HomeId)
    | CallAllNodesQueried(homeId: HomeId)
    | CallDriverRemoved(homeId: HomeId)
    | CallControllerCommand(homeId: HomeId, command: ControllerCommand, state: ControllerState)
    | NoSlot

  /** The notification types the callback only logs. */
  predicate LoggedOnly(t: NotificationType) {
    t.NotifyGroup? || t.NotifyNodeEvent? || t.NotifyUserAlerts? || t.NotifyOther?
  }

  /** ozwCallback's switch over the notification type. */
  function Route(ozw16: bool, n: RawNotification): (c: SlotCall)
    ensures c.NoSlot? <==> LoggedOnly(n.kind)
    ensures !c.NoSlot? && !c.CallDriverFailed? ==> c.homeId == n.homeId
    ensures c.CallValueAdded? <==> n.kind == NotifyValueAdded
    ensures c.CallValueChanged? <==> n.kind in {NotifyValueChanged, NotifyValueRefreshed}
    ensures c.CallValueRemoved? <==> n.kind == NotifyValueRemoved
    ensures c.CallValueAdded? || c.CallValueChanged? ==> c.node == n.nodeId && c.value == n.value
    ensures c.CallValueRemoved? ==> c.node == n.nodeId && c.valueId == n.value.id
    ensures (c.CallNodeNaming? || c.CallNewNode? || c.CallNodeAdded? || c.CallNodeRemoved? ||
             c.CallNodeProtocolInfo? || c.CallNodeQueryComplete?) ==> c.node == n.nodeId
    ensures c.CallNodeNaming? <==> n.kind == NotifyNodeNaming
    ensures c.CallNodeAdded? <==> n.kind == NotifyNodeAdded
    ensures c.CallNewNode? <==> n.kind == NotifyNodeNew
    ensures c.CallNodeRemoved? <==> n.kind == NotifyNodeRemoved
    ensures c.CallNodeProtocolInfo? <==> n.kind == NotifyNodeProtocolInfo
    ensures c.CallZWaveNotification? <==> n.kind == NotifyNotification
    ensures c.CallEssentialNodeQueriesComplete? <==> n.kind == NotifyEssentialNodeQueriesComplete
    ensures c.CallNodeQueryComplete? <==> n.kind == NotifyNodeQueriesComplete
    ensures c.CallAwakeNodesQueried? <==> n.kind == NotifyAwakeNodesQueried
    ensures c.CallAllNodesQueried? <==> n.kind in {NotifyAllNodesQueried, NotifyAllNodesQueriedSomeDead}
    ensures c.CallDriverReady? <==> n.kind == NotifyDriverReady
    ensures c.CallDriverRemoved? <==> n.kind == NotifyDriverRemoved
    ensures c.CallDriverFailed? <==> n.kind == NotifyDriverFailed
    ensures c.CallDriverFailed? ==> (c.port.Some? <==> ozw16) && (ozw16 ==> c.port.value == n.comPort)
    ensures c.CallZWaveNotification? ==>
      c.node == n.nodeId && c.code == NotificationCodeFromValue(n.notification)
    ensures c.CallControllerCommand? <==> n.kind == NotifyControllerCommand
    ensures c.CallControllerCommand? ==>
      c.state == ControllerStateFromValue(n.event) &&
      c.command == ControllerCommandFromValue(if ozw16 then n.command else n.event)
  {
    match n.kind
    case NotifyValueAdded => CallValueAdded(n.homeId, n.nodeId, n.value)
    case NotifyValueChanged => CallValueChanged(n.homeId, n.nodeId, n.value)
    case NotifyValueRefreshed => CallValueChanged(n.homeId, n.nodeId, n.value)
    case NotifyValueRemoved => CallValueRemoved(n.homeId, n.nodeId, n.value.id)
    case NotifyGroup => NoSlot
    case NotifyNodeNaming => CallNodeNaming(n.homeId, n.nodeId)
    case NotifyDriverReady => CallDriverReady(n.homeId)
    case NotifyDriverFailed => CallDriverFailed(if ozw16 then Some(n.comPort) else None)
    case NotifyNodeNew => CallNewNode(n.homeId, n.nodeId)
    case NotifyNodeAdded => CallNodeAdded(n.homeId, n.nodeId)
    case NotifyNodeRemoved => CallNodeRemoved(n.homeId, n.nodeId)
    case NotifyNodeProtocolInfo => CallNodeProtocolInfo(n.homeId, n.nodeId)
    case NotifyNodeEvent => NoSlot
    case NotifyNotification =>
      CallZWaveNotification(n.homeId, n.nodeId, NotificationCodeFromValue(n.notification))
    case NotifyEssentialNodeQueriesComplete => CallEssentialNodeQueriesComplete(n.homeId)
    case NotifyNodeQueriesComplete => CallNodeQueryComplete(n.homeId, n.nodeId)
    case NotifyAwakeNodesQueried => CallAwakeNodesQueried(n.homeId)
    case NotifyAllNodesQueriedSomeDead => CallAllNodesQueried(n.homeId)
    case NotifyAllNodesQueried => CallAllNodesQueried(n.homeId)
    case NotifyDriverRemoved => CallDriverRemoved(n.homeId)
    case NotifyControllerCommand =>
      var command := if ozw16 then n.command else n.event;
      CallControllerCommand(n.homeId, ControllerCommandFromValue(command),
                            ControllerStateFromValue(n.event))
    case NotifyUserAlerts => NoSlot
    case NotifyOther(_) => NoSlot
  }

  /** A refreshed value is delivered exactly as a changed one. */
  lemma RefreshedRoutesAsChanged(ozw16: bool, n: RawNotification)
    ensures Route(ozw16, n.(kind := NotifyValueRefreshed)) == Route(ozw16, n.(kind := NotifyValueChanged))
  {
  }

  /**
   * Before 1.6 the command and the state are both cast from GetEvent, so they
   * always carry the same number (a Completed state arrives with command 7,
   * ReplaceFailedNode); onControllerCommand then replaces the command anyway.
   */
  lemma Pre16CommandMirrorsState(n: RawNotification)
    requires n.kind == NotifyControllerCommand
    ensures var c := Route(false, n);
      ControllerCommandValue(c.command) == ControllerStateValue(c.state) == n.event
  {
  }

  /** The routing of every type except DriverFailed and ControllerCommand is the same in both builds. */
  lemma RouteBuildIndependent(n: RawNotification)
    requires n.kind != NotifyDriverFailed && n.kind != NotifyControllerCommand
    ensures Route(true, n) == Route(false, n)
  {
  }

  /** The signals onZWaveNotification emits for a known network, by status code. */
  function StatusEvents(code: NotificationCode, network: Uuid, node: NodeId): (es: seq<Event>)
    ensures |es| <= 2
    ensures forall e :: e in es ==> e.network == network
    ensures forall r :: NodeReachableStatus(network, node, r) in es <==>
      (code in {Dead, Timeout} && !r) || (code == Alive && r)
    ensures forall f :: NodeFailedStatus(network, node, f) in es <==> code == Dead && f
    ensures forall s :: NodeSleepStatus(network, node, s) in es <==>
      (code == Sleep && s) || (code == Awake && !s)
    ensures forall e :: e in es ==>
      (e.NodeReachableStatus? || e.NodeFailedStatus? || e.NodeSleepStatus?) && e.node == node
    ensures code == Dead ==> |es| == 2 && es[0].NodeFailedStatus?
    ensures code in {Timeout, Alive, Sleep, Awake} ==> |es| == 1
  {
    match code
    case Dead => [NodeFailedStatus(network, node, true), NodeReachableStatus(network, node, false)]
    case Timeout => [NodeReachableStatus(network, node, false)]
    case Alive => [NodeReachableStatus(network, node, true)]
    case Sleep => [NodeSleepStatus(network, node, true)]
    case Awake => [NodeSleepStatus(network, node, false)]
    case _ => []
  }

  /** Raw codes outside the enumeration, MsgComplete and NoOperation raise no signal. */
  lemma SilentCodes(raw: int, network: Uuid, node: NodeId)
    requires !(1 <= raw <= 6) || raw == 2
    ensures StatusEvents(NotificationCodeFromValue(raw), network, node) == []
  {
  }
}
