/**
 * The controller-command correlator: the requests addNode, removeNode and
 * removeFailedNode make, and how onControllerCommand matches a command
 * notification with the one reply outstanding for its home id, resolves it,
 * and raises or clears the waiting-for-addition / waiting-for-removal signals.
 * Before OpenZWave 1.6 the notification carries no usable command, so the
 * backend remembers the kind of the last add or remove it started.
 */
module CommandCorrelator {
  import opened ZWaveTypes
  import opened Signals

  /** A reply handed to a caller: an index into the backend's reply table. */
  type ReplyId = nat

  /** A reply is running until it is resolved, once, with an error code. */
  datatype ReplyStatus = Running | Finished(error: ZWaveError)

  /** The three controller commands a caller can request. */
  datatype CommandRequest =
    | AddNodeRequest(useSecurity: bool)
    | RemoveNodeRequest
    | RemoveFailedNodeRequest(node: NodeId)

  /** The Manager call that starts a request on a network. */
  function RequestCall(homeId: HomeId, req: CommandRequest): (call: ManagerCall)
    ensures req.AddNodeRequest? <==> call.AddNodeCall?
    ensures req.RemoveNodeRequest? <==> call.RemoveNodeCall?
    ensures req.RemoveFailedNodeRequest? <==> call.RemoveFailedNodeCall?
    ensures call.homeId == homeId
    ensures req.AddNodeRequest? ==> call.useSecurity == req.useSecurity
    ensures req.RemoveFailedNodeRequest? ==> call.node == req.node
  {
    match req
    case AddNodeRequest(secure) => AddNodeCall(homeId, secure)
    case RemoveNodeRequest => RemoveNodeCall(homeId)
    case RemoveFailedNodeRequest(node) => RemoveFailedNodeCall(homeId, node)
  }

  /**
   * The remembered kind once a request has passed its checks: before 1.6
   * addNode remembers AddDevice and removeNode RemoveDevice, whatever the
   * Manager then answers; removeFailedNode and every 1.6 build leave it alone.
   */
  function RememberRequest(ozw16: bool, req: CommandRequest, remembered: ControllerCommand): (r: ControllerCommand)
    ensures ozw16 || req.RemoveFailedNodeRequest? ==> r == remembered
    ensures !ozw16 && req.AddNodeRequest? ==> r == AddDevice
    ensures !ozw16 && req.RemoveNodeRequest? ==> r == RemoveDevice
  {
    if ozw16 then remembered
    else match req
      case AddNodeRequest(_) => AddDevice
      case RemoveNodeRequest => RemoveDevice
      case RemoveFailedNodeRequest(_) => remembered
  }

  /** The kind onControllerCommand acts on: the reported one with 1.6, the remembered one before. */
  function EffectiveCommand(ozw16: bool, remembered: ControllerCommand, reported: ControllerCommand): ControllerCommand {
    if ozw16 then reported else remembered
  }

  /** The kinds onControllerCommand correlates with a pending reply. */
  predicate Tracked(command: ControllerCommand) {
    command == AddDevice || command == RemoveDevice
  }

  /** The states that end a tracked command with an error. */
  predicate FailureState(state: ControllerState) {
    state == Error || state == Failed
  }

  /** The states in which a tracked command has started and waits for the user. */
  predicate WaitingState(state: ControllerState) {
    state == Waiting || state == Normal
  }

  /** The level signal of a tracked kind. */
  function WaitingSignal(command: ControllerCommand, network: Uuid, waiting: bool): (e: Event)
    requires Tracked(command)
    ensures command == AddDevice <==> e.WaitingForNodeAdditionChanged?
    ensures command == RemoveDevice <==> e.WaitingForNodeRemovalChanged?
    ensures e.network == network && e.waiting == waiting
  {
    if command == AddDevice then WaitingForNodeAdditionChanged(network, waiting)
    else WaitingForNodeRemovalChanged(network, waiting)
  }

  /** A reply taken out of the pending table and the error it is finished with. */
  datatype Resolution = Resolution(reply: ReplyId, error: ZWaveError)

  /** What one controller-command notification for a known network does. */
  datatype CommandEffect = CommandEffect(
    resolved: Option<Resolution>,
    pending: map<HomeId, ReplyId>,
    remembered: ControllerCommand,
    events: seq<Event>)

  /** take(homeId), if present, finished with error. */
  function Take(pending: map<HomeId, ReplyId>, homeId: HomeId, error: ZWaveError): Option<Resolution> {
    if homeId in pending then Some(Resolution(pending[homeId], error)) else None
  }

  /**
   * onControllerCommand for a network the backend knows (uuid `network`,
   * `homeId`), given the remembered kind and the pending replies before it.
   */
  function ControllerCommandEffect(
    ozw16: bool, remembered: ControllerCommand, pending: map<HomeId, ReplyId>,
    network: Uuid, homeId: HomeId, reported: ControllerCommand, state: ControllerState): (e: CommandEffect)
    // the reply resolved is the one pending for this home id, and it leaves the table
    ensures e.resolved.Some? ==> homeId in pending && e.resolved.value.reply == pending[homeId]
    ensures e.resolved.Some? <==>
      homeId in pending && Tracked(EffectiveCommand(ozw16, remembered, reported)) &&
      (FailureState(state) || WaitingState(state))
    ensures e.resolved.Some? ==> (e.resolved.value.error == BackendError <==> FailureState(state))
    ensures e.resolved.Some? ==> (e.resolved.value.error == NoError <==> WaitingState(state))
    ensures e.pending == if e.resolved.Some? then pending - {homeId} else pending
  {
    var command := EffectiveCommand(ozw16, remembered, reported);
    var reset := if ozw16 then remembered else NoCommand;
    if Tracked(command) then
      if FailureState(state) then
        CommandEffect(Take(pending, homeId, BackendError), pending - {homeId}, reset, [])
      else if WaitingState(state) then
        CommandEffect(Take(pending, homeId, NoError), pending - {homeId}, remembered,
                      [WaitingSignal(command, network, true)])
      else if state == Completed then
        CommandEffect(None, pending, reset, [WaitingSignal(command, network, false)])
      else
        CommandEffect(None, pending, remembered, [])
    else if state == Completed then
      CommandEffect(None, pending, remembered,
                    [WaitingForNodeAdditionChanged(network, false), WaitingForNodeRemovalChanged(network, false)])
    else
      CommandEffect(None, pending, remembered, [])
  }

  /** The remembered kind: untouched with 1.6, cleared when a tracked command ends before it. */
  lemma EffectRemembered(
    ozw16: bool, remembered: ControllerCommand, pending: map<HomeId, ReplyId>,
    network: Uuid, homeId: HomeId, reported: ControllerCommand, state: ControllerState)
    ensures var e := ControllerCommandEffect(ozw16, remembered, pending, network, homeId, reported, state);
      ozw16 ==> e.remembered == remembered
    ensures var e := ControllerCommandEffect(ozw16, remembered, pending, network, homeId, reported, state);
      !ozw16 && Tracked(remembered) && (FailureState(state) || state == Completed) ==> e.remembered == NoCommand
    ensures var e := ControllerCommandEffect(ozw16, remembered, pending, network, homeId, reported, state);
      var command := EffectiveCommand(ozw16, remembered, reported);
      !(Tracked(command) && (FailureState(state) || state == Completed)) ==> e.remembered == remembered
  {
  }

  /**
   * The level signals: only waiting-for-addition / removal signals of this
   * network, raised exactly when a tracked command waits for the user, and
   * some signal exactly on Completed or on such a wait; a tracked kind raises
   * or lowers its own signal and no other.
   */
  lemma EffectSignals(
    ozw16: bool, remembered: ControllerCommand, pending: map<HomeId, ReplyId>,
    network: Uuid, homeId: HomeId, reported: ControllerCommand, state: ControllerState)
    ensures var e := ControllerCommandEffect(ozw16, remembered, pending, network, homeId, reported, state);
      forall ev :: ev in e.events ==>
        ev.network == network && (ev.WaitingForNodeAdditionChanged? || ev.WaitingForNodeRemovalChanged?)
    ensures var e := ControllerCommandEffect(ozw16, remembered, pending, network, homeId, reported, state);
      var command := EffectiveCommand(ozw16, remembered, reported);
      forall ev :: ev in e.events ==> (ev.waiting <==> Tracked(command) && WaitingState(state))
    ensures var e := ControllerCommandEffect(ozw16, remembered, pending, network, homeId, reported, state);
      var command := EffectiveCommand(ozw16, remembered, reported);
      e.events == [] <==> !(state == Completed || (Tracked(command) && WaitingState(state)))
    ensures var e := ControllerCommandEffect(ozw16, remembered, pending, network, homeId, reported, state);
      var command := EffectiveCommand(ozw16, remembered, reported);
      Tracked(command) && WaitingState(state) ==> e.events == [WaitingSignal(command, network, true)]
    ensures var e := ControllerCommandEffect(ozw16, remembered, pending, network, homeId, reported, state);
      var command := EffectiveCommand(ozw16, remembered, reported);
      Tracked(command) && state == Completed ==> e.events == [WaitingSignal(command, network, false)]
  {
    var command := EffectiveCommand(ozw16, remembered, reported);
    if !Tracked(command) {
      UntrackedEffect(ozw16, remembered, pending, network, homeId, reported, state);
    }
  }

  /** An untracked kind only ever lowers both signals, on Completed. */
  lemma UntrackedEffect(
    ozw16: bool, remembered: ControllerCommand, pending: map<HomeId, ReplyId>, network: Uuid,
    homeId: HomeId, reported: ControllerCommand, state: ControllerState)
    requires !Tracked(EffectiveCommand(ozw16, remembered, reported))
    ensures ControllerCommandEffect(ozw16, remembered, pending, network, homeId, reported, state) ==
      CommandEffect(None, pending, remembered,
                    if state == Completed
                    then [WaitingForNodeAdditionChanged(network, false), WaitingForNodeRemovalChanged(network, false)]
                    else [])
  {
  }

  /** Before 1.6 the reported command makes no difference at all. */
  lemma Pre16IgnoresReportedCommand(
    remembered: ControllerCommand, pending: map<HomeId, ReplyId>, network: Uuid, homeId: HomeId,
    c1: ControllerCommand, c2: ControllerCommand, state: ControllerState)
    ensures ControllerCommandEffect(false, remembered, pending, network, homeId, c1, state) ==
            ControllerCommandEffect(false, remembered, pending, network, homeId, c2, state)
  {
  }

  /**
   * With 1.6 a notification about a RemoveFailedNode command never resolves a
   * reply: the one removeFailedNode registered stays pending.
   */
  lemma RemoveFailedNodeNeverResolved(
    pending: map<HomeId, ReplyId>, network: Uuid, homeId: HomeId, remembered: ControllerCommand,
    state: ControllerState)
    ensures var e := ControllerCommandEffect(true, remembered, pending, network, homeId, RemoveFailedNode, state);
      e.resolved.None? && e.pending == pending
  {
  }

  /**
   * Any untracked kind completing clears both waiting signals and resolves
   * nothing, so a waiting signal raised by an add or remove is always lowered
   * by the Completed that follows, whatever command it reports.
   */
  lemma CompletedLowersWaiting(
    ozw16: bool, remembered: ControllerCommand, pending: map<HomeId, ReplyId>,
    network: Uuid, homeId: HomeId, reported: ControllerCommand)
    ensures var e := ControllerCommandEffect(ozw16, remembered, pending, network, homeId, reported, Completed);
      var command := EffectiveCommand(ozw16, remembered, reported);
      e.resolved.None? && e.pending == pending &&
      (command == AddDevice || !Tracked(command) ==> WaitingForNodeAdditionChanged(network, false) in e.events) &&
      (command == RemoveDevice || !Tracked(command) ==> WaitingForNodeRemovalChanged(network, false) in e.events)
  {
  }

  // ---------------------------------------------------------------------------
  // The pending table: one reply per home id, and no reply under two home ids.

  predicate Injective(m: map<HomeId, ReplyId>) {
    forall a, b :: a in m && b in m && m[a] == m[b] ==> a == b
  }

  /** Taking a home id out of an injective table takes exactly its reply out of the values. */
  lemma RemoveKeyValues(m: map<HomeId, ReplyId>, k: HomeId)
    requires Injective(m)
    ensures Injective(m - {k})
    ensures k in m ==> (m - {k}).Values == m.Values - {m[k]}
    ensures k !in m ==> m - {k} == m
  {
    if k in m {
      var r := m - {k};
      forall v | v in m.Values - {m[k]}
        ensures v in r.Values
      {
        var a :| a in m && m[a] == v;
        assert a != k;
        assert r[a] == v;
      }
    }
  }

  /** Registering a fresh reply under a free home id adds exactly that reply to the values. */
  lemma AddKeyValues(m: map<HomeId, ReplyId>, k: HomeId, v: ReplyId)
    requires Injective(m) && k !in m && v !in m.Values
    ensures Injective(m[k := v])
    ensures m[k := v].Values == m.Values + {v}
  {
    var r := m[k := v];
    forall w | w in m.Values
      ensures w in r.Values
    {
      var a :| a in m && m[a] == w;
      assert r[a] == w;
    }
    assert r[k] == v;
  }

  /** The effect keeps the table injective and only ever shrinks it. */
  lemma EffectKeepsTable(
    ozw16: bool, remembered: ControllerCommand, pending: map<HomeId, ReplyId>,
    network: Uuid, homeId: HomeId, reported: ControllerCommand, state: ControllerState)
    requires Injective(pending)
    ensures var e := ControllerCommandEffect(ozw16, remembered, pending, network, homeId, reported, state);
      Injective(e.pending) && e.pending.Keys <= pending.Keys &&
      (e.resolved.Some? ==> e.pending.Values == pending.Values - {e.resolved.value.reply}) &&
      (e.resolved.None? ==> e.pending == pending)
  {
    RemoveKeyValues(pending, homeId);
  }
}
