/**
 * Identifiers, error codes and the three enumerations the OpenZWave backend
 * copies from OpenZWave (notification codes, controller commands, controller
 * states), with the numbering that lets raw codes be cast directly.
 */
module ZWaveTypes {

  datatype Option<+T> = None | Some(value: T)

  /** Application-chosen network identifier (a QUuid in the source). */
  type Uuid = nat
  /** Transport-assigned network handle (quint32). */
  type HomeId = x: int | 0 <= x < 0x1_0000_0000
  /** Node id inside one network (quint8). */
  type NodeId = x: int | 0 <= x < 0x100
  /** 64-bit value id reported by OpenZWave (quint64). */
  type ValueId = x: int | 0 <= x < 0x1_0000_0000_0000_0000

  /** The outcomes a reply of a controller command can finish with. */
  datatype ZWaveError = NoError | NetworkUuidNotFound | InUse | BackendError

  // ---------------------------------------------------------------------------
  // NotificationCode: OpenZWave's Notification codes, 0..6.

  datatype NotificationCode =
    | MsgComplete | Timeout | NoOperation | Awake | Sleep | Dead | Alive
    | UnknownCode(code: int)   // a raw value outside the enumeration

  function NotificationCodeValue(c: NotificationCode): int {
    match c
    case MsgComplete => 0
    case Timeout => 1
    case NoOperation => 2
    case Awake => 3
    case Sleep => 4
    case Dead => 5
    case Alive => 6
    case UnknownCode(n) => n
  }

  /** An UnknownCode never carries a value that a named code has. */
  predicate NotificationCodeValid(c: NotificationCode) {
    c.UnknownCode? ==> !(0 <= c.code <= 6)
  }

  /** static_cast<NotificationCode>(raw) */
  function NotificationCodeFromValue(n: int): (c: NotificationCode)
    ensures NotificationCodeValid(c)
    ensures NotificationCodeValue(c) == n
    ensures c.UnknownCode? <==> !(0 <= n <= 6)
  {
    if n == 0 then MsgComplete
    else if n == 1 then Timeout
    else if n == 2 then NoOperation
    else if n == 3 then Awake
    else if n == 4 then Sleep
    else if n == 5 then Dead
    else if n == 6 then Alive
    else UnknownCode(n)
  }

  lemma NotificationCodeRoundTrip(c: NotificationCode)
    requires NotificationCodeValid(c)
    ensures NotificationCodeFromValue(NotificationCodeValue(c)) == c
  {
  }

  // ---------------------------------------------------------------------------
  // ControllerCommand: OpenZWave's controller commands, 0..16.

  datatype ControllerCommand =
    | NoCommand | AddDevice | CreateNewPrimary | ReceiveConfiguration | RemoveDevice
    | RemoveFailedNode | HasNodeFailed | ReplaceFailedNode | TransferPrimaryRole
    | RequestNetworkUpdate | RequestNodeNeighborUpdate | AssignReturnRoute
    | DeleteAllReturnRoutes | SendNodeInformation | ReplicationSend | CreateButton
    | DeleteButton
    | UnknownCommand(code: int)

  function ControllerCommandValue(c: ControllerCommand): int {
    match c
    case NoCommand => 0
    case AddDevice => 1
    case CreateNewPrimary => 2
    case ReceiveConfiguration => 3
    case RemoveDevice => 4
    case RemoveFailedNode => 5
    case HasNodeFailed => 6
    case ReplaceFailedNode => 7
    case TransferPrimaryRole => 8
    case RequestNetworkUpdate => 9
    case RequestNodeNeighborUpdate => 10
    case AssignReturnRoute => 11
    case DeleteAllReturnRoutes => 12
    case SendNodeInformation => 13
    case ReplicationSend => 14
    case CreateButton => 15
    case DeleteButton => 16
    case UnknownCommand(n) => n
  }

  predicate ControllerCommandValid(c: ControllerCommand) {
    c.UnknownCommand? ==> !(0 <= c.code <= 16)
  }

  /** static_cast<ControllerCommand>(raw) */
  function ControllerCommandFromValue(n: int): (c: ControllerCommand)
    ensures ControllerCommandValid(c)
    ensures ControllerCommandValue(c) == n
    ensures c.UnknownCommand? <==> !(0 <= n <= 16)
  {
    if n == 0 then NoCommand
    else if n == 1 then AddDevice
    else if n == 2 then CreateNewPrimary
    else if n == 3 then ReceiveConfiguration
    else if n == 4 then RemoveDevice
    else if n == 5 then RemoveFailedNode
    else if n == 6 then HasNodeFailed
    else if n == 7 then ReplaceFailedNode
    else if n == 8 then TransferPrimaryRole
    else if n == 9 then RequestNetworkUpdate
    else if n == 10 then RequestNodeNeighborUpdate
    else if n == 11 then AssignReturnRoute
    else if n == 12 then DeleteAllReturnRoutes
    else if n == 13 then SendNodeInformation
    else if n == 14 then ReplicationSend
    else if n == 15 then CreateButton
    else if n == 16 then DeleteButton
    else UnknownCommand(n)
  }

  lemma ControllerCommandRoundTrip(c: ControllerCommand)
    requires ControllerCommandValid(c)
    ensures ControllerCommandFromValue(ControllerCommandValue(c)) == c
  {
  }

  // ---------------------------------------------------------------------------
  // ControllerState: OpenZWave's controller states, 0..10.

  datatype ControllerState =
    | Normal | Starting | Cancel | Error | Waiting | Sleeping | InProgress
    | Completed | Failed | NodeOK | NodeFailed
    | UnknownState(code: int)

  function ControllerStateValue(s: ControllerState): int {
    match s
    case Normal => 0
    case Starting => 1
    case Cancel => 2
    case Error => 3
    case Waiting => 4
    case Sleeping => 5
    case InProgress => 6
    case Completed => 7
    case Failed => 8
    case NodeOK => 9
    case NodeFailed => 10
    case UnknownState(n) => n
  }

  predicate ControllerStateValid(s: ControllerState) {
    s.UnknownState? ==> !(0 <= s.code <= 10)
  }

  /** static_cast<ControllerState>(raw) */
  function ControllerStateFromValue(n: int): (s: ControllerState)
    ensures ControllerStateValid(s)
    ensures ControllerStateValue(s) == n
    ensures s.UnknownState? <==> !(0 <= n <= 10)
  {
    if n == 0 then Normal
    else if n == 1 then Starting
    else if n == 2 then Cancel
    else if n == 3 then Error
    else if n == 4 then Waiting
    else if n == 5 then Sleeping
    else if n == 6 then InProgress
    else if n == 7 then Completed
    else if n == 8 then Failed
    else if n == 9 then NodeOK
    else if n == 10 then NodeFailed
    else UnknownState(n)
  }

  lemma ControllerStateRoundTrip(s: ControllerState)
    requires ControllerStateValid(s)
    ensures ControllerStateFromValue(ControllerStateValue(s)) == s
  {
  }

  // ---------------------------------------------------------------------------
  // Reverse lookup in a uuid-keyed hash (QHash::key).

  /** x is the least element of s. */
  predicate IsLeast(x: Uuid, s: set<Uuid>) {
    x in s && forall y :: y in s ==> x <= y
  }

  /** Every non-empty set of uuids has a least element. */
  lemma {:induction false} LeastExists(s: set<Uuid>)
    requires s != {}
    ensures exists x :: IsLeast(x, s)
  {
    var x :| x in s;
    if s == {x} {
      assert IsLeast(x, s);
    } else {
      LeastExists(s - {x});
      var m :| IsLeast(m, s - {x});
      var least := if x < m then x else m;
      forall y | y in s
        ensures least <= y
      {
        if y != x {
          assert y in s - {x};
        }
      }
      assert IsLeast(least, s);
    }
  }

  /**
   * QHash::key(v): a key that maps to v. Qt returns the first one in hash-bucket
   * order, which is unspecified; this model fixes that choice as the least uuid.
   */
  function KeyOf<V(==)>(m: map<Uuid, V>, v: V): (u: Uuid)
    requires v in m.Values
    ensures u in m && m[u] == v
    ensures forall w :: w in m && m[w] == v ==> u <= w
  {
    var keys := set w | w in m && m[w] == v;
    var k :| k in m && m[k] == v;
    assert k in keys;
    LeastExists(keys);
    var u :| IsLeast(u, keys);
    assert forall w :: w in m && m[w] == v ==> w in keys;
    u
  }

  /** A key that is the only one mapped to its value is KeyOf's answer. */
  lemma KeyOfUnique<V>(m: map<Uuid, V>, u: Uuid)
    requires u in m
    requires forall w :: w in m && m[w] == m[u] ==> w == u
    ensures KeyOf(m, m[u]) == u
  {
  }

  /** QHash::value(k): the mapped value, or the default-constructed one. */
  function ValueOr<K, V>(m: map<K, V>, k: K, default: V): (v: V)
    ensures k in m ==> v == m[k]
    ensures k !in m ==> v == default
  {
    if k in m then m[k] else default
  }
}
