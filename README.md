# OpenZWave backend: registry, command correlation and notification routing

This project models the bookkeeping layer of nymea's OpenZWave Z-Wave backend
(`OpenZWaveBackend`) and proves properties of it in Dafny. It covers five parts:

- **The network registry.**
  - It keeps the serial port and the OpenZWave home id of every network uuid.
  - It keeps the first-in-first-out list of networks whose driver was added and which wait for `DriverReady`.
  - It matches `DriverReady`, `DriverFailed` (before OpenZWave 1.6) and a home-id-0 `Timeout` against that list in order.
- **The controller-command correlator.**
  - `addNode`, `removeNode` and `removeFailedNode` hand out replies.
  - A hash keyed by home id holds at most one outstanding reply per home id.
  - `onControllerCommand` resolves that reply, exactly once, with `BackendError` or `NoError`.
  - It raises and lowers the waiting-for-addition and waiting-for-removal signals.
  - Before 1.6 the command kind is not in the notification, so the backend remembers the kind of the last add or remove it started.
- **The notification router.**
  - The `ozwCallback` switch decides which slot a raw OpenZWave notification is queued to, with which arguments.
  - The slots ignore unknown home ids and emit the domain signals.
  - A table maps status codes to reachable, failed and sleep signals.
- **The value codec.**
  - Decoding a list value's selected string into an index.
  - Choosing the write `setValue` issues, including the range check on a list selection.
- **Arithmetic and strings.**
  - The link-quality clamp and the RSSI averaging loop.
  - The loop that turns a 32-digit network key into `0x01, 0x02, …`.

The `OZW_16` build switch is a boolean, so both builds are verified:
- for the class, it is the constant `ozw16`, set by the constructor;
- for the pure functions, it is a parameter.

OpenZWave's `Manager` is not modelled:
- every answer it gives (AddDriver accepted, RemoveNode accepted, node statistics, value getters) is a parameter;
- every call that acts on a network is appended to the log `managerCalls`;
- every emitted signal is appended to `events`;
- replies are ids into `replies`, each `Running` until it is `Finished` once.

Files and modules:

- `types.dfy` (`ZWaveTypes`): identifiers, error codes, and the three enumerations with their raw numbering. It also holds `KeyOf`, the reverse lookup of a hash (`QHash::key`).
- `signals.dfy` (`Signals`): the signals emitted and the Manager calls logged.
- `value_codec.dfy` (`ValueCodec`): readValue's selection decoding and setValue's write selection.
- `link_quality.dfy` (`LinkQuality`): the link-quality clamp, the averaging loop as written (8-bit) and as intended (signed).
- `network_key.dfy` (`NetworkKey`): the key-formatting loop and its inverse.
- `notification_router.dfy` (`NotificationRouter`): the callback's routing and the status-code table.
- `command_correlator.dfy` (`CommandCorrelator`): the specification of one controller-command notification (`ControllerCommandEffect`) and its lemmas.
- `backend.dfy` (`Backend`): the class `OpenZWaveBackend`. It has the fields of the header and one method per operation and slot. Each is proved against the functions above, and the invariant `Valid()` is preserved:
  - a running reply is pending under exactly one home id;
  - the remembered kind is an add, a remove or nothing, and always nothing with 1.6;
  - the manager exists while a serial port is registered.

  Separately, each method that changes replies states, against the state before it, that a finished reply is never touched again.
- `scenarios.dfy` (`Scenarios`): short call sequences, whose outcomes follow from the class contracts alone. The sequences cover:
  - FIFO matching;
  - a stopped network still being matched;
  - the driver timeout;
  - add, remove and failure paths;
  - the pre-1.6 remembered kind being shared by all networks.

## Model

| member | source | states |
|---|---|---|
| Backend.OpenZWaveBackend.constructor | openzwavebackend.h:189-198 | All maps and the setup list start empty; the remembered kind starts as None; no manager exists; the invariant holds. |
| Backend.OpenZWaveBackend.StartNetwork | openzwavebackend.cpp:33-46 | The manager is created if absent and AddDriver is called. Only if it succeeds is the uuid appended at the tail of the setup list and its port recorded; otherwise both are unchanged. The result is AddDriver's answer. |
| Backend.OpenZWaveBackend.StopNetwork | openzwavebackend.cpp:48-64 | An unknown uuid: false, nothing changes. A known uuid: RemoveDriver on its port; exactly its port and home-id entries are removed; the setup list and pending replies are untouched (frame); the manager exists afterwards iff some port remains. |
| Backend.OpenZWaveBackend.FactoryResetNetwork | openzwavebackend.cpp:103-111 | True iff the uuid has a home id; then ResetController on it and the uuid is queued again (it may already be mapped); otherwise nothing changes. |
| Backend.OpenZWaveBackend.OnDriverReady | openzwavebackend.cpp:653-670 | An empty setup list: nothing changes. Otherwise exactly the head is removed and bound to the home id, and networkStarted is emitted for the uuid the home id now maps to, which is the head when no other uuid has that home id. |
| Backend.OpenZWaveBackend.OnDriverFailed | openzwavebackend.cpp:683-691 | Before 1.6: the head of the setup list is removed and networkFailed is emitted for it. |
| Backend.OpenZWaveBackend.OnDriverFailedForPort | openzwavebackend.cpp:673-681 | With 1.6: networkFailed for the uuid of a known port, nothing for an unknown one; the setup list is left alone (frame). |
| Backend.OpenZWaveBackend.RequestControllerCommand | openzwavebackend.cpp:113-195 | Each call hands out exactly one new reply. Its outcomes: (1) An unknown uuid gives NetworkUuidNotFound. (2) A home id with a reply pending gives InUse, with no Manager call and the pending entry untouched. (3) Otherwise the Manager call is made and, before 1.6, the add or remove kind is remembered. On rejection the reply is BackendError and nothing is registered; on acceptance the reply is Running and registered under the home id. The invariant is preserved. |
| Backend.OpenZWaveBackend.IssueRequest | openzwavebackend.cpp:125-128 | The Manager call of the request is logged, and the kind is remembered as RememberRequest says. |
| Backend.OpenZWaveBackend.NewFinishedReply | openzwavebackend.cpp:115-118 | A fresh reply is appended already finished with the error, and the invariant is kept. |
| Backend.OpenZWaveBackend.RegisterReply | openzwavebackend.cpp:133-137 | A fresh running reply is inserted under a home id that had none, and the invariant is kept. |
| Backend.OpenZWaveBackend.CancelPendingOperation | openzwavebackend.cpp:197-209 | The reply is finished at once: NetworkUuidNotFound for an unknown uuid; otherwise CancelControllerCommand is called and the reply is NoError iff acknowledged, InUse iff not. The pending table is never changed (frame). |
| Backend.OpenZWaveBackend.OnControllerCommand | openzwavebackend.cpp:877-956 | An unknown home id changes nothing. A known one changes the pending table, the remembered kind, the replies and the signals exactly as ControllerCommandEffect says. No finished reply is ever changed, and the invariant is preserved. |
| Backend.OpenZWaveBackend.OnTrackedCommand | openzwavebackend.cpp:893-943 | The AddDevice and RemoveDevice branches carry out ControllerCommandEffect. |
| Backend.OpenZWaveBackend.OnUntrackedCommand | openzwavebackend.cpp:945-955 | Any other kind resolves nothing and keeps the remembered kind; on Completed it appends the effect's two lowered signals. |
| Backend.OpenZWaveBackend.ResolvePending | openzwavebackend.cpp:897-899 | The reply taken out of the table for the home id, if any, is finished with the error; only that reply changes. |
| Backend.OpenZWaveBackend.SetValue | openzwavebackend.cpp:355-394 | An unknown uuid, or a value with no write, gives false and no Manager call. Otherwise the write of WriteFor goes to the Manager under the network's home id, and its answer is returned. |
| Backend.OpenZWaveBackend.UpdateNodeLinkQuality | openzwavebackend.cpp:470-517 | nodeLinkQualityStatus is emitted with LinkQualityOf; with 1.6 that is the corrected signed RSSI average of the Findings row, not the source's constant 100. |
| Backend.OpenZWaveBackend.OnValueAdded | openzwavebackend.cpp:746-755 | An unknown home id emits nothing. Otherwise valueAdded with ReadValue's value is emitted, then the link quality. |
| Backend.OpenZWaveBackend.OnValueChanged | openzwavebackend.cpp:757-771 | An unknown home id emits nothing. Otherwise valueChanged, then reachable(true), then the link quality, in that order. |
| Backend.OpenZWaveBackend.OnValueRemoved | openzwavebackend.cpp:773-781 | An unknown home id emits nothing; otherwise valueRemoved for the id. |
| Backend.OpenZWaveBackend.OnNewNode | openzwavebackend.cpp:706-714 | An unknown home id emits nothing; otherwise nodeAdded. |
| Backend.OpenZWaveBackend.OnNodeAdded | openzwavebackend.cpp:716-724 | The same nodeAdded as OnNewNode, with no deduplication. |
| Backend.OpenZWaveBackend.OnNodeNaming | openzwavebackend.cpp:726-734 | An unknown home id emits nothing; otherwise nodeDataChanged. |
| Backend.OpenZWaveBackend.OnNodeRemoved | openzwavebackend.cpp:736-744 | An unknown home id emits nothing; otherwise nodeRemoved. |
| Backend.OpenZWaveBackend.OnNodeProtocolInfoReceived | openzwavebackend.cpp:783-791 | An unknown home id emits nothing; otherwise nodeDataChanged. |
| Backend.OpenZWaveBackend.OnNodeQueryComplete | openzwavebackend.cpp:802-811 | An unknown home id emits nothing; otherwise nodeInitialized. |
| Backend.OpenZWaveBackend.OnZWaveNotification | openzwavebackend.cpp:831-875 | Home id 0 with Timeout while setups are pending: the head is removed, RemoveDriver is called on its port (the port entry is kept), and only networkFailed is emitted. Otherwise the setup list and Manager log are unchanged; an unknown home id emits nothing; a known one emits StatusEvents. |
| CommandCorrelator.RequestCall | openzwavebackend.cpp:128 | Each request kind maps to its own Manager call, carrying the home id, the security flag and the node. |
| CommandCorrelator.RememberRequest | openzwavebackend.cpp:125-127 | Before 1.6, add remembers AddDevice and remove RemoveDevice; removeFailedNode and every 1.6 build keep the remembered kind. |
| CommandCorrelator.WaitingSignal | openzwavebackend.cpp:903-911 | AddDevice gives the addition signal, RemoveDevice the removal signal, for the network and level given. |
| CommandCorrelator.ControllerCommandEffect | openzwavebackend.cpp:886-955 | A reply is resolved iff one is pending for the home id, the effective kind is add or remove, and the state is Error/Failed or Waiting/Normal. The error is BackendError exactly for Error/Failed and NoError exactly for Waiting/Normal. The resolved reply is the one pending, and exactly that home id leaves the table. |
| CommandCorrelator.EffectRemembered | openzwavebackend.cpp:900-913 | With 1.6 the remembered kind never changes. Before 1.6 it is reset to None when a tracked kind fails or completes, and kept in every other case. |
| CommandCorrelator.EffectSignals | openzwavebackend.cpp:903-953 | Only waiting signals of the notification's network are emitted. They are raised (true) exactly when a tracked kind waits, and some signal is emitted exactly on Completed or on such a wait. A waiting AddDevice raises only the addition signal and a waiting RemoveDevice only the removal signal; on Completed each lowers only its own signal. |
| CommandCorrelator.UntrackedEffect | openzwavebackend.cpp:945-955 | Any other effective kind resolves nothing and keeps the table and remembered kind; it lowers both signals on Completed and does nothing otherwise. |
| CommandCorrelator.Pre16IgnoresReportedCommand | openzwavebackend.cpp:886-890 | Before 1.6 the effect does not depend on the command the notification reports. |
| CommandCorrelator.RemoveFailedNodeNeverResolved | openzwavebackend.cpp:945-955 | With 1.6 a RemoveFailedNode notification never resolves a reply, so the reply removeFailedNode registered stays pending. |
| CommandCorrelator.CompletedLowersWaiting | openzwavebackend.cpp:909-953 | Completed never resolves a reply, and always lowers the signal of the tracked kind (both signals for an untracked kind). |
| CommandCorrelator.EffectKeepsTable | openzwavebackend.cpp:893-943 | The effect keeps the table one-reply-per-home-id and injective, only shrinks it, and removes exactly the resolved reply from its values. |
| NotificationRouter.Route | openzwavebackend.cpp:519-651 | Group, NodeEvent, UserAlerts and unknown types are only logged. Each other type reaches its own slot and no other, in both directions (ValueAdded to valueAdded, NodeRemoved to nodeRemoved, DriverReady to driverReady, Notification to zwaveNotification, and so on). Every slot except DriverFailed gets the notification's home id, and every slot that takes a node gets the notification's node. ValueChanged and ValueRefreshed go to the same slot, and both AllNodesQueried types to one slot. The status code is cast from GetNotification. DriverFailed carries the port only with 1.6. The command comes from GetCommand with 1.6 and from GetEvent before; the state always comes from GetEvent. |
| NotificationRouter.RefreshedRoutesAsChanged | openzwavebackend.cpp:539-569 | A refreshed value is routed exactly like a changed one. |
| NotificationRouter.Pre16CommandMirrorsState | openzwavebackend.cpp:636 | Before 1.6 the command and the state carry the same raw number. |
| NotificationRouter.RouteBuildIndependent | openzwavebackend.cpp:519-651 | Only DriverFailed and ControllerCommand are routed differently in the two builds. |
| NotificationRouter.StatusEvents | openzwavebackend.cpp:847-874 | Dead gives failed(true) then reachable(false); Timeout gives reachable(false); Alive gives reachable(true); Sleep gives sleep(true); Awake gives sleep(false). Each of the last four emits exactly one signal. Each holds in both directions, and all signals are for the given node and network. |
| NotificationRouter.SilentCodes | openzwavebackend.cpp:861-873 | MsgComplete, NoOperation and out-of-range codes emit nothing. |
| ValueCodec.IndexOf | openzwavebackend.cpp:438 | The first index of the string, or -1 exactly when it is absent. |
| ValueCodec.DecodeSelection | openzwavebackend.cpp:400-439 | For a list, the index of the selected item, or -1 iff it is absent. For every other type, -1. |
| ValueCodec.ReadValue | openzwavebackend.cpp:396-468 | The value keeps the descriptor and the help text. A list carries its items and the decoded selection, and unhandled types carry no payload. |
| ValueCodec.EncodeSelection | openzwavebackend.cpp:378-385 | The item at the selection exactly when 0 <= selection < count; otherwise nothing to write. |
| ValueCodec.WriteFor | openzwavebackend.cpp:365-389 | Bool, button, byte and short values are written as they are. A list is written iff its selection is in range, and then its selected item is written. Every other type gets no write. |
| ValueCodec.DecodeThenEncode | openzwavebackend.cpp:378-439 | A selection decoded from OpenZWave's answer writes back exactly the string OpenZWave reported; -1 iff that string is not an item. |
| ValueCodec.EncodeThenDecode | openzwavebackend.cpp:378-439 | The item written for a selection is found again at that index when no earlier item repeats it, and never later than it. |
| LinkQuality.SignalQuality | openzwavebackend.cpp:511-513 | The clamp of 2 * (signal + 100) lies in 0..100: it is 0 at or below -100 dBm, 100 at or above -50 dBm, and linear between. |
| LinkQuality.SignalQualityMonotone | openzwavebackend.cpp:511-513 | The clamp is non-decreasing in the signal. |
| LinkQuality.LinkQualityAsWritten | openzwavebackend.cpp:487-511 | The 1.6 branch as written, with quint8 arithmetic: the quality is 100 whatever the readings. |
| LinkQuality.AverageRssi | openzwavebackend.cpp:487-509 | The averaging loop with a signed accumulator computes MeanRssi: the truncated mean of the readings that parse, with MAX = -50 and MIN = -100, or -76 when none parses. |
| LinkQuality.LinkQualityOf | openzwavebackend.cpp:476-514 | The quality of either build is in 0..100; with 1.6 it is computed from the corrected signed average (see Findings). |
| LinkQuality.MeanWithinReadings | openzwavebackend.cpp:505-509 | The mean lies between the weakest and the strongest reading that parses. |
| LinkQuality.LinkQualityExtremes | openzwavebackend.cpp:489-511 | Readings all at or below MIN give quality 0; all at or above MAX give 100. |
| LinkQuality.AllMinReadingsGiveZero | openzwavebackend.cpp:493-511 | Five MIN readings give quality 0 with the signed average. |
| NetworkKey.FormatNetworkKey | openzwavebackend.cpp:978-984 | The insertion loop yields Format(key): "0x" plus the first pair, then ", 0x" before every following pair, 94 characters in all. Parsing that gives the key back. |
| NetworkKey.ParseFormat | openzwavebackend.cpp:978-983 | The option string has 3 * n - 2 characters and determines the key: parsing it gives the key back. |
| ZWaveTypes.NotificationCodeFromValue | openzwavebackend.h:44-53 | The raw code maps to MsgComplete=0 … Alive=6, and out-of-range values stay distinct, keeping their number. |
| ZWaveTypes.NotificationCodeRoundTrip | openzwavebackend.h:44-53 | Casting a code's number back gives the code. |
| ZWaveTypes.ControllerCommandFromValue | openzwavebackend.h:56-75 | The raw command maps to None=0 … DeleteButton=16, and out-of-range values stay distinct. |
| ZWaveTypes.ControllerCommandRoundTrip | openzwavebackend.h:56-75 | Casting a command's number back gives the command. |
| ZWaveTypes.ControllerStateFromValue | openzwavebackend.h:78-91 | The raw state maps to Normal=0 … NodeFailed=10, and out-of-range values stay distinct. |
| ZWaveTypes.ControllerStateRoundTrip | openzwavebackend.h:78-91 | Casting a state's number back gives the state. |
| ZWaveTypes.KeyOf | openzwavebackend.cpp:669 | The reverse lookup returns a uuid that maps to the value (the least such uuid). |
| ZWaveTypes.KeyOfUnique | openzwavebackend.cpp:667-669 | When only one uuid maps to the value, the reverse lookup returns that uuid. |
| ZWaveTypes.ValueOr | openzwavebackend.cpp:837 | A hash lookup returns the mapped value, or the default (an empty port) for a missing key. |

## Left out

- Manager calls themselves are out of scope. These include AddDriver, RemoveDriver, AddNode, CancelControllerCommand, SetValue, the GetValue* getters and GetNodeStatistics. OpenZWave is a foreign library: each answer is a parameter, and each acting call is only logged.
- Whether a manager exists when a call is made is not modelled: calls are logged either way. A uuid matched by DriverReady after it was stopped keeps its home id after the last port is removed, so a later factoryResetNetwork or addNode on it would call a destroyed manager in the source.
- Cross-thread delivery through `QMetaObject::invokeMethod` is left out. Notifications are dispatched serially, one slot call at a time.
- initOZW and deinitOZW (directory creation, option setup, the watcher) are left out. They are kept only as the `managerPresent` flag.
- Backend.OpenZWaveBackend.StartNetwork: the network key is not passed to initOZW. The key formatting is modelled on its own by NetworkKey.FormatNetworkKey, and only for 32-digit keys, because `QString::insert` past the end has Qt-specific behaviour.
- The node and controller attribute getters (openzwavebackend.cpp:66-101, 211-353) are left out. They forward to the Manager and answer a default value for an unknown uuid.
- Parsing hexadecimal ids with `QString::toUInt(…, 16)` is left out, because its semantics are Qt's.
- Floating-point and QVariant conversions in readValue and setValue are left out. So are `GetValueHelp` (the help text is a parameter) and the catching of OpenZWave exceptions.
- ValueCodec.WriteFor: the scalar payload is passed on unconverted. The `quint8` and `qint16` casts of setValue are not modelled.
- The log-only slots are left out, because they emit nothing: onDriverRemoved, onEssentialNodeQueriesComplete, onAwakeNodesQueried and onAllNodesQueried. The router still routes to each of them.
- Backend.OpenZWaveBackend.OnNodeQueryComplete: the `nodeIsSecureDevice` query it makes afterwards is left out. It only reads from the Manager and logs.
- `ZWaveReply`, `startReply` and `finishReply` belong to a base class that is not part of this model.
  - Finishing a reply is modelled as setting it to `Finished(error)` and removing its home-id entry, which is what its `finished` connection does.
  - `reply->finished(InUse)` and `finishReply(reply, InUse)` are both modelled as `Finished(InUse)`.
- ZWaveTypes.KeyOf: Qt's `QHash::key` returns some key mapped to the value, in an unspecified hash order. The model fixes that choice as the least uuid. Contracts that depend on the choice are stated for the case where only one uuid maps to the value.
- Backend.OpenZWaveBackend.OnDriverFailed: requires a non-empty setup list. `QList::takeFirst` on an empty list is undefined behaviour in the source.
- Backend.OpenZWaveBackend.UpdateNodeLinkQuality: requires a known home id. Its only callers, the value slots, check that first.
- LinkQuality.LinkQualityOf: with 1.6 it uses the corrected signed average (AverageRssi, MeanRssi) of the Findings row, not the 8-bit average of the source, which always gives 100 (proved by LinkQualityAsWritten).
- LinkQuality.LinkQualityOf: the pre-1.6 quality figure `m_quality` comes from the Manager's node statistics, whose declaration is not part of this model; it is taken as an unbounded integer and its width is not modelled. If it is an unsigned 8-bit field, `2 * (quality + 100)` is at least 200 and the pre-1.6 quality is also always 100.
- Backend.OpenZWaveBackend.UpdateNodeLinkQuality: with 1.6 it emits the quality of the corrected signed average of the Findings row, where the source as written always emits 100.
- Logging is left out.

## Findings

| source | as written | input that shows it | evidently intended | confidence | as-written member | corrected member |
|---|---|---|---|---|---|---|
| openzwavebackend.cpp:487-511 | With 1.6, `avg` and `count` are `quint8`: every RSSI contribution (-50, -100, a negative dBm value) wraps into 0..255, the division works on the wrapped sum, and `2 * (avg + 100)` is then at least 200, so the reported link quality is always 100. | Five readings "MIN": as written the quality is 100. | A signed mean of the readings in dBm, clamped as before: five MIN readings give quality 0, and the quality lies between the qualities of the weakest and the strongest reading. | high, not executed | LinkQuality.LinkQualityAsWritten | LinkQuality.AverageRssi |
