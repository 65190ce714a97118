# Dev-id_UWB multipeer client, modelled in Dafny

This project models the bookkeeping core of the Dev-id_UWB Swift package: the
`MPCClient` object that wraps a MultipeerConnectivity session, and the
`Dictionary.appending` helper it uses for its peer directory.

- `utils.dfy` (module `Utils`): `Appending`, the non-mutating keyed update of
  a dictionary, and `RemoveKey`, the removal the client calls when a peer is
  lost. `removeKey` is not defined in any of the package's files that this
  model covers; it is ASSUMED here to return the dictionary without that key.
- `client.dfy` (module `Client`): the client's state, the rules that decide
  which peers each send method addresses, the three delegate callbacks as
  functions on a state value (`OnLostPeer`, `OnStateChange`, `OnReceive`),
  and the `MPCClient` class whose methods update its fields in place and are
  proved equal to those functions and rules.
- `traces.dfy` (module `Traces`): runs of delegate callbacks and what any
  run does to the directory, the record log, the send log, the connected-peer
  snapshot and the selection.

Platform and framework calls become parameters. The UTF-8, image, PNG,
property-list and discovery-token codecs are the fields of a `Platform` value
of total functions. The transport's own list of connected peers at the time
of a call (`session.connectedPeers`) is the parameter `sessionPeers`; it is a
different thing from the client's `connectedPeers` field, which is only a
snapshot refreshed on state changes, and the send methods gate on the
transport's list, not on the snapshot. Every call of `session.send` is
recorded in the ghost log `sends`; every invocation of a registered handler
closure in the ghost log `notices`.

What the code does, as the proofs pin it down:
- `didReceive` runs the text, image, peer-record and token decoders one after
  another and independently; a payload is never classified into exactly one
  kind, and one accepted by several decoders updates all the matching fields.
- A received peer record is both written into `peersDict` for its sender and
  appended to `connectedPeersInformations`, with no deduplication.
- `sendData` sends to the explicit target and then to the selected device, so
  the same payload goes twice to a peer that is both.
- No callback ever changes `selectedDevice`: losing or disconnecting the
  selected peer leaves it selected.

The code contains no ranging coordinator: there are no
`START_RANGING`/`STOP_RANGING` sentinels, no token-exchange state machine and
no distance tracking in the modelled files.

## Model

| member | source | states |
|---|---|---|
| `Utils.Appending` | Sources/Dev-id_UWB/Utils.swift:11-15 | the result maps the key to the new value, its key set is the old one plus the key, and every other key keeps its value |
| `Utils.RemoveKey` | Sources/Dev-id_UWB/MPCClient.swift:157 | assumed semantics of `removeKey`: the key is gone, every other entry is kept unchanged |
| `Utils.AppendingIdempotent` | Sources/Dev-id_UWB/Utils.swift:13 | appending the same pair twice equals appending it once |
| `Utils.AppendingLastWriteWins` | Sources/Dev-id_UWB/Utils.swift:13 | a later write to the same key replaces the earlier one |
| `Utils.AppendingCommutes` | Sources/Dev-id_UWB/Utils.swift:13 | writes to two different keys commute |
| `Utils.AppendingSize` | Sources/Dev-id_UWB/Utils.swift:12-14 | the size grows by exactly one when the key was absent and is unchanged when it was present |
| `Utils.RemoveKeyUndoesAppending` | Sources/Dev-id_UWB/Utils.swift:11-15 | removing a freshly added key gives back the original dictionary |
| `Utils.AppendingOverridesRemoveKey` | Sources/Dev-id_UWB/Utils.swift:11-15 | appending after a removal of the same key equals appending to the original |
| `Utils.RemoveKeyIdempotent` | Sources/Dev-id_UWB/MPCClient.swift:157 | removing twice equals removing once; removing an absent key changes nothing |
| `Client.Initial` | Sources/Dev-id_UWB/MPCClient.swift:23-38 | the initial state: empty directory, record log and snapshot, nothing selected or received, no handler registered, nothing sent |
| `Client.Fanout` | Sources/Dev-id_UWB/MPCClient.swift:98-105 | one single-peer send of the payload per destination, in order |
| `Client.SelectedTargets` | Sources/Dev-id_UWB/MPCClient.swift:66-91 | `sendMessage`/`sendImage` address at most one peer, the selected device, and nobody exactly when the transport has no connected peer or nothing is selected |
| `Client.SendDataTargets` | Sources/Dev-id_UWB/MPCClient.swift:93-111 | `sendData` addresses nobody without connected peers; otherwise one destination per present device, the target first and the selection last, with no other peer |
| `Client.SendDataSendsTwice` | Sources/Dev-id_UWB/MPCClient.swift:96-109 | with a target and a selection, two sends happen, also when both are the same peer |
| `Client.ImagePayload` | Sources/Dev-id_UWB/MPCClient.swift:83 | the PNG payload exists exactly when there is an input image with a PNG representation |
| `Client.SendImageSends` | Sources/Dev-id_UWB/MPCClient.swift:79-91 | `sendImage` traps exactly when it is gated through and the PNG payload is missing; otherwise it sends nothing or one PNG to the selected device |
| `Client.PeerInformationsSends` | Sources/Dev-id_UWB/MPCClient.swift:113-124 | at most one send, to the target, carrying the encoded local record; none exactly when no peer is connected or encoding fails |
| `Client.ConnectionNotices` | Sources/Dev-id_UWB/MPCClient.swift:165-172 | `connected` notifies the connected handler and `notConnected` the disconnected handler, each only when registered; `connecting` notifies nobody |
| `Client.OnLostPeer` | Sources/Dev-id_UWB/MPCClient.swift:155-158 | the lost peer's entry is removed, all other entries are kept, and no other field changes |
| `Client.OnStateChange` | Sources/Dev-id_UWB/MPCClient.swift:163-182 | the snapshot becomes the transport's peer list, the handler is notified, and only `connected` pushes the local record, to that peer; nothing else changes |
| `Client.OnReceive` | Sources/Dev-id_UWB/MPCClient.swift:184-208 | each decoder that succeeds applies its own update (message, image, record log plus directory entry via `Appending`, token handler); each that fails leaves its fields alone; nothing is sent |
| `Client.OnePayloadManyConsumers` | Sources/Dev-id_UWB/MPCClient.swift:184-207 | a payload accepted by every decoder updates the message, the image, the directory and the record log and reaches the token handler |
| `Client.DecodersIndependent` | Sources/Dev-id_UWB/MPCClient.swift:184-207 | each field's update depends only on its own decoder's verdict on the payload |
| `Client.RepeatedInfoNotDeduplicated` | Sources/Dev-id_UWB/MPCClient.swift:199-200 | the same record received twice from a peer is logged twice while the directory equals that after one receipt |
| `Client.MPCClient.constructor` | Sources/Dev-id_UWB/MPCClient.swift:41-59 | the new client is in the initial state with the stored local record |
| `Client.MPCClient.SendMessage` | Sources/Dev-id_UWB/MPCClient.swift:66-77 | the send log grows by the UTF-8 message to each `SelectedTargets` destination; no other field changes |
| `Client.MPCClient.SendImage` | Sources/Dev-id_UWB/MPCClient.swift:79-91 | reports a trap exactly as `SendImageSends` does, and then sends nothing; otherwise the send log grows by its sends; no other field changes |
| `Client.MPCClient.SendData` | Sources/Dev-id_UWB/MPCClient.swift:93-111 | the send log grows by the payload to each `SendDataTargets` destination; no other field changes |
| `Client.MPCClient.SendPeerInformations` | Sources/Dev-id_UWB/MPCClient.swift:113-124 | the send log grows by `PeerInformationsSends`; no other field changes |
| `Client.MPCClient.LostPeer` | Sources/Dev-id_UWB/MPCClient.swift:155-158 | the new state is `OnLostPeer` of the old one |
| `Client.MPCClient.DidChangeState` | Sources/Dev-id_UWB/MPCClient.swift:163-182 | the new state is `OnStateChange` of the old one |
| `Client.MPCClient.DidReceive` | Sources/Dev-id_UWB/MPCClient.swift:184-208 | the new state is `OnReceive` of the old one |
| `Traces.RunDirectory` | Sources/Dev-id_UWB/MPCClient.swift:155-200 | after any run of callback updates, a peer's entry is absent if the last update about it to take effect was a loss, that record if it was a received record, and the original entry otherwise |
| `Traces.RunInformationsLog` | Sources/Dev-id_UWB/MPCClient.swift:196-199 | after any run, the record log is the old log followed by every decoded record in arrival order, without deduplication |
| `Traces.RunKeepsSelection` | Sources/Dev-id_UWB/MPCClient.swift:155-208 | no run of callbacks changes the selection, the local record, the input image or the handlers |
| `Traces.RunSends` | Sources/Dev-id_UWB/MPCClient.swift:176-181 | callbacks only append sends, and every one carries the encoded local record to a peer the run reported as connected |
| `Traces.RunConnectedPeers` | Sources/Dev-id_UWB/MPCClient.swift:177 | the snapshot after a run is the transport's list at the last state change, or unchanged without one |
| `Traces.LostThenRecordedAgain` | Sources/Dev-id_UWB/MPCClient.swift:155-200 | a peer whose loss takes effect before its record is written is back with that record; one whose loss takes effect after its record is written is gone |

## Left out

- `removeKey` is not part of this model's files; `Utils.RemoveKey` gives it the semantics "the dictionary without that key", an assumption.
- The transport plumbing: creating the session, advertiser and browser, starting and stopping them, inviting found peers and accepting invitations (MPCClient.swift lines 47-62, 150-153, 239-250). These are framework calls with no logic of the client's own.
- `DispatchQueue.main.async` and the main-thread preconditions: every handler is one atomic step. The two ghost logs are kept separately, so the relative order of a notice and a send is not captured.
- The timing of the callbacks' writes: `browser(_:lostPeer:)` writes `peersDict` immediately inside the callback (MPCClient.swift line 157), while `session(_:didReceive:fromPeer:)` (lines 197-201) and `session(_:peer:didChange:)` (lines 176-181) defer their writes to the main queue. A run in `Traces` is therefore the order in which the writes take effect, not the order in which the transport delivered the callbacks: a record delivered just before its sender's loss can be written after the removal and leave the peer in the directory. The unsynchronised writes to `peersDict` from the two queues, and the update that such a race can lose, are not modelled.
- The concrete codecs (UTF-8 conversion, `UIImage`, PNG, property-list coding of `PeerInformations`, `NSKeyedUnarchiver` of the discovery token) are uninterpreted fields of `Platform`; no round trip of them is stated, since it depends on the libraries.
- PeerInformations.swift beyond the record itself: `getProfilePicture` and the encode/decode wrappers are platform library calls.
- Dev_id_UWB.swift is not part of this model: it is an older copy of the transport wrapper with no directory bookkeeping.
- Loading the local record from user defaults in `init`: the record is a constructor parameter.
- The `@unknown default: fatalError` branch of the state change handler: the model's `SessionState` has only the three known states. The test `state.debugDescription == "connected"` is modelled as `state == Connected`, which is what the `debugDescription` mapping (lines 223-236) makes it.
- `session.send` failures: the send log records every call; a thrown error is only logged by the source and changes no state, so success and failure are not distinguished.
- `Client.MPCClient.SendImage`: when the forced unwrap traps, the real process aborts; the model returns `trapped` and leaves the state, the send log included, unchanged.
- `inputMsg`, `myPeerId`, the logger and the `print` calls: UI binding and diagnostics that no modelled behaviour reads.
- The handler closures are never assigned in the modelled files; the model keeps only whether each is registered.
- `MCPeerID` is reduced to an identity (`PeerId`); its display name is not modelled.
