# Viero WebRTC video chat: the negotiation core in Dafny

This project models the signaling-driven negotiation of the Viero WebRTC
video chat. It covers three negotiation engines and the example glue that
connects them. It proves, about the model, what each part of the code
promises.

- **Mesh engine** (`index.js`). Every participant owns two one-way links per
  remote participant: an outbound link that sends the local stream and an
  inbound link that receives the remote one. Signals are `hello`, `sdp`,
  `cdt`, `needcontenthint` and `contenthint`. The engine labels a received
  stream's video tracks with the hints the sender returns, then splits the
  stream into a user stream and a display stream.
- **Hub client** (`src/index.js`) and its older variant (`src/sfu/index.js`).
  One shared uplink carries the local stream to a hub. Each remote peer gets
  one downlink, keyed by that peer's socket id, and the hub offers the peer's
  media on it.
- **socket.io signaling client** (`example/client/signaling.socketio.js`).
  It validates the channel name. It asks the relay to create the channel and
  opens the channel socket only after the relay acknowledges.
- **Relay server** (`example/server/index.js`). It keeps a registry of
  channel namespaces and sends every signal to the other sockets of its
  namespace.
- **Multi-configuration example** (`example/multicfg/index.js`). It answers
  `example-needintents` with an intents map. It splits a remote stream into
  camera and screen streams by those intents, and files the split under a key
  that does not depend on track order.

Each source file that updates state in place has two modules:

- a model module of pure functions over a value (`MeshModel`, `HubModel`,
  `SocketIoModel`, `RelayModel`, `MultiCfgModel`), whose contracts state what
  each operation does;
- a class module (`MeshEngine.Mesh`, `HubClient.Client`, `SocketIo.Client`,
  `Relay.Server`, `MultiCfg.Roster`), whose fields are the object's fields and
  whose methods update them in place. Each method ensures
  `View() == Model.Op(old(View()), ...)`.

Loops of the source are loops here, each proved against the fold that
specifies it:

- `forEach` over the participants, peers, senders or tracks;
- the teardown of a signaling change;
- dispatching a signal to the registered intents handlers.

Several other modules are shared:

- `Media`: tracks and the `MediaStream` object;
- `Transport`: what the engine sees of an `RTCPeerConnection`;
- `Signal`: envelopes, payloads and the public event stream;
- `Identity`: id and channel validation;
- `Streams`: the mesh engine's hint exchange and splitting;
- `StreamKey`: the multi-configuration stream key.

Everything the browser does asynchronously is an input. Each promise chain
of `createOffer`/`setLocalDescription`, `setRemoteDescription`/`createAnswer`
or `addIceCandidate` is one atomic step. Its outcome is a `Step(ok, sdp)`
parameter: whether the chain resolved, and the description it produced.
The same goes for capture results, link state changes, gathered candidates
and socket.io deliveries.

JavaScript details the code depends on are written out:

- **Truthiness** (`Signal.Truthy`): an absent or empty `to`, `from` or `on`
  is falsy.
- **Property keys** (`Signal.KeyOf`): an absent key becomes `"undefined"`.
- **Directory order**: the enumeration order of `_participants` and `_peers`
  is an explicit insertion-order sequence.
- **Sort order**: the default `sort` compares strings by character code.
- **Inherited names** (`Signal.ObjectPrototypeNames`,
  `Signal.ArrayPrototypeNames`): the relay's registry is a plain object, and
  the mesh engine's and hub client's directories are arrays, so names they
  inherit answer lookups. This is modelled in the relay's `create`, in the
  mesh engine's `hello` and `sdp` handlers, and in the hub client's `peer()`.
  Every other lookup of these directories leaves the state as an unknown
  name would.
- **Array `length`** (`Signal.GrownLength`, `Signal.InheritedName`): each
  directory records its array's `length`. Storing under an array-index id
  (`"0"`, `"17"`) raises it past that index, and deleting never lowers it.
  Storing an object under `length` itself throws a `RangeError`. A lookup of
  `length` is truthy exactly when the length is not 0.

## Model

| member | source | states |
|---|---|---|
| MeshModel.Init | index.js:303-319 | a valid id (`Identity.ValidId`: one or more of `[a-zA-Z0-9-_.@#=]`) gives an empty, well-formed engine with no signaling; and any other id gives error 596850 |
| MeshEngine.New | index.js:303-319 | fails exactly when the id is invalid, with code 596850; otherwise returns a fresh, valid engine whose state is the model's initial state |
| MeshEngine.Mesh.constructor | index.js:303-319 | the new engine is valid and its state is the initial state for its id |
| MeshModel.Participants | index.js:321-324 | one snapshot per participant, in directory order, carrying exactly its id and its user and display streams; every participant is listed |
| MeshEngine.Mesh.GetParticipants | index.js:321-324 | returns the participant snapshots the model defines |
| MeshModel.AddParticipant | index.js:154-174 | an existing participant is returned unchanged. A name the `[]` directory inherits (such as `map`) is a truthy lookup too, so nothing is created and no participant results; so is `length` once the array is not empty, and on an empty array storing under `length` throws, so again nothing is created. Any other sender is created as a newcomer at the end of the order, and the array's `length` grows past it when it is an array index. No one else changes |
| MeshEngine.Mesh.AddParticipant | index.js:154-174 | the engine's new state is the model's `AddParticipant` |
| MeshModel.Push | index.js:176-186 | the outbound link is made to send exactly the local stream, and one negotiation attempt is made: either one offer is sent to the participant or error 884761 is raised, never both; only that participant, the outbox and the events change |
| MeshEngine.Mesh.Push | index.js:176-186 | the engine's new state is the model's `Push` |
| MeshModel.Failures | index.js:112-115 | every error raised by a run of pushes is 884761, at most one per participant |
| MeshModel.OneAttemptEach | index.js:101-116 | over a run of pushes, the offers sent plus the errors raised are exactly one per participant |
| MeshModel.PushAll | index.js:368 | `forEach(_addStreamToParticipant)`: only the directory, the outbox and the events change, and the directory keeps its keys |
| MeshModel.PushAllEffect | index.js:368 | each listed participant's outbound link is renegotiated with the local stream and nobody else's changes; the outbox grows by exactly the offers and the events by exactly the errors of those attempts, in order |
| MeshModel.PushAllLinks | index.js:368 | the links part of `PushAllEffect`, by induction over the participants |
| MeshModel.PushAllLogs | index.js:368 | the outbox and events part of `PushAllEffect` |
| MeshModel.PushAllOffers | index.js:368 | the outbox after the run is the old outbox followed by the offers of the resolved chains, in participant order |
| MeshModel.PushAllFailures | index.js:368 | the events after the run are the old events followed by one 884761 per rejected chain |
| MeshEngine.Mesh.PushEach | index.js:368 | the loop over the directory order leaves the state `PushAll` defines |
| MeshModel.Drop | index.js:44-65 | a departing participant's user, display and incoming tracks are stopped in that order, its outbound and then its inbound link are closed, and its entry is deleted and removed from the order; nothing else changes |
| MeshEngine.Mesh.Depart | index.js:44-65 | the engine stays valid and its new state is the model's `Drop` |
| MeshModel.TeardownAll | index.js:330-343 | the teardown loop empties the directory and its order; only the directory, the order, the stopped tracks and the closed links change |
| MeshModel.TeardownStops | index.js:330-343 | the teardown stops the held tracks of every participant, in directory order |
| MeshModel.HeldAllFrame | index.js:330-343 | the tracks a teardown stops depend only on the listed participants' entries |
| MeshModel.TeardownCloses | index.js:340-341 | the teardown closes the outbound and the inbound link of every participant, in directory order |
| MeshModel.ClosedAllFrame | index.js:340-341 | the links a teardown closes depend only on the listed participants' entries |
| MeshEngine.Mesh.Teardown | index.js:330-343 | the loop leaves the state `TeardownAll` defines |
| MeshModel.OnStateChange | index.js:36-68 | a link state change of a known participant is dispatched with the participant's `id` (absent for a participant created without `from`). `connectionState` "disconnected" also makes it depart (tracks stopped, both links closed, entry deleted), followed by participants-changed. An unknown participant changes nothing |
| MeshEngine.Mesh.OnStateChange | index.js:36-68 | the engine's new state is the model's `OnStateChange` |
| MeshModel.OnIceCandidate | index.js:70-79 | a gathered candidate is sent as `cdt` to the participant whose link gathered it; the end of gathering (no candidate) sends nothing |
| MeshEngine.Mesh.OnIceCandidate | index.js:70-79 | the engine's new state is the model's `OnIceCandidate` |
| MeshModel.ApplyContentHint | index.js:188-199 | for each hinted id, the first incoming track with that id, the one `getTrackById` returns, takes the hint. The user stream becomes exactly the `motion` video and the audio tracks of the relabelled stream, and the display stream exactly its `detail` video tracks. Participants-changed is dispatched; no other participant changes |
| MeshEngine.Mesh.ApplyContentHint | index.js:188-199 | the loop over the hint keys leaves the state `ApplyContentHint` defines, whatever the key order |
| MeshModel.OnTrack | index.js:128-148 | the event's first stream becomes the incoming stream. With video tracks, exactly their ids are sent with `needcontenthint`; without, the stream is split at once into its audio tracks and an empty display stream. No streams, or an unknown participant, changes nothing |
| MeshModel.NoVideoSplit | index.js:144-146 | applying no hints to a stream without video tracks keeps it, and splitting it gives its audio tracks and an empty display stream |
| MeshEngine.Mesh.OnTrack | index.js:128-148 | the engine's new state is the model's `OnTrack` |
| MeshModel.OnHello | index.js:210-213 | a sender named like an inherited property, or `length`, throws, changing nothing. Any other sender is a participant afterwards, created if it was not, and its outbound link sends the local stream. Exactly one negotiation attempt is made, even with an empty local stream: either one `sdp` offer to the sender or one 884761 |
| MeshEngine.Mesh.OnHello | index.js:210-213 | the engine's new state and outcome are the model's `OnHello` |
| MeshModel.InheritedNameHello | index.js:210-213 | a `hello` from a participant named `map`, which every array inherits, throws and changes nothing |
| MeshModel.LengthNameHello | index.js:210-213 | a `hello` from a participant named `length` always throws and changes nothing: an empty array's lookup is falsy and storing under `length` throws, and a non-empty one's is truthy but carries no links |
| MeshModel.LengthNameRollback | index.js:232-238 | an `sdp` of a type other than offer or answer from `length` throws, through the admission, exactly when the array's length is 0, and otherwise is handled; either way nothing changes |
| MeshModel.IndexIdRaisesLength | index.js:172 | greeting participant `0` raises the array's `length` to at least 1, and its departure does not lower it, so `length` then looks up truthy |
| MeshModel.OnNeedContentHint | index.js:214-227 | the sender is answered with one `contenthint` whose map holds exactly the requested ids that name a local track, each mapped to that track's hint. A payload that is not a list throws and changes nothing |
| MeshEngine.Mesh.OnNeedContentHint | index.js:214-227 | the reduce loop leaves the state and outcome `OnNeedContentHint` defines |
| MeshModel.OnContentHint | index.js:228-231 | handled exactly when the sender is a participant with an incoming stream, in which case the hints are applied; otherwise it throws and changes nothing |
| MeshEngine.Mesh.OnContentHint | index.js:228-231 | the engine's new state and outcome are the model's `OnContentHint` |
| MeshModel.Admit | index.js:234-238 | an `sdp` from a sender whose lookup is falsy first treats it as a `hello`. A known sender, one named like an inherited property, or `length`, changes nothing |
| MeshModel.AnswerOffer | index.js:240-256 | on success the inbound link holds the offer as its remote description and the answer as its local one, and the answer is sent to the participant; on failure only error 352177 is raised |
| MeshEngine.Mesh.AnswerOffer | index.js:240-256 | the engine's new state is the model's `AnswerOffer` |
| MeshModel.ApplyAnswer | index.js:257-263 | on success the outbound link's remote description is the answer, whether or not an offer is outstanding; on failure only error 645167 is raised |
| MeshEngine.Mesh.ApplyAnswer | index.js:257-263 | the engine's new state is the model's `ApplyAnswer` |
| MeshModel.OnSdp | index.js:232-266 | throws, changing nothing, exactly on a payload that is no session description, on an offer or answer from a sender named like an inherited property or `length`, or on any `sdp` from `length` while the array's length is 0 (the admission's store throws); other types from such a sender change nothing. Otherwise the sender is admitted; an offer is answered on the inbound link and an answer applied to the outbound link; other types stop after the admission |
| MeshEngine.Mesh.OnSdp | index.js:232-266 | the engine's new state and outcome are the model's `OnSdp` |
| MeshModel.OnCdt | index.js:267-275 | the candidate is added to the sender's outbound link, or error 518450 raised. It throws, changing nothing, exactly when the payload is no candidate or the sender is no participant |
| MeshEngine.Mesh.OnCdt | index.js:267-275 | the engine's new state and outcome are the model's `OnCdt` |
| MeshModel.OnSignal | index.js:201-207 | with no signaling attached, or an envelope addressed to someone else (truthy `to`) or sent by this engine, nothing happens. Any other envelope goes to its word's handler; unknown words are ignored. Only a handled signal changes state, and none changes the id, the signaling, the local stream or the stopped tracks |
| MeshModel.Dispatch | index.js:209-276 | each of the five words runs its own handler; any other word is ignored and changes nothing |
| MeshEngine.Mesh.OnSignal | index.js:201-277 | the engine stays valid and its new state and outcome are the model's `OnSignal` |
| MeshModel.SetStreamConfiguration | index.js:355-372 | once capture resolved, the local stream is the tagged composition. Every participant's outbound link is renegotiated once with it, with exactly one offer or error each. Only then are the previous stream's tracks stopped. The directory keys and order are kept |
| MeshEngine.Mesh.SetStreamConfiguration | index.js:355-372 | the engine's new state is the model's `SetStreamConfiguration`, and the returned stream is the new local stream |
| MeshModel.SetSignalingAsWritten | index.js:326-353 | as written: a previous signaling is detached and every participant torn down, its held tracks stopped and both its links closed, in directory order; the new signaling, if any, is attached and greeted with `hello` (`MeshModel.Hello`, a broadcast from this engine's id); the engine's events do not grow |
| MeshModel.SetSignaling | index.js:326-353 | corrected: the same teardown, stopping every participant's held tracks and closing both its links in directory order, then dispatches participants-changed on the engine; without a previous signaling nothing is torn down or dispatched |
| MeshModel.TeardownEventLost | index.js:344 | replacing the signaling of an engine with one participant changes its participant list, yet as written the engine's event stream stays empty; the corrected member dispatches participants-changed |
| MeshEngine.Mesh.SetSignaling | index.js:326-353 | the engine's new state is the corrected `SetSignaling` |
| Streams.SplitStream | index.js:293-301 | the user stream is exactly the `motion` video tracks and the audio tracks, videos first; the display stream is exactly the `detail` video tracks; a video track with any other hint is in neither |
| Streams.Tag | index.js:361-362 | each track keeps its id and kind and takes the given hint |
| Streams.Compose | index.js:360-364 | the new local stream has the user tracks tagged `motion`, then the display tracks tagged `detail`, then the audio tracks unchanged, and its ids are the sources' ids in that order |
| Streams.ComposeThenSplit | index.js:293-301 | splitting a composed stream gives back the sources: the tagged user tracks followed by the audio as the user stream, and the tagged display tracks as the display stream |
| Streams.TagKeepsKind | index.js:361-362 | every tagged track carries the hint and the kind of some source track |
| Streams.HintReply | index.js:219-225 | the reply maps exactly the requested ids that name a local track, each to the hint of the first local track with that id |
| Streams.HintReplyStep | index.js:219-225 | one more requested id adds its hint when a local track has it, and nothing otherwise |
| Streams.ApplyHints | index.js:189-196 | every track keeps its id and kind; for each hinted id, the first track with that id takes the hint, and later tracks sharing the id keep theirs |
| Streams.Relabel | index.js:191-193 | exactly the first track with the given id takes the hint; a stream without that id is unchanged |
| Streams.RelabelStep | index.js:190-195 | applying one more hint to an already relabelled stream is applying the hints with that one added, so the key order does not matter |
| Streams.DuplicateIdHintedOnce | index.js:191-193 | of two tracks sharing an id, only the first takes the hint |
| Streams.ForeignHintsIgnored | index.js:191-192 | hints for ids no track of the stream carries have no effect |
| Streams.Received | index.js:136 | what reaches the remote side keeps each track's id and kind but not its hint |
| Streams.AudioReceived | index.js:296 | received audio tracks are still audio |
| Streams.KindFilters | index.js:294-296 | the video tracks of a composition are the user then display tracks, and its audio tracks are the audio |
| Streams.HintFilters | index.js:294-295 | filtering by `motion` and by `detail` separates the user from the display tracks |
| Streams.ReplyRestoresVideoHints | index.js:214-227 | when local ids are unique, answering the remote's request for its video ids and applying the reply gives every video track its sender's hint back; audio keeps the default hint |
| Streams.RequestedIsVideo | index.js:136 | with unique ids, an id the remote requests names a local video track |
| Streams.FindUnique | index.js:220 | with unique ids, `getTrackById` finds the track at its own position |
| Streams.LabelledIsSources | index.js:188-199 | a received stream whose video hints were restored is the sender's composition with unlabelled audio |
| Streams.ExchangeLabels | index.js:188-199 | the full exchange (receive, ask for the video hints, apply the reply) yields the sender's composition with unlabelled audio |
| Streams.ExchangeSplit | index.js:293-301 | splitting that composition gives the tagged user tracks with the received audio, and the tagged display tracks |
| Streams.ReplyAt | index.js:219-225 | with unique ids, the reply to the remote's request maps each local video track's id to its hint and holds no audio track's id |
| Streams.ContentHintExchange | index.js:136-146 | end to end, when the composed stream's ids are unique: the remote side ends with the sender's user tracks and audio as the user stream, and the sender's display tracks as the display stream, each video with the sender's label |
| Transport.Offered | index.js:102-103 | after `createOffer` and `setLocalDescription` the link's local description is the offer and one more offer was created; nothing else changes |
| Transport.Answered | index.js:243-245 | after a received offer is answered the link holds the offer as remote and the answer as local description; nothing else changes |
| Transport.Negotiated | index.js:176-186 | a renegotiated link sends exactly the given stream, and has one more offer and the new local description exactly when the chain resolved |
| Transport.Link.constructor | index.js:158-159 | a new link is open, sends nothing and has no descriptions or candidates |
| Transport.Link.ReplaceSenders | index.js:177-184 | removing every sender and then adding every track leaves the link sending exactly the tracks, in order, and nothing else changed |
| Transport.Link.MakeOffer | src/index.js:100-103 | the link's state is `Offered` |
| Transport.Link.ApplyRemote | src/index.js:209 | only the remote description changes |
| Transport.Link.AddCandidate | src/index.js:220 | only the candidate list grows, by the candidate |
| Transport.Link.Close | src/index.js:286 | only the link's closed flag changes |
| Media.Ids | index.js:136 | `getTracks().map((t) => t.id)`: one id per track, position for position |
| Media.IdsAppend | index.js:143 | the ids of two track lists joined are their ids joined |
| Media.FindTrack | index.js:191 | `getTrackById` finds nothing exactly when no track has the id, and otherwise the first track of the stream with that id |
| Media.Flatten | src/index.js:300-303 | a track is collected exactly when it is in one of the streams |
| Media.FlattenAppend | src/index.js:300-303 | collecting one more stream appends its tracks |
| Media.MediaStream.constructor | src/index.js:309 | `new MediaStream(tracks)` holds exactly the tracks |
| Media.MediaStream.RemoveTrack | src/index.js:327 | the stream keeps exactly its other tracks, in order |
| Signal.GrownLength | index.js:172 | storing under a key never lowers the array's `length`; an array-index key ends below it, and any other key leaves it as it was |
| Signal.DigitIndex | index.js:172 | a one-digit id is an array index of its digit's value, so storing it makes the length exceed that value |
| Signal.Strings | index.js:219 | a payload is read as a list of ids exactly when it is a JSON array of strings |
| Identity.ClassCount | example/client/signaling.socketio.js:10 | the number of characters of `[a-z0-9\-]` is at most the length, 0 exactly when no character is in the class, and the length exactly when every one is |
| Identity.ChannelRegexIsPlain | example/client/signaling.socketio.js:10 | `^([a-z0-9\-].*){4,}$` matches exactly the names that start with a character of the class, hold at least four of them, and contain no line terminator |
| Identity.RepeatsIsPlain | example/client/signaling.socketio.js:10 | `k` or more repetitions of the group match exactly the plain form with `k` class characters |
| Identity.RepeatsToPlain | example/client/signaling.socketio.js:10 | a string matched by the repeated group satisfies the plain form |
| Identity.PlainToRepeats | example/client/signaling.socketio.js:10 | a string of the plain form can be cut into the repeated group |
| Identity.LowerCaseChannel | example/client/signaling.socketio.js:10 | any lower-case name of four letters or more is a valid channel |
| HubModel.Init | src/index.js:235-246 | a new client of either variant is not joined, has no uplink, no peers, an empty local stream and empty logs |
| HubClient.Client.constructor | src/index.js:235-246 | the new client is valid, its state is the initial state and its local stream object is fresh |
| HubModel.PeerOf | src/index.js:248-254 | `peer(socketId)` is null exactly for a socket id that is neither in the directory nor inherited by the `[]` directory. A known socket id gives that id and the peer's stream (an empty stream for a peer without one in the current client; the older client at src/sfu/index.js:252-257 gives the stream or null). An inherited name such as `constructor`, or `length` once the array is not empty, gives no socket id and an empty stream in the current client, and the asked id with no stream in the older one |
| HubClient.Client.PeerOf | src/index.js:248-254 | returns what the model's `PeerOf` defines |
| HubModel.Peers | src/index.js:256-258 | one entry per peer in directory order: the current client's stripped peer; the older client's `{id: peer.id, stream}` at src/sfu/index.js:260-262, whose `id` is always absent |
| HubModel.EveryPeerListed | src/index.js:256-258 | every peer of the current client appears in `peers()` as `peer(socketId)` reports it |
| HubClient.Client.Peers | src/index.js:256-258 | the loop builds exactly the model's `Peers` |
| HubModel.AddPeer | src/index.js:140-154 | the socket id's entry is a fresh downlink (with an empty stream in the current client, none in the older one at src/sfu/index.js:150-164) replacing any previous entry, the array's `length` grows past an array-index id, and peer-entered is dispatched. For `length` the store throws before the dispatch and nothing changes |
| HubModel.FreshPeerReport | src/index.js:151-152 | right after `_addPeer` of any id but `length`, `peer(socketId)` reports the new peer and every other socket id but `length` reports as before; after `_addPeer(length)` every id reports as before |
| HubClient.Client.AddPeer | src/index.js:140-154 | the client's new state is the model's `AddPeer` |
| HubModel.Entered | src/index.js:176-178 | one peer-entered event per listed socket id, in order |
| HubModel.AddPeers | src/index.js:176-178 | `hello` keeps the client joined and well formed and changes only the peers, their order, the array's `length` and the events |
| HubModel.BeforeLength | src/index.js:176-178 | the ids the `forEach` reaches: a prefix of the list without `length`, shorter than the list exactly when `length` is listed, and then followed by it |
| HubModel.HelloStopsAtLength | src/index.js:176-178 | a `hello` listing `length` adds the peers listed before it, throws at it, and adds none listed after it |
| HubModel.BeforeFirstLength | src/index.js:176-178 | the ids reached are exactly those before the first `length` |
| HubModel.HelloAddsEach | src/index.js:176-178 | after `hello` the peers are exactly the old ones plus the listed ones reached (all of them when `length` is not listed), each reached one fresh and every other untouched, and one peer-entered per reached id was dispatched |
| HubModel.HelloEntries | src/index.js:176-178 | the directory part of `HelloAddsEach`, by induction over the ids |
| HubModel.HelloEvents | src/index.js:176-178 | the events part of `HelloAddsEach` |
| HubModel.AddPeersStep | src/index.js:176-178 | adding the ids one more at a time is adding the next one to the result so far |
| HubClient.Client.AddPeers | src/index.js:176-178 | the `forEach` loop leaves the state `AddPeers` defines for the ids reached, and throws exactly when it stops short at `length` |
| HubModel.RemovePeer | src/index.js:156-160 | the peer's downlink is closed and it leaves the directory and the order; peer-left is dispatched; nothing else changes |
| HubClient.Client.RemovePeer | src/index.js:156-160 | the client's new state is the model's `RemovePeer` |
| HubModel.OnEnter | src/index.js:162-164 | the entering socket id has a fresh entry afterwards and every other peer is untouched; an entering `length` throws in `_addPeer` and changes nothing |
| HubClient.Client.OnEnter | src/index.js:162-164 | the client's new state is the model's `OnEnter` |
| HubModel.OnLeave | src/index.js:166-170 | in the current client a known peer is removed and an unknown one changes nothing; the older client's handler (src/sfu/index.js:232-234) changes nothing |
| HubClient.Client.OnLeave | src/index.js:166-170 | the client's new state is the model's `OnLeave` |
| HubModel.AnswerOn | src/index.js:184-205 | on success the peer's downlink holds the offer as remote and the answer as local description, and the answer is sent with the same `on`; on failure only error 352177 is raised |
| HubModel.AnswerUplink | src/index.js:206-214 | on success the uplink's remote description is the answer; on failure only error 645167 is raised |
| HubModel.OnSdp | src/index.js:180-217 | throws, changing nothing, exactly on a payload that is no session description or an offer `on` an unknown peer. An offer is answered on the downlink of its `on` peer and an answer applied to the uplink; other types change nothing |
| HubClient.Client.OnSdp | src/index.js:180-217 | the client's new state and outcome are the model's `OnSdp` |
| HubModel.OnCdt | src/index.js:218-225 | a candidate with a truthy `on` goes to that peer's downlink, and otherwise to the uplink, or error 518450 is raised. It throws, changing nothing, exactly on a payload that is no candidate or an `on` naming no peer |
| HubClient.Client.OnCdt | src/index.js:218-225 | the client's new state and outcome are the model's `OnCdt` |
| HubModel.OnMessage | src/index.js:172-227 | while not joined nothing listens. `hello` adds one peer per listed socket id up to the first `length`, where it throws (a payload that is no list throws, changing nothing), `sdp` and `cdt` go to their handlers, and every other word is ignored. Only a handled message changes state |
| HubClient.Client.OnMessage | src/index.js:172-227 | the client stays valid and its new state and outcome are the model's `OnMessage` |
| HubModel.OnIceCandidate | src/index.js:66-74 | a gathered candidate is sent as `cdt`, with `on` exactly for a downlink; the end of gathering, or a client no longer joined, sends nothing; only the outbox changes |
| HubClient.Client.OnIceCandidate | src/index.js:66-74 | the client's new state is the model's `OnIceCandidate` |
| HubModel.OnStateChange | src/index.js:39-64 | every link state change is dispatched as one state-changed event carrying the given subject id, or none, and changes nothing else, "disconnected" and "failed" included |
| HubClient.Client.OnStateChange | src/index.js:39-64 | the client's new state is the model's `OnStateChange` |
| HubModel.OnTrack | src/index.js:127-138 | the event's first stream becomes the peer's stream and track-added is dispatched; no streams, or a peer no longer in the directory, changes nothing |
| HubClient.Client.OnTrack | src/index.js:127-138 | the client's new state is the model's `OnTrack` |
| HubModel.Release | src/index.js:277-288 | leaving detaches and disconnects the signaling (the older client at src/sfu/index.js:285-290 does not disconnect it) and closes and drops the uplink; nothing else changes |
| HubClient.Client.Release | src/index.js:277-288 | the client's new state is the model's `Release` |
| HubModel.Retire | src/index.js:289-295 | one peer's stream tracks are stopped and its downlink closed, and it leaves the directory and the order |
| HubClient.Client.Retire | src/index.js:289-295 | the client's new state is the model's `Retire` |
| HubModel.RetireAll | src/index.js:289-295 | the loop over the peers empties the directory and only stops tracks and closes downlinks besides |
| HubModel.RetireAllEffect | src/index.js:289-295 | the tracks stopped are every peer's stream tracks and the links closed every peer's downlink, in directory order |
| HubModel.StreamsFrame | src/index.js:289-295 | the tracks stopped depend only on the listed peers' entries |
| HubModel.DownlinksFrame | src/index.js:289-295 | the links closed depend only on the listed peers' entries |
| HubClient.Client.RetireAll | src/index.js:289-295 | the loop leaves the state `RetireAll` defines |
| HubModel.Leave | src/index.js:277-296 | afterwards the client is not joined, has no uplink and no peers; its local stream, outbox and events are untouched |
| HubModel.LeaveReleasesAll | src/index.js:277-296 | leaving disconnects the signaling (current client only), closes the uplink and then every downlink in directory order, and stops every peer's stream tracks |
| HubModel.LeaveIdempotent | src/index.js:277-296 | leaving twice is leaving once |
| HubClient.Client.Leave | src/index.js:277-296 | the client's new state is the model's `Leave` |
| HubModel.Join | src/index.js:260-275 | join first leaves; once the signaling connected the client is joined to it with a fresh uplink, and if it never connects the client stays left |
| HubClient.Client.Join | src/index.js:260-275 | the client's new state is the model's `Join` |
| HubModel.SetStreams | src/index.js:298-331 | the local stream becomes every track of the given streams and the previous stream's tracks are stopped. A joined client's uplink is made to send exactly the new stream and makes one attempt, sending one offer or raising 884761; a client not joined sends nothing |
| HubClient.Collect | src/index.js:300-303 | the reduce collects exactly the concatenation of the streams' tracks |
| HubClient.StopAll | src/index.js:324-329 | the returned tracks are exactly the previous stream's tracks, stopped in order, and the previous stream object is left empty |
| HubClient.Client.SetStreams | src/index.js:298-331 | the client's new state is the model's `SetStreams`, the returned stream object is the fresh local stream and the previous stream object was emptied |
| SocketIoModel.CheckChannel | example/client/signaling.socketio.js:10-12 | the channel is accepted, unchanged, exactly when it matches `^([a-z0-9\-].*){4,}$`; otherwise the error is 975600 |
| SocketIo.NewClient | example/client/signaling.socketio.js:8-14 | construction fails exactly for a channel the expression rejects, with 975600; otherwise it yields a fresh client in the initial state |
| SocketIo.Client.constructor | example/client/signaling.socketio.js:8-14 | an accepted channel gives a client whose state is the initial state |
| SocketIoModel.Init | example/client/signaling.socketio.js:13 | a new client is well formed and not connected |
| SocketIo.Client.IsConnected | example/client/signaling.socketio.js:16-18 | `connected` is true exactly when a channel socket is set |
| SocketIoModel.Connect | example/client/signaling.socketio.js:20-35 | connecting while connected changes nothing. Otherwise it opens one new admin socket, whose `created` handler is registered, and sends `create` for the channel. The channel socket is not set yet |
| SocketIo.Client.Connect | example/client/signaling.socketio.js:20-35 | the client's new state is the model's `Connect` |
| SocketIoModel.OnCreated | example/client/signaling.socketio.js:24-33 | the acknowledgement of a pending admin socket opens one new channel socket, sets it as the current one and disconnects that admin socket; any other acknowledgement changes nothing |
| SocketIo.Client.OnCreated | example/client/signaling.socketio.js:24-33 | the client's new state is the model's `OnCreated` |
| SocketIoModel.Disconnect | example/client/signaling.socketio.js:37-42 | afterwards the client is not connected; the current channel socket, if any, was disconnected and no longer delivers |
| SocketIo.Client.Disconnect | example/client/signaling.socketio.js:37-42 | the client's new state is the model's `Disconnect` |
| SocketIoModel.Send | example/client/signaling.socketio.js:44-49 | while connected the payload is emitted unchanged on the current socket; otherwise nothing happens |
| SocketIo.Client.Send | example/client/signaling.socketio.js:44-49 | the client's new state is the model's `Send` |
| SocketIoModel.OnSignal | example/client/signaling.socketio.js:26-30 | a channel socket still open dispatches a truthy payload unchanged; a falsy payload, or a closed socket, dispatches nothing |
| SocketIo.Client.OnSignal | example/client/signaling.socketio.js:26-30 | the client's new state is the model's `OnSignal` |
| SocketIoModel.Step | example/client/signaling.socketio.js:20-49 | every operation keeps the client well formed |
| SocketIoModel.Run | example/client/signaling.socketio.js:20-49 | any sequence of operations keeps the client well formed |
| SocketIoModel.NotConnectedUntilAck | example/client/signaling.socketio.js:21-34 | until some `created` arrives, any sequence of operations leaves the client not connected and emitting nothing |
| SocketIoModel.SteadyRun | example/client/signaling.socketio.js:26-49 | while connected and without reconnecting, the client keeps its socket; it emits exactly the payloads sent, in order, and dispatches exactly the truthy payloads received on open sockets |
| SocketIoModel.Idempotent | example/client/signaling.socketio.js:21 | connecting while connected is a no-op, and disconnecting twice is disconnecting once |
| SocketIoModel.DoubleConnect | example/client/signaling.socketio.js:21-33 | two `connect` calls before the first acknowledgement open two admin sockets. After both acknowledgements two channel sockets are live, and the first one still dispatches. A later `disconnect` closes only the second |
| RelayModel.Init | example/server/index.js:5 | the relay starts with no namespace |
| RelayModel.CreateAsWritten | example/server/index.js:8-27 | as written: a falsy name changes nothing. Any other name is acknowledged; it is registered only when `namespaces[name]` is not already truthy, an inherited `Object.prototype` name counting as truthy |
| RelayModel.Create | example/server/index.js:8-27 | a falsy name changes nothing and is not acknowledged. A known name is acknowledged without registering again. A new name is registered with no socket, then acknowledged. Afterwards an acknowledged name is registered |
| Relay.Server.Create | example/server/index.js:8-27 | the server's new state is the corrected `Create` |
| RelayModel.CreateTwice | example/server/index.js:8-27 | creating the same name twice leaves the registry as creating it once, and both requests are acknowledged in order |
| RelayModel.Connection | example/server/index.js:20 | only a registered namespace accepts a connection, which joins it once; the other namespaces and the logs are untouched |
| Relay.Server.Connection | example/server/index.js:20 | the server's new state is the model's `Connection` |
| RelayModel.Broadcast | example/server/index.js:23 | the deliveries are exactly the payload, unchanged, to each member of the namespace other than the sender |
| RelayModel.Relay | example/server/index.js:21-24 | a signal from a socket of the namespace appends exactly that broadcast; the registry and acknowledgements never change |
| RelayModel.RelayReachesOthers | example/server/index.js:21-24 | a relayed signal reaches every other socket of the namespace exactly as sent, and never its sender or a socket outside the namespace |
| Relay.Server.Signal | example/server/index.js:21-24 | the server's new state is the model's `Relay` |
| RelayModel.ConstructorAccepted | example/client/signaling.socketio.js:10 | the client accepts the channel name `constructor` |
| RelayModel.ConstructorNeverRelayed | example/server/index.js:11-14 | as written, `constructor` is acknowledged but never registered. Both clients' connections are then refused, and a signal from one reaches no one |
| RelayModel.ConstructorRelayed | example/server/index.js:11-26 | with the own-key lookup, `constructor` is registered and a signal between its two sockets is delivered to the other one |
| StreamKey.LeTotal | example/multicfg/index.js:143 | character-code order compares any two strings |
| StreamKey.LeAntisymmetric | example/multicfg/index.js:143 | two strings each sorting before the other are equal |
| StreamKey.LeTransitive | example/multicfg/index.js:143 | character-code order is transitive |
| StreamKey.Insert | example/multicfg/index.js:143 | inserting into a sorted list keeps it sorted and adds exactly that string |
| StreamKey.Sort | example/multicfg/index.js:143 | the default `sort` gives a sorted permutation of the ids |
| StreamKey.SortedUnique | example/multicfg/index.js:143 | two sorted orderings of the same strings are the same sequence |
| StreamKey.OrderIndependent | example/multicfg/index.js:143 | streams with the same multiset of track ids get the same key (`StreamKey.StreamId`, the sorted ids joined by `StreamKey.Join` with `:`), whatever the track order |
| StreamKey.SwapIndependent | example/multicfg/index.js:143 | in particular, swapping two groups of tracks keeps the key |
| MultiCfgModel.Screen | example/multicfg/index.js:165 | exactly the video tracks whose intent is `screen` |
| MultiCfgModel.Camera | example/multicfg/index.js:166-168 | exactly the video tracks whose intent is `camera` and the audio tracks whose intent is `microphone` |
| MultiCfgModel.CameraVideosFirst | example/multicfg/index.js:168 | in the camera stream every video track comes before every audio track |
| MultiCfgModel.Split | example/multicfg/index.js:165-169 | the camera and screen streams hold exactly those tracks, and no track is in both |
| MultiCfgModel.OnSignal | example/multicfg/index.js:98-114 | only `example-needintents` addressed to this participant is acted on. It is answered to the sender with `example-intents`, the current intents and `includeMe`. Before a configuration was chosen it throws and changes nothing |
| MultiCfg.Roster.OnSignal | example/multicfg/index.js:98-114 | the roster's new state and outcome are the model's `OnSignal` |
| MultiCfg.Roster.constructor | example/multicfg/index.js:32 | a new roster has no intents, no entries, no handlers and empty logs |
| MultiCfg.Roster.Choose | example/multicfg/index.js:208 | choosing a configuration sets the current intents and changes nothing else |
| MultiCfgModel.Render | example/multicfg/index.js:143-181 | with a cached entry for the participant and stream key, nothing changes. Otherwise the participant's entries are reset, one intents handler is registered for that key and one `example-needintents` (`MultiCfgModel.NeedIntents`, addressed to the participant) is sent |
| MultiCfg.Roster.Render | example/multicfg/index.js:143-181 | the roster's new state is the model's `Render` |
| MultiCfgModel.CachedAnyOrder | example/multicfg/index.js:143-144 | a stream whose tracks come in another order hits the same cache entry and sends no request |
| MultiCfgModel.RenderAll | example/multicfg/index.js:137-187 | rendering a list of participants keeps the roster well formed, its id and its intents |
| MultiCfgModel.RenderAllStep | example/multicfg/index.js:137-187 | rendering one more participant is rendering it after the others |
| MultiCfg.Roster.RenderAll | example/multicfg/index.js:137-187 | the loop leaves the state `RenderAll` defines |
| MultiCfgModel.Handle | example/multicfg/index.js:160-177 | a non-matching handler stays registered and changes nothing. A matching one unregisters itself. Without its container it files nothing. When its data is no object and it has tracks, it throws. Otherwise it files the split under its participant and key only |
| MultiCfgModel.HandleAll | example/multicfg/index.js:160-178 | the handlers take their turns keeping the participants' keys, and every handler still registered files into an existing entry |
| MultiCfgModel.HandleAllStep | example/multicfg/index.js:160-178 | one more handler's turn follows the others' |
| MultiCfgModel.OneShot | example/multicfg/index.js:162-163 | dispatching removes exactly the matching handlers and keeps the others, in order |
| MultiCfgModel.NoMatchNoChange | example/multicfg/index.js:162 | a signal no handler matches keeps every handler and every entry |
| MultiCfgModel.LastMatches | example/multicfg/index.js:162-170 | after non-matching handlers, a matching handler whose container is on the page files the split of its tracks |
| MultiCfgModel.Deliver | example/multicfg/index.js:160-177 | a delivered signal keeps the roster well formed and sends nothing |
| MultiCfg.Roster.Turn | example/multicfg/index.js:160-177 | one handler's turn updates the entries, the kept handlers and the errors as `Handle` says, and nothing else |
| MultiCfg.Roster.Deliver | example/multicfg/index.js:160-177 | the loop over a snapshot of the handlers leaves the state `Deliver` defines |
| MultiCfgModel.Answer | example/multicfg/index.js:103-111 | the participant asked by a render answers with `example-intents` carrying its current intents, addressed to the asker |
| MultiCfgModel.ReplyFiled | example/multicfg/index.js:162-170 | delivering that reply removes the new handler and files the split, so the next render of the same stream is a cache hit |
| MultiCfgModel.IntentsRoundTrip | example/multicfg/index.js:159-179 | end to end: a render sends `example-needintents`, the other side answers and the answer is delivered. The asker then holds the split of the stream by the other side's intents, its handlers are as before, and rendering again changes nothing |

## Left out

- Browser and network I/O become inputs. That covers capture (`getUserMedia` and `getDisplayMedia`), `enumerateDevices`, the `RTCPeerConnection` engine behind each link, and socket.io transport. Each promise chain's outcome is a `Step` parameter, and every gathered candidate, link state change, `track` event and socket.io delivery is a call.
- Async interleavings are not modelled: each promise chain is one atomic step at the moment it starts. A chain that resolves after a later signal, a teardown or a second `setStreamConfiguration` is not represented.
- The mesh engine's and hub client's links are values inside the participant or peer entry, not separate objects. Each link has exactly one owner, so no aliasing is lost. The uplink and `MediaStream` stay objects.
- Stale handlers are not modelled: listeners bound to a participant or peer object that was already removed. An event for a key no longer in the directory changes nothing.
- HubModel.OnIceCandidate: when the client is no longer joined the source's `send` on a deleted signaling throws; the model changes nothing, which leaves the same state.
- HubModel.OnTrack: a `track` event for a peer no longer in the directory throws in the source when it reads `self.peer(...)`; the model changes nothing, which leaves the same state.
- Payload shapes:
  - `data` fields of an unexpected shape are a `Payload` variant; a handler that would throw on them returns `Thrown` and changes nothing.
  - A `contenthint` payload that is not an object names no track.
  - A falsy `signal` payload is `None`.
  - Non-string channel values, and a `create` message without a payload object (a TypeError in the relay), are not representable.
- Duplicate track ids inside one stream are not excluded: `getTrackById` returns the first. The hint-exchange round trip is proved for streams with unique ids only.
- JavaScript enumerates array-index ids of `_participants` and `_peers` first, in ascending numeric order, and the other ids after them in insertion order. The model keeps insertion order for every key, so for a directory holding array-index ids the order of `getParticipants`, `peers()`, the teardown and the push to every participant can differ from the source's.
- Dafny compares `char` values as Unicode scalar values. JavaScript's `sort` compares UTF-16 code units, so the two orders differ only for characters outside the Basic Multilingual Plane.
- `streamId`'s `join(':')` is not injective when track ids contain `:`. The model keys entries by the joined string, as the source does.
- The `removetrack` listeners (index.js:131-135, src/index.js:131-135, src/sfu/index.js:140-144) are not modelled: they only dispatch an event after a timeout.
- The `direction` field of hub state-change events (src/index.js:43, 79, 90, 119) is not modelled: it is derived from whether a peer is given, which the event already records.
- `peerConnectionConfiguration` and the default STUN server only configure the foreign engine.
- `window.wrtcpc` (index.js:306) is a global debugging handle and is not modelled.
- `MediaStream` deduplication of repeated tracks is not modelled: a `MediaStream` holds its track list as given.
- The hub words `WordHello`, `WordSdp` and `WordCdt` come from the external `@viero/webrtc-common` package, which is not part of this model. They are taken to be `hello`, `sdp` and `cdt`, the same words the mesh engine uses.
- The older hub client's `join(url, channel)` builds its own signaling client (src/sfu/index.js:267). The model takes the connected signaling object as a parameter, as the current client does.
- The older client `src/sfu/index.js` is modelled only where it differs: `_addPeer`, `peer`, `peers`, `_onLeave` and `leave`. It shares every other handler with `src/index.js`, through `HubModel.Variant`.
- socket.io wiring is not modelled: the base URL selection (example/client/signaling.socketio.js:22), the server and CORS setup, and the removal of disconnected sockets from a namespace's room.
- The abstract base `signaling.js` is not modelled as a separate class. Its members only throw "not implemented", except `dispatchSignal`, which the socket.io model records in `dispatched`.
- UI code is not modelled:
  - lit-html rendering;
  - button wiring;
  - `join` and `leave` of example/multicfg/index.js, which are UI glue;
  - the `muted` flag;
  - the DOM: whether `#p-<id>` is on the page is the parameter `mounted`.
- The button handler at example/multicfg/index.js:207-211 is modelled only for its assignment of the current intents (line 208), on the objects the example expects. With the imported mesh engine, which has no `setStreams`, line 207 throws before line 208 runs; on an engine that has one, lines 209-211 refer to undeclared `cameraStream` and `screenStream` and throw after it. `MultiCfg.Roster.Choose` models line 208 only.
- The relay never honours the client's `includeMe` field: `socket.broadcast.emit` (example/server/index.js:23) never delivers to the sender, so the multi-configuration example's `includeMe: true` has no effect. `RelayModel.Relay` states this.
- A mesh `sdp` answer is applied to the outbound link whether or not an offer is outstanding (index.js:257-263): nothing checks the link's signaling state. `MeshModel.ApplyAnswer` states this.
- Streams.Received: the model takes it that the remote side sees the sender's track ids unchanged, as the hint request at index.js:136 and the reply at index.js:214-225 rely on. That the browser's engine keeps track ids across the connection is behaviour of the foreign engine, not of this code. `Streams.ContentHintExchange` holds under this premise.
- MultiCfgModel.Render: the model assumes each participant it renders carries a `stream`, the track list that `renderParticipants` reads (example/multicfg/index.js:143, 165-167). The mesh engine that example imports (example/multicfg/index.js:21) lists participants as `{id, userStream, displayStream}` (index.js:321-323), without `stream`. It also has no `setStreams` (example/multicfg/index.js:123, 207) and no `createUserStream`. As shipped, rendering a remote participant would throw. The model covers the example's own logic on the objects it expects.
- MultiCfgModel.Handle: files the split of the tracks the participant's stream had at render time (`Pending.tracks`). The source reads the live `p.stream` when the reply arrives (example/multicfg/index.js:165-167), so tracks added to that stream in between are not split.
- A participant or peer id `__proto__` is not modelled as a directory entry: assigning it (src/index.js:151, src/sfu/index.js:161) replaces the directory's prototype and adds no entry. The mesh engine never assigns it, because the lookup before the assignment is truthy.
- The directory arrays' `length` is modelled as a number only. The other effects of storing array-index ids (holes, and `forEach`-style enumeration of indices) are not: the directories are only read by key and through their key order.
- In the multi-configuration example, `state.streams` is a plain object. A participant id that names an `Object.prototype` member is treated there as an unknown id. The two differ only when the stream key also names a property of the inherited value.
- Console logging (`console.log` in example/client/signaling.socketio.js, example/server/index.js, src/sfu/index.js and example/multicfg/index.js) and the `debugger` statement of the older client's `_onLeave` are not modelled: they change no state.
- The mesh engine's `cdt` always goes to the sender's outbound link, even for candidates the sender's own outbound link gathered, which pair with this side's inbound link. This is the code's behaviour, and the model keeps it.
- `SocketIoModel.DoubleConnect` documents the source's behaviour: a second `connect` before the first acknowledgement is not guarded against, so two channel sockets end up live.

## Findings

| source | as written | input that shows it | evidently intended | confidence | as-written member | corrected member |
|---|---|---|---|---|---|---|
| index.js:344 | `setSignaling` dispatches participants-changed on `self`, the global object, not on the engine, after tearing every participant down | an engine with one participant whose signaling is replaced: its participant list changes but no participants-changed reaches the engine's listeners | dispatch participants-changed on the engine (`this`) | not executed | MeshModel.SetSignalingAsWritten (shown by MeshModel.TeardownEventLost) | MeshModel.SetSignaling |
| example/server/index.js:11-14 | `namespaces[name]` on a plain object is truthy for names inherited from `Object.prototype` | channel `constructor`, which the client's channel test accepts: it is acknowledged but never registered, so its clients' connections are refused and no signal is relayed | look up own keys only (`Object.create(null)` or a `Map`) | not executed | RelayModel.CreateAsWritten (shown by RelayModel.ConstructorNeverRelayed) | RelayModel.Create (shown by RelayModel.ConstructorRelayed) |
