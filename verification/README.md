# Replication core of nexus-core, verified in Dafny

`nexus-core` keeps an encrypted, append-only event log and a store of file chunks on every device and
replicates them between paired devices over requests that may be lost. This project models that core
and proves what its documentation and tests promise.

* **One store.** `Storage` has the class `Store` with the tables of `storage.rs` as fields that its methods
  update; each method is proved against functions on table values (`Tables`, `ChunkRows`, `EventLog`), and the
  laws are proved about those. `StoreRaces` splits `put_blob`, `save_manifest` and
  `refresh_manifest_complete` into their locked sections and file-system steps, interleaves any number
  of them, and lets them crash; `CompleteFlag` says when the `complete` flag is right in all that.
* **One device and its peer.** `Nodes` has the class `Node` with the handlers and client operations of
  `node.rs`; `Protocol` says what each handler does to tables, `HandlerLaws` when it
  serves a message and with what, and `SyncLaws` what one exchange of events
  achieves. A `Fate` says of each request whether it is delivered, lost, or answered in vain.
* **Files.** `Files` ingests and materialises, `ChunkTraffic` and `Nodes` push and resume, and `Transfer`
  and `Delivery` join them end to end.
* **Many devices.** `Network` is a step machine of any number of devices. A step is one access of an operation
  to its store. Requests and answers, once sent, stay available: one never picked up was lost, one
  picked up twice was delivered twice. `Replication` and `ReplicationSteps` prove its invariant;
  `Convergence`, `RunLaws`, `ManifestLaws` and `StockLaws` prove what follows for all runs, `Liveness` that a run can be
  continued by a sync that completes and makes the logs equal exactly when its two frames fit, and `FrameLaws` what
  happens to a conversation whose frames do not fit. `Refinement` shows that, when nothing interferes, the server
  steps come to the handlers and the client steps to the stores that the methods of `Node` leave; for a sync as a
  whole `Liveness` does.
* **Encodings.** `Model` (stream ids), `Crypto` (associated data, events, chunks), `Text`, `Frames` (CBOR sizes of all
  messages, the frame limit and framing). No message over the limit is sent, neither in `Nodes` nor in `Network`.

`dafny verify dfyconfig.toml` checks everything.

## Assumptions

They are hypotheses of the lemmas that need them (`Crypto.Ideal`, `Binding`, `HashInjective`, `WellKeyed`,
`Network.ConfigOk`, `FrameLaws.KeepsLength`) or conditions under which a step can be taken:

* Encryption, signatures and key agreement are ideal: opening undoes sealing, signatures verify, key agreement is
  symmetric. Hashing is injective where a file is rebuilt from its chunks. For the concrete run of
  `FrameLaws.LongTextGetsStuck`, encoding and encryption do not shorten a text.
* Event ids and manifest ids are new when drawn (ULIDs). Devices are honest, and their keys, ids and names
  do not change during a run. Device ids contain no colon (they are hexadecimal). No device talks to
  itself.
* The chunk indices of a manifest that is sent increase, which is what ingesting yields up to 2^32 chunks, and its
  chunks were stored before the manifest.
* Writing a temporary blob file is one step, and renaming a vanished one is an error.
* Clock, random values and the choice of how many bytes a read returns are parameters.

## Where code and documentation differ

* `docs/protocol.md:43-44` says that materialising rechecks every chunk. The code
  (`core/nexus-core/src/files.rs:66-81`) rechecks the size of each chunk and the hash of the whole file; the model
  does what the code does, and `Files.MaterializeRestores` shows that this is enough.
* `docs/protocol.md:32-36` promises a sync on every reconnection. The code (`core/nexus-core/src/node.rs:438-451` and
  `588-598`) puts all known ids and events into one frame, and refuses to send a frame above 8 MiB
  (`core/nexus-core/src/transport/lan.rs:176` and `198`). A sync is possible exactly when its two frames fit
  (`Liveness.SyncCompletesExactlyWhenItFits`); a log whose request does not fit stops every later sync that its
  device starts (`FrameLaws.FullLogStopsSync`), and a single text that is too long, which
  `core/nexus-core/src/node.rs:299-313` accepts and stores, stops both directions for good
  (`FrameLaws.TooLongBlocksSync`, `FrameLaws.LongTextGetsStuck`).
* `docs/protocol.md:32-36` speaks of missing events. The client sends every event it has written, missing or not
  (`core/nexus-core/src/node.rs:439-443`), as the model does; only the answer leaves out what is known.
* `docs/protocol.md:4-6` gives the 8 MiB frame limit and the 16-chunk batches as if any batch fitted a frame.
  `Frames` gives the exact condition under which sixteen full chunks fit, and a family that does not.
* A destination whose extension is that of the temporary file can be left with unverified bytes
  (`Files.DestinationSafeExactlyWhen`).
* `complete` can stay unset although nothing is missing and no call is in flight
  (`CompleteFlag.StaleCompleteIsPossible`); `CompleteFlag.StaleExactlyWhen` says exactly when.
* Device ids and stream ids are joined with colons and not escaped, so the injectivity of stream ids rests on the
  form of device ids (`Model.StreamIdsCollideOnColons`).

## Model

| member | source | states |
|---|---|---|
| `Convergence.SyncDelivers` | core/nexus-core/src/node.rs:434-474 | Over every run, with requests and answers lost, repeated or interleaved with anything else: when a sync of A with B has completed, every event A had written when it sent its request is stored at B, and every event B had written when it answered is stored at A |
| `Convergence.DeliveredForGood` | core/nexus-core/src/node.rs:569-599 | What a completed sync has delivered is still there in every later state of the run |
| `Convergence.LogsEqualExactlyWhenDelivered` | docs/protocol.md:26-34 | In every reachable state the two logs of a conversation are equal if and only if each device stores everything the other has written |
| `Convergence.SyncConverges` | core/nexus-core/src/node.rs:434-474 | After a completed sync the two logs are equal if and only if every event either side has written since it read its log for that sync has reached the other side too |
| `Convergence.QuietSyncConverges` | core/nexus-core/src/node.rs:397-405 | If the later events were at least acknowledged when pushed, both logs list the same events in the same order and `chat` returns the same conversation on both sides, without an error |
| `Convergence.AcknowledgedIsStored` | core/nexus-core/src/node.rs:554-568 | A push that was answered has been stored by its receiver, at any time in any run |
| `Liveness.SyncCompletesExactlyWhenItFits` | core/nexus-core/src/transport/lan.rs:176-198 | In every reachable state in which A can talk to B and B holds A as paired, whatever was lost before, the run has a continuation in which a sync of A with B completes undisturbed if and only if its request frame and its answer frame, computed from the two stores as they are, are within the limit; every such sync leaves the two logs equal |
| `Liveness.FittingSyncConverges` | docs/protocol.md:32-36 | If the two frames fit, there is such a continuation in which the steps of the sync follow each other and amount to one `Exchange` of the two stores |
| `Liveness.UndisturbedFits` | core/nexus-core/src/node.rs:434-456 | The other half, for any interleaving in which neither writes anything for the other and nothing of their conversation reaches A before the sync starts: a sync that completes had frames that fit |
| `FrameLaws.FullLogStopsSync` | core/nexus-core/src/node.rs:438-451 | Once the request in which A names all ids it knows and all events it wrote exceeds the limit, it does so in every later state, and no sync that A starts and that reads its log from then on completes |
| `FrameLaws.TooLongBlocksSync` | core/nexus-core/src/transport/lan.rs:176-198 | Once A has written an event for B whose ciphertext is as long as a frame, in every later state of every run the two logs differ, and no sync in either direction has completed that read the events of A since |
| `FrameLaws.RunKeepsLongAtHome` | core/nexus-core/src/transport/lan.rs:176-198 | In every reachable state an event that long is stored by no device but its author |
| `FrameLaws.LongTextGetsStuck` | core/nexus-core/src/node.rs:299-313 | Such a state is reachable: a concrete run in which two devices meet, pair, and one sends a text of at least 8 MiB, which is stored before the request is refused |
| `Liveness.OnlyWritersWrite` | core/nexus-core/src/node.rs:458-467 | Taking in events of a peer never adds to what a device has written itself; only creating an event does |
| `Convergence.RunStamped` | core/nexus-core/src/node.rs:437-456 | Along every run, each request and each answer fits a frame; the ids of each sync request are those its sender held when it read them, its events exactly what the sender had written at the moment of sending, and the events of each answer what the server had written at the moment of answering, less the ids named as known |
| `RunLaws.EventsBelong` | core/nexus-core/src/node.rs:299-320 | In every reachable state each stored event belongs to a conversation of the storing device with a device it holds as paired, was written by one of the two, and is in the log of its author |
| `RunLaws.BelongsToOne` | core/nexus-core/src/model.rs:119-122 | The stream id of a stored event names exactly one pair of devices |
| `RunLaws.OneEventPerId` | docs/protocol.md:26-34 | Two devices never store different events under the same id |
| `RunLaws.NoEventIsLost` | core/nexus-core/src/storage.rs:188-205 | A stored event stays stored unaltered for the rest of the run |
| `RunLaws.PairIsCoherent` | core/nexus-core/src/node.rs:434-474 | Every reachable state satisfies, for any two devices one of which holds the other as paired, all that the laws about a single exchange ask for |
| `RunLaws.ExchangeAtAnyTime` | core/nexus-core/src/node.rs:457-467 | In every reachable state the two receiving loops of an exchange between paired devices accept every event and leave both with the union of their logs; whether the frames get through is the condition of `Liveness.SyncCompletesExactlyWhenItFits` |
| `RunLaws.ChatShowsWhatWasCreated` | core/nexus-core/src/node.rs:397-432 | In every reachable state `chat` succeeds and shows for each event of the stream, in order, the payload that was passed to its creation |
| `RunLaws.PairingLasts` | core/nexus-core/src/node.rs:270-297 | Once `pair` has recorded the peer, both devices hold each other as paired in every later state |
| `RunLaws.OneSidedPairing` | core/nexus-core/src/node.rs:539-553 | If only one of two devices holds the other as paired, a pair request of the other one has been handled there and none of its pairings ever got an answer |
| `RunLaws.PeersNeverForgotten` | core/nexus-core/src/node.rs:227-249 | Along every run, with announcements writing back stale values: a paired device stays paired, a known endpoint stays known, host and port are both set or both absent, and the row that a pairing handler has just written is found |
| `RunLaws.ProgressOverRuns` | core/nexus-core/src/node.rs:667-678 | The same for every stored manifest at any two moments of any run, whatever happens in between |
| `RunLaws.TalkLasts` | core/nexus-core/src/node.rs:766-779 | A peer once reachable and paired stays so, hence checking this earlier than acting on it is harmless |
| `StockLaws.SyncNeedsOnlyLinkAndFrames` | core/nexus-core/src/node.rs:434-474 | In every reachable state, between two devices that hold each other as paired, every condition under which `Node.Sync` succeeds is met, except that the link delivers and the frames fit |
| `StockLaws.AlwaysInOrder` | core/nexus-core/src/node.rs:706-764 | In every reachable state whatever a device still lacks of the files of a paired peer, the peer can serve |
| `StockLaws.RunStocked` | core/nexus-core/src/node.rs:337-347 | In every reachable state each device has the manifest and all chunks of every file it has announced, and each row that is missing belongs to a file announced by the peer it is stored for |
| `ManifestLaws.FileEventsHaveTheirManifest` | core/nexus-core/src/node.rs:691-704 | In every reachable state a device that stores a file event holds the manifest that was sent, with chunk rows equal to its (index, hash) list, unless one of its operations stands between `insert_event` and `save_manifest` |
| `ReplicationSteps.StepKeepsInv` | core/nexus-core/src/node.rs:532-689 | Every step of every operation of every device keeps the network invariant, and takes nothing away from any store |
| `ReplicationSteps.RunKeepsInv` | core/nexus-core/src/node.rs:434-599 | The network invariant holds in every reachable state |
| `ReplicationSteps.RunGrows` | core/nexus-core/src/storage.rs:188-205 | Events, pairings, endpoints, manifests and messages only accumulate along a run |
| `ReplicationSteps.MintedOpens` | core/nexus-core/src/node.rs:419-432 | An event of the record can be opened by its addressee and yields what it was made from |
| `ReplicationSteps.ReceiveKept` | core/nexus-core/src/node.rs:458-467 | A turn of a receiving loop never refuses an event of an honest peer and keeps the invariant |
| `ReplicationSteps.UpsertKept` | core/nexus-core/src/storage.rs:114-139 | Recording a peer keeps the invariant, provided a new pairing has a reason |
| `Refinement.DrainIsAdmitAll` | core/nexus-core/src/node.rs:579-587 | Taking the small steps of a receiving loop one after the other equals the loop as the handlers are specified with |
| `Refinement.ServedAloneIsHandled` | core/nexus-core/src/node.rs:554-599 | A push or sync request served without interference leaves the store and is answered exactly as the handler specification says |
| `Refinement.PairedAloneIsHandled` | core/nexus-core/src/node.rs:539-553 | The same for a pair request, with its read and its write as separate steps |
| `Refinement.TextAloneIsSent` | core/nexus-core/src/node.rs:299-328 | The step that creates a text leaves the store and sends the event of `Node.SendText` |
| `Refinement.FileAloneIsKept` | core/nexus-core/src/node.rs:337-347 | The two steps that create a file event leave what `Node.SendFile` promises to keep |
| `Refinement.PairedAloneIsRecorded` | core/nexus-core/src/node.rs:285-291 | The step that ends a pairing leaves the tables `Node.Pair` continues with |
| `Refinement.LearntAloneIsRemembered` | core/nexus-core/src/node.rs:162-178 | Reading and writing an announcement in a row leaves the store of `Node.RememberPeer` |
| `SyncLaws.ExchangeUnites` | core/nexus-core/src/node.rs:434-474 | An uninterrupted exchange succeeds and leaves both stores with exactly the union of what the two held of their stream |
| `SyncLaws.ServerStream` | core/nexus-core/src/node.rs:579-587 | After the server has taken in the request its stream is the union, and its log has gained exactly the events sent |
| `SyncLaws.AnswerCompletes` | core/nexus-core/src/node.rs:588-598 | What the server answers is just what the client still lacks of the union |
| `SyncLaws.AnsweredBefore` | core/nexus-core/src/node.rs:588-598 | What the server answers is the same whether computed before or after it takes in the events of the request |
| `SyncLaws.ExchangeFitsAtOnce` | core/nexus-core/src/transport/lan.rs:176-198 | Hence the two frames `Node.Sync` depends on can be computed from the two stores before the call |
| `SyncLaws.ChatsAgree` | core/nexus-core/src/node.rs:397-405 | With equal streams both devices return identical lists of id, author, time and payload |
| `SyncLaws.ItemsAgree` | core/nexus-core/src/node.rs:419-432 | Item by item, both sides read the payload the event was created from |
| `SyncLaws.RetryIsExact` | core/nexus-core/src/node.rs:457-467 | After an exchange that failed behind any prefix of the insertions on either side, a successful one leaves exactly the stores that a single successful exchange would have left |
| `SyncLaws.FailedSyncIsInterrupted` | core/nexus-core/src/node.rs:434-474 | Whatever state a failing `Node.Sync` leaves is one of those interrupted exchanges, up to file chunks already fetched |
| `SyncLaws.FailedSyncRetried` | core/nexus-core/src/node.rs:457-467 | After any failure of `Node.Sync` the exchange of the next one succeeds and leaves the server exactly, and the client up to chunks already there, as a single successful exchange would have |
| `SyncLaws.AdmitAllFills` | core/nexus-core/src/node.rs:458-467 | Chunks that are already there change nothing in what receiving events does |
| `SyncLaws.CoherentCanSync` | core/nexus-core/src/node.rs:434-474 | Between two honest paired devices everything a sync needs besides the link and the frames is met, if the server can help with the files then incomplete |
| `SyncLaws.CompatibleCanPair` | core/nexus-core/src/node.rs:270-297 | Likewise for `Node.Pair` between devices not yet paired |
| `SyncLaws.PairedIsCoherent` | core/nexus-core/src/node.rs:539-553 | Pairing turns compatible devices into ones to which the laws of exchange apply |
| `SyncLaws.PrefixThenAll` | core/nexus-core/src/node.rs:457-467 | Admitting a prefix of a list of events first, then the whole list or only the rest, gives the same store as admitting the list once |
| `SyncLaws.AdmitAllKnown` | core/nexus-core/src/storage.rs:188-205 | Events whose ids are known change nothing and save no manifest |
| `SyncLaws.SyncIsExchange` | core/nexus-core/src/node.rs:434-474 | A successful `Node.Sync` is this exchange followed by changes to blobs and flags only |
| `SyncLaws.ClientRetries` | core/nexus-core/src/node.rs:435-443 | After a partial answer the client offers the same events again and is answered exactly the rest |
| `EventLog.MergeIsOrderFree` | core/nexus-core/src/storage.rs:188-205 | Inserting the same events in any order and with any repeats gives the same log |
| `EventLog.InsertAllIsUnion` | core/nexus-core/src/storage.rs:188-205 | Inserting a list of events with consistent ids adds exactly these events |
| `EventLog.OrderFreeExactlyWhenIdsAreUnique` | docs/protocol.md:26-34 | The log is independent of order if and only if no two of the events share an id |
| `EventLog.ListingUnique` | core/nexus-core/src/storage.rs:207-243 | There is only one strictly sorted list of a set of events, so the listing is determined by the set |
| `EventLog.ListingDependsOnSetOnly` | core/nexus-core/src/storage.rs:207-243 | Any order and repeats of the same insertions give the same listing of each stream: exactly its events, by time and, at equal times, by id |
| `EventLog.Listing` | core/nexus-core/src/storage.rs:207-243 | Every set of events with distinct ids has such a list |
| `EventLog.BeforeTotal` | core/nexus-core/src/storage.rs:213-214 | Time and id order any two events with different ids |
| `EventLog.UnknownMembers` | core/nexus-core/src/node.rs:588-597 | The answer filter keeps exactly the events whose id is not known |
| `Tables.NoPeerUpdateIsLost` | core/nexus-core/src/storage.rs:114-139 | After any sequence of upserts with whatever stale values: paired stays paired, an endpoint stays, host and port go together, and every stored row is found as paired and with an endpoint if it was written so |
| `Tables.SaveManifestSound` | core/nexus-core/src/storage.rs:253-270 | Saving a manifest keeps all store invariants, the `complete` flag included |
| `Tables.SaveManifestHolds` | core/nexus-core/src/storage.rs:253-270 | After a save the rows of a manifest are exactly its (index, hash) list; saving it again changes no row |
| `Tables.SaveManifestKeepsOthers` | core/nexus-core/src/storage.rs:253-270 | A save leaves the rows of all other manifests alone |
| `Tables.MarkPresentSound` | core/nexus-core/src/storage.rs:295-301 | Marking rows of a stored blob keeps the store invariants |
| `Tables.PutBlobSound` | core/nexus-core/src/storage.rs:336-348 | So does storing a blob |
| `Tables.MissingAfterPut` | core/nexus-core/src/storage.rs:336-348 | A stored blob removes exactly its own hash from what each manifest lacks, repeated hashes included |
| `Tables.PutBlobFills` | core/nexus-core/src/storage.rs:336-348 | Storing a blob takes nothing away: blobs, rows and flags only rise, `complete` flags stay |
| `Tables.FillsHolds` | core/nexus-core/src/storage.rs:295-301 | Such changes keep the chunk list of every manifest |
| `Tables.SaveManifestFills` | core/nexus-core/src/storage.rs:253-270 | Chunks that have arrived meanwhile only make a save find more rows present |
| `Tables.SaveRises` | core/nexus-core/src/storage.rs:253-270 | A save changes no row of a manifest stored already |
| `ChunkRows.InsertRowsAgain` | core/nexus-core/src/storage.rs:258-266 | Inserting a chunk list whose indices all have rows already changes nothing |
| `ChunkRows.FirstSaveDescribes` | core/nexus-core/src/storage.rs:258-266 | The first insertion of a list with increasing indices gives exactly one row for each of its entries, in order |
| `ChunkRows.InsertRowsKeepOrder` | core/nexus-core/src/storage.rs:258-266 | Insertion keeps the primary-key order, keeps all rows, and a new row is present exactly if its blob was on disk |
| `ChunkRows.NothingMissing` | core/nexus-core/src/storage.rs:286-293 | No chunk is missing if and only if every row is present |
| `ChunkRows.MissingInOrder` | core/nexus-core/src/storage.rs:286-293 | There is one entry for each row that is not present, and they are in row order |
| `ChunkRows.InsertRowsSaved` | core/nexus-core/src/storage.rs:260-266 | Row by row for any chunk list, repeated indices included: every index ends up with one row, the rows there before stay, and a new row is that of the first chunk with its index |
| `ChunkRows.WithoutPrefix` | core/nexus-core/src/node.rs:716-724 | Asking for the first rows that are missing clears at least as many rows as were asked for |
| `Storage.Store.UpsertPeer` | core/nexus-core/src/storage.rs:114-139 | New peer table in full |
| `Storage.Store.SetPeerPaired` | core/nexus-core/src/storage.rs:141-152 | Afterwards the device is stored as paired under this identity, with the endpoint given or else the one known before |
| `Storage.Store.GetPeer` | core/nexus-core/src/storage.rs:154-170 | The stored peer with its identity, pairing and time; it has an endpoint exactly when host and port are both stored, and then that one |
| `Storage.Store.InsertEvent` | core/nexus-core/src/storage.rs:188-205 | The event is added if and only if its id is new, and the answer says which |
| `Storage.Store.EventsOf` | core/nexus-core/src/storage.rs:207-243 | The events stored under their id that belong to the stream, earlier times first and smaller ids first among equal times |
| `Storage.Store.EventIds` | core/nexus-core/src/storage.rs:245-251 | Exactly the ids of the stored events of the stream |
| `Storage.Store.SaveManifest` | core/nexus-core/src/storage.rs:253-270 | The first save of an id decides its manifest and peer; rows are only added, one for each new index, present exactly if the blob is on disk; the manifest is complete exactly if all its rows are present; nothing else changes |
| `Storage.Store.SavedRows` | core/nexus-core/src/storage.rs:258-266 | The loop over descriptors inserts the rows the specification inserts |
| `Storage.Store.GetManifest` | core/nexus-core/src/storage.rs:272-284 | A manifest is found exactly if it is stored under the id, and it is the one that carries this id |
| `Storage.Store.MissingChunks` | core/nexus-core/src/storage.rs:286-293 | One hash for each row that is not present, in index order, repeated hashes included |
| `Storage.Store.MarkChunkPresent` | core/nexus-core/src/storage.rs:295-301 | All rows with the hash become present, nothing else changes |
| `Storage.Store.RefreshManifestComplete` | core/nexus-core/src/storage.rs:303-314 | The flag is set to whether no row is missing, and returned |
| `Storage.Store.IncompleteManifestsForPeer` | core/nexus-core/src/storage.rs:316-330 | Exactly the manifests stored for the peer whose flag is unset, each once |
| `Storage.Store.PutBlob` | core/nexus-core/src/storage.rs:336-348 | Refused without effect if the hash does not match; otherwise the blob is stored unless there is one, and every row with its hash is present |
| `Storage.Store.GetBlob` | core/nexus-core/src/storage.rs:350-352 | Content is found exactly if the blob exists, and it has the hash asked for |
| `Tables.UpsertThenLookup` | core/nexus-core/src/storage.rs:114-170 | What is read back after an upsert: paired if ever stored so, the new endpoint or else the old one, the rest as stored last; other peers unchanged |
| `Tables.PutThenGet` | core/nexus-core/src/storage.rs:336-352 | A chunk is read back as it was put, even if it had been stored before |
| `StoreRaces.FlagsNeverLie` | core/nexus-core/src/storage.rs:253-270 | In every interleaving of puts, saves and refreshes, also after crashes: a row that is present has its blob with matching hash, and a complete manifest has no row missing |
| `StoreRaces.FlagsExactWhenQuiet` | core/nexus-core/src/storage.rs:295-301 | Whenever no call is in flight and none crashed, a row is present exactly if its blob exists |
| `StoreRaces.NextKeepsInv` | core/nexus-core/src/storage.rs:336-348 | Each step, start and crash keeps the invariant behind this |
| `CompleteFlag.StaleExactlyWhen` | core/nexus-core/src/storage.rs:303-314 | In every run: of a manifest with nothing missing, `complete` is unset if and only if no refresh of it has written since its last row rose, or the last one to write had counted before that |
| `CompleteFlag.LastWriteDecides` | core/nexus-core/src/storage.rs:303-314 | In every run the flag is what the last refresh to write had counted |
| `CompleteFlag.SettledForGood` | core/nexus-core/src/storage.rs:303-314 | Once nothing is missing and no outdated count is about to be written, this stays so in every continuation, crashes included; the flag never falls again, and any refresh that finishes leaves it set |
| `CompleteFlag.RefreshRepairs` | core/nexus-core/src/node.rs:707-756 | From any state with no call in flight and nothing missing, the first refresh that finishes, among whatever other calls, sets the flag for the rest of the run |
| `CompleteFlag.RowsRise` | core/nexus-core/src/storage.rs:295-301 | No step of any call removes a row, changes its chunk or takes back its `present` |
| `CompleteFlag.StaleCompleteIsPossible` | core/nexus-core/src/storage.rs:303-314 | A concrete run from the empty store, for any one-chunk file, that ends quiet with nothing missing and `complete` unset although it had been set |
| `StoreRaces.RefreshTellsTheTruth` | core/nexus-core/src/storage.rs:303-314 | An undisturbed refresh leaves the flag equal to whether every row is present |
| `StoreRaces.RefreshBeforeSaveWouldLie` | core/nexus-core/src/storage.rs:303-314 | A motivation only: from a state that the `Startable` guard of the machine excludes, a refresh that counts before the manifest is saved would set `complete` with a row missing |
| `StoreRaces.PutAlone` | core/nexus-core/src/storage.rs:336-348 | Undisturbed, the steps of `put_blob` amount to its one-step specification |
| `StoreRaces.SaveAlone` | core/nexus-core/src/storage.rs:253-270 | Likewise `save_manifest` with its refresh |
| `StoreRaces.RefreshAlone` | core/nexus-core/src/storage.rs:303-314 | Likewise `refresh_manifest_complete` |
| `Files.IngestFile` | core/nexus-core/src/files.rs:12-53 | For every file and every way the reads split it: indices count up from 0 modulo 2^32, sizes are 1 to 262144 and sum to the file size, the recorded size is exact modulo 2^64, all chunks are stored, and in order they are exactly the file |
| `Files.NumbersExactUpTo32Bits` | core/nexus-core/src/files.rs:35-39 | The 32-bit indices are exact, hence distinct, if and only if there are at most 2^32 chunks |
| `Files.MaterializeFile` | core/nexus-core/src/files.rs:55-84 | Succeeds exactly if no row is missing, every blob is there with its size, and the joined contents have the hash of the manifest, and then they are at the destination; with a row missing it fails and touches nothing; a failure touches the temporary file alone |
| `Files.MaterializeRestores` | core/nexus-core/src/files.rs:55-84 | A store that holds a manifest with nothing missing gives back exactly the bytes the manifest was made from and touches no other path but the temporary one |
| `Files.DestinationSafeExactlyWhen` | core/nexus-core/src/files.rs:66-83 | The destination always ends up with its old content or with bytes of the promised hash, if and only if its extension is not the one of the temporary file |
| `Files.GatherSize` | core/nexus-core/src/files.rs:66-76 | What is reassembled has the sum of the chunk sizes as length |
| `Files.GatherJoins` | core/nexus-core/src/files.rs:66-76 | Reassembling goes through if and only if every blob is there with its size, and then chunk k stands where the chunks before it end |
| `Files.JoinedOnce` | core/nexus-core/src/files.rs:66-76 | Only one content is joined in that way |
| `Transfer.SendBreakSyncMaterialize` | core/nexus-core/src/node.rs:330-395 | For every file, every read splitting, every fate of the announcement and of each chunk batch: a later successful sync of the receiver makes materialising write exactly the original bytes; and between devices whose stores are in order that sync does succeed over a delivering link if its frames fit |
| `Transfer.SyncCompletes` | core/nexus-core/src/node.rs:706-764 | After such a sync the receiver holds the manifest with no chunk missing |
| `Delivery.InOrderCanSync` | core/nexus-core/src/node.rs:706-764 | If the sender can serve what it has announced and what the receiver lacks of it, a sync of the receiver meets all conditions of success |
| `Delivery.SendKeepsOrder` | core/nexus-core/src/node.rs:330-395 | Sending a file keeps it so, wherever the sending stopped |
| `Delivery.ExchangeListed` | core/nexus-core/src/node.rs:458-467 | So does exchanging events |
| `Transfer.OfferedReady` | core/nexus-core/src/node.rs:554-568 | Wherever the sending broke off, the receiver has either the event with its manifest and rows, or neither |
| `Transfer.AdmitAllReady` | core/nexus-core/src/node.rs:458-467 | Receiving the missing events then brings the manifest in |
| `ChunkTraffic.ProgressIsTrue` | core/nexus-core/src/node.rs:667-678 | Between two states of which the second has the same manifest with rows that have only risen: reported progress is never negative, never falls, never exceeds the total, and reaches it exactly when the refresh reports completion |
| `ChunkTraffic.ChunksArrive` | core/nexus-core/src/node.rs:600-635 | Chunks encrypted by an honest sender are all accepted by the receiver |
| `ChunkTraffic.StoreChunksClears` | core/nexus-core/src/node.rs:649-666 | Storing a batch clears exactly the rows with its hashes |
| `ChunkTraffic.PushChunksKeeps` | core/nexus-core/src/node.rs:636-682 | An acknowledged push has cleared its hashes; whatever the outcome, nothing is taken away |
| `ChunkTraffic.ChunksForShape` | core/nexus-core/src/node.rs:360-380 | An encrypted batch carries exactly the hashes asked for |
| `ChunkTraffic.MissingBelongs` | core/nexus-core/src/node.rs:667-673 | What is missing of a manifest is part of it, so the progress count cannot underflow |
| `Protocol.AdmitAllSound` | core/nexus-core/src/node.rs:579-587 | Receiving any events keeps the store invariants |
| `Protocol.StoreChunksKeeps` | core/nexus-core/src/node.rs:649-666 | Storing any chunks keeps them, and only fills |
| `Nodes.Node.HandleMessage` | core/nexus-core/src/node.rs:532-689 | Store, answer and notices as specified for each message |
| `Nodes.Node.HandlePair` | core/nexus-core/src/node.rs:539-553 | Store, answer and notices are those of the handler that `HandlerLaws.PairIsAccepted` describes |
| `Nodes.Node.HandlePush` | core/nexus-core/src/node.rs:554-568 | Store, answer and notices are those of the handler that `HandlerLaws.PushIsTakenExactlyWhen` describes |
| `Nodes.Node.HandleSync` | core/nexus-core/src/node.rs:569-599 | Store, answer and notices are those of the handler that `HandlerLaws.SyncIsServedExactlyWhen` and `HandlerLaws.UnpairedIsRefused` describe |
| `Nodes.Node.HandleChunkRequest` | core/nexus-core/src/node.rs:600-635 | Store and answer are those of the handler that `HandlerLaws.ChunksAreServedExactlyWhen` describes |
| `Nodes.Node.HandlePushChunks` | core/nexus-core/src/node.rs:636-682 | Store, answer and notices are those of the handler that `HandlerLaws.ChunksAreTakenExactlyWhen` describes |
| `Nodes.Node.ProcessManifest` | core/nexus-core/src/node.rs:691-704 | The manifest of a file event is saved for the peer |
| `Nodes.Node.Receive` | core/nexus-core/src/node.rs:457-467 | The receiving loop equals its specification and counts the new events |
| `Nodes.Node.RequireSenderPaired` | core/nexus-core/src/node.rs:781-789 | Accepted exactly if a row of the peer table has the id, this very identity, and is paired |
| `Nodes.Node.RequirePairedPeer` | core/nexus-core/src/node.rs:766-779 | Accepted exactly if the row of the peer is there, is paired, and has both host and port |
| `HandlerLaws.UnpairedIsRefused` | core/nexus-core/src/node.rs:781-789 | Every event push, sync request, chunk request and chunk push of a sender that is unknown, not paired, or paired under another identity is refused with that reason, changes nothing and reports nothing |
| `HandlerLaws.PairIsAccepted` | core/nexus-core/src/node.rs:539-553 | A pair request is always accepted: the sender is then paired under this identity with the endpoint known before, is reported, and no other row changes |
| `HandlerLaws.OthersChangeNothing` | core/nexus-core/src/node.rs:683-688 | A greeting is answered by one; a message that is itself an answer is refused; neither changes anything |
| `HandlerLaws.PushIsTakenExactlyWhen` | core/nexus-core/src/node.rs:554-568 | An event is acknowledged if and only if its sender is paired, is its author, and the event opens; a new one is logged and shown, and its manifest saved for the sender exactly if its kind says that it carries one; anything else is refused without effect |
| `HandlerLaws.SyncIsServedExactlyWhen` | core/nexus-core/src/node.rs:569-599 | A sync is served if and only if its sender is paired, names the conversation of the two devices, and every event by the sender opens; the answer is every event written here in that conversation whose id was not named, by time and id; the log gains exactly events by the sender, with their manifests |
| `HandlerLaws.AdmitAllExactly` | core/nexus-core/src/node.rs:458-467 | The receiving loop goes through if and only if every event by the peer opens; it passes over events by others, and adds events by the peer from the list and no others |
| `HandlerLaws.AdmitAllBrings` | core/nexus-core/src/node.rs:691-704 | What it adds to the manifests is what the events it adds carry, stored for the peer; stored manifests stay |
| `HandlerLaws.ChunksAreServedExactlyWhen` | core/nexus-core/src/node.rs:600-635 | Chunks are served if and only if the sender is paired, the manifest is known, and each of the first sixteen hashes is in it and stored; in the order asked for, each encrypted for the sender under its own nonce; nothing changes |
| `HandlerLaws.ServedOpens` | core/nexus-core/src/node.rs:600-635 | What the requesting device decrypts is the stored content |
| `HandlerLaws.StoreChunksExactly` | core/nexus-core/src/node.rs:649-666 | Received chunks are stored up to the first one that is not allowed, does not open, or does not have its hash; exactly their hashes are added and their rows marked |
| `HandlerLaws.ChunksAreTakenExactlyWhen` | core/nexus-core/src/node.rs:636-682 | Pushed chunks are acknowledged if and only if the sender is paired, the manifest is known and each chunk is acceptable; then the flag of the manifest says whether all rows are present, and the number of present rows and completion are reported |
| `Nodes.Node.Request` | core/nexus-core/src/node.rs:476-530 | The remote handler runs unless the request is lost, does not fit a frame, or the sender identity is not valid; success exactly if request and answer fit and arrive, the answer comes from the expected device with a valid identity, and it is no error |
| `Nodes.Node.HandleConnection` | core/nexus-core/src/node.rs:507-530 | A sender whose identity is not valid gets no answer and changes nothing; any other is handled, and answered exactly if the answer fits a frame |
| `Nodes.Node.AskEvents` | core/nexus-core/src/node.rs:435-456 | The answer is what the handler gives to the ids known and events written here; success implies that both frames fit, and over a delivering link they suffice |
| `Nodes.Node.PushOut` | core/nexus-core/src/node.rs:310-323 | Succeeds exactly if the push is delivered and acknowledged and both frames fit |
| `Nodes.Node.RecordPaired` | core/nexus-core/src/node.rs:285-291 | The peer is stored as paired and reported |
| `Nodes.Node.FetchMissing` | core/nexus-core/src/node.rs:716-755 | The resume loop of one manifest with m missing rows ends within m/16 rounds, rounded up, even with repeated hashes; each round that succeeds reports progress; on success nothing is missing, every request was delivered, and the frames of all rounds fitted; with an honest responder that holds the blobs it succeeds over a delivering link if and only if they fit |
| `Nodes.Node.ResumeFiles` | core/nexus-core/src/node.rs:706-764 | On success no manifest of the peer is incomplete, and manifests that were complete stay so; only progress and completion are reported; with an honest responder it succeeds over a delivering link if the frames of all batches fit |
| `Nodes.Node.Sync` | core/nexus-core/src/node.rs:434-474 | On success the peer stores every event of the conversation written here before, this device every event the peer has written there, no manifest from the peer is incomplete, and completion is reported with the number of new events; it is the exchange plus resumed files, its request was delivered and its two frames fit; failure leaves one of the interrupted states; events are never lost; over a delivering link it succeeds whenever all frames fit, the server admits the events, its answer is admitted, and it can help with the files then incomplete |
| `Nodes.Node.Pair` | core/nexus-core/src/node.rs:270-297 | Fails and changes nothing here unless the request gets through to the device expected and is answered; fails if the request of the sync is lost; on success each device holds the other as paired, the stores are those of a successful sync after both have recorded the pairing, both have caught up with each other, and the peer and then the sync are reported; over a delivering link it succeeds whenever its frames fit and the sync that follows can succeed |
| `Nodes.Node.SendText` | core/nexus-core/src/node.rs:299-328 | The event is stored here whatever becomes of the push; success implies that the push was delivered, both frames fitted and the peer has the event, returns what the event opens as, and is what is reported; between companions over a delivering link it succeeds with the text sent if the frames fit |
| `Nodes.Node.KeepFile` | core/nexus-core/src/node.rs:337-347 | The manifest describes the file under the name and media type given and is saved as complete for the peer if its id is new; the event is in the log; the blobs stay |
| `Nodes.Node.SendFile` | core/nexus-core/src/node.rs:330-395 | What is kept and what the peer may have by then, for every fate of the pushes; on success every push was delivered, every frame fitted, and the peer has the event and no chunk of the file missing; nothing is reported; between companions over a delivering link it succeeds if the frames fit |
| `Nodes.Node.PushBatches` | core/nexus-core/src/node.rs:360-393 | On success every batch was delivered and fitted, and no row of the receiver with a hash of the file lacks its content; over a delivering link to a receiver that has the manifest it succeeds if the frames fit |
| `Nodes.Node.Chat` | core/nexus-core/src/node.rs:397-405 | For a peer that is paired and has an endpoint: one item for each stored event of the conversation, which is what the event opens as, by time and then by event id; or an error, if some event of it does not open |
| `Nodes.Node.RememberPeer` | core/nexus-core/src/node.rs:162-178 | Refused exactly if the identity is not valid; otherwise the peer is found with the new endpoint and the pairing status it had |
| `Nodes.BatchServed` | core/nexus-core/src/node.rs:600-635 | An honest responder that holds the blobs answers every request of the loop with chunks that can be stored |
| `Nodes.PushAccepted` | core/nexus-core/src/node.rs:554-568 | What one companion creates for the other is acknowledged there and opens at both |
| `Nodes.RangeTaken` | core/nexus-core/src/node.rs:360-393 | A range of chunks can be encrypted, and is acknowledged by a receiver that has the manifest |
| `Nodes.FetchingNext` | core/nexus-core/src/node.rs:716-755 | One round keeps the loop bound |
| `Nodes.FirstBatchExactly` | core/nexus-core/src/node.rs:712-723 | A round asks for the missing chunks from the first one on, sixteen or as many as there are |
| `Nodes.AnyBatchRounds` | core/nexus-core/src/node.rs:716-755 | If any batch that may come to be asked for while chunks arrive fits a frame, so do all rounds of the loop |
| `Crypto.EventAadInjective` | core/nexus-core/src/crypto.rs:27-33 | For fields without a slash the associated data determine id, stream, author, time (negative times included) and kind |
| `Crypto.EventAadIsNoChunkAad` | core/nexus-core/src/crypto.rs:27-33 | No associated data of an event are those of a chunk |
| `Crypto.EventRoundTrip` | core/nexus-core/src/crypto.rs:35-109 | Both ends of a conversation open an event as the payload given to `create_event` |
| `Crypto.OpensExactlyWhen` | core/nexus-core/src/crypto.rs:79-109 | An event opens if and only if it is by one of the two devices, that device's key verifies its signature over the unsigned envelope, and its ciphertext opens under the conversation key and its own metadata to something that decodes |
| `Crypto.MetadataIsAuthenticated` | core/nexus-core/src/crypto.rs:79-109 | An envelope whose id, author, time or kind was changed is rejected |
| `Crypto.ChunkRoundTrip` | core/nexus-core/src/crypto.rs:111-155 | A chunk decrypts to what was encrypted |
| `Crypto.ChunkIsBound` | core/nexus-core/src/crypto.rs:111-155 | A chunk opens if and only if under the manifest id and hash it was encrypted for |
| `Crypto.ChunkAadInjective` | core/nexus-core/src/crypto.rs:125-130 | The associated data of a chunk determine manifest id and hash |
| `Crypto.AadExample` | core/nexus-core/src/crypto.rs:27-33 | The two formats on examples, a negative time included |
| `Crypto.EventIsNotAChunk` | core/nexus-core/src/crypto.rs:135-155 | The ciphertext of an event never opens as a chunk |
| `Crypto.ConversationKeyShared` | core/nexus-core/src/crypto.rs:14-25 | Both ends derive the same conversation key |
| `Crypto.OwnKeyPerConversation` | core/nexus-core/src/crypto.rs:14-25 | If derivation keeps its inputs apart, a device has equal keys only for equal shared secrets and equal streams |
| `Crypto.CreateEvent` | core/nexus-core/src/crypto.rs:35-77 | The envelope has the id, stream, author, time, kind and nonce given and the author's signature; both ends of the conversation open it as the payload given |
| `Model.StreamIdSymmetric` | core/nexus-core/src/model.rs:119-122 | Both ends compute the same stream id |
| `Model.StreamIdForm` | core/nexus-core/src/model.rs:119-122 | "dm:", the device id that comes first in byte order, a colon and the other |
| `Model.StreamIdInjective` | core/nexus-core/src/model.rs:119-122 | For device ids without a colon two pairs have the same stream id if and only if they are the same unordered pair |
| `Model.StreamIdsCollideOnColons` | core/nexus-core/src/model.rs:119-122 | The restriction is needed: a pair of pairs that collide |
| `Text.DecimalInjective` | core/nexus-core/src/crypto.rs:27-33 | Decimal numerals of different integers differ |
| `Text.LessTotal` | core/nexus-core/src/model.rs:119-122 | Byte order on strings is total |
| `Text.LessExactly` | core/nexus-core/src/model.rs:119-122 | One string comes before another if and only if it is a proper prefix or has the smaller character at the first difference |
| `Frames.BatchSize` | core/nexus-core/src/protocol.rs:15-57 | Encoded size of a chunk batch: twice its ciphertext, less one per byte below 24, plus an overhead given in closed form |
| `Frames.EventSize` | core/nexus-core/src/model.rs:43-53 | Encoded size of an event: twice its ciphertext, less one per byte below 24, plus an overhead given in closed form |
| `Frames.PushSize` | core/nexus-core/src/protocol.rs:15-57 | Size of the frame that pushes an event |
| `Frames.ExchangeSizeIsExact` | core/nexus-core/src/protocol.rs:15-57 | A sync request takes what `ExchangeSize` computes from the set of known ids and the list of events, in whatever order the ids are listed |
| `Frames.ResultSize` | core/nexus-core/src/protocol.rs:15-57 | Size of the answer of a sync |
| `Frames.MoreTakesMore` | core/nexus-core/src/protocol.rs:15-57 | A sync request that names more ids and more events never takes less |
| `Frames.LongEventNeverFits` | core/nexus-core/src/transport/lan.rs:175-176 | No message that carries an event with a ciphertext as long as a frame is sent |
| `Frames.CheckFrame` | core/nexus-core/src/transport/lan.rs:175-176 | Encoding a message, known ids in any order, and comparing its length decides `FitsFrame` |
| `Frames.BatchFrames` | core/nexus-core/src/transport/lan.rs:175-176 | For chunk batches this is the condition of the laws about sixteen chunks |
| `Frames.SixteenFullChunksFitExactlyWhen` | core/nexus-core/src/transport/lan.rs:24 | A batch of sixteen full chunks fits the frame if and only if its small ciphertext bytes make up for 512 bytes and the overhead |
| `Frames.FifteenChunksFit` | core/nexus-core/src/transport/lan.rs:175-176 | Up to fifteen chunks of any content always fit |
| `Frames.SixteenFullChunksMayNotFit` | core/nexus-core/src/transport/lan.rs:175-176 | Sixteen full chunks without small bytes are refused |
| `Frames.SixteenFullChunksUsuallyFit` | core/nexus-core/src/transport/lan.rs:175-176 | 3400 small bytes are enough |
| `Frames.OverheadBound` | core/nexus-core/src/protocol.rs:15-57 | The overhead of a batch lies between two explicit bounds |
| `Frames.ByteListSize` | core/nexus-core/src/protocol.rs:52-57 | A byte vector as a CBOR integer array takes between once and twice its length, exactly twice less the small bytes |
| `Frames.FramesAreReadAsWritten` | core/nexus-core/src/transport/lan.rs:188-203 | A frame is read as payload and rest if and only if it was written from that payload, and none over the limit is |
| `Frames.FrameForm` | core/nexus-core/src/transport/lan.rs:196-203 | A frame is the length in four bytes, most significant first, and the payload; above 8 MiB there is none |
| `Frames.SizeExamples` | core/nexus-core/src/protocol.rs:59-64 | Encoded sizes on either side of each boundary |

## Left out

- User interfaces, the C interface, the command line and platform code: no replication logic of their own.
- Discovery transports, connection set-up and timeouts: an announcement may come at any time, a request may be lost.
- The inside of Ed25519, X25519, HKDF, XChaCha20-Poly1305, BLAKE3, SQLite and JSON: functions with stated laws, maps ordered by key.
- The bytes of CBOR: `Frames` counts encoded sizes and does not decode.
- Adversarial peers: the network consists of honest devices; a client does not check that chunks it receives were asked for, so the bound of the resume loop is about honest responders.
- Answers that report an error: in `Network` a request that is refused is never answered, which to the client is the same as a lost one.
- Name changes during a run: a stored identity equal to the sender's is a condition of `Protocol.Trusts`, otherwise the request is refused without effect.
- Failures of disk and database, and a crash between `insert_event` and `process_manifest`: crashes are modelled inside `put_blob`, `save_manifest` and the refresh only (`StoreRaces`).
- Two writers sharing one temporary blob file while half-written: excluded by the one-step write.
- `blob_path` of a hash shorter than two characters, on which the program stops: blobs are keyed by hash.
- Interleaving of chunk traffic inside `Network`: there it is one kind of step that may add blobs and raise flags arbitrarily; its own interleavings are those of `StoreRaces`, its own progress that of `Nodes`.
- Nodes.Node.Request: the comparison of protocol versions is left out, since all devices of the model speak version 1; what `validate_public_identity` accepts is a parameter.
- Nodes.Node.Sync: proved for one device and one responder without interference; what holds under interference is stated over `Network`. That the frames of the exchange fit is necessary and sufficient; that those of the files fit is stated as sufficient for any batch that may come to be asked for, because files that share chunks change each other's batches.
- Nodes.Node.ResumeFiles: the same holds of its batches; for one file `Nodes.Node.FetchMissing` is exact.
- Transfer.SendBreakSyncMaterialize: its conclusion is restricted to files cut into at most 2^32 chunks, because beyond that chunk numbers repeat (`Files.NumbersExactUpTo32Bits`).
- Frames.FifteenChunksFit: assumes a display name of at most 500000 bytes, which is part of every frame.
- The order of list items answered by SQLite without an `ORDER BY`: `Storage.Store.IncompleteManifestsForPeer` returns them in no particular order.
