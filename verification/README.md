# GCS chat core, modelled in Dafny

GCS is a chat core in C++. A client drives it through four C functions (`gcs_init`,
`gcs_publish`, `gcs_subscribe`, `gcs_shutdown`), and it sends events back on a push port.
Behind those functions are a session over a replicated key/value store, a messaging component
that sends and receives over a live route and a heal route, a catalog of spaces and rooms, and a
list of joined room topics. Callbacks of foreign threads come in while commands and a shutdown
are under way. The project states what this design is for and proves it over every schedule, run
or input, or says exactly when it fails.

`dafny verify dfyconfig.toml` checks the whole project.

## Layout

| files | what they model |
|---|---|
| `Lifecycle`, `LifecycleInvariants`, `LifecycleSafety`, `LifecycleMoves`, `LifecycleFlags`, `LifecycleRuns`, `Deadlock`, `Progress`, `Eviction`, `Intake`, `Unhindered`, `LifecycleTheorems` | the concurrent session lifecycle: any number of threads, each with a program counter, over the global mutex, the two component locks, the in-flight count, the gates, the archive worker and the node boot |
| `GlobalDb` | the store wrapper behind its running flag, as a class |
| `Funnel`, `Messaging`, `History`, `Order` | the messaging component as a class, its effects as values, and the order of history |
| `Dedupe` | the dedupe set under racing callbacks, sends and history scans |
| `Network` | any number of messaging nodes over a lossy, duplicating, reordering network |
| `Catalog`, `EntityStore` | the entity catalog: every call's effect as a value, and the class whose methods are proved against it |
| `Joins`, `Refreshes`, `CoreFfi` | the joined-topic lists, the refresh that lets go of the mutex half-way, and the command surface with what it pushes |
| `KeyGrammar`, `MintedIds`, `Utf8`, `Records`, `Basics` | archive keys, minted ids, the name cap, records and encodings |

The step functions (`Lifecycle.Step`, `Dedupe.Step`, `Network.Step`, `Refreshes.Step`) follow the
source's locked regions. A region that neither blocks nor lets go of its lock is one step.
Imperative classes carry the source's fields. Their methods are proved against functions on
values, and the lemmas are about those functions.

## Hypotheses

- Protobuf serialisation has a partial inverse (`Records.Lawful`), and decryption undoes a
  successful encryption on the same topic (`Records.CryptoLawful`). Nothing else is assumed of
  either; encryption may fail.
- Clocks, random tokens, nonces and the outcomes of foreign calls are arbitrary inputs.
- `Network`: senders are honest, and message ids are unique across nodes.
- An exception that leaves the CRDT new-element callback is swallowed by the foreign caller. If it
  is not, it ends the process, and the queued archive writes with it.
- The host does not shut down the node gcs_init booted. If it did and booted its own,
  `g_sdkBootedHere` would still be set, and the next teardown would take the host's node down.
- A handle names the session it was returned for; address reuse is not modelled.
- The catalog theorems take fresh minted ids and no foreign writes to catalog keys.

## Where code and intention part

- The exit hook gives up its drain after two seconds and then destroys objects a counted operation
  may still use (`src/ffi/gcs_core_ffi.cpp:325-326`). Destruction is safe exactly when that wait
  never times out (`DrainSafeIffNoTimeout`).
- A manifest `Get` that fails though the manifest is there makes the next create overwrite it
  (`src/lib/gcs_entity_store.cpp:71-101`). `CacheEqualsReload` and `CrashIntact` say over whole runs
  exactly when that loses something.
- `gcs_shutdown` does not look at its handle again after its wait
  (`src/ffi/gcs_core_ffi.cpp:1286-1303`). A second waiting shutdown lowers `g_tearingDown` while
  the first one still destroys, and `gcs_init` builds over it.
- Catalog writes are made under `g_mutex`. If such a write waits for the thread the heal callback
  runs on, the two deadlock.
- `gcs_init` with no smoke topic leaves the embedded node running and its flag set
  (`src/ffi/gcs_core_ffi.cpp:852-857`), although the comment at line 818 says both failure paths
  do the same. The model follows the code; `FailedInitLeavesNode` says exactly when a failed
  gcs_init leaves the node, and the pairing survives, because the flag still owes the shutdown.
- A history scan tests the dedupe set's size before it tests membership, so it can clear the set
  for an id already there (`src/lib/gcs_messaging.cpp:373-380`). Apply-once over a whole run
  therefore ends at 4096 ids, not beyond.
- Between two clears an id can be pushed twice, when a clear falls between a callback's admission
  and its push.
- A `Put` refused after its publish went out makes the sender show ERROR and never archive a
  message that every other node may archive as complete (`src/lib/gcs_messaging.cpp:223-236`).
- `RoomTopicFromKey` throws `std::out_of_range` on a key that is the bare prefix followed by `v` or
  `p` (`src/lib/gcs_messaging.cpp:156-163`). The heal callback has been counted by then and takes
  its count back only after the funnel returns (`src/ffi/gcs_core_ffi.cpp:916-928`), so a replicated
  key `/gcs/messages/v` leaves the count up for good and the next `gcs_shutdown` waits forever
  (`CountExactIffNoStrayKeys`, `AllCanFinishIffPutIndependentAndNoStrayKeys`).
- A refresh goes on from its snapshot after its window. With another catalog command inside that
  window a derived join can be left that the catalog no longer derives.

## Model

| member | source | states |
|---|---|---|
| LifecycleTheorems.DrainIsExact | src/ffi/gcs_core_ffi.cpp:117-125 | in every interleaving in which no exit drain gives up, the in-flight count is the number of threads in an unlocked window plus the heal callbacks an exception took away; each thread in a window, and each back under the mutex, still has its objects installed, alive and with the store up |
| LifecycleTheorems.CountExactIffNoStrayKeys | src/ffi/gcs_core_ffi.cpp:902-928 | the count is the number of threads in a window, if and only if no heal callback is handed a key the topic parse throws on |
| LifecycleTheorems.DrainSafeIffNoTimeout | src/ffi/gcs_core_ffi.cpp:303-327 | no thread uses a destroyed object in any schedule, if and only if the exit hook's drain cannot give up |
| LifecycleTheorems.NoArchiveWriteLost | src/ffi/gcs_core_ffi.cpp:361-385 | in the same schedules archive writes are put in enqueue order, none on a stopped store, and all of them before the store stops or the component is freed |
| LifecycleTheorems.ArchiveCompleteIffNoTimeout | src/ffi/gcs_core_ffi.cpp:325-382 | over all schedules every enqueued write has been put once the component is freed or its store down, if and only if the exit hook's drain cannot give up |
| LifecycleTheorems.NothingEnqueuedAfterStop | src/lib/gcs_messaging.cpp:73-93 | in the same schedules, once the worker was told to stop, no step of any thread enqueues anything |
| Intake.IntakeStops | src/ffi/gcs_core_ffi.cpp:1286-1298 | from the first step of a gcs_shutdown with the right handle, or of the exit hook, and until a gcs_init builds the next session, the gate is up and every callback waiting to be counted or in the funnel was there before |
| Intake.GateHolds | src/ffi/gcs_core_ffi.cpp:284-289 | in any state with the gate up and any run without a new session: the gate stays up and no callback comes in |
| Intake.TeardownRaisesGate | src/ffi/gcs_core_ffi.cpp:1286-1292 | a teardown's first step raises the gate; only a gcs_shutdown with another handle leaves it |
| Unhindered.CallbackDelivers | src/ffi/gcs_core_ffi.cpp:902-928 | with the gate open and nobody in the way a callback of either route posts once if there is a port, queues its message for the archive, takes its count back and changes nothing else |
| Unhindered.SendPostsTwice | src/ffi/gcs_core_ffi.cpp:1118-1129 | a send nobody hinders posts PENDING and the terminal state and leaves locks, count and components as they were |
| Unhindered.ReplayPostsOnce | src/ffi/gcs_core_ffi.cpp:1058-1065 | a history replay nobody hinders posts one batch and leaves the rest as it was |
| Unhindered.RegisterAttaches | src/ffi/gcs_core_ffi.cpp:1248-1277 | gcs_subscribe with the right handle attaches the port, then posts |
| Unhindered.StaleHandleDoesNothing | src/ffi/gcs_core_ffi.cpp:961-971 | publish, subscribe and shutdown with another session's handle change nothing |
| LifecycleTheorems.EvictedIsDestroyed | src/ffi/gcs_core_ffi.cpp:334-385 | where no drain gives up, a session that was evicted is, once no teardown is under way, destroyed to its end: worker drained and told to stop, messaging freed, store shut down, catalog and session freed |
| LifecycleTheorems.PatientIffWaits | src/ffi/gcs_core_ffi.cpp:325-326 | a schedule in which no drain gives up is one the untimed wait allows, and the other way round |
| LifecycleTheorems.AllCanFinishIffPutIndependentAndNoStrayKeys | src/ffi/gcs_core_ffi.cpp:255-265 | from every reachable state all threads there are can be run to their ends, with no new thread and no failing call, if and only if a catalog Put under the mutex does not wait for the CRDT worker and no heal callback is handed a key the topic parse throws on |
| Progress.MoveShrinks | src/ffi/gcs_core_ffi.cpp:1293-1299 | the step each thread takes when commands end and nothing fails shrinks what is left, an enqueue and its later Put included |
| LifecycleTheorems.FailedInitLeavesNode | src/ffi/gcs_core_ffi.cpp:814-857 | a gcs_init that fails leaves a node it booted running if and only if it got as far as the smoke topics and none joined; the flag then still owes the shutdown |
| LifecycleRuns.SmokeFailsAlone | src/ffi/gcs_core_ffi.cpp:852-857 | a schedule in which the first gcs_init fails that way and the node stays |
| LifecycleTheorems.BootPairing | src/ffi/gcs_core_ffi.cpp:328-360 | embedded boots and node shutdowns alternate; exactly one of the flag and a teardown thread owes the missing one |
| LifecycleTheorems.HostNodeSurvives | src/ffi/gcs_core_ffi.cpp:414-419 | no step of the library takes down a node the host booted |
| LifecycleTheorems.SilentAfterEviction | src/ffi/gcs_core_ffi.cpp:339-348 | every post has a successful subscribe before it with no eviction in between |
| LifecycleTheorems.InitExcludedIffTeardownsDoNotOverlap | src/ffi/gcs_core_ffi.cpp:747-750 | gcs_init never builds a session over one being destroyed, if and only if at most one teardown is under way at a time |
| LifecycleSafety.StepInv | src/ffi/gcs_core_ffi.cpp:615-660 | mutex, component locks, count, pinned objects, component states and owners stay consistent through every step of every thread |
| LifecycleFlags.StepFlags | src/ffi/gcs_core_ffi.cpp:822-827 | boot debt and port state stay consistent through every step, timed-out exit hooks included |
| Deadlock.SomeoneMoves | src/ffi/gcs_core_ffi.cpp:1293-1299 | while no callback was taken away by an exception, whenever any thread has work left, some thread can take its next step |
| LifecycleRuns.ExitFrees | src/ffi/gcs_core_ffi.cpp:325-326 | a schedule in which the timed-out exit hook frees the component under a live subscribe |
| LifecycleRuns.InitClashes | src/ffi/gcs_core_ffi.cpp:1286-1303 | a schedule in which a second waiting shutdown lowers the gate and init builds over the first one's teardown |
| LifecycleRuns.Embrace | src/ffi/gcs_core_ffi.cpp:902-918 | a schedule into the state where the heal callback and a catalog write wait for each other |
| LifecycleRuns.ShutdownHangs | src/ffi/gcs_core_ffi.cpp:902-928 | a schedule in which the heal callback for the key /gcs/messages/v throws and gcs_shutdown waits for a count nobody takes back |
| LifecycleRuns.QueuedTooLate | src/ffi/gcs_core_ffi.cpp:325-326 | a schedule in which the exit hook gives up and a callback then queues its write on the freed component |
| LifecycleMoves.RunClean | src/ffi/gcs_core_ffi.cpp:902-928 | without such a key no schedule has a callback that throws |
| GlobalDb.Db.Initialize | src/lib/gcs_storage/gcs_global_db.cpp:118-205 | success exactly when every SDK step succeeds on a stopped instance; a failure leaves nothing held and a running instance untouched |
| GlobalDb.Db.Shutdown | src/lib/gcs_storage/gcs_global_db.cpp:207-235 | nothing is held and nothing runs afterwards, however often it is called; the disk keeps its records |
| GlobalDb.Db.Put | src/lib/gcs_storage/gcs_global_db.cpp:271-285 | accepted only while running, and a refused write changes nothing |
| GlobalDb.Db.QueryKeyValues | src/lib/gcs_storage/gcs_global_db.cpp:303-320 | exactly the records under the prefix, once each, while running; keys in logical form |
| GlobalDb.Db.Publish | src/lib/gcs_storage/gcs_global_db.cpp:342-356 | goes out only while running and accepted |
| Messaging.Component.SendMessage | src/lib/gcs_messaging.cpp:173-240 | PENDING, then exactly one of COMPLETE and ERROR, each with the id, room, text, stamp and sender of the send; what goes out decodes on its topic to exactly that record; on COMPLETE the published bytes are the archived bytes; on ERROR nothing was archived |
| Messaging.Component.ApplyMessage | src/lib/gcs_messaging.cpp:258-307 | an undecodable or seen message leaves no trace; any other is inserted under the bound of 4096, pushed once as self or peer by its sender, and queued once, bytes as received, under the room and id it names |
| Messaging.Component.OnLiveMessage | src/lib/gcs_messaging.cpp:242-245 | the live route is the funnel on the topic as delivered |
| Messaging.Component.OnMessageArrived | src/lib/gcs_messaging.cpp:247-256 | the heal route is the funnel on the topic read from the key; a key without the prefix leaves no trace, and it throws exactly when the key parse does |
| Messaging.Component.PutNext | src/lib/gcs_messaging.cpp:99-117 | one round puts the oldest queued write, bytes as queued, and nothing else |
| Messaging.Component.ArchiveWorker | src/lib/gcs_messaging.cpp:95-119 | told to stop, it puts everything queued, in order, and ends with an empty queue |
| Messaging.Component.Destroy | src/lib/gcs_messaging.cpp:73-84 | the destructor loses no queued write while the store runs |
| Messaging.Component.QueryHistory | src/lib/gcs_messaging.cpp:309-384 | all records the scan decodes to, from the oldest stamp to the newest and by id within one, as self exactly when this node sent them; their ids enter the dedupe set in that order, and below the cap all of them stay in it with what was there |
| Messaging.HistoryMembers | src/lib/gcs_messaging.cpp:318-352 | history holds exactly the decodable records of the scan, so a bad one hides no other |
| Messaging.HistoryCanonical | src/lib/gcs_messaging.cpp:354-361 | with distinct ids it is one sequence, whatever the scan order and the sort do |
| History.Canonical | src/lib/gcs_messaging.cpp:354-361 | the (timestamp, id) order leaves one arrangement of records with distinct ids |
| History.StrictWeakOrder | src/lib/gcs_messaging.cpp:354-361 | the comparator is irreflexive, asymmetric and transitive, and so is standing on a level, as std::sort demands |
| History.SortedIffChronological | src/lib/gcs_messaging.cpp:354-361 | what the sort promises is ascending time, and ascending ids within one stamp |
| Order.FirstDifference | src/lib/gcs_messaging.cpp:360 | ids compare as std::string does: at the first difference the smaller character decides, and a proper prefix is less |
| Funnel.PayloadDecodes | src/lib/gcs_messaging.cpp:205-220 | the payload of a send decodes on its topic to the record sent, encrypted or not |
| Funnel.OtherRoomLeavesNoTrace | src/lib/gcs_messaging.cpp:205-209 | with a cipher that tells rooms apart, a payload that comes in on another room's topic leaves no trace |
| Funnel.ScanKeepsIffBelowCap | src/lib/gcs_messaging.cpp:370-381 | a scan of distinct ids, new or old, that starts below the cap keeps all it absorbs and all there was, if and only if the set stays below 4096 up to its last id; otherwise its own first id is lost |
| Funnel.ScannedNotPushed | src/lib/gcs_messaging.cpp:370-381 | a message a scan has shown is neither pushed nor queued when it is delivered afterwards |
| Funnel.ArchivedMeans | src/lib/gcs_messaging.cpp:95-119 | after the worker, each key holds its last accepted write, and no other key changed |
| Dedupe.AdmittedOncePerEpoch | src/lib/gcs_messaging.cpp:285-297 | with routes, sends and scans racing, an inserted id is admitted again only past a clear |
| Dedupe.PushedAsOftenAsAdmitted | src/lib/gcs_messaging.cpp:285-306 | every admission is pushed once and enqueued once; over a run no id more often than one plus the number of clears |
| Dedupe.OncePerEpochIffNoRace | src/lib/gcs_messaging.cpp:285-306 | pushed and enqueued at most once between two clears, if and only if no clear falls between a callback's admission and its enqueue |
| Dedupe.ApplyOnceIffFewIds | src/lib/gcs_messaging.cpp:186-189 | at most one admission per id in a whole run and none of the node's own sends, if and only if fewer than 4096 ids are involved |
| Dedupe.SeenBounded | src/lib/gcs_messaging.cpp:373-380 | the set holds at most 4096 ids plus the sends since the last bounded insertion |
| Dedupe.SeenBoundAttained | src/lib/gcs_messaging.cpp:186-189 | and for any number of sends a run reaches that size |
| Dedupe.UninterruptedFunnel | src/lib/gcs_messaging.cpp:258-307 | a callback nobody interrupts has the effect of the sequential funnel on set, pushes and queue, whatever others stand half-way |
| Network.Agreement | src/lib/gcs_messaging.cpp:205-236 | whatever the network does, an archive key holds the same bytes on every node that holds it |
| Network.HistoryIsWhatWasSent | src/lib/gcs_messaging.cpp:309-384 | a node's history of a room is, for every send of the run to that room whose key the node holds, the text, id, stamp and sender that send was handed, as self exactly when the addresses agree, and nothing else |
| Network.HistoryInOrder | src/lib/gcs_messaging.cpp:354-361 | in strictly ascending order of stamp, then id |
| Network.PushedIsWhatWasSent | src/lib/gcs_messaging.cpp:258-300 | whatever the funnel pushes to a client, over either route, is what some send of the run was handed |
| Network.ShownNotPushed | src/lib/gcs_messaging.cpp:370-381 | what a history has shown below the cap is not pushed when the live route delivers it later |
| Network.EchoNotPushed | src/lib/gcs_messaging.cpp:186-189 | a node's own send is not pushed again when it comes back |
| Network.Convergence | src/lib/gcs_messaging.cpp:309-400 | two nodes answer with the same history up to self and peer, if and only if they hold the same keys of the room |
| Network.ArchiveIsWhatWasGot | src/lib/gcs_messaging.cpp:258-307 | while stores accept writes, a settled archive holds exactly what was published here or ever delivered by either route; dedupe and its clears lose nothing |
| Network.DeliveryDecidesHistory | src/lib/gcs_messaging.cpp:242-307 | while stores accept writes, settled nodes show the same history of a room if and only if they were delivered the same messages of it |
| Network.SenderHoldsIffPutsHold | src/lib/gcs_messaging.cpp:223-236 | a sender has archived whatever others archived of its messages, with encryptions, publishes and worker writes free to fail, if and only if no store refuses the Put of a send |
| Network.HealedTopic | src/ffi/gcs_core_ffi.cpp:902-923 | in any framing, a healed key leads the funnel to the room its record was sent to |
| Catalog.CacheEqualsReload | src/lib/gcs_entity_store.cpp:68-294 | after any calls with any writes and manifest reads failing, the cached maps equal what a fresh load would rebuild if and only if no call wrote a manifest after a failed read while the catalog held something |
| Catalog.TransientReadLosesIndex | src/lib/gcs_entity_store.cpp:188-221 | after a create_space whose manifest read failed, the cache equals a reload if and only if the manifest write failed too or the catalog was empty |
| Catalog.TransientReadLosesRoomIndex | src/lib/gcs_entity_store.cpp:223-263 | the same for create_room, where a refused parent also leaves all as it was |
| Catalog.CrashIntact | src/lib/gcs_entity_store.cpp:204-219 | cut after any store write: every record key is listed, nothing twice, every room reloads without parent or under a living space, and the manifest only grows, if and only if no call wrote a manifest after a failed read of one that listed something |
| Catalog.EmptyIntact | src/lib/gcs_entity_store.cpp:126-133 | a first launch starts from an intact catalog that equals its reload |
| Catalog.SpaceAfterRun | src/lib/gcs_entity_store.cpp:265-294 | after any calls a space of the catalog has its creation stamp and tombstone unchanged; a deleted one is never updated, and on a living one the last update the store took decides name, flags and stamp |
| Catalog.FirstSpaceWins | src/lib/gcs_entity_store.cpp:143-162 | a reload keeps for each id the first listed space record that reads, parses and claims it, and no other |
| Catalog.FirstRoomWins | src/lib/gcs_entity_store.cpp:164-185 | the same for rooms |
| EntityStore.Store.LoadFromStore | src/lib/gcs_entity_store.cpp:121-186 | rebuilds the cache from what can be read of manifest and records, skipping what does not read or parse |
| EntityStore.Store.AppendToManifest | src/lib/gcs_entity_store.cpp:68-102 | writes the union of the manifest read and the new id, or changes nothing |
| EntityStore.Store.CreateSpace | src/lib/gcs_entity_store.cpp:188-221 | manifest first, then the record under its key, then the cache, all with the fields the caller gave; each failure leaves exactly the earlier writes |
| EntityStore.Store.CreateRoom | src/lib/gcs_entity_store.cpp:223-263 | the same, and nothing at all under an unknown or deleted parent |
| EntityStore.Store.UpdateSpace | src/lib/gcs_entity_store.cpp:265-294 | the desired name and flags under the stored creation stamp and tombstone, stamped now, in store and cache, and nothing else; or no change at all |
| EntityStore.Store.Spaces | src/lib/gcs_entity_store.cpp:296-307 | the living spaces, once each, by ascending id |
| EntityStore.Store.Rooms | src/lib/gcs_entity_store.cpp:309-320 | the living rooms, once each, by ascending id |
| EntityStore.ListedMeans | src/lib/gcs_entity_store.cpp:296-320 | such a list holds a record exactly if the cache holds it undeleted, in strictly ascending order of id |
| EntityStore.Store.DerivedJoinedTopics | src/lib/gcs_entity_store.cpp:322-343 | without repeats, the topic of each living room under a living auto-join space |
| Joins.JoinProjected | src/ffi/gcs_core_ffi.cpp:1042-1056 | a join keeps the room list equal to smoke, explicit and derived topics, without repeats |
| Joins.EvictProjected | src/ffi/gcs_core_ffi.cpp:719-733 | so does the eviction loop, explicit joins outranking derived ones |
| Refreshes.RoomListProjected | src/ffi/gcs_core_ffi.cpp:683-734 | at every unlock point of every interleaving, whatever registrations fail, the room list is, without repeats, smoke plus explicit plus derived topics |
| Refreshes.NoStaleJoinIffCommandsDoNotOverlap | src/ffi/gcs_core_ffi.cpp:719-733 | with no refresh under way no derived join is left that the catalog does not derive, whatever registrations fail, if and only if no catalog command runs inside another one's refresh |
| Refreshes.InSyncIffOrderly | src/ffi/gcs_core_ffi.cpp:683-734 | and the derived joins are those of the current catalog if and only if, besides, no registration fails |
| Refreshes.RoomsAreJoined | src/ffi/gcs_core_ffi.cpp:1042-1056 | in every later state of any run, whatever commands, refreshes and evictions follow, a room is listed exactly if gcs_init joined it, some join_topic named it, or it is derived now |
| CoreFfi.Ffi.RefreshDerivedJoins | src/ffi/gcs_core_ffi.cpp:683-734 | afterwards exactly the derived topics that were joined or registered are joined as derived; posted is, for each newly joined one, its history unless the scan fails and a notice if its subscribe does not arm, and nothing else |
| CoreFfi.AnnouncedMeans | src/ffi/gcs_core_ffi.cpp:700-714 | the histories replayed are those of the newly joined rooms whose scan succeeds, and a notice is posted exactly if one did not arm |
| CoreFfi.Ffi.Init | src/ffi/gcs_core_ffi.cpp:831-951 | fails exactly when no smoke topic joins; otherwise the smoke topics that joined and the derived ones are listed, the catalog is what can be reloaded, intact or not, and nothing is pushed |
| CoreFfi.Ffi.RegisterPort | src/ffi/gcs_core_ffi.cpp:1248-1277 | a known caller is sent the tree of the living catalog, then the current room list, then readiness, and nothing else; any other call changes nothing |
| CoreFfi.Ffi.JoinTopic | src/ffi/gcs_core_ffi.cpp:997-1081 | an accepted topic that registers is appended to the room list and to the explicit joins unless it is there, and no other input changes a list; status and every event pushed for each outcome; the client's picture stays the current one |
| CoreFfi.Ffi.CreateSpace | src/ffi/gcs_core_ffi.cpp:1137-1165 | status, new record and events for each outcome: the tree of the living catalog on success, one notice on failure; without a refresh derived joins stay in sync |
| CoreFfi.Ffi.CreateRoom | src/ffi/gcs_core_ffi.cpp:1166-1203 | which inputs are invalid arguments and which failures generic, the new record, and the events for each outcome: on success the announcements of newly derived rooms, the tree and the room list, on failure one notice; the refresh keeps derived joins in sync |
| CoreFfi.Ffi.UpdateSpace | src/ffi/gcs_core_ffi.cpp:1204-1238 | the same for update_space, whose record keeps creation stamp and tombstone |
| CoreFfi.NewSpaceDerivesNothing | src/ffi/gcs_core_ffi.cpp:1150-1152 | a new space no room is filed under derives no new join, which is why its command may skip the refresh |
| KeyGrammar.BuildKeyInjective | src/lib/gcs_messaging.cpp:138-141 | messages share an archive key only if they share room and id |
| KeyGrammar.NoCrossRoomLeak | src/ffi/gcs_core_ffi.cpp:173-179 | among topics the shape check accepts, the scan of one room matches keys of that room only |
| KeyGrammar.ValidTopicMeans | src/ffi/gcs_core_ffi.cpp:173-179 | the shape check accepts exactly the namespace followed by one non-empty segment |
| KeyGrammar.ScanLeaksIffNested | src/lib/gcs_messaging.cpp:311-312 | for arbitrary topics a scan matches another room's key exactly when the topics nest |
| KeyGrammar.TopicRecovered | src/lib/gcs_messaging.cpp:143-171 | the topic is read back from a key without raw suffix, behind any framing, if and only if the id is not a bare suffix letter |
| KeyGrammar.RawTopicRecovered | src/lib/gcs_messaging.cpp:155-171 | from a raw key with a value or priority suffix it is read back for every slash-free id |
| KeyGrammar.KnownFrames | src/lib/gcs_messaging.cpp:145-153 | logical, leading-slash and namespaced keys are such framings |
| KeyGrammar.OutOfRangeExactly | src/lib/gcs_messaging.cpp:155-163 | the parse leaves the string exactly on a bare prefix followed by a suffix letter |
| KeyGrammar.ForeignKeyIsEmpty | src/lib/gcs_messaging.cpp:149-152 | a key that holds the prefix nowhere parses to the empty topic, which the funnel does not take |
| MintedIds.MintedRepeatsIffWrapped | src/lib/gcs_entity_store.cpp:110-119 | two calls in a process mint the same id exactly when the 64-bit counter wrapped between them |
| MintedIds.MintedTopicAccepted | src/lib/gcs_entity_store.cpp:340 | the topic of any minted room id passes the shape check and fits in 128 bytes |
| Utf8.CountsCodePoints | src/ffi/gcs_core_ffi.cpp:149-153 | on UTF-8 (section 3 of RFC 3629) the byte count of the name cap is the number of code points |
| Utf8.CountAdds | src/ffi/gcs_core_ffi.cpp:149-153 | and it is additive over concatenation, wherever the cut falls |

## Left out

- OpenSSL, libp2p, GossipSub, graphsync, RocksDB, the CRDT datastore and GeniusSDK: foreign code, present as outcomes of calls, a map with a prefix scan, and arbitrary delivery.
- Protobuf bytes: present as an encoding with a lawful partial inverse.
- GlobalDb.Db.QueryKeyValues: returns logical keys where the store frames them, because the callers read only the values.
- `CoreSession`: a pass-through to the store wrapper.
- gcs_publish's decoding of a command and its argument checks, and the send_text arm's checks: easy members; the topic shape they enforce is a hypothesis of `Network`.
- Dishonest senders: a record that names another room than the one it came in on is archived under the room it names, and `Network` does not speak about it.
- Starvation of the shutdown's wait by ever new operations: safety and absence of deadlock only.
- Address reuse between sessions: a handle is a generation number.
- The width of `g_inFlight`, and times and retry intervals of the exit hook; its wait may give up or not.
- A node shutdown that gcs_init makes under the mutex after a failed session does not wait for callbacks in the model.
- Foreign writes to catalog keys by replication. `CoreFfi.Ffi.Init` takes stored room ids to be minted ones, which carry the prefix "room-"; a foreign record with id "smoke-test" would derive, and later evict, a smoke topic.
- gcs_init is one step, so the exit hook cannot store its two flags between gcs_init's look at `g_tearingDown` and its clearing of `g_receivingDisabled`; the code can end with a session installed, `g_tearingDown` set and the receive gate open until the hook has the mutex.
- The wait of an idle archive worker for its condition variable is in `Lifecycle`; the class has the rounds and the drain.
- Network: a callback's push and enqueue are one step with its admission there; `Dedupe` has them apart.
- EntityStore, CoreFfi and Messaging classes are sequential; interleavings are in `Lifecycle`, `Dedupe` and `Refreshes`, on values.
- CoreFfi.Ffi.RefreshDerivedJoins: the live subscribe inside it is sequential here; `Refreshes` has the unlock.
- Exactly-once live subscription: not promised; a derived join can subscribe twice, and the dedupe set absorbs it.
