# Verified models of the multi-tab notes vault

A Dafny model of the parts of the vault whose correctness is hard to see from the code, with proofs
over every input, every run and every interleaving. `dafny verify dfyconfig.toml` checks all of it.

**The multi-tab storage protocol** (`Wire`, `RestartBudget`, `WorkerClient`, `Transport*`,
`Protocol*`, `Delivery*`, `Stranding`, `StrandedRequest`, `OrphanedPair`). Any number of tabs elect a
leader through one exclusive lock, discover it on a broadcast channel, pair by request and
acknowledgement, and send requests to one shared writer through bridges that rewrite ids.
`TransportObject` has the transport, its registry of bridges and the bridge as classes whose handlers
change fields in place; each handler of the transport is proved to perform a function of `Transport`.
`Protocol` composes those functions over unboundedly many tabs. Its network is the set of
everything ever posted, so a message may arrive late, out of order, repeatedly or never, and every
safety theorem holds under all of that. `ProtocolInvariant` to `ProtocolInduction` carry one
inductive invariant through all sixteen kinds of step; `ProtocolTheorems`, `ProtocolProgress` and
`ProtocolOutcomes` read the guarantees off it.

What can still happen is a different question, and a network that repeats messages would answer it
too kindly. `Delivery` therefore refines the protocol to channels as browsers have them: a post
reaches the channel objects subscribed at that moment, each once, and replacing or closing an object
loses what it had not delivered. On that, `Stranding` says exactly when a request of an acknowledged
tab stops being on its way, and `ProtocolService` what pairing and serving can still be completed.

**Keyset paging and the notes store** (`NoteTable`, `KeysetScan`, `NotesStore*`). SQL paging is
filter, sort and take over a finite map. A scan reads each page from a table of its own, so every
kind of concurrent write is covered. The store's reloads are coroutines that overlap freely.

**The rendezvous backend** (`RendezvousStore`, `RateLimit`, `Rendezvous*`). The in-memory store is a
class; the four HTTP handlers are interleaved sequences of its lock-atomic calls and of clock
readings, over one nondecreasing clock. The hash from key to code is an arbitrary function.

**The idle lock** (`IdleLock*`). Coordinators of any number of tabs on a bus that delays and
reorders.

**Smaller cores.** The row-id codec (`RowId`), the resumable migration runner (`Migrations`) and the
cache in front of the Markdown stripper (`StripCache`).

## What the proofs found

- `RowId`: the 32-bit accumulators overflow on every id, and both loops still compute positional
  notation exactly.
- `KeysetScan`: a completed scan never repeats a (day, id) key, but it can list one note id twice
  when the note is redated downwards between two pages (`ANoteListedTwice`). `NoteRepeatsExactly`
  says when; days that never go back are enough to rule it out (`ScanListsEachNoteOnce`), and nothing
  in the code shown enforces that, since the day is stamped before a request that may be replayed
  (packages/storage/src/repo.ts:86-88).
- `StrandedRequest`: a duplicate pair request that arrives after the acknowledgement strands what the
  replaced bridge was carrying (`ARequestStranded`). That and a close of the same tab are the only two
  ways, and a stranded request stays stranded until the pairing ends (`OnItsWayExactly`).
- `RendezvousTheorems`: the store documentation calls uploads single-shot per code
  (apps/share-backend/src/store.rs:33-37). The code accepts a second upload once the first was
  picked up or has expired (`UploadStoredExactly`, `ACodeUploadedTwice`); what holds is one pickup per
  upload.
- `RendezvousTheorems`: a download can be served after the expiry, because its clock is read before
  the blob is taken (`ALatePickup`, `LateDownloadExactly`). The expiry bounds when a download may begin.
- `RendezvousInvariant`: the clamp on a blob's expiry (apps/share-backend/src/handlers.rs:192-195)
  never changes it, so its comment about a sub-second-late upload describes nothing
  (`ClampIsRedundant`).
- `IdleLockTheorems`: the group bound needs no assumption on the clock's distance from zero. It does
  need heartbeats to be delivered before the tick (`LockDespiteActivity`).
- `OrphanedPair`: a pending pair always matches the attached channel, but it can outlive
  `currentLeaderId`: a leader re-paired by a stale announcement, whose writer then crashes with budget
  left, keeps the pending pair while the field is cleared (packages/storage/src/leader.ts:943-944;
  `APairOrphaned`). `OrphanedExactly` says when a tab enters and leaves that state.
- `Wire`: pair channel names are injective for leader ids of one length; in general two pairs share a
  name exactly when one overlaps the other (`PairChannelNamesExactly`, `PairChannelNameCollides`).

## Model

| member | source | states |
|---|---|---|
| `RestartBudget.RecordCrash` | packages/storage/src/leader.ts:1071-1081 | the pruning loop leaves what dropping stale heads in order leaves, plus the new crash, and reports whether three are left |
| `RestartBudget.QueueIsWindow` | packages/storage/src/leader.ts:1007-1009 | after any history of nondecreasing crash times the queue is exactly the crashes within 30 seconds of the latest |
| `RestartBudget.RecordKeepsWindow` | packages/storage/src/leader.ts:1074-1080 | recording one more crash turns the window of the past into the window of the longer history |
| `RestartBudget.GivesUpExactly` | packages/storage/src/leader.ts:1081-1153 | the budget is spent exactly when the latest crash and the two before it span at most 30 seconds |
| `Wire.PairChannelNameInjective` | packages/storage/src/leader.ts:473-475 | channel names built from leader ids of one length name one leader and one client |
| `Wire.PairChannelNamesExactly` | packages/storage/src/leader.ts:473-475 | two pairs share a name exactly when they are equal or one leader id and a dash start the other and the client ids make up for the rest |
| `Wire.PairChannelNameCollides` | packages/storage/src/leader.ts:473-475 | with leader ids of different lengths two pairs share a name |
| `WorkerClient.HearAllKeepsValid` | packages/storage/src/rpc.ts:131-157 | whatever events are dispatched, pending and settled ids stay disjoint and sent, and nothing settled changes |
| `WorkerClient.FirstEventSettles` | packages/storage/src/rpc.ts:131-157 | over any sequence of events a pending promise is settled by the first that concerns it and by no later one, or stays pending |
| `WorkerClient.PageClient.Send` | packages/storage/src/rpc.ts:165-173 | takes a fresh id and registers the request as pending under it |
| `WorkerClient.PageClient.OnMessage` | packages/storage/src/rpc.ts:140-157 | the client becomes what hearing that envelope makes it: one promise settled if pending, else no change |
| `WorkerClient.PageClient.RejectEvery` | packages/storage/src/rpc.ts:135-138 | the loop rejects every pending promise and empties the table |
| `WorkerClient.PageClient.OnError` | packages/storage/src/rpc.ts:131-133 | an error event rejects everything pending |
| `WorkerClient.PageClient.Terminate` | packages/storage/src/rpc.ts:182-199 | uses one id for the close request and rejects everything pending |
| `TransportObject.LeaderBridge.OnClientMessage` | packages/storage/src/leader.ts:302-347 | a close is answered by the bridge, which disposes itself; any other request is forwarded under the allocated id, which maps back to the client's |
| `TransportObject.LeaderBridge.OnWriterMessage` | packages/storage/src/leader.ts:349-358 | a reply is passed on under the client's id, and its mapping dropped, exactly when this bridge mapped it |
| `TransportObject.LeaderBridge.FailPending` | packages/storage/src/leader.ts:371-385 | every id still mapped gets an error envelope and the map ends empty |
| `TransportObject.BridgeRegistry.Open` | packages/storage/src/leader.ts:715-735 | the client gets an empty bridge of its own, an earlier one is disposed of, every other bridge is as it was |
| `TransportObject.BridgeRegistry.FromClient` | packages/storage/src/leader.ts:302-347 | a close removes this client's bridge alone and is answered; any other request adds one mapping to it |
| `TransportObject.BridgeRegistry.FromWriter` | packages/storage/src/leader.ts:349-358 | a reply drops one mapping of one bridge and is passed on exactly when that bridge had it |
| `TransportObject.BridgeRegistry.FailAll` | packages/storage/src/leader.ts:913-919 | the loop posts one error envelope per id mapped by any bridge |
| `TransportObject.BridgeRegistry.DisposeAll` | packages/storage/src/leader.ts:971-972 | the loop leaves no bridge open |
| `TransportObject.LeaderTransport.constructor` | packages/storage/src/leader.ts:1157-1172 | construction requests the lock once and probes for a leader |
| `TransportObject.LeaderTransport.ReplayInFlight` | packages/storage/src/leader.ts:639-643 | the loop posts exactly the buffered envelopes on the channel |
| `TransportObject.LeaderTransport.PairWithLeader` | packages/storage/src/leader.ts:656-694 | state and posts are those of the protocol's pairing step: channel attached, pair pending, request sent |
| `TransportObject.LeaderTransport.RetryTimer` | packages/storage/src/leader.ts:675-692 | the timer repeats the pair request of a pending pair and nothing else |
| `TransportObject.LeaderTransport.OnDiscoveryMessage` | packages/storage/src/leader.ts:696-799 | each of the five discovery messages performs its protocol step |
| `TransportObject.LeaderTransport.OnPairRequest` | packages/storage/src/leader.ts:709-748 | only the addressed leader with a writer replaces the client's bridge and acknowledges |
| `TransportObject.LeaderTransport.OnPairAck` | packages/storage/src/leader.ts:749-766 | only the acknowledgement of the pending pair clears it, replays the buffer and makes the tab ready |
| `TransportObject.LeaderTransport.OnLeaderFailed` | packages/storage/src/leader.ts:767-785 | the current leader's failure drops the pairing and raises an error event |
| `TransportObject.LeaderTransport.BecomeLeader` | packages/storage/src/leader.ts:803-892 | identity, writer, self-bridge, self-pair, replay, readiness and announcement as one protocol step |
| `TransportObject.LeaderTransport.OnLockGranted` | packages/storage/src/leader.ts:1029-1040 | a grant on a closed transport changes nothing; any other is kept and makes the tab leader |
| `TransportObject.LeaderTransport.OnLockRejected` | packages/storage/src/leader.ts:1042-1056 | a refused request raises an error event and rejects readiness, unless closed |
| `TransportObject.LeaderTransport.GiveUpLeadership` | packages/storage/src/leader.ts:956-995 | bridges, writer, identity and lock go together |
| `TransportObject.LeaderTransport.HandleWriterFailure` | packages/storage/src/leader.ts:906-954 | a crash of the current tenure reports to bridges, peers and listeners, steps down and restarts; a stale one changes nothing |
| `TransportObject.LeaderTransport.RestartLockRequest` | packages/storage/src/leader.ts:1071-1155 | one more lock request, or the whole terminal failure when the budget is spent |
| `TransportObject.LeaderTransport.PostMessage` | packages/storage/src/leader.ts:1175-1219 | closed drops, failed queues a local error, else the envelope is buffered and posted on an attached channel |
| `TransportObject.LeaderTransport.RunMicrotask` | packages/storage/src/leader.ts:1199-1207 | the queued local errors are dispatched in order, to no listener once closed |
| `TransportObject.LeaderTransport.OnPairMessage` | packages/storage/src/leader.ts:578-592 | a terminal envelope leaves the buffer and reaches the listeners |
| `TransportObject.LeaderTransport.Close` | packages/storage/src/leader.ts:1234-1280 | everything the transport held is surrendered, readiness rejected if still open |
| `ProtocolInduction.NextKeepsInv` | packages/storage/src/leader.ts:488-1283 | every step of any tab, lock, channel or writer keeps the whole protocol invariant |
| `ProtocolInduction.RunsKeepInv` | packages/storage/src/leader.ts:488-1283 | the invariant holds in every world of every run |
| `ProtocolTheorems.SingleWriter` | packages/storage/src/leader.ts:803-995 | at most one tab has a live writer, it holds the lock, and it is neither closed nor failed |
| `ProtocolTheorems.ReplyIntegrity` | packages/storage/src/leader.ts:302-358 | a promise settled by a writer reply got a writer's answer to exactly the request that page sent under that id |
| `ProtocolTheorems.KindGuardNeverFires` | packages/storage/src/rpc.ts:174-179 | no settled request is ever found to have the wrong response kind |
| `ProtocolTheorems.NoCrossTalk` | packages/storage/src/leader.ts:349-358 | every envelope on a pair channel answers a request its own client sent |
| `ProtocolTheorems.RepliesForwardedOnce` | packages/storage/src/leader.ts:530-535 | live bridges map disjoint ids below the allocator, and no writer reply is passed on twice |
| `ProtocolTheorems.NoRequestForgotten` | packages/storage/src/leader.ts:1175-1219 | every unsettled request is buffered as sent, or has a local error on its way once the transport failed |
| `ProtocolTheorems.LeavesBufferOnlyAnswered` | packages/storage/src/leader.ts:578-592 | a request leaves the buffer only when an envelope for its id is delivered and its promise settled, or at close or failure |
| `ProtocolTheorems.HandshakeSafety` | packages/storage/src/leader.ts:623-694 | a pending pair is the attached channel; once acknowledged, the whole buffer was posted after the leader subscribed; a ready tab had a bridge |
| `ProtocolTheorems.ReadyOnlyWhenBridged` | packages/storage/src/leader.ts:709-766 | a follower turns ready only on the acknowledgement of the leader it pairs with, after that leader opened its bridge |
| `ProtocolTheorems.BudgetRefinesHistory` | packages/storage/src/leader.ts:1071-1155 | in every run the queue is the 30-second window over the tab's crashes, and it has failed exactly when the last three fit in one |
| `ProtocolTheorems.RunsPersist` | packages/storage/src/leader.ts:1081-1153 | along any run closed and failed stay set, settlements stay, and a terminal tab mints no leader id |
| `ProtocolTheorems.TerminalAbsorbs` | packages/storage/src/leader.ts:1234-1280 | after close or permanent failure there is never again a writer, lock, pairing, buffer or new leader id |
| `ProtocolTheorems.SettledOnce` | packages/storage/src/rpc.ts:140-157 | what settled a promise once is what settled it at every later point, duplicate replies or not |
| `ProtocolProgress.LockNeverStranded` | packages/storage/src/leader.ts:1015-1061 | while a tab is alive and unrefused, a live writer has the lock, or its release is due, or it can be granted |
| `ProtocolProgress.CrashOutcome` | packages/storage/src/leader.ts:906-954 | a crash answers every mapped request, tells peers, rejects the tab's promises, frees everything and re-queues unless spent |
| `ProtocolProgress.FailedTabsAnswer` | packages/storage/src/leader.ts:1186-1209 | once a failed, open tab has run its queued microtasks nothing is pending, and all that was is settled with the permanent failure |
| `ProtocolOutcomes.AnsweredNeverReplayed` | packages/storage/src/leader.ts:578-592 | once an envelope for a request has been delivered on the attached channel, the request is in no later buffer of the tab and no later step of it posts it again |
| `ProtocolOutcomes.JoinedExactly` | packages/storage/src/leader.ts:656-799 | in every run and step a tab stays joined to its channel unless it hears another leader announced, its leader fail, is granted the lock, crashes for the last time or closes |
| `ProtocolOutcomes.ResolvesExactly` | packages/storage/src/rpc.ts:165-180 | a settled send resolves with a value exactly when a writer's response of its kind with that value settled it, or it is a close the bridge answered; every other one rejects |
| `ProtocolOutcomes.ReadinessExactly` | packages/storage/src/leader.ts:563-576 | readiness is settled once, by the awaited acknowledgement or a grant, or else by a refused lock request or the end of the transport |
| `ProtocolOutcomes.StartsWaiting` | packages/storage/src/leader.ts:551-562 | a tab that has just started is waiting to be ready |
| `ProtocolOutcomes.LeaderFailedOutcome` | packages/storage/src/leader.ts:767-785 | the current leader's failure rejects every pending promise and unpairs the tab, its buffer kept; any other leader's changes nothing |
| `ProtocolOutcomes.LockRejectedOutcome` | packages/storage/src/leader.ts:1042-1056 | a refused lock request rejects an open tab's pending promises and settles its readiness |
| `ProtocolOutcomes.TerminateOutcome` | packages/storage/src/rpc.ts:182-199 | terminate rejects everything pending and leaves the transport closed and empty |
| `ProtocolOutcomes.ClosedHearsNothing` | packages/storage/src/leader.ts:1277-1279 | a closed transport changes nothing of its client any more |
| `ProtocolOutcomes.LastCrashAnswersBuffer` | packages/storage/src/leader.ts:1107-1128 | the crash that spends the budget dispatches an error envelope for every id still buffered |
| `Delivery.RunsRefine` | packages/storage/src/leader.ts:610-643 | every run over channels that deliver each letter once is a run of the protocol, so its safety theorems apply |
| `DeliveryInvariant.NetRunsOk` | packages/storage/src/leader.ts:610-643 | in every such run a letter on its way was posted to a channel object still subscribed, and an answer to a mapped request is still due |
| `Stranding.OnItsWayExactly` | packages/storage/src/leader.ts:709-766 | while a tab stays acknowledged and waits, its request stays on its way in every step except a pair request handled again or a close of the tab, with no answer undelivered; nothing brings it back |
| `StrandedRequest.StrandedStays` | packages/storage/src/leader.ts:749-766 | a stranded request stays stranded as long as the pairing lasts and the tab waits |
| `StrandedRequest.SentOnItsWayExactly` | packages/storage/src/leader.ts:1210-1219 | a fresh request of an acknowledged tab is on its way exactly when the leader has a bridge on its channel |
| `StrandedRequest.CanStrand` | packages/storage/src/leader.ts:715-755 | any tab pairing with a live leader can end up with a stranded request |
| `StrandedRequest.ARequestStranded` | packages/storage/src/leader.ts:715-755 | a run from nothing that ends with one |
| `OrphanedPair.OrphanedExactly` | packages/storage/src/leader.ts:906-954 | in every run and step, a tab waits for an acknowledgement without a current leader exactly when it did and nothing adopted it, or a crash with budget left just did that |
| `OrphanedPair.APairOrphaned` | packages/storage/src/leader.ts:906-954 | a run from nothing that ends with such a tab |
| `ProtocolService.CanPair` | packages/storage/src/leader.ts:656-799 | a tab with its retry timer running, an undelivered announcement, or a probe the leader has yet to answer can pair: acknowledged, ready, its whole buffer on its way |
| `ProtocolService.NewcomerHelps` | packages/storage/src/leader.ts:786-798 | a live tab with nothing to pair on has something once any tab starts |
| `ProtocolService.RepeatedAnnouncement` | packages/storage/src/leader.ts:656-660 | an announcement of its current leader heard again by an attached tab changes nothing anywhere but its own letter |
| `ProtocolService.FromRetry` | packages/storage/src/leader.ts:671-693 | a pairing whose request or acknowledgement was lost can be completed from the retry timer |
| `ProtocolService.ElectionOutcome` | packages/storage/src/leader.ts:803-892 | a granted lock puts its live owner's whole buffer on its way over its own bridge, and an announcement on its way to every other live tab |
| `ProtocolService.CanServe` | packages/storage/src/leader.ts:302-358 | a request that is on its way can be settled by a reply |
| `ProtocolService.PendingCanBeAnswered` | packages/storage/src/leader.ts:639-766 | in every run a pending request of a tab with something to pair on can be settled with any answer the writer may give |
| `NoteTable.DescendingUnique` | packages/storage/src/note-repository.ts:121-126 | a set of rows has one listing by (day, id) descending |
| `NoteTable.PageOfIsPrefix` | packages/storage/src/note-repository.ts:128-134 | a page is the first rows of the listing, with a cursor exactly when more follow |
| `NoteTable.PageOfSplits` | packages/storage/src/note-repository.ts:128-134 | with a cursor, what is on the page lies at or above it and what is not lies below |
| `NoteTable.PageExact` | packages/storage/src/note-repository.ts:114-135 | a page holds exactly the selected rows between its two cursors, descending, whatever limit was asked |
| `NoteTable.RowsMean` | packages/storage/src/note-repository.ts:119-126 | a listed row is the table's, archived only if asked for, and after the cursor by day and then id |
| `NoteTable.PageSize` | packages/storage/src/note-repository.ts:115-118 | a page has as many rows as match, up to the limit taken to be from 1 to 200 |
| `KeysetScan.LoadAllNotes` | packages/state/src/notes-store.ts:57-76 | the loop computes the scan over the tables its pages find |
| `KeysetScan.ScanDescends` | packages/state/src/notes-store.ts:57-76 | under any concurrent writes a completed scan lists strictly descending keys |
| `KeysetScan.ScanFindsStable` | packages/state/src/notes-store.ts:57-76 | it misses no row that stayed present, selected and unmodified |
| `KeysetScan.StableListedOnce` | packages/state/src/notes-store.ts:57-76 | such a row is listed exactly once, and its note under no other row |
| `KeysetScan.ScanInventsNothing` | packages/state/src/notes-store.ts:57-76 | everything listed was a selected row of a table some page found |
| `KeysetScan.ScanListsEachNoteOnce` | packages/state/src/notes-store.ts:57-76 | when no day goes back no note id is listed twice |
| `KeysetScan.NoteRepeatsExactly` | packages/state/src/notes-store.ts:57-76 | for any tables, flag and cursor, a completed scan lists a note twice exactly when two of the pages it read find it, each below its cursor |
| `KeysetScan.ANoteListedTwice` | packages/storage/src/note-repository.ts:71-85 | two concrete tables on which a scan lists one id twice |
| `KeysetScan.RestOfListing` | packages/storage/src/note-repository.ts:114-135 | the rows below the next cursor are the listing minus one full page |
| `KeysetScan.ScanOfUnchanging` | packages/state/src/notes-store.ts:63-75 | on an unchanging table a scan with so many pages left returns all remaining rows or refuses, by their number |
| `KeysetScan.LoadIsExact` | packages/state/src/notes-store.ts:21-76 | on an unchanging table the load is complete and in order exactly up to 40,000 rows, else it refuses; it never truncates |
| `KeysetScan.AllNotesMean` | packages/storage/src/note-repository.ts:119-126 | the complete list holds every note once, as it is in the table, archived ones only if asked for |
| `NotesStore.NextKeepsInv` | packages/state/src/notes-store.ts:91-148 | every write, notification, command, page and failure keeps the latest reload on course |
| `NotesStore.RunsKeepInv` | packages/state/src/notes-store.ts:91-148 | so it is on course in every run |
| `NotesStore.QuiescentConvergence` | packages/state/src/notes-store.ts:94-148 | with the latest load done and no notification undelivered, a ready list is the table's full selection under the current flag |
| `NotesStore.QuiescentRefusal` | packages/state/src/notes-store.ts:94-148 | then a refusal means more than 40,000 rows, and the store is not loading |
| `NotesStore.OvertakenNeverPublishes` | packages/state/src/notes-store.ts:92-111 | once overtaken, a reload changes nothing that is published at any later point of a run |
| `NotesStore.WritesShow` | packages/storage/src/worker-handlers.ts:80-101 | in the complete list an upserted note shows as written, an archived one only on request, a deleted one never, and every other note as before |
| `NotesStore.ToggleOutcome` | packages/state/src/notes-store.ts:137-141 | the toggle sets the flag, and a change starts a reload under it |
| `NotesStore.LastToggleShown` | packages/state/src/notes-store.ts:137-148 | once quiet, a ready store lists the table under the flag last asked for |
| `NotesStoreObject.NoteRepository.Upsert` | packages/storage/src/note-repository.ts:137-148 | a later read finds the row as written, and every other row is as it was |
| `NotesStoreObject.NoteRepository.Archive` | packages/storage/src/note-repository.ts:150-152 | an existing row is flagged, no row appears, every other row is as it was |
| `NotesStoreObject.NoteRepository.Delete` | packages/storage/src/note-repository.ts:162-164 | a later read finds nothing, and every other row is as it was |
| `NotesStoreObject.NoteRepository.ListRows` | packages/storage/src/note-repository.ts:114-135 | exactly the selected rows between the two cursors, descending, whatever limit was asked |
| `NotesStoreObject.StoreSlice.Reload` | packages/state/src/notes-store.ts:94-98 | a new generation starts its load under the current flag |
| `NotesStoreObject.StoreSlice.SetShowArchived` | packages/state/src/notes-store.ts:137-141 | a changed flag starts a reload, an unchanged one does nothing |
| `NotesStoreObject.StoreSlice.Settle` | packages/state/src/notes-store.ts:99-111 | only the latest generation publishes its outcome |
| `NotesStoreObject.StoreSlice.Resume` | packages/state/src/notes-store.ts:63-75 | one turn of the loop: publish, continue at the next cursor, or refuse past the last page |
| `NotesStoreObject.StoreSlice.ReloadFully` | packages/state/src/notes-store.ts:94-112 | a whole reload against a repository nobody writes to publishes the complete selection under the current flag, or refuses past 40,000 rows |
| `RendezvousStore.MemoryRendezvousStore.SweepTables` | apps/share-backend/src/store_memory.rs:104-114 | exactly the entries that have not expired stay |
| `RendezvousStore.MemoryRendezvousStore.InsertRendezvous` | apps/share-backend/src/store_memory.rs:117-131 | after a sweep, inserted exactly when absent |
| `RendezvousStore.MemoryRendezvousStore.InsertBlob` | apps/share-backend/src/store_memory.rs:144-158 | after a sweep, inserted exactly when absent |
| `RendezvousStore.MemoryRendezvousStore.PickUp` | apps/share-backend/src/store_memory.rs:160-171 | hands out an unexpired blob and removes it, or removes an expired one |
| `RendezvousStore.MemoryRendezvousStore.Hit` | apps/share-backend/src/store_memory.rs:177-193 | after a sweep the counter grows by one, saturating, and is renewed |
| `RateLimit.WindowIsOneRun` | apps/share-backend/src/store_memory.rs:177-193 | attempts inside one half-open TTL window belong to one run of short gaps |
| `RateLimit.WindowBound` | apps/share-backend/src/handlers.rs:125-131 | no half-open window of one TTL holds more accepted attempts than the limit |
| `RendezvousInvariant.RecordsInserted` | apps/share-backend/src/store_memory.rs:117-131 | an insert keeps every unexpired mint on record and orders mints of one code by expiry |
| `RendezvousInvariant.BlobsDropped` | apps/share-backend/src/store_memory.rs:160-169 | removing an expired blob loses no upload that still waits |
| `RendezvousInvariant.HitCounts` | apps/share-backend/src/store_memory.rs:177-193 | one hit returns the length of the client's own run, whoever swept in between |
| `RendezvousInvariant.ClampIsRedundant` | apps/share-backend/src/handlers.rs:192-195 | the clamp leaves the rendezvous expiry as it is |
| `RendezvousInvariant.NextKeepsInv` | apps/share-backend/src/handlers.rs:120-215 | every step of every handler keeps the invariant tying the tables to what happened |
| `RendezvousInvariant.RunsKeepInv` | apps/share-backend/src/handlers.rs:120-215 | it holds after every interleaving |
| `RendezvousTheorems.OnePickupPerUpload` | apps/share-backend/src/handlers.rs:174-215 | every pickup returns the bytes of one earlier upload nobody else picked up, whose expiry is a rendezvous' own and later than the pickup's clock reading |
| `RendezvousTheorems.PickupsNeverOutnumber` | apps/share-backend/src/store_memory.rs:144-171 | pickups of a code, plus the blob waiting, never outnumber its uploads |
| `RendezvousTheorems.UploadStoredExactly` | apps/share-backend/src/handlers.rs:174-201 | an upload is stored exactly when no earlier one is still waiting and unexpired |
| `RendezvousTheorems.ACodeUploadedTwice` | apps/share-backend/src/store_memory.rs:144-171 | a reachable world in which one code has taken two uploads before its rendezvous expires |
| `RendezvousTheorems.DownloadServed` | apps/share-backend/src/handlers.rs:203-215 | a download taking before expiry gets the waiting bytes; one that read the expiry, or finds nothing, gets nothing |
| `RendezvousOutcomes.DownloadExactly` | apps/share-backend/src/handlers.rs:204-215 | whatever runs in between, a download serves the waiting upload exactly when that had not expired when the download began and is unexpired, or at least unswept, when taken |
| `RendezvousOutcomes.LateDownloadExactly` | apps/share-backend/src/handlers.rs:204-215 | a download is served at or after the expiry exactly when it began before it and the blob was not swept since |
| `RendezvousOutcomes.FetchExactly` | apps/share-backend/src/handlers.rs:158-171 | a fetch answers Gone exactly when the mint it found has expired by its clock reading, else the key; an unknown code is not found, a malformed one refused |
| `RendezvousOutcomes.ExpiredNeverFetched` | apps/share-backend/src/handlers.rs:158-171 | a fetch begun at or after the expiry of the mint it finds never yields the key |
| `RendezvousOutcomes.MintBegins` | apps/share-backend/src/handlers.rs:120-138 | an attempt is refused by the client's own run of attempts first, then by the length of the key |
| `RendezvousOutcomes.MintExactly` | apps/share-backend/src/handlers.rs:139-155 | an accepted key is filed under its code until 300 seconds after the clock reading exactly when every earlier mint of the code has expired |
| `RendezvousOutcomes.UploadChecked` | apps/share-backend/src/handlers.rs:174-195 | what the lookup, the expiry and the size of the body decide, in that order |
| `RendezvousOutcomes.UploadExactly` | apps/share-backend/src/handlers.rs:182-201 | a checked upload stores exactly the request's body, to expire with its rendezvous, exactly when nothing unexpired is waiting |
| `RendezvousTheorems.ALatePickup` | apps/share-backend/src/handlers.rs:203-215 | a reachable world in which a blob was picked up at its expiry |
| `RendezvousTheorems.KeysMatchCodes` | apps/share-backend/src/handlers.rs:133-147 | every stored key has 32 bytes and hashes to its code |
| `RendezvousTheorems.MintAcceptedExactly` | apps/share-backend/src/handlers.rs:120-155 | a mint is accepted exactly when every earlier mint of its code has expired |
| `RendezvousTheorems.FetchAgrees` | apps/share-backend/src/handlers.rs:157-171 | from a mint to its expiry every fetch finds that key, whatever runs in between, and answers it unless its clock reading comes after |
| `RendezvousTheorems.RefusedByOwnRun` | apps/share-backend/src/handlers.rs:125-131 | an attempt is refused exactly when the client's own run exceeds the limit |
| `RendezvousTheorems.RateLimitHolds` | apps/share-backend/src/handlers.rs:125-131 | in every run no 300-second window holds more than ten accepted attempts of one client |
| `IdleLock.IdleLockCoordinator.constructor` | apps/web/src/app/idle-lock-coordinator.ts:54-64 | a fresh coordinator is active now, has sent no heartbeat and is unlocked |
| `IdleLock.IdleLockCoordinator.OnActivity` | apps/web/src/app/idle-lock-coordinator.ts:77-85 | records activity and publishes a heartbeat at most once per interval; nothing once locked |
| `IdleLock.IdleLockCoordinator.OnMessage` | apps/web/src/app/idle-lock-coordinator.ts:94-104 | a heartbeat counts as activity, a lock is mirrored once and not published again |
| `IdleLock.IdleLockCoordinator.OnTick` | apps/web/src/app/idle-lock-coordinator.ts:113-119 | locks, publishes and fires exactly when unlocked and idle long enough |
| `IdleLockTheorems.NextKeepsInv` | apps/web/src/app/idle-lock-coordinator.ts:54-119 | every step of any tab or of the bus keeps the group invariant |
| `IdleLockTheorems.RunsKeepInv` | apps/web/src/app/idle-lock-coordinator.ts:54-119 | it holds in every run |
| `IdleLockTheorems.GroupIdleBound` | apps/web/src/app/idle-lock-coordinator.ts:77-119 | no timer lock comes earlier than idleMs less one interval after the latest activity in any tab, if no heartbeat to it is undelivered |
| `IdleLockTheorems.LockDespiteActivity` | apps/web/src/app/idle-lock-coordinator.ts:113-119 | with a heartbeat undelivered a tab can lock in the moment of activity elsewhere |
| `IdleLockTheorems.IdleTabLocks` | apps/web/src/app/idle-lock-coordinator.ts:113-119 | after a run in which a tab records no activity, a tick leaves it locked exactly when it was or idleMs have passed since its last recorded activity |
| `IdleLockTheorems.LocksAtMostOnce` | apps/web/src/app/idle-lock-coordinator.ts:94-119 | each tab calls onLock and publishes vault-locked at most once, and is locked exactly when it called |
| `IdleLockTheorems.HeartbeatsSpaced` | apps/web/src/app/idle-lock-coordinator.ts:77-85 | two heartbeats of one tab are at least an interval apart in every run |
| `IdleLockTheorems.ActivityBeats` | apps/web/src/app/idle-lock-coordinator.ts:77-85 | activity in an unlocked tab is recorded, and announced to every other tab exactly when the last heartbeat is an interval old |
| `IdleLockTheorems.LockPropagates` | apps/web/src/app/idle-lock-coordinator.ts:94-119 | once announcements are delivered all tabs mounted at a timer lock are locked, and no tab locks without one |
| `RowId.EncodeBytes` | crates/repo/src/id.rs:38-64 | despite losing high bits, the loop spells four times the bytes' number in base 32, or reports a wrong length |
| `RowId.DecodeId` | crates/repo/src/id.rs:73-113 | despite losing high bits, the loop yields the digits' number over four in base 256, or the wrong length, or the first bad character |
| `RowId.AlphabetIsCrockford` | crates/repo/src/id.rs:24 | the digit symbols are the Crockford alphabet |
| `RowId.PositionOfSymbol` | crates/repo/src/id.rs:91-95 | looking a symbol up returns its digit, and symbols are uppercase |
| `RowId.ReadMeans` | crates/repo/src/id.rs:83-95 | reading succeeds exactly on alphabet characters, and otherwise names the first that is not |
| `RowId.RoundTrip` | crates/repo/src/id.rs:38-113 | every 16 bytes encode to 26 characters that decode to them |
| `RowId.DecodesExactly` | crates/repo/src/id.rs:73-113 | a string decodes exactly when it is 26 alphabet characters in either case, to 16 bytes; else its length or its first foreign character is reported |
| `RowId.EncodesExactly` | crates/repo/src/id.rs:38-44 | bytes encode exactly when there are 16 of them |
| `RowId.DecodesEitherCase` | crates/repo/src/id.rs:91-95 | an id in lowercase decodes to the same bytes |
| `RowId.PositionExactly` | crates/repo/src/id.rs:91-95 | exactly the characters of the alphabet, in either case, are read |
| `RowId.ReEncode` | crates/repo/src/id.rs:38-113 | re-encoding gives the uppercase form with the last two bits cleared |
| `RowId.CanonicalExactly` | crates/repo/src/id.rs:57-62 | re-encoding gives the uppercase form exactly when those two bits are zero |
| `Migrations.StampRoundTrip` | packages/storage/src/migrations.ts:58-70 | a decimal stamp reads back as its version |
| `Migrations.PendingIsRest` | crates/repo/src/migrations.rs:60-80 | at the version after k steps exactly the other steps are pending, in order |
| `Migrations.PendingRefuses` | crates/repo/src/migrations.rs:60-80 | a version is accepted exactly when some prefix of the steps reaches it |
| `Migrations.ApplyOne` | packages/storage/src/migrations.ts:91-106 | a step and its stamp are committed together or, on a fault at any statement, not at all |
| `Migrations.ApplyMigrations` | packages/storage/src/migrations.ts:86-110 | the loop commits what the reference run commits and ends the same way |
| `Migrations.RunKeepsPrefix` | packages/storage/src/migrations.ts:86-110 | a run ends after the last step before the first fault, stamped to match, and succeeds exactly when that is the end |
| `Migrations.RetriesKeepPrefix` | packages/storage/src/migrations.ts:86-110 | after any faults and retries the database is the state after some prefix of steps |
| `Migrations.FinishedRetryIsUninterrupted` | packages/storage/src/migrations.ts:86-110 | a finished retry equals an uninterrupted run, and running again changes nothing |
| `Migrations.CellReadExactly` | packages/storage/src/migrations.ts:45-66 | a version cell is read as exactly the number it denotes, in digits with or without leading zeros or as a number or bigint, and refused exactly when it is corrupt |
| `Migrations.CorruptRefused` | packages/storage/src/migrations.ts:61-66 | a corrupt cell stops the runner and leaves the database alone |
| `Migrations.VersionDecides` | packages/storage/src/migrations.ts:86-90 | a cell that denotes the version after k steps gets exactly the others run, and no table or no version row gets them all |
| `Migrations.StrangerRefused` | crates/repo/src/migrations.rs:60-80 | a version no prefix reaches is refused by number and the database left alone |
| `StripCache.Stripper.Strip` | apps/web/src/notes/markdown.tsx:279-296 | result, cache and parser count are those of the cache model |
| `StripCache.RecencyByLastCall` | apps/web/src/notes/markdown.tsx:279-296 | the recency order lists the non-empty sources called, by their last calls |
| `StripCache.CacheIsRecent` | apps/web/src/notes/markdown.tsx:279-296 | after any calls the cache holds the 200 most recent distinct sources in order, each with its parsed text |
| `StripCache.StripIsExact` | apps/web/src/notes/markdown.tsx:279-296 | stripMarkdown equals the uncached function, and the parser runs exactly when the source is not among the 200 most recent |

## Left out

- Envelopes without a numeric id: `WorkerClient` never sends one, and the transport passes them through.
- Order of replay and of error envelopes within one handler: letters are delivered in any order, so the order a Map iterates in is not observable.
- Listener sets, try/catch around teardown and platform calls that throw; Web Locks, BroadcastChannel and worker objects beyond the lock queue, the messages and the subscriptions.
- Exactly-once execution and guaranteed answers: the code does not promise them. Requests are at-least-once, and `Stranding` says when one is left without an answer.
- The writer itself: it answers each request at most once, with a response of its kind or an error.
- Cursor text and malformed cursors, and row ids inside the repository: keys are pairs, ids are numbers in byte order.
- `createRepo`, worker entry points, wasm loading, sqlite and OPFS: plumbing and I/O.
- The rendezvous model has one clock that serves handlers and sweeps, never goes back and stays a TTL below the top of u64; the router's own body limit, HTTP framing, CORS and the client-address header are not modelled.
- The migration model leaves out versions of 2^32 and above, where numbers are narrowed on their way into wasm, and digit strings too long for an exact number. A failed COMMIT is taken not to have committed, and ROLLBACK to close the transaction.
- DOM events and the hook that wires them to the idle lock.
- In the row-id loops, `|` into freshly shifted-in zero bits is written as addition; the JavaScript twin of the codec is not modelled.
- The Markdown parser behind the cache is an arbitrary function.
- Cryptography, WebAuthn, HTTP clients, React components, service worker and deployment files.
