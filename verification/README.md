# A verified model of the BLE runtime

The repository is a runtime that wraps a Bluetooth Low Energy stack for Zephyr applications: a C
interface called from application threads, one BLE thread that runs an asynchronous session, and C glue
that loads and unloads that thread. This project models the parts whose correctness is decided by the
repository's own code and proves what they guarantee, over every input and every run.

| file | models |
|---|---|
| `Mailbox.dfy` | the TX and L2CAP payload slots, as interleaved single loads, stores and byte copies |
| `Lifecycle.dfy` | load, unload, the runtime thread and the words and semaphores between them |
| `Executor.dfy` | `block_on` parked on a binary semaphore |
| `BondCodec.dfy`, `BondTable.dfy` | the 53-byte bond blob; the slot table, the application storage and reload |
| `Advertising.dfy` | the 31-byte and the 255-byte advertising payload builders |
| `SessionHeap.dfy`, `Gatt.dfy`, `Session.dfy` | the heap objects of a session, the GATT built from configuration, lookup, dispatch, and the release order of `chip::run` |
| `CommandSlot.dfy`, `LinkCommands.dfy`, `BondCommands.dfy` | command words with parameter words beside them, and the link and bond channels built on them |
| `CentralCommands.dfy`, `ClientOps.dfy`, `CentralTrace.dfy` | the central role: its commands and their words, the handlers of client operations from await to await, and whole runs over its phases |
| `CallbackTrace.dfy` | the order of connection callbacks |

Protocols are state machines: a total function `Apply` takes one step (a step that is not enabled changes
nothing), `Run` folds it over a list of steps, and the theorems speak of every list. Code that updates
objects or buffers in place is written as classes and methods proved against those functions.

## What the proofs say about the code

Some natural claims do not hold in general. The model keeps the code as it is; each of these has a lemma
with a run or an input that shows the failure, and an exact condition or a sufficient discipline.

- **Two producers on one slot.** `queue_tx` tests the flag before it copies, so a second thread can pass the
  same test; a client write shares the buffer and does not look at the flag at all. Either can send bytes
  under the wrong request (`TwoProducersTear`, `ClientWriteTears`). Any number of producers that take turns, with
  client writes only while nothing is pending, are safe in every interleaving with the pump (`TurnsDeliver`), and calls that overlap are not, from any state
  (`OverlapBreaks`);
  one producer without client writes takes turns by itself (`OneProducerDelivers`).
- **Bond slot numbers.** A new bond is given the table length as its slot, which may be in use after a delete
  in the middle (`SlotCollisionWitness`: a stored bond is overwritten and not found after a reload). A store
  keeps slots distinct exactly when `StoreCollides` is false; a delete keeps table and storage aligned exactly
  when it is at the top or above (`DeleteKeepsAlignedIff`).
- **Identities after a reload.** An entry evicted from the front of the table can leave its blob in another slot;
  storing that bond again then leaves two blobs of one identity, and a reload restores both
  (`ReloadedTwiceWitness`). A store keeps stored identities distinct exactly when no other slot holds one of the
  bond's identity (`StoreKeepsStoredIff`), which the application can check; then they stay distinct over whole
  runs, reloads included (`CarefulRunsStayDistinct`).
- **A join that gives up.** After a failed load whose timed join expires, the stack is freed under a live
  thread (`UnsafeReleaseWitness`), also when the thread had published its failure in time and was only on its
  way out (`PublishedFailureWitness`); a thread left behind can later answer another load (`StaleStatusWitness`) or lower
  the unload flag of another session (`LostUnloadWitness`). Where every join succeeds, none of this happens
  (`JoinedRunsAreClean`), nor in a load before which every load returned OK (`OkLoadsAreClean`). The comment on the pending status in `lib.rs` says that it is set before the runtime
  thread starts; in the code the thread itself sets it, and the model follows the code.
- **Arguments stored before the test.** Link setters and central client calls store their arguments before
  they find the channel busy. A refused connection-rate request changes pending connection parameters
  (`RateOverwritesParams`), a refused client write changes the bytes of a pending one
  (`RefusedWriteReplacesData`). A refused call is harmless exactly when `Harmless` holds (`RefusedIntactIff`).
- **The shared send buffer.** `queue_tx` does not look at the central command word. A notification queued between
  the acceptance of a client write and its execution is what the write sends (`QueuedTxReplacesWrite`); it is
  harmless exactly unless the pending call is a write of other bytes (`TxHarmlessIff`).
- **Forgotten configuration handles.** Only the first 32 characteristics found are remembered. Subscribing to a
  later one writes the handle after its value, which is its configuration handle only by luck
  (`SubscribeAfterDiscovery`, `ForgottenCccdWitness`).
- **Discovery status.** Discovery reports OK although the characteristics of some or all services could not be
  read (`DiscoveryReports`, for any answers to the later requests).
- **Lookup by UUID.** A malformed UUID is built as the short UUID 0 but never matches a lookup for it, and the
  built-in service's characteristics are in the table but not known to the lookup (`MalformedWitness`,
  `BuiltInWitness`). Lookup and built table disagree in exactly these two cases (`LookupAgreesWithBuild`).
- **A rejected GAP service.** `build_gatt` releases the appearance box before the local attribute table goes out
  of scope. If the stack keeps the appearance in the table although it reports an error, the box is released
  while the table still refers to it; on every other path nothing is (`RunSession`). The load has already
  reported success by then.

## Model

| member | source | states |
|---|---|---|
| BondCodec.SerializeBond | rust/src/radio.rs:877-892 | fills the caller's whole 53-byte buffer, whatever it held, with the encoding that `RoundTrip` inverts |
| BondCodec.RoundTrip | rust/src/radio.rs:877-928 | decoding an encoded bond always succeeds, and returns the bond exactly when its identity key is absent or not all zero |
| BondCodec.DecodeAccepts | rust/src/radio.rs:894-928 | a blob is accepted if and only if it has a known version, that version's length and a known level; what it decodes to is well formed |
| BondCodec.NormaliseIsStable | rust/src/radio.rs:877-928 | decode-then-encode yields an accepted version 2 blob for the same bond (upgrading version 1) and is idempotent |
| BondCodec.NormaliseKeepsBytes | rust/src/radio.rs:877-928 | every byte of a normalised blob: those it was read from, the known flags, zeros for an absent or all-zero identity key, defaults for what version 1 does not hold |
| BondCodec.LegacyDecodes | rust/src/radio.rs:894-928 | the first 42 bytes of any well-formed bond's blob, marked version 1, decode to that bond with defaults for the rest |
| BondCodec.EncodeInjective | rust/src/radio.rs:877-892 | different well-formed bonds never share a blob |
| BondCodec.EncodeLayout | rust/src/radio.rs:877-892 | the byte range each persisted field occupies |
| BondTable.BondManager.RestoreBonds | rust/src/radio.rs:930-953 | rebuilds the table from storage slot by slot, for any stack outcomes, never losing a push |
| BondTable.BondManager.StoreBond | rust/src/radio.rs:955-982 | new table and storage after a bond is made: replaced in its slot, appended, or the oldest evicted; the ignored push never fails |
| BondTable.BondManager.DeleteBondSlot | rust/src/radio.rs:1033-1057 | an unknown slot only clears storage, a refused removal changes nothing, a granted one clears both; the answer is true only in the last case |
| BondTable.BondManager.DeleteAllBonds | rust/src/radio.rs:1071-1079 | the deletes of all slots in ascending order, whatever each removal answers |
| BondTable.BondManager.SlotFor | rust/src/radio.rs:984-994 | the slot reported for an identity, 0xff when it has none |
| BondTable.SlotCount | rust/src/radio.rs:868-875 | the configured number of slots where the table can hold it, its capacity otherwise |
| BondTable.EveryRunBounded | rust/src/radio.rs:930-982 | from any storage and through any operations and stack outcomes, the table fits its slot count and every slot is below it; within a session distinct identities stay distinct |
| BondTable.RestoreDistinct | rust/src/radio.rs:930-953 | from blobs of distinct identities any restore, whatever the stack accepts, yields entries of distinct identities |
| BondTable.StoreKeepsStoredIff | rust/src/radio.rs:955-982 | a store keeps stored identities distinct if and only if no slot but the one written holds a blob of the bond's identity |
| BondTable.CarefulRunsStayDistinct | rust/src/radio.rs:930-1089 | from distinct identities in table and storage, both stay distinct over every run of stores, deletes and reloads in which every store meets that condition |
| BondTable.ReloadedTwiceWitness | rust/src/radio.rs:967-977 | six stores, a delete and a reload from empty storage, every stack call granted: one bond is in the table twice |
| BondTable.AlignedLeavesNothing | rust/src/radio.rs:955-982 | where table and storage are aligned, every store meets that condition |
| BondTable.StoreKeepsSlotsDistinct | rust/src/radio.rs:955-982 | a store keeps slot numbers distinct if and only if the slot it hands out is not held by an entry that stays |
| BondTable.StoreReplaces | rust/src/radio.rs:967-981 | a bond already in the table is rewritten in its entry's own slot, whatever that is |
| BondTable.StoreAppends | rust/src/radio.rs:967-981 | a new bond that fits takes the table length as its slot |
| BondTable.StoreEvicts | rust/src/radio.rs:967-981 | a new bond in a full table takes the first entry's place and slot 0 |
| BondTable.DeleteOutcomes | rust/src/radio.rs:1033-1057 | refused: nothing changes; no entry: only the stored blob goes; granted: exactly the slot's entries and its blob go |
| BondTable.DeleteUpToOutcomes | rust/src/radio.rs:1071-1079 | after deleting all, an entry is left exactly if the stack refused it, and a blob exactly behind such an entry |
| BondTable.RestoreExact | rust/src/radio.rs:930-953 | exactly the readable slots that the stack accepts are restored, in ascending order, each as its own entry |
| BondTable.SlotCollisionWitness | rust/src/radio.rs:967-977 | delete slot 0 of two, then store: two entries share slot 1 and a reload finds only the newest bond |
| BondTable.DeleteKeepsAlignedIff | rust/src/radio.rs:1033-1057 | after a delete, table and storage still present some common list of bonds if and only if the slot was the top one or above it |
| BondTable.StoreRefines | rust/src/radio.rs:955-982 | on an aligned state a store is the abstract replace, append or evict on the list of bonds |
| BondTable.DeleteTopRefines | rust/src/radio.rs:1033-1057 | on an aligned state deleting the top slot drops the last bond, deleting above it does nothing |
| BondTable.DeleteUpToTail | rust/src/radio.rs:1071-1079 | deleting slots in ascending order removes exactly the leading entries of an aligned table |
| BondTable.RestoreReads | rust/src/radio.rs:930-953 | restoring from an aligned storage yields each bond at its own slot, in order |
| BondTable.OpRefines | rust/src/radio.rs:930-982 | each operation under the discipline acts on the table and storage as the abstract operation acts on the list of bonds |
| BondTable.DisciplinedRunsRefine | rust/src/radio.rs:930-1089 | from a valid prefix, after every disciplined run, table and storage represent the abstract list of bonds and a fresh restore rebuilds the same table |
| Mailbox.ApplySimulates | rust/src/lib.rs:698-713 | every single load, store or byte copy of producers taking turns either is invisible or is one permitted operation of an atomic one-place slot |
| Mailbox.Linearizable | rust/src/lib.rs:698-713 | every interleaving of any number of producers taking turns with the pump produces a log of the atomic slot |
| Mailbox.TakesSelectAccepts | rust/src/radio.rs:3186-3204 | deliveries are an in-order, duplicate-free selection of accepted requests, each with its own target and kind and its bytes whole up to the value length |
| Mailbox.AcceptsAccountedFor | rust/src/radio.rs:3186-3204 | every accepted request was delivered, wiped while pending, or is still pending |
| Mailbox.TakeFollowsAccept | rust/src/radio.rs:1432-1450 | nothing, and so no consumed disconnect request, lies between an acceptance and its delivery: a request accepted before a disconnect was consumed and not yet taken is never sent |
| Mailbox.TurnsDeliver | rust/src/lib.rs:1160-1237 | the three guarantees together for every run of either slot with producers that take turns and client writes only while nothing is pending |
| Mailbox.OneProducerDelivers | rust/src/lib.rs:698-713 | the same for one producer without client writes, with no condition on when it calls |
| Mailbox.RestartForgets | rust/src/lib.rs:1263-1265 | right after a session or channel start nothing is pending, and whatever is delivered later was accepted later, too |
| Mailbox.RestartForgetsDisconnect | rust/src/radio.rs:1412-1413 | a disconnect request raised before a channel starts is not seen in it |
| Mailbox.DisconnectIsSeen | rust/src/radio.rs:1432-1436 | a disconnect request is seen at the pump's next look and removes what is pending |
| Mailbox.PumpDelivers | rust/src/radio.rs:3186-3204 | left alone with a pending request, either pump takes it, whole up to the value length |
| Mailbox.CallDelivered | rust/src/lib.rs:698-713 | in any consistent idle state a call with 1 to 512 bytes is accepted and then delivered |
| Mailbox.CallIsRefused | rust/src/lib.rs:698-704 | a call gets past the entry exactly with the flag down and 1 to 512 bytes; a client write does not look at the flag |
| Mailbox.ClientWriteStores | rust/src/lib.rs:1160-1178 | a client write leaves its bytes and length in the shared buffer and the flag as it was |
| Mailbox.OverlapBreaks | rust/src/lib.rs:698-713 | from any state with the flag down, one producer inside a call and another ready, every valid call of the other has a continuation whose log the atomic slot does not allow |
| Mailbox.TwoProducersTear | rust/src/lib.rs:698-713 | with two producers a request is delivered with the other one's bytes |
| Mailbox.ClientWriteTears | rust/src/lib.rs:1160-1178 | a client write replaces the bytes of an accepted request before it is sent |
| Lifecycle.StatusFreshness | glue/glue.c:121-158 | over any loads and unloads, a non-timeout status returned by a load that began with earlier threads gone was published by the thread it created |
| Lifecycle.NoLostUnload | glue/glue.c:160-174 | after a clean load the thread's reset of the flag is behind it, no step lowers the flag an unload raised, and the stack is freed after the thread's exit |
| Lifecycle.NothingStale | rust/src/lib.rs:1263-1270 | in a clean session no unload request is left over from before, and the status reads as pending during bring-up |
| Lifecycle.JoinsAfterWake | glue/glue.c:131-171 | over every run, a wake left from before is gone when the thread is created, and every join comes after a wake |
| Lifecycle.FullSession | glue/glue.c:121-174 | from any reachable idle state with all threads gone there is a session that loads with OK, unloads and leaves such a state |
| Lifecycle.NothingToDo | glue/glue.c:121-163 | a load without a stack, a load of what is loaded and an unload of what is not change nothing |
| Lifecycle.ReleasesAreSafe | glue/glue.c:144-173 | every unload, and every failed load whose join succeeded, frees the stack of an exited thread |
| Lifecycle.JoinedRunsAreClean | glue/glue.c:121-174 | if no join was given up on, every load began with all earlier threads gone |
| Lifecycle.OkLoadsAreClean | glue/glue.c:121-158 | a load is clean if every load before it returned OK, so its status is its own thread's and its session loses no unload |
| Lifecycle.UnsafeReleaseWitness | glue/glue.c:144-153 | a failed load that timed out and whose join expires frees the stack of a live thread |
| Lifecycle.PublishedFailureWitness | rust/src/chip/nrf54l.rs:225-276 | so can a load that failed with any published status, whose thread is still returning when the join expires |
| Lifecycle.StaleStatusWitness | glue/glue.c:133-157 | a thread left behind answers a later load, which returns OK before its own thread has run |
| Lifecycle.LostUnloadWitness | rust/src/lib.rs:1263-1265 | a thread left behind lowers the unload flag of a later session |
| Executor.NoLostWakeUp | rust/src/radio.rs:123-142 | a blocked executor has polled after every wake; otherwise one take starts a poll that covers all wakes |
| Executor.PollsPaidByWakes | glue/glue.c:51-60 | apart from the first, every poll is paid for by a wake of its own |
| Executor.ReadyIsFinal | rust/src/radio.rs:132-142 | the first poll needs no wake, and once a poll is ready none follows, over every run |
| Executor.WakePollsAgain | rust/src/radio.rs:132-142 | a pending poll parks, and the next wake begins another |
| Advertising.PushAd | rust/src/radio.rs:2697-2707 | succeeds if and only if the structure fits, writes exactly it, and leaves the buffer alone otherwise |
| Advertising.ExtVec.PushAdExt | rust/src/radio.rs:2709-2717 | the same for the extended vector; no push behind the test can fail |
| Advertising.BuildLegacy | rust/src/radio.rs:2719-2815 | with F bytes before the name, succeeds if and only if F is at most 31 and the whole name fits or F is at most 28; the bytes are the intended structures with zeros behind them; the scratch buffer never decides |
| Advertising.BuildExt | rust/src/radio.rs:2817-2889 | succeeds if and only if the intended structures with the whole name fit 255 bytes, and holds exactly those |
| Advertising.AdvertiseLegacy | rust/src/radio.rs:2632-2651 | raw data or built payload, with zeros behind it |
| Advertising.AdvertiseExt | rust/src/radio.rs:2653-2667 | raw data or built payload |
| Advertising.ParseFlatten | rust/src/radio.rs:2697-2717 | an independent reader of length-type-data structures recovers any list of structures from its bytes and consumes all of them |
| Advertising.LegacyRoundTrip | rust/src/radio.rs:2719-2815 | the reader recovers the intended structures from exactly the bytes of a legacy payload, which fit 31 |
| Advertising.ExtRoundTrip | rust/src/radio.rs:2817-2889 | the same for every extended payload |
| Advertising.ShortenedFills | rust/src/radio.rs:2803-2813 | the last structure is the whole name, or a proper prefix of it that fills the payload to 31 bytes |
| Advertising.LegacyAgreesWithExt | rust/src/radio.rs:2632-2889 | raw or uncut: both payloads are the same bytes; cut: the extended one is the legacy bytes before the name and the whole name; no name: the legacy one has two bytes more, 01 09 |
| Gatt.CharIndex | rust/src/lib.rs:742-774 | the first declared characteristic with that UUID in flat order, an error if there is none or the UUID is malformed; the 16-bit index cannot overflow |
| Gatt.LookupAgreesWithBuild | rust/src/lib.rs:742-774 | for every configuration and every GATT built from it, the lookup answers with the first characteristic of the built table that has the UUID, an error if none, if and only if neither a malformed UUID stands before the 0 asked for nor the built-in service is asked for |
| Gatt.MalformedWitness | rust/src/radio.rs:316-330 | a malformed UUID declared first: the lookup for 0 answers 1, the built table 0 |
| Gatt.BuiltInWitness | rust/src/radio.rs:387-414 | no services: RX and TX are in the built table, the lookup answers with an error |
| Gatt.FlatBound | rust/src/lib.rs:758-772 | at most 255 * 255 characteristics, so 16-bit indices suffice |
| Gatt.AddDescriptor | rust/src/radio.rs:447-476 | one descriptor gets a new handle, its own position, and a value buffer if and only if it is writable |
| Gatt.AddCharacteristic | rust/src/radio.rs:418-480 | one more characteristic keeps handles distinct, positions equal to declaration order, and buffers in step |
| Gatt.BuildGatt | rust/src/radio.rs:365-494 | positions, handles, configuration descriptors and buffers are those of the nested configuration; a rejected GAP service leaves the heap as it was |
| Gatt.BuiltAsDeclared | rust/src/radio.rs:316-330 | a characteristic declared with two bytes is built with the short UUID they are, low byte first, with sixteen as they stand, with anything else as 0 |
| Gatt.BuiltInService | rust/src/radio.rs:387-414 | the whole built-in table: RX without, TX with a configuration descriptor, two buffers, and their indices |
| Gatt.DecidingBits | rust/src/radio.rs:289-294 | which mask bits decide on a configuration descriptor and on a value buffer |
| Gatt.Dispatch | rust/src/radio.rs:3075-3130 | the scan with its early exits finds the first hit, characteristics before descriptors |
| Gatt.DispatchInvertsBuild | rust/src/radio.rs:3066-3131 | every value, configuration and user descriptor handle of a built GATT leads back to exactly the position it was built for |
| Gatt.DispatchElsewhere | rust/src/radio.rs:3066-3131 | exactly the handles that were not built lead nowhere, and only the built-in RX reaches the data callback |
| SessionHeap.OwnsGrows | rust/src/radio.rs:333-340 | one more value buffer, referred to only by the attribute table |
| SessionHeap.OwnsMoves | rust/src/radio.rs:482-493 | the table's references move to the server with it, and nothing refers to the old place |
| Session.Teardown | rust/src/radio.rs:673-701 | server first, then buffers and appearance: each released once, none while referred to, and the heap is back to its base |
| Session.RunSession | rust/src/chip/nrf54l.rs:192-305 | on every path the heap afterwards is the heap before, something is released early exactly where `ReleasesEarly` holds, and the status is the failing step's |
| Session.RunSessions | rust/src/chip/nrf52.rs:191-272 | any sequence of sessions ends on the heap it began with |
| Session.PublishedStatuses | rust/src/chip/nrf54l.rs:192-287 | the statuses a thread publishes in the load handshake are exactly those a session ends its bring-up with |
| CommandSlot.RefusedIntactIff | rust/src/lib.rs:776-782 | a refused call leaves the pending parameters intact if and only if what it stores before the test agrees with them |
| CommandSlot.TouchIntactIff | rust/src/lib.rs:698-713 | so does a store by something that shares words with the channel and does not look at its command |
| CommandSlot.EveryRunPaired | rust/src/lib.rs:776-846 | over every run whatsoever, accepted commands are executed at most once each and in order |
| CommandSlot.PoliteRunsTransparent | rust/src/lib.rs:776-846 | over every run of calls harmless to what is pending, accepted calls are executed once each, in order, with their own parameters |
| CommandSlot.CheckFirstTransparent | rust/src/lib.rs:895-906 | a channel that tests before it stores needs no such condition: refused calls change nothing |
| LinkCommands.LinkMailbox.LinkCmd | rust/src/lib.rs:776-782 | refused with NO_MEM while a command is pending, else the command becomes pending |
| LinkCommands.LinkMailbox.SetPhy | rust/src/lib.rs:785-791 | invalid arguments touch nothing; otherwise the argument is stored and then the channel is tested |
| LinkCommands.LinkMailbox.RequestConnectionRate | rust/src/lib.rs:829-846 | all seven arguments are stored even when the call is refused |
| LinkCommands.LinkMailbox.UpdateConnParams | rust/src/lib.rs:801-812 | the four arguments, in words shared with the connection rate, are stored even when the call is refused |
| LinkCommands.LinkMailbox.LinkControlOnce | rust/src/radio.rs:1178-1351 | consumes the pending command once and acts on the parameter words as they are then |
| LinkCommands.CarriedIsIntended | rust/src/radio.rs:1178-1351 | words that carry a call's arguments make the consumer do what the caller asked for |
| LinkCommands.ExecutedFields | rust/src/radio.rs:1183-1239 | what is executed, field by field, for each call but the next two: the caller's value, or 251, 2120, 80, 80 and 8000 for zeros |
| LinkCommands.SpaceFields | rust/src/radio.rs:1240-1270 | frame spacing: refused exactly if an effective minimum exceeds its maximum, else the caller's values, or 150 and 10000 for zeros |
| LinkCommands.RateFields | rust/src/radio.rs:1272-1320 | connection rate: refused exactly if an effective minimum exceeds its maximum, else each of seven fields is the caller's, or its default for a zero |
| LinkCommands.PoliteExecutedAsIntended | rust/src/lib.rs:776-889 | over every run whose calls are harmless to what is pending, every executed command does what the call accepted just before it asked for |
| LinkCommands.ExecutedAsIntended | rust/src/lib.rs:776-889 | in particular if no call is made while one is pending |
| LinkCommands.RateBehindParamsIff | rust/src/lib.rs:801-846 | a connection-rate call refused behind connection parameters leaves their words alone if and only if it names the same interval, latency and timeout |
| LinkCommands.RateBehindParamsExecutes | rust/src/radio.rs:1209-1239 | and leaves what is executed alone if and only if it asks for the same ones once zeros are replaced by their defaults |
| LinkCommands.RateOverwritesParams | rust/src/lib.rs:801-846 | a refused connection-rate call changes the parameters that are then executed |
| BondCommands.BondMailbox.BondAdminCmd | rust/src/lib.rs:895-906 | refused without any change while a command is pending |
| BondCommands.ExecutedAsIntended | rust/src/radio.rs:1059-1089 | whatever the order of calls and polls, each command executed is the accepted one with its own parameter |
| CentralCommands.CarriedIsIntended | rust/src/lib.rs:955-1213 | words that carry a central call's arguments make the consumer do what the caller asked for, packed words and truncated writes included |
| CentralCommands.RejectedExactly | rust/src/lib.rs:1029-1178 | which calls are turned down at the entry |
| CentralCommands.IntentInjective | rust/src/lib.rs:955-1213 | accepted calls that ask for the same thing are the same call |
| CentralCommands.HandlesUnpack | rust/src/lib.rs:1096-1157 | packed pairs of handles and offsets unpack to what the caller passed, and the status handle is the caller's |
| CentralCommands.TxHarmlessIff | rust/src/lib.rs:698-713 | a queued notification is harmless to a pending central call if and only if that is not a write of other bytes |
| CentralCommands.WriteHarmlessIff | rust/src/lib.rs:1160-1178 | so is a refused client write |
| CentralCommands.RefusedWriteReplacesData | rust/src/lib.rs:1160-1178 | a refused client write leaves the pending handle and replaces the pending bytes |
| ClientOps.PerformOneStatus | rust/src/radio.rs:1712-2030 | for every operation, any answers and any number of services: a handler that has returned has reported exactly one status, last of all, under its own code and handle; one cut off at any await has reported none |
| ClientOps.ReadReports | rust/src/radio.rs:1719-1748 | the whole output of a read: the request, the bytes up to the value length, then status OK; on failure the status alone |
| ClientOps.WriteReports | rust/src/radio.rs:1749-1780 | the whole output of a write with or without response |
| ClientOps.SubscribeReports | rust/src/radio.rs:1781-1816 | the whole output of a subscription: 1, 2 or 0 to the configuration handle, the status under the value's |
| ClientOps.ServicesReports | rust/src/radio.rs:1934-1949 | the whole output of listing services |
| ClientOps.DiscoveryFails | rust/src/radio.rs:1917-2003 | the whole output when the first request fails or the range is empty |
| ClientOps.AcceptedCallsAsk | rust/src/radio.rs:1970-1985 | no accepted call is turned down by its handler |
| ClientOps.DiscoverAsksFor | rust/src/radio.rs:1952-1955 | discovering a 16-bit UUID asks the peer for that UUID |
| ClientOps.DiscoveryReports | rust/src/radio.rs:1893-1968 | discovery goes through any number of services in order, reports and remembers exactly what was answered, and ends with OK whichever of the later requests failed |
| ClientOps.StreamReports | rust/src/radio.rs:1970-2030 | every streamed item is reported, in order, and the status says whether the request succeeded |
| ClientOps.RememberedCaps | rust/src/radio.rs:1893-1914 | what is remembered over any services and discoveries is what was found, in order, up to 32 entries |
| ClientOps.SubscribeWrites | rust/src/radio.rs:1781-1816 | after any discoveries, the handle a subscription writes: the one that came with the characteristic if it is among the first 32 found, else the one after its value |
| ClientOps.SubscribeAfterDiscovery | rust/src/radio.rs:1781-1816 | the configuration handle that came with a characteristic is written if and only if it is among the first 32 found, or happens to follow the value |
| ClientOps.ForgottenCccdWitness | rust/src/radio.rs:1893-1914 | two services with 33 characteristics: subscribing to the last writes the wrong handle |
| CentralTrace.EveryRunAnswers | rust/src/radio.rs:1502-2030 | over every run, polite or not: accepted commands are executed at most once each and in order, effects are one to one and in order with the executions that mean something in the phase that consumed them, and every operation is closed by exactly one status of its own code and handle or by its cut-off |
| CentralTrace.EveryRunPlays | rust/src/radio.rs:1712-2030 | over every run, what an operation asks and calls back with is its handler's output under some answers, up to its return, its cut-off or the present |
| CentralTrace.LinkCommandDropped | rust/src/radio.rs:1564-1677 | over every run, an executed command that needs a link has its effect, once, if and only if the client pump consumed it |
| CentralTrace.CentralTraceHolds | rust/src/radio.rs:1502-2030 | over every run in which nothing is stored over what a pending call needs, moreover: every execution has its own call's parameters, and every effect is what the accepted call asked for |
| CentralTrace.EveryStoreFits | rust/src/radio.rs:1893-1914 | over every run the remembered handles stay within their capacity, as the subscription results require |
| CentralTrace.QueuedTxReplacesWrite | rust/src/radio.rs:1749-1763 | a notification queued behind an accepted client write is sent in its place |
| CentralTrace.NoOperationWithoutConnect | rust/src/radio.rs:1502-1591 | over every run without a configured peer: nothing is dialled, asked or called back before a connect command has been executed |
| CentralTrace.QuietBetweenLinks | rust/src/radio.rs:1502-1560 | over every run: after the link goes down, an attempt fails or unload comes, and from the start, nothing is asked of a peer and no client callback is made until a link comes up |
| CentralTrace.UnloadSilences | rust/src/radio.rs:1512-1515 | after unload nothing more happens |
| CentralTrace.StoreIsFromThisLink | rust/src/radio.rs:1695-1711 | what a session remembers, its own peer has answered since the link came up |
| CentralTrace.ScanFromIdle | rust/src/radio.rs:1564-1591 | a scan is started with the caller's settings |
| CentralTrace.StopWhileScanning | rust/src/radio.rs:1645-1650 | a scan is stopped |
| CentralTrace.ConnectWithoutLink | rust/src/radio.rs:1564-1677 | from idle or breaking off a scan the role dials the caller's address, and is back to idle if that fails |
| CentralTrace.ReadInSession | rust/src/radio.rs:1712-1748 | a read in a session, from the call to its status |
| CentralTrace.QueuedUntilDrained | rust/src/lib.rs:698-713 | which notifications are queued, and until when they are in the way of the next |
| CallbackTrace.CallbackGrammar | rust/src/radio.rs:1364-1560 | in every run of a role, cancellations included: connections follow one another, channel opens and closes alternate inside a connection, and only the last open of a connection may lack its close |
| CallbackTrace.CentralOneChannel | rust/src/radio.rs:2249-2259 | the central role opens at most one channel per connection, first of all, and its end is the connection's end |
| CallbackTrace.PeripheralReopens | rust/src/radio.rs:1364-1380 | the peripheral goes on listening: one connection carries any number of channels, until unload ends both |
| CallbackTrace.DropSilences | rust/src/radio.rs:640-671 | once the role's future is dropped no callback is made |
| CallbackTrace.ChannelOnConnection | rust/src/radio.rs:2055-2068 | with a PSM configured either role opens a channel |

## Left out

- The BLE stack, the controller and the multiprotocol service layer: seen as an allocator of fresh handles, a bond set whose additions and removals may fail, and futures that may be dropped at any await.
- Kernel internals: semaphores, thread creation and join are single steps; reuse of the one static thread object while an abandoned thread still runs is not modelled.
- Weak memory: interleavings are sequentially consistent, justified by the acquire and release pairs on each flag.
- Mailbox.TurnsDeliver: says nothing about a runtime thread abandoned by an earlier session and still touching the slot; the lifecycle model shows when there is one.
- Mailbox.Linearizable: the translation of the built-in TX index and the choice between notification and indication after the request is taken are not modelled.
- LinkCommands.PoliteExecutedAsIntended: calls and consumptions are atomic steps, and the stack's own validity test of requested parameters is not modelled; the masks of frame spacing are passed on as they are, although the code reads a zero as all.
- CentralTrace.CentralTraceHolds: a consumer's swap and parameter read are one step, and so is each call; callbacks are assumed to be installed, and link commands executed on the central link are not modelled.
- ClientOps.PerformOneStatus: an answer that does not fit the request a handler waits for is ignored; the addition for an unknown configuration handle wraps at 16 bits, as in a release build.
- BondCommands.BondMailbox.BondAdminCmd: the range test of the capability in front of it is not modelled.
- Gatt.CharIndex: assumes that a configuration has been installed; without one the code answers with the same error.
- Gatt.BuildGatt: the capacity of the attribute table, service UUIDs, initial values, and property and permission maps beyond the bits that decide configuration descriptors and writability.
- Gatt.Dispatch: the payload and offset handed to the callbacks, and reads by the peer, which scan value handles and descriptors in the same way.
- Session.RunSession: heap objects the stack allocates for itself and the growth of vectors.
- BondTable.DisciplinedRunsRefine: assumes storage callbacks that are present and faithful; `EveryRunBounded` does not.
- Advertising.ShortenedFills: a name is cut at a byte boundary, so the shortened name need not be valid UTF-8.
- Advertising flags and parameters outside the payload; periodic advertising intervals, where a configured minimum above the default maximum is passed on as it is.
- The time queue and alarm behind timers, whose queue type belongs to an external crate.
- Interrupt shims, peripheral lists, controller feature toggles and memory-pool sizes.
- Scan-report forwarding, security events, logging, and the tables mapping PHY, transmit power and capabilities.
- The flattening of the public configuration in `runtime_ble_init`.
- Reset of pending command words between sessions: the code does not do it, and command channels are modelled as one continuous run.
