# Port forwarding, reverse lanes and text handling of remote-exec: a verified model

The broker of remote-exec forwards TCP connections and UDP datagrams between
hosts through framed tunnels, keeps a store of the forwards with their life
cycle, replaces the HTTP client of a daemon that times out, and pools the reverse
connections that daemons dial in. This project models that engine in Dafny and
proves what holds over all of its runs, together with three self-contained
algorithms of the same repository: the streaming UTF-8 decoder of the C++ daemon,
the Gregorian date of the build stamp, and path normalisation.

`dafny verify dfyconfig.toml` checks everything.

How the model is built:

- The bridges, the store, the connector table, the lane pool, the connection and
  the decoder are classes whose methods update their fields in place, as in the
  source. Every method is proved equal to a transition function over values
  (`TcpBridge`, `UdpBridge`, `ForwardStore`, ...), and the theorems are about all
  sequences of transitions.
- What the environment decides is a parameter and arbitrary: how each send ends
  (taken, backpressure, lost transport, other error), in which order a hash map is
  walked, how a meta block decodes, what the clock shows, whether a build or a
  close succeeds, what other callers do while a lock is free. A statement for all environments covers every behaviour.
- A handler runs to completion before the next event, as the event loops do. The
  tunnel's byte budget, the timeout recovery and the store, where the source
  really interleaves, are interleaved at every atomic action or critical section.
- Histories (frames received and sent, where a pair began, which ids were bound)
  are part of the transition state so that a theorem at the end of a run speaks
  about the whole run. In the classes they are ghost fields.

Assumptions, each stated as a precondition where it is used:

- The listen side does not announce a TCP connection under the id of a pair that
  is still live (`FreshAccepts`); `TcpRuns.PairedIffFresh` shows that this is
  exactly what recording a pair needs.
- Byte limits of a forward are below the maximum of a 64-bit `usize`.
- The forward's entry is in the store while its epoch runs.
- Callers of the store own their reservation guards and the records they have
  taken, and no id is reserved that is in use, closing included (`StoreRuns.Legal`);
  the generator checks public and pending ids only, and `StoreReissue` and
  `StoreLimits.RestoreOverwritesExactly` show what holds without that assumption.

Some things the code does that a reader might not expect are proved as they are,
each with the exact condition:

- An epoch can end with slots still reserved: when the listen tunnel is lost, and
  when the loss of the connect tunnel is found while opening or closing one stream
  (`TcpExits`, exactly when in `TcpExits.AllSlotsReturnedExactly`).
- Undoing a failed close can pass the open limits (`StoreLimits.RestoreGrowsExactly`,
  with a run in `StoreWitnesses`).
- A take of checked ids loses a record if an id was drained and handed out again in
  between (`StoreClose.CheckedTakeExactly`, with a run in `StoreWitnesses`); a drain
  alone loses nothing.
- A restore replaces a forward that was committed under its id while it was closing
  (`StoreLimits.RestoreOverwritesExactly`, with runs in `StoreReissue`).
- Normalising can make a relative Windows path absolute
  (`PathPolicy.MixedSeparatorsBecomeAbsolute`, `PathPolicy.AbsoluteExactly`).

## Model

| member | source | states |
|---|---|---|
| `TcpRuns.RelayIsExact` | crates/remote-exec-broker/src/port_forward/tcp_bridge.rs:306-369 | After every run of an epoch that is still going on, for each live pair: what was sent on its connect stream followed by its pending queue is exactly, in order, the data and half-close frames received on its listen stream since the pair was made, with the stream id rewritten and half-closes stripped; and the same for the way back |
| `TcpRuns.ClosedPairsSentAPrefix` | crates/remote-exec-broker/src/port_forward/tcp_bridge.rs:624-729 | However the run went on or ended, every pair ever made sent a prefix of that relayed input, and nothing of a later connection that reuses the listen id |
| `TcpRuns.SlotsConserved` | crates/remote-exec-broker/src/port_forward/tcp_bridge.rs:187-283 | After every event, on success, error and recovery paths alike, the active-stream count is its value at the start of the epoch plus the number of live pairs, and it never exceeds the limit |
| `TcpRuns.BudgetsExact` | crates/remote-exec-broker/src/port_forward/tcp_bridge.rs:871-939 | After every event the two stream maps are inverse, each pending byte count is the size of its queue, the shared total is their sum, both stay within their limits, a ready stream queues nothing, and queues hold only data and half-close frames of their stream |
| `TcpExits.SlotsLeftAtExit` | crates/remote-exec-broker/src/port_forward/tcp_bridge.rs:187-283 | An epoch that ends with an event leaves reserved, beyond the slots it started with, exactly one slot for each pair that this event does not end, told by the state before the event |
| `TcpExits.AllSlotsReturnedExactly` | crates/remote-exec-broker/src/port_forward/tcp_bridge.rs:575-622 | So all slots are given back if and only if the last event drops every pair, or no pair is live, or it ends the only live one |
| `TcpExits.ListenLossKeepsSlots` | crates/remote-exec-broker/src/port_forward/tcp_bridge.rs:91-108 | A run that keeps a slot: losing the listen tunnel with a live pair |
| `TcpExits.OpenLossKeepsSlots` | crates/remote-exec-broker/src/port_forward/tcp_bridge.rs:251-283 | A run that keeps a slot: a connect tunnel found lost while opening a second stream, which recovers the connect side and leaves the slot of the first |
| `TcpExits.CompletionLossKeepsSlots` | crates/remote-exec-broker/src/port_forward/tcp_bridge.rs:812-865 | In every state of the invariant: a connect tunnel found lost while closing a completed pair leaves the slots of all other pairs |
| `TcpReplies.ClosedPairsReturnedAPrefix` | crates/remote-exec-broker/src/port_forward/tcp_bridge.rs:476-547 | However the run went on or ended, what the listen side took under the listen id of a pair, until that id is used again, is a prefix of the payload received on its connect stream |
| `TcpStreams.OpenedOnceBeforeUse` | crates/remote-exec-broker/src/port_forward/tcp_bridge.rs:251-304 | In every run the frames on the connect stream of a pair are its TcpConnect request with the endpoint, first and once, then payload, then at most one close, and that only once the pair has ended; no frame goes to any other stream |
| `TcpStreams.ReadyExactlyWhenConfirmed` | crates/remote-exec-broker/src/port_forward/tcp_bridge.rs:426-456 | While a run goes on, told by the histories alone: a live pair whose stream the connect side has confirmed since the pair was made queues nothing and has sent all its input; one not confirmed has sent nothing and queues all of it; and its listen stream has carried its replies and nothing else |
| `TcpStreams.FinishedExactlyWhenTold` | crates/remote-exec-broker/src/port_forward/tcp_bridge.rs:330-369 | In every run a side of a live pair counts as finished exactly when its half-close has arrived since the pair was made |
| `TcpStreams.RunLogged` | crates/remote-exec-broker/src/port_forward/tcp_bridge.rs:52-89 | The invariant behind these laws, over every run |
| `TcpSends.AcceptSends` | crates/remote-exec-broker/src/port_forward/tcp_bridge.rs:187-304 | An accepted connection becomes a pair, under the next id and with its request sent, exactly when its announcement decodes, a slot and an id are free and the connect side takes the request; otherwise what is sent, what is live and how the event ends, case by case |
| `TcpSends.ListenEndSends` | crates/remote-exec-broker/src/port_forward/tcp_bridge.rs:371-424 | A close or an error of a listen stream closes the connect stream of its pair; how the event ends if that close is not taken |
| `TcpSends.ConnectEndSends` | crates/remote-exec-broker/src/port_forward/tcp_bridge.rs:458-573 | A close or an error of a connect stream closes the listen stream of its pair; how the event ends if that close is not taken |
| `TcpSends.CompletionSends` | crates/remote-exec-broker/src/port_forward/tcp_bridge.rs:812-865 | The second half-close of a pair is passed on and then both streams are closed, with every combination of failing closes |
| `TcpSends.ConnectLossSends` | crates/remote-exec-broker/src/port_forward/tcp_bridge.rs:575-605 | Losing the connect tunnel closes every listen stream once and recovers the tunnel, unless the first close to fail is refused |
| `TcpSends.ListenPayloadSends` | crates/remote-exec-broker/src/port_forward/tcp_bridge.rs:624-677 | Payload of the listen side that does not complete its pair: sent, queued, or the pair dropped with a close to both sides, or every pair given up, exactly by the stream being ready, the room in both limits and the answer of the tunnel |
| `TcpSends.ConfirmationSends` | crates/remote-exec-broker/src/port_forward/tcp_bridge.rs:679-729 | A confirmation sends the queue in order up to the first send that fails, and then ends as that failure says |
| `TcpSends.ConnectPayloadSends` | crates/remote-exec-broker/src/port_forward/tcp_bridge.rs:476-547 | Payload of the connect side that does not complete its pair goes to its listen stream; how the event ends if it is not taken |
| `TcpSends.OtherEventsSendNothing` | crates/remote-exec-broker/src/port_forward/tcp_bridge.rs:91-185 | Events that address no live pair send nothing and leave the pairs alone; they end the epoch exactly for a loss, a cancellation or an error the forward cannot survive |
| `TcpSends.EntryKeepsItsRest` | crates/remote-exec-broker/src/port_forward/tcp_bridge.rs:934-946 | No event changes anything of the entry but its counters, and the datagram counter grows by exactly what the listen side reports |
| `TcpSends.StreamsAreNumbered` | crates/remote-exec-broker/src/port_forward/tcp_bridge.rs:52-89 | In every run the pairs are opened under ids that the allocator started at 1 has issued |
| `TcpRuns.PairedIffFresh` | crates/remote-exec-broker/src/port_forward/tcp_bridge.rs:285-304 | Recording a pair keeps the maps inverse if and only if the accepted listen id is not in use, the assumption under which the run theorems hold |
| `TcpRuns.FlushKeeps` | crates/remote-exec-broker/src/port_forward/tcp_bridge.rs:679-729 | Flushing a queue in any mix of send results keeps the invariant and the exact relay, and the branch for a queued close frame is never needed |
| `TcpRuns.RunKeeps` | crates/remote-exec-broker/src/port_forward/tcp_bridge.rs:52-89 | The whole invariant, over every run from every starting entry and every environment |
| `TcpInvariants.Unpaired` | crates/remote-exec-broker/src/port_forward/tcp_bridge.rs:913-946 | Removing a live pair gives back its queued bytes and its slot, and neither saturating subtraction saturates |
| `TcpInvariants.ActiveClosed` | crates/remote-exec-broker/src/port_forward/tcp_bridge.rs:575-605 | Closing all listen streams empties both maps, gives back the whole byte budget and returns the slot count to its base, whichever closes fail |
| `TcpEndings.PairEndsExactly` | crates/remote-exec-broker/src/port_forward/tcp_bridge.rs:426-605 | An event ends a given live pair if and only if it drops every pair (connect tunnel lost to the reader or to a payload frame, or ids exhausted), the pair overflows one of the byte limits or is refused by the connect tunnel, a side closes or fails it, or it completes its second half-close |
| `TcpEndings.DropsCounted` | crates/remote-exec-broker/src/port_forward/tcp_bridge.rs:894-946 | Every event raises the 64-bit dropped-stream count by exactly the pairs and connections it drops, up to its maximum |
| `TcpForward.TcpForwardTask.RunEpoch` | crates/remote-exec-broker/src/port_forward/tcp_bridge.rs:52-89 | The event loop, updating the state in place, computes exactly the run of the transition system |
| `TcpForward.TcpForwardTask.HandleAccept` | crates/remote-exec-broker/src/port_forward/tcp_bridge.rs:187-249 | Accepting a connection: slot limit, exhausted ids and the failed open end as in the transition, slot settled |
| `TcpForward.TcpForwardTask.OpenConnectStream` | crates/remote-exec-broker/src/port_forward/tcp_bridge.rs:251-283 | Opening the connect stream for a reserved slot, with its three kinds of failure |
| `TcpForward.TcpForwardTask.RecordStreamPair` | crates/remote-exec-broker/src/port_forward/tcp_bridge.rs:285-304 | Both maps gain the pair; the new stream is not ready and queues nothing |
| `TcpForward.TcpForwardTask.HandleListenData` | crates/remote-exec-broker/src/port_forward/tcp_bridge.rs:306-328 | Data of the listen side is queued or sent under the connect id |
| `TcpForward.TcpForwardTask.HandleListenEof` | crates/remote-exec-broker/src/port_forward/tcp_bridge.rs:330-369 | A half-close is relayed without payload, and completes the pair if it is the second |
| `TcpForward.TcpForwardTask.HandleListenClose` | crates/remote-exec-broker/src/port_forward/tcp_bridge.rs:371-390 | A close of the listen side ends the pair and releases its slot |
| `TcpForward.TcpForwardTask.HandleListenError` | crates/remote-exec-broker/src/port_forward/tcp_bridge.rs:392-424 | Listener pressure is counted, other listener errors end the forward, a stream error ends its pair |
| `TcpForward.TcpForwardTask.HandleConnectOk` | crates/remote-exec-broker/src/port_forward/tcp_bridge.rs:426-456 | The stream turns ready and its queue is flushed |
| `TcpForward.TcpForwardTask.HandleConnectData` | crates/remote-exec-broker/src/port_forward/tcp_bridge.rs:476-503 | Data of the connect side goes to the listen side |
| `TcpForward.TcpForwardTask.HandleConnectEof` | crates/remote-exec-broker/src/port_forward/tcp_bridge.rs:505-547 | Its half-close likewise, completing the pair if it is the second |
| `TcpForward.TcpForwardTask.HandleConnectClose` | crates/remote-exec-broker/src/port_forward/tcp_bridge.rs:549-573 | A close of the connect side ends the pair |
| `TcpForward.TcpForwardTask.CloseActiveListenStreams` | crates/remote-exec-broker/src/port_forward/tcp_bridge.rs:575-605 | The loop over all pairs, remembering the first failed close |
| `TcpForward.TcpForwardTask.QueueOrSendFrame` | crates/remote-exec-broker/src/port_forward/tcp_bridge.rs:624-677 | A frame for a stream that is not ready is queued, or the pair is dropped when a limit would be passed; otherwise it is sent |
| `TcpForward.TcpForwardTask.FlushPending` | crates/remote-exec-broker/src/port_forward/tcp_bridge.rs:679-729 | The flush loop over the taken queue |
| `TcpForward.TcpForwardTask.TryQueue` | crates/remote-exec-broker/src/port_forward/tcp_bridge.rs:871-892 | Queueing within both limits, with saturating byte counts |
| `TcpForward.TcpForwardTask.CloseTcpPair` | crates/remote-exec-broker/src/port_forward/tcp_bridge.rs:774-810 | Ending a pair for a connect error or for pressure |
| `TcpForward.TcpForwardTask.ClosePairIfDone` | crates/remote-exec-broker/src/port_forward/tcp_bridge.rs:812-865 | Ending a pair whose sides have both half-closed |
| `TcpForward.TcpForwardTask.RemoveAndSettle` | crates/remote-exec-broker/src/port_forward/tcp_bridge.rs:913-946 | Taking a stream out, giving back its bytes and settling its slot once |
| `TcpForward.TcpForwardTask.HandleForwardDrop` | crates/remote-exec-broker/src/port_forward/mod.rs:39-55 | A drop report is counted by its kind, at least once |
| `StreamIds.IssuedExactly` | crates/remote-exec-broker/src/port_forward/generation.rs:17-35 | The n-th call in closed form, for every start |
| `StreamIds.OddIdsOfOneGeneration` | crates/remote-exec-broker/src/port_forward/generation.rs:9-35 | Started at 1 the allocator yields exactly 1, 3, ..., 2^32-3, that is 2^31-1 ids, then nothing for ever |
| `StreamIds.IssuedOnce` | crates/remote-exec-broker/src/port_forward/generation.rs:25-35 | No id is issued twice, none after a refusal |
| `StreamIds.RefusalNeedsRotation` | crates/remote-exec-broker/src/port_forward/generation.rs:37-39 | A refusal implies that the generation needs rotation, which both bridges assert |
| `StreamIds.NumberedIds` | crates/remote-exec-broker/src/port_forward/generation.rs:9-35 | Every id in use after any number of calls is the start plus an even number below the 32-bit limit |
| `StreamIds.StreamIdAllocator.TakeNext` | crates/remote-exec-broker/src/port_forward/generation.rs:25-35 | The method computes that step in place |
| `StoreRuns.ReachableOk` | crates/remote-exec-broker/src/port_forward/store.rs:122-203 | In every state reachable by interleaving all store operations: the cached reconnecting count is the recount, public and lifecycle entries have the same keys, pending, public and closing ids are disjoint, every phase is the derived one |
| `StoreRuns.ApplyKeeps` | crates/remote-exec-broker/src/port_forward/store.rs:384-527 | Each single operation keeps that invariant |
| `StoreRuns.RecountPut` | crates/remote-exec-broker/src/port_forward/store.rs:699-721 | Replacing one entry changes the recount exactly as the before-and-after adjustment says |
| `StoreLimits.ReserveAllOrNothing` | crates/remote-exec-broker/src/port_forward/store.rs:122-157 | A batch reservation adds exactly its ids, all fresh, for its side pair and touching no other, if both counts plus the batch stay within the limits, and otherwise nothing |
| `StoreLimits.CountsPlainly` | crates/remote-exec-broker/src/port_forward/store.rs:557-577 | The counts behind the limits are the numbers of public and pending forwards, in all and between two sides |
| `StoreLimits.LimitsHold` | crates/remote-exec-broker/src/port_forward/store.rs:557-572 | Open plus pending forwards stay within the total and the per-pair limit in every run without a restored close |
| `StoreLimits.OthersDoNotGrow` | crates/remote-exec-broker/src/port_forward/store.rs:159-203 | No operation but a reservation or a restore increases either count |
| `StoreLimits.RestoreGrowsExactly` | crates/remote-exec-broker/src/port_forward/store.rs:374-382 | A restore adds exactly the restored forwards, in total and for each side pair, so it leaves the store within both limits if and only if there was room for them |
| `StoreLimits.RestoreOverwritesExactly` | crates/remote-exec-broker/src/port_forward/store.rs:374-382 | When ids of taken records were handed out again, each restored record replaces what was committed under its id meanwhile and every other record stays; pending and public ids are disjoint afterwards if and only if no restored id is pending |
| `StoreReissue.CoreHoldsAnyway` | crates/remote-exec-broker/src/port_forward/store.rs:543-555 | In every run that the checks of the code allow, ids handed out while their record is closing included: the cached count is the recount, both halves of every record are there, every phase is the derived one, pending opens are the guards held |
| `StoreReissue.RestoreReplacesNewForward` | crates/remote-exec-broker/src/port_forward/store.rs:374-382 | Such a run in which a restore replaces a forward committed under the id meanwhile |
| `StoreReissue.RestoreMeetsPending` | crates/remote-exec-broker/src/port_forward/store.rs:374-382 | Such a run that ends with an id both pending and public |
| `StoreLimits.CommitExactly` | crates/remote-exec-broker/src/port_forward/store.rs:159-203 | In every reachable state, committing the record a reservation was made for turns that reservation into that forward and uses no further room, in total or for any side pair; any other record is refused, and the reservation is gone with it |
| `StoreLimits.DroppedGuardReturnsItsSlot` | crates/remote-exec-broker/src/port_forward/store.rs:74-93 | Dropping a reservation gives back exactly its own room, in total and for its side pair |
| `StoreLimits.FailedStays` | crates/remote-exec-broker/src/port_forward/store.rs:915-921 | Failed is absorbing under every store operation, closing and restoring included |
| `StoreUpdates.PhasesAndCount` | crates/remote-exec-broker/src/port_forward/store.rs:923-939 | In every reachable state the phase of a forward is told by the health of its two sides, and the cached count is the number of open forwards whose phase is reconnecting |
| `StoreUpdates.UpdatesExactly` | crates/remote-exec-broker/src/port_forward/store.rs:384-502 | In every reachable state each update of one forward (failed, dropped counts, slots, reconnecting, reopening, ready, generation) changes that forward exactly as its kind says, refusals at the reconnect limit with their message included, and nothing else of the store |
| `StoreUpdates.DrainHandsOutEverything` | crates/remote-exec-broker/src/port_forward/store.rs:504-508 | A drain hands out every public forward with both halves of its record and leaves the store empty but for pending reservations |
| `RequestOrder.UniqueInOrder` | crates/remote-exec-broker/src/port_forward/store.rs:280-288 | The ids that a close acts on are exactly the requested ones, each once, ordered by where they are requested first |
| `RequestOrder.InOrderIsUnique` | crates/remote-exec-broker/src/port_forward/store.rs:280-288 | That order leaves no choice: any sequence with it is the one the loop finds |
| `StoreClose.CloseIsATransaction` | crates/remote-exec-broker/src/port_forward/store.rs:240-246 | For any sequence u of the requested ids ordered by first request, and any first failing close k, amid any legal operations of others between check and take and while the records are being closed: an unknown id changes nothing; if a forward is no longer there at the take, only the records before the first missing one are gone, none unless a drained id was handed out again; otherwise, if all closes succeed, the entries come back in the order of u as closed and the forwards are gone; if the k-th fails, the first k are gone, the k-th is back as failed with the error, the rest is back as taken, and all else is what the others left |
| `StoreClose.RestoredAmidOthers` | crates/remote-exec-broker/src/port_forward/store.rs:343-382 | Putting the rest back is a legal operation whatever others did meanwhile, and undoes exactly what was not closed |
| `StoreClose.CheckedTakeIsAllOrNothing` | crates/remote-exec-broker/src/port_forward/store.rs:273-303 | Ids checked in any reachable state are then taken all, or, after a drain in between, none with the store unchanged, as long as none of them is handed out again in between |
| `StoreClose.CheckedTakeExactly` | crates/remote-exec-broker/src/port_forward/store.rs:273-303 | Without that condition: the take succeeds exactly when every id is still public or public again, and records are lost exactly when the first id is and another is not |
| `StoreWitnesses.ReissuedIdLosesItsRecord` | crates/remote-exec-broker/src/port_forward/store.rs:292-303 | A legal run in which a drained id is handed out again before the take, and its new record is lost |
| `StoreWitnesses.RestorePassesTheLimits` | crates/remote-exec-broker/src/port_forward/store.rs:374-382 | A legal run (reserve, commit, take, reserve, commit, restore) that ends above both limits |
| `StoreRecovery.ConnectRecoveryCycle` | crates/remote-exec-broker/src/port_forward/supervisor/reconnect.rs:107-134 | From any reachable state, amid operations of others on other forwards and on this one's counters: the forward counts as reconnecting from the first mark to the last, and ends as before but for its generation, attempts, time and cleared error |
| `StoreRecovery.ListenRecoveryCycle` | crates/remote-exec-broker/src/port_forward/supervisor/reconnect.rs:188-239 | The same for the listen side with its four marks; the reopening mark is granted even when the limit has been reached meanwhile |
| `StoreRecovery.ReconnectRefusedAtTheLimit` | crates/remote-exec-broker/src/port_forward/store.rs:644-664 | At the limit a healthy forward fails instead, and neither the count nor any other forward changes |
| `StoreRecovery.ReconnectLimitHolds` | crates/remote-exec-broker/src/port_forward/store.rs:644-664 | In every run without a restored close, with forwards committed up and one limit, the forwards reconnecting at one time stay within the limit |
| `StoreObject.PortForwardStore.ReserveOpenBatch` | crates/remote-exec-broker/src/port_forward/store.rs:122-157 | The loop reserves fresh ids for the whole batch or none |
| `StoreObject.PortForwardStore.CommitReservation` | crates/remote-exec-broker/src/port_forward/store.rs:159-203 | Commit of a matching record, or refusal; either way the reservation is used up |
| `StoreObject.PortForwardStore.DropReservation` | crates/remote-exec-broker/src/port_forward/store.rs:78-93 | A dropped guard releases its pending id |
| `StoreObject.PortForwardStore.UnusedForwardId` | crates/remote-exec-broker/src/port_forward/store.rs:543-555 | An id that is neither public nor pending |
| `StoreObject.PortForwardStore.Insert` | crates/remote-exec-broker/src/port_forward/store.rs:579-592 | Both halves are stored and the count adjusted |
| `StoreObject.PortForwardStore.Mutate` | crates/remote-exec-broker/src/port_forward/store.rs:518-527 | One entry is updated, the count adjusted by before and after |
| `StoreObject.PortForwardStore.TryReserveActive` | crates/remote-exec-broker/src/port_forward/store.rs:428-443 | A slot is granted below the limit; a missing entry refuses nothing |
| `StoreObject.PortForwardStore.MarkReconnect` | crates/remote-exec-broker/src/port_forward/store.rs:445-477 | A reconnect is marked, or the entry fails at the limit |
| `StoreObject.PortForwardStore.ValidatedUniqueCloseIds` | crates/remote-exec-broker/src/port_forward/store.rs:273-290 | The requested ids once each, ordered by where they are requested first, or an error for an unknown one |
| `StoreObject.PortForwardStore.Take` | crates/remote-exec-broker/src/port_forward/store.rs:594-614 | Both halves are taken out together, or nothing |
| `StoreObject.PortForwardStore.TakeCandidates` | crates/remote-exec-broker/src/port_forward/store.rs:292-303 | Candidates in order, stopping at the first that is missing |
| `StoreObject.PortForwardStore.RestoreCandidates` | crates/remote-exec-broker/src/port_forward/store.rs:374-382 | Every candidate goes back with both halves |
| `StoreObject.PortForwardStore.CloseTaken` | crates/remote-exec-broker/src/port_forward/store.rs:343-372 | Candidates are closed in order while others act; at the first failure it and the rest are restored |
| `StoreObject.PortForwardStore.CloseForwards` | crates/remote-exec-broker/src/port_forward/store.rs:240-246 | The whole close with others acting wherever it holds no lock, as the transaction function says |
| `StoreObject.PortForwardStore.DrainRecords` | crates/remote-exec-broker/src/port_forward/store.rs:616-642 | Every record is handed out and the store is empty |
| `UdpRuns.AnswersReachThePeer` | crates/remote-exec-broker/src/port_forward/udp_bridge.rs:243-274 | Over every run: each datagram delivered to the listen side answers one datagram of the connect side, with its data, and goes to the one peer for which frames were ever sent on that stream |
| `UdpRuns.StreamServesOnePeer` | crates/remote-exec-broker/src/port_forward/udp_bridge.rs:276-328 | A connector stream is bound once, every frame on it is sent for one peer, and nothing follows its close, through sweeps, removals and re-binding |
| `UdpRuns.BoundBeforeUse` | crates/remote-exec-broker/src/port_forward/udp_bridge.rs:300-327 | Every frame on a connector stream comes after, or is, the bind request of that stream for the same peer |
| `UdpRuns.DatagramsGoOut` | crates/remote-exec-broker/src/port_forward/udp_bridge.rs:140-198 | Every frame sent to the connect side is a bind, a close, or one received datagram with its peer and data; datagrams keep their order and none is sent twice |
| `UdpRuns.AnswersInOrder` | crates/remote-exec-broker/src/port_forward/udp_bridge.rs:243-274 | Answers keep the order of the datagrams they carry and none is sent twice |
| `UdpRuns.TableHolds` | crates/remote-exec-broker/src/port_forward/udp_bridge.rs:276-328 | After every event the two connector maps are inverse and hold at most the allowed number of peers |
| `UdpRuns.DatagramsConserved` | crates/remote-exec-broker/src/port_forward/udp_bridge.rs:140-198 | Each readable datagram of the listen side is relayed or counted as lost, exactly one of the two; the drop counter is its start value plus losses plus reports, up to its maximum |
| `UdpRuns.LostExactlyWhen` | crates/remote-exec-broker/src/port_forward/udp_bridge.rs:140-198 | In every run a datagram is lost exactly when its peer has no connector and cannot get one, or a send is not taken; otherwise it is the last frame sent, with its data, on a stream bound for its peer |
| `UdpRuns.DeliveredExactlyWhen` | crates/remote-exec-broker/src/port_forward/udp_bridge.rs:243-274 | In every run a datagram of the connect side is delivered exactly when its stream is in the table and the listen side takes it, with its data and to the peer for which the stream was bound |
| `UdpRuns.TrafficKeepsThePeer` | crates/remote-exec-broker/src/port_forward/udp_bridge.rs:243-285 | A datagram in either direction, sent on or not, restarts the idle time of its peer, which keeps its stream through any sweep less than a minute later |
| `UdpRuns.SweepKeepsActivePeers` | crates/remote-exec-broker/src/port_forward/udp_bridge.rs:335-342 | In every state of the invariant a sweep keeps exactly the peers used less than a minute ago, with their streams |
| `UdpRuns.RunKeeps` | crates/remote-exec-broker/src/port_forward/udp_bridge.rs:37-86 | The whole UDP invariant over every run |
| `UdpSends.EndedStreamLeaves` | crates/remote-exec-broker/src/port_forward/udp_bridge.rs:221-230 | A stream that the connect side closes or reports an error on leaves the table together with its peer, every other binding stays, and nothing is sent |
| `UdpSends.EndedStreamIsNeverUsedAgain` | crates/remote-exec-broker/src/port_forward/udp_bridge.rs:221-230 | Once the connect side has ended a stream that was bound, no frame goes out on it in the rest of the epoch |
| `UdpSends.TableExactly` | crates/remote-exec-broker/src/port_forward/udp_bridge.rs:140-241 | What each event but a sweep makes of the table: traffic stamps its peer, a new peer is entered under the next id when its bind request is taken, an ended stream leaves, nothing else changes |
| `UdpSends.SweepCloses` | crates/remote-exec-broker/src/port_forward/udp_bridge.rs:335-342 | A sweep tries to close exactly the streams of the peers idle for a minute or more, each once |
| `UdpSends.EventEnds` | crates/remote-exec-broker/src/port_forward/udp_bridge.rs:88-274 | How every event ends for the epoch, by its kind and by how its sends end |
| `UdpSends.DropCountersAddUp` | crates/remote-exec-broker/src/port_forward/udp_bridge.rs:113-124 | In every run the drop counters are what the frames received and the datagrams not relayed add up to, up to their maximum, and nothing else of the entry changes |
| `UdpSends.StreamsAreNumbered` | crates/remote-exec-broker/src/port_forward/udp_bridge.rs:44-44 | In every run the streams are bound under ids that the allocator started at 3 has issued |
| `UdpConnectors.SweepExactly` | crates/remote-exec-broker/src/port_forward/udp_connectors.rs:53-86 | Whatever happened between its passes, a sweep removes exactly the listed bindings that are unchanged and still idle, closes each of their streams once, and leaves all others as they are |
| `UdpConnectors.ScanExactly` | crates/remote-exec-broker/src/port_forward/udp_connectors.rs:58-70 | The first pass lists exactly the idle bindings |
| `UdpConnectors.WholeSweep` | crates/remote-exec-broker/src/port_forward/udp_connectors.rs:53-86 | Uninterrupted, a sweep removes exactly the idle peers |
| `UdpConnectors.UdpConnectorMap.Refresh` | crates/remote-exec-broker/src/port_forward/udp_connectors.rs:24-30 | Refresh of a known peer, and its stream id |
| `UdpConnectors.UdpConnectorMap.Add` | crates/remote-exec-broker/src/port_forward/udp_connectors.rs:32-36 | Both maps gain the binding |
| `UdpConnectors.UdpConnectorMap.RemoveByStreamId` | crates/remote-exec-broker/src/port_forward/udp_connectors.rs:47-51 | Both maps lose it |
| `UdpConnectors.UdpConnectorMap.ListExpired` | crates/remote-exec-broker/src/port_forward/udp_connectors.rs:58-70 | The loop of the first pass |
| `UdpConnectors.UdpConnectorMap.RemoveExpired` | crates/remote-exec-broker/src/port_forward/udp_connectors.rs:72-85 | The loop of the second pass |
| `UdpForward.UdpForwardTask.RunEpoch` | crates/remote-exec-broker/src/port_forward/udp_bridge.rs:37-86 | The event loop computes exactly the run of the transition system |
| `UdpForward.UdpForwardTask.ConnectorStreamId` | crates/remote-exec-broker/src/port_forward/udp_bridge.rs:276-328 | The stream of a peer, bound now if needed, with each way to refuse |
| `UdpForward.UdpForwardTask.HandleListenDatagram` | crates/remote-exec-broker/src/port_forward/udp_bridge.rs:140-198 | A datagram of the listen side |
| `UdpForward.UdpForwardTask.HandleListenFrame` | crates/remote-exec-broker/src/port_forward/udp_bridge.rs:88-138 | All frames of the listen side |
| `UdpForward.UdpForwardTask.HandleConnectDatagram` | crates/remote-exec-broker/src/port_forward/udp_bridge.rs:243-274 | A datagram of the connect side |
| `UdpForward.UdpForwardTask.HandleConnectFrame` | crates/remote-exec-broker/src/port_forward/udp_bridge.rs:200-241 | All frames of the connect side; a close or an error of one stream takes its binding out of the table |
| `UdpForward.UdpForwardTask.SweepIdle` | crates/remote-exec-broker/src/port_forward/udp_bridge.rs:335-342 | A sweep, and the closes it sends |
| `TunnelBudget.BudgetHolds` | crates/remote-exec-broker/src/port_forward/tunnel.rs:399-418 | Under any interleaving of any number of senders and the writer: the counter is the sum of 16 + meta + data over the frames reserved, queued and being written that have data and a stream, plus the bytes lost, and never exceeds the budget |
| `TunnelBudget.ReleaseNeverUnderflows` | crates/remote-exec-broker/src/port_forward/tunnel.rs:420-424 | Whenever bytes are released the counter holds at least as many: the subtraction never wraps |
| `TunnelBudget.ExactWithoutLoss` | crates/remote-exec-broker/src/port_forward/tunnel.rs:90-109 | With no send dropped half-way and no writer stopped, the counter is exactly the bytes of live frames |
| `TunnelBudget.RefusalIsJustified` | crates/remote-exec-broker/src/port_forward/tunnel.rs:146-164 | A send is refused if and only if 16 + meta + data of its frame is above the budget, or above what was left of it at a moment since the send began; frames without data or stream are never refused |
| `TunnelBudget.NeverStuck` | crates/remote-exec-broker/src/port_forward/tunnel.rs:90-109 | From every reachable state some continuation that loses nothing more gives back every byte not lost already |
| `TunnelBudget.StepKeeps` | crates/remote-exec-broker/src/port_forward/tunnel.rs:399-424 | Each atomic step keeps the balance |
| `TunnelBudget.ChargeIsBytes` | crates/remote-exec-proto/src/port_tunnel/codec.rs:92-112 | The charge of a frame is 16 + meta + data, up to the counter's maximum, and nothing without data or on stream 0 |
| `TunnelBudget.WrittenInOrder` | crates/remote-exec-broker/src/port_forward/tunnel.rs:90-109 | Frames are written in the order in which the channel took them, each send's own frame, none twice, and while the writer runs none is left out |
| `TunnelBudget.ChannelHolds128` | crates/remote-exec-broker/src/port_forward/tunnel.rs:74-74 | The channel never holds more than 128 frames, and a send with its reservation can go on exactly while it holds fewer |
| `Utf8Stream.ChunkingDoesNotMatter` | crates/remote-exec-daemon-cpp/include/exec/utf8_stream_decode.h:46-115 | For every byte string and every split into chunks, the concatenated outputs with a final flush equal one flushed decode of the whole, and nothing is carried afterwards |
| `Utf8Stream.DecodeInTwoCalls` | crates/remote-exec-daemon-cpp/include/exec/utf8_stream_decode.h:46-115 | The two-call law: decoding a, then its carry followed by b, is decoding a followed by b |
| `Utf8Stream.FeedIsOneCall` | crates/remote-exec-daemon-cpp/include/exec/utf8_stream_decode.h:46-115 | Any number of unflushed calls is one call |
| `Utf8Stream.OutputIsWellFormed` | crates/remote-exec-daemon-cpp/include/exec/utf8_stream_decode.h:46-115 | The output is always well-formed UTF-8 by section 4 of RFC 3629 |
| `Utf8Stream.WellFormedPassesThrough` | crates/remote-exec-daemon-cpp/include/exec/utf8_stream_decode.h:46-115 | Well-formed input passes unchanged and leaves no carry |
| `Utf8Stream.UnchangedIffWellFormed` | crates/remote-exec-daemon-cpp/include/exec/utf8_stream_decode.h:46-115 | The decoder leaves its input as it is if and only if that is well-formed |
| `Utf8Stream.CompleteIsWellFormed` | crates/remote-exec-daemon-cpp/include/exec/utf8_stream_decode.h:16-44 | The byte tests accept a sequence exactly when the grammar of RFC 3629 does |
| `Utf8Stream.CarryIsUnfinished` | crates/remote-exec-daemon-cpp/include/exec/utf8_stream_decode.h:93-97 | The carry is the end of the input, at most 3 bytes, and empty or a proper prefix of a well-formed sequence |
| `Utf8Stream.DecodeIsRepair` | crates/remote-exec-daemon-cpp/include/exec/utf8_stream_decode.h:46-115 | A flushed decode equals a reference repair defined by the grammar alone |
| `Utf8Stream.FlushCarriesNothing` | crates/remote-exec-daemon-cpp/include/exec/utf8_stream_decode.h:98-101 | A flush leaves no carry |
| `Utf8Stream.StreamDecoder.DecodeChunk` | crates/remote-exec-daemon-cpp/include/exec/utf8_stream_decode.h:46-115 | The nested loops compute the decode of carry and chunk |
| `Utf8Stream.CheckSequence` | crates/remote-exec-daemon-cpp/include/exec/utf8_stream_decode.h:78-92 | The inner loop computes the verdict on one sequence |
| `TimeoutRecovery.CounterIsCapped` | crates/remote-exec-broker/src/daemon_client/client.rs:102-129 | In every run the counter is the number of timeouts counted since the last success or reset of the current generation, capped at 255 |
| `TimeoutRecovery.ResetNeedsTwoTimeouts` | crates/remote-exec-broker/src/daemon_client/client.rs:132-142 | Every reset follows two counted timeouts of the generation it replaces, with no success of it and no reset since the first |
| `TimeoutRecovery.SecondTimeoutRebuilds` | crates/remote-exec-broker/src/daemon_client/client.rs:110-129 | A counted timeout begins a rebuild of the current generation exactly when it is not the first since the last success or reset; the first is only counted; a stale one changes nothing |
| `TimeoutRecovery.FailedBuildChangesNothing` | crates/remote-exec-broker/src/daemon_client/client.rs:131-131 | A client that cannot be built leaves the connection as it is |
| `TimeoutRecovery.SupersededExactlyBySuccess` | crates/remote-exec-broker/src/daemon_client/client.rs:132-142 | A finished build is installed, with the next generation and a cleared counter, unless, and only unless, a request of the current generation succeeded while it was under way |
| `TimeoutRecovery.BuildsForItsGeneration` | crates/remote-exec-broker/src/daemon_client/client.rs:110-142 | The generation cannot change while a client is being built |
| `TimeoutRecovery.OneResetPerGeneration` | crates/remote-exec-broker/src/daemon_client/client.rs:116-139 | Two resets of one generation are at least 2^64 resets apart |
| `TimeoutRecovery.OneResetPerCarriedGeneration` | crates/remote-exec-broker/src/daemon_client/client.rs:110-142 | Two resets that go back to requests carrying the same generation are at least 2^64 resets apart: however many such requests time out, they cause one reset |
| `TimeoutRecovery.GenerationCountsResets` | crates/remote-exec-broker/src/daemon_client/client.rs:138-141 | The generation is the number of resets modulo 2^64 |
| `TimeoutRecovery.ReplacedGenerationIsStale` | crates/remote-exec-broker/src/daemon_client/client.rs:102-121 | Once a generation was replaced, reports of requests that carry it change nothing until the 64-bit number comes round |
| `TimeoutRecovery.DaemonConnection.ReportSuccess` | crates/remote-exec-broker/src/daemon_client/client.rs:102-108 | A success of the current generation clears the counter |
| `TimeoutRecovery.DaemonConnection.BeginRecovery` | crates/remote-exec-broker/src/daemon_client/client.rs:114-129 | The first critical section |
| `TimeoutRecovery.DaemonConnection.FinishRecovery` | crates/remote-exec-broker/src/daemon_client/client.rs:132-142 | The second critical section |
| `LanePool.LanesAreCurrent` | crates/remote-exec-broker/src/reverse_transport.rs:62-134 | After every step queued lanes, and so each lane handed out, belong to the active instance, which is not retired; retired ids are distinct and at most 64 |
| `LanePool.InsertExactly` | crates/remote-exec-broker/src/reverse_transport.rs:62-103 | A lane is refused without change exactly when its instance is among the last 64 replaced; otherwise it is queued last, behind the lanes of its instance, or alone if its instance is new, whose predecessor and dropped lanes are reported |
| `LanePool.RefusedExactly` | crates/remote-exec-broker/src/reverse_transport.rs:67-73 | A lane is refused for its instance exactly when that is among the last 64 replaced, so an instance is refused until 64 others were replaced after it |
| `LanePool.FirstInFirstOut` | crates/remote-exec-broker/src/reverse_transport.rs:112-134 | A lane is handed out whenever one is queued, in the order they were accepted, each once, and every accepted lane is handed out, dropped or still queued |
| `LanePool.ClosedForEver` | crates/remote-exec-broker/src/reverse_transport.rs:112-139 | A request waits only on an empty pool, and fails there exactly when the pool was closed at some earlier step |
| `LanePool.ResetDropsQueued` | crates/remote-exec-broker/src/reverse_transport.rs:105-110 | A reset drops exactly the queued lanes and nothing else |
| `LanePool.ReplacedExactly` | crates/remote-exec-broker/src/reverse_transport.rs:74-93 | The record of replaced instances grows exactly when one gives way to another, by the one that gave way |
| `LanePool.PoolHolds` | crates/remote-exec-broker/src/reverse_transport.rs:62-134 | The pool invariant over every run |
| `LanePool.LanePoolState.InsertLane` | crates/remote-exec-broker/src/reverse_transport.rs:62-103 | Insert, with its refusals and replacement |
| `LanePool.LanePoolState.TakeLane` | crates/remote-exec-broker/src/reverse_transport.rs:112-134 | One turn of the waiting loop |
| `LanePool.LanePoolState.ResetIdleConnections` | crates/remote-exec-broker/src/reverse_transport.rs:105-110 | All queued lanes are dropped and counted |
| `LanePool.LanePoolState.ClosePool` | crates/remote-exec-broker/src/reverse_transport.rs:136-139 | Closing sets the flag and leaves queued lanes to be taken |
| `CivilDate.CivilDateStep` | crates/remote-exec-broker/build.rs:53-65 | For every day number, before the epoch too, the date is valid and the next day number has the Gregorian successor date (leap rule of Appendix C of RFC 3339) |
| `CivilDate.EpochDay` | crates/remote-exec-broker/build.rs:53-65 | Day 0 is 1970-01-01 |
| `CivilDate.OrderPreserved` | crates/remote-exec-broker/build.rs:53-65 | Later days have later dates |
| `CivilDate.Injective` | crates/remote-exec-broker/build.rs:53-65 | No two days share a date |
| `CivilDate.EveryDateIsReached` | crates/remote-exec-broker/build.rs:53-65 | Every valid Gregorian date is the date of exactly one day number, given by an inverse formula |
| `PathPolicy.Idempotent` | crates/remote-exec-proto/src/path.rs:32-38 | Normalising twice is normalising once, for every string and both styles |
| `PathPolicy.NormalExactly` | crates/remote-exec-proto/src/path.rs:32-38 | A Windows path is a fixed point exactly when it has no forward slash, and every result is one |
| `PathPolicy.AbsoluteExactly` | crates/remote-exec-proto/src/path.rs:16-38 | Normalising keeps absoluteness, and makes a relative path absolute exactly when it begins with two separators that are not both the same |
| `PathPolicy.MixedSeparatorsBecomeAbsolute` | crates/remote-exec-proto/src/path.rs:16-38 | A concrete path that is relative before and absolute after |
| `PathReadings.DriveSpellingsAgree` | crates/remote-exec-proto/src/path.rs:111-169 | The native, slash and cygdrive spellings of a place on a drive, in any case of the letters, have one normal form |
| `PathReadings.SlashDriveExactly` | crates/remote-exec-proto/src/path.rs:136-169 | A drive spelled with slashes becomes its letter in upper case, a colon and one backslash, then the rest without leading separators and with backslashes for slashes |
| `PathReadings.OthersKeepTheirText` | crates/remote-exec-proto/src/path.rs:171-185 | Every other Windows path only has its slashes replaced |
| `PathReadings.AbsoluteMeans` | crates/remote-exec-proto/src/path.rs:16-30 | A Windows path is absolute exactly when it begins with a drive and a separator, a doubled separator, or a drive spelled with slashes |
| `PathReadings.PosixIsPlain` | crates/remote-exec-proto/src/path.rs:16-34 | POSIX paths are taken as they are, and are absolute exactly when they begin with a slash |
| `PathReadings.JoinExactly` | crates/remote-exec-proto/src/path.rs:56-77 | A join is the child alone, or the normalised base, one separator if it does not end with one, and the normalised child |
| `PathReadings.PosixBasename` | crates/remote-exec-proto/src/path.rs:44-51 | The base name of a POSIX path is its last segment, if it has one |
| `PathReadings.WindowsBasename` | crates/remote-exec-proto/src/path.rs:187-205 | The base name of a Windows path is the last segment after a drive or UNC prefix, else the drive letter, else nothing |
| `PathPolicy.JoinIsNormal` | crates/remote-exec-proto/src/path.rs:56-77 | A join is already in normal form |
| `PathPolicy.JoinAbsoluteExactly` | crates/remote-exec-proto/src/path.rs:56-77 | Exactly when a join is absolute, for both styles and all inputs |
| `PathPolicy.JoinStaysAbsolute` | crates/remote-exec-proto/src/path.rs:56-77 | An absolute base and a non-empty child give an absolute path |
| `PathPolicy.BasenameIsAName` | crates/remote-exec-proto/src/path.rs:44-54 | A base name is non-empty and free of separators |
| `PathPolicy.LastSegmentFound` | crates/remote-exec-proto/src/path.rs:47-51 | The search finds the segment between the trailing separators and the one before them, and nothing exactly when there are only separators |
| `PathPolicy.WindowsName` | crates/remote-exec-proto/src/path.rs:187-205 | On Windows the name is the last segment after the prefix, else the drive letter, else nothing |
| `PathPolicy.DriveRelativeChildIsRenamed` | crates/remote-exec-proto/src/path.rs:44-77 | A concrete base and child whose join has another name than the child |
| `PathPolicy.BasenameOfJoin` | crates/remote-exec-proto/src/path.rs:44-77 | The name of a join is the name of its child if and only if the child is not a drive-relative path named right after its colon below a non-empty base |

## Left out

- Sockets, TLS, HTTP, the MCP server, the command line, logging, configuration and certificates: input and output around the modelled logic.
- Reconnect timing, heartbeats, wake-ups and cancellation points of the async runtime: an event simply arrives; only a send or a build that is dropped half-way is modelled.
- Opening a forward and re-establishing tunnels (the supervisor): an epoch starts with both tunnels up; of a recovery only its marks in the store are modelled.
- The active-stream count across epochs and before an entry is committed: what an epoch leaves reserved is exact, but nothing is stated about several epochs in a row.
- The binary frame format and its codec: a frame is its type, flags, stream id, meta and data; how meta blocks decode is given by the environment.
- Closing all forwards of one daemon instance, listing and filtering, and the join handles, cancellation tokens and tunnels inside a record: a life cycle is an opaque token, and whether stopping it succeeds is a parameter.
- Entry fields that no modelled operation reads (endpoints, protocol, limits summary).
- Randomness of forward ids: ids are numbers, and the generator may return any number that is free.
- The byte-budget loop of the tunnel as a method: its steps interleave with other senders and it need not terminate, so it is a step relation over values; memory orderings of the atomics are taken as sequentially consistent.
- The flag that remembers a target as unhealthy, retries of requests, and what callers do with a recovery outcome.
- Fairness among waiting takers of the lane pool, their timeout and its notification: one turn of the loop is modelled.
- CivilDate.CivilDateStep: does not model overflow of 64-bit day numbers, because dates that far away are outside any build.
- Encoding of paths: characters stand for the bytes that the source inspects, all of which are ASCII; `normalize_relative_path` is test code.
- Sandbox rules, text-file encodings, the patch engine, sessions, search and the remaining C++ daemon: they rest on the file system, on libraries or on simple tables.
