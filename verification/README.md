# A verified model of the SIP exporter's media pipeline

The exporter watches SIP signalling and RTP media on network interfaces and turns them into quality metrics.  This
project models the parts of it in which redundant state has to agree across many functions, and proves that it does:

- the queue that admits packets from the ring buffers of the network interfaces, and the blocks its runs borrow;
- the index of media endpoints by call, and the reference counts that mirror it into kernel maps;
- the life of dialogs and INVITE transactions, and how they hold on to media;
- sequence accounting, RTCP parsing and INVITE-burst detection, each against an independent reference.

## How the project is laid out

| files | what they hold |
|---|---|
| `Admission.dfy`, `AdmissionProof.dfy`, `AdmissionCalls.dfy`, `AdmissionProgress.dfy` | the admission queue as a state machine whose steps are single locks, loads, compare-and-swaps, adds, sends and receives; its invariants; safety over every interleaving; what each call comes to; and a measure by which every schedule comes to rest |
| `FrameRuns.dfy` | the packet count and the runs charged to it, as objects of one goroutine |
| `BlockRefs.dfy`, `Borrowing.dfy` | the reference count of a ring block under races; the reader's table of borrowed blocks, and blocks going round between kernel, reader and releasers |
| `RingWalk.dfy`, `BlockRuns.dfy`, `RingLayout.dfy` | decoding a block and walking its frames in shared memory; cutting a block into runs of one class; and how blocks are laid out, which decoding and walking inverts |
| `Ownership.dfy`, `ClaimLoops.dfy`, `Tracking.dfy`, `TrackerOps.dfy`, `Tracker.dfy`, `TrackerRuns.dfy` | the media tracker: ownership of endpoints, the state and its invariant, its operations as functions, the class that updates its maps in place, and runs of its operations |
| `EndpointRefs.dfy`, `MediaLifecycle.dfy` | reference counts, dirty log and failing kernel maps; and tracker, counts and alias labels changed together |
| `Transactions.dfy`, `Dialogs.dfy`, `Lifecycle.dfy`, `DialogRuns.dfy`, `CallLifecycle.dfy` | INVITE transactions and tombstones; dialog identifiers and the dialog table; calls over whole runs; how long dialogs last and which media answers register; and the handlers over shared tables |
| `Basics.dfy` | types the others share |
| `Stream.dfy`, `Rtcp.dfy`, `Burst.dfy` | 16-bit sequence accounting, the RTCP parser, the truncated sliding window |

Code that changes state is a class or a method with loops, tied by its `ensures` to a function; what the code is for is
proved of the functions, over runs where it concerns runs.  The invariant of the tracker (`Tracking.Ok`) says: the
claims of a call and the owners of an endpoint are the same relation, without duplicates; the order list of a call
enumerates its endpoints; an endpoint has labels exactly if it has owners, and they are those of one of them; the same
for RTCP endpoints; an alias belongs to one call and one of its first two endpoints, has that peer's address and
another port, and is no media endpoint; the SSRC index lists each stream once; every stream belongs to a call that owns
media.  `TrackerOps.View` abstracts all this to three sets of (call, endpoint) pairs, and every operation is
characterised by its effect on them.

## Assumptions

- Atomics are sequentially consistent; a mutex section is either stepped through (admission queue, block references)
  or one operation (everything else, which the program runs under one lock or in one goroutine).  The sweep of expired
  dialogs is one step of a run; packets that need no dialog lock may come between its own steps, and
  `Lifecycle.SweepInStepsCovered` shows that they do not change what it comes to.
- The admission queue is offered SIP runs as `enqueueRun` cuts them, none larger than the capacity
  (`BlockRuns.PiecesPartition`), and no empty runs (`BlockRuns.OfferedIsTheBlock`).
- The clock does not run backwards.  Where a dialog must be swept later than it was created this is a stated
  condition, not an assumption.
- Endpoints are canonical IPv4 addresses and ports, and the kernel map does not evict entries.  A kernel-map write may
  fail in any map at any time, with or without taking effect.
- Integers whose width matters are written out: 16-bit sequence numbers, the 32-bit frame offset and block counter,
  signed 24-bit loss, the 64-bit product that turns Session-Expires into nanoseconds.  Tickets and counters of 64 bits are unbounded.

## What the proofs turned up

- A dialog identifier is injective only for tags without a colon (`Dialogs.ColonTagsCollide`).  Of two calls that share
  one, the second owns media without a dialog once it is answered (`Lifecycle.SharedIdUncovers`) or re-INVITEd
  (`Lifecycle.SharedReinviteUncovers`), and its BYE takes the dialog of the first away
  (`Lifecycle.SharedByeUncovers`).
- Session-Expires is read with a sign and multiplied in 64 bits, so that it names a negative time below zero and again
  from 9223372037 seconds on.  A dialog with such a time, swept in the instant of its creation, is deleted without being
  reported, and its media stay registered (`Lifecycle.NegativeExpiryUncovers`).  `Lifecycle.SweepLosesExactly` says
  exactly when a sweep can do this.
- What each step has to meet for every owner to keep a dialog is stated exactly, answer by answer, BYE by BYE and sweep
  by sweep, and for whole runs (`Lifecycle.EveryOwnerHasADialog`).
- The packet that restarts a stream is reported as none of counted, duplicate and reordered
  (`Stream.OneVerdictPerPacket`).
- The tracker's own comment calls a stream active while RTP or RTCP is seen within the TTL.  The code counts only packets
  that are audio and move the stream forward, open it or restart it: a stream of comfort noise or telephone events
  alone is swept while its packets still come (`TrackerRuns.ComfortNoiseIsSwept`).  `TrackerRuns.SweepKeepsExactly`
  says exactly which streams a sweep keeps.
- The 32-bit block counter keeps ring order only if the number of blocks divides 2^32 (`RingWalk.RingOrder`); the eight
  blocks of the default geometry do.
- With capacity zero a SIP call waits until the queue is stopped (`AdmissionProof.ZeroCapacityWaits`); `AdmissionProof.NoDeadlock` and
  `AdmissionProgress.EveryCallReturns` therefore ask for a positive capacity.

## Model

| member | source | states |
|---|---|---|
| `AdmissionProof.InvStep` | internal/exporter/packet_ring.go:447-552 | every atomic step of every reader, the consumer and the closer keeps the invariants the results below rest on: lock, count, pending, stop, tickets, wakeups, blocks, flow |
| `AdmissionProof.NoLostWakeup` | internal/exporter/packet_ring.go:447-526 | in every interleaving, a SIP call that waits on the current channel although it is first and fits (or the queue is stopped) has a waker on the way, and a releaser on that way finds pendingSIP non-zero |
| `AdmissionProof.SendNeverBlocks` | internal/exporter/packet_ring.go:447-506 | the channel send made under the admission lock can always be taken at once: fewer runs than slots, fewer runs than counted packets, count at most the capacity |
| `AdmissionProof.EmptyQueueServesHead` | internal/exporter/packet_ring.go:447-477 | with capacity, an open lock, an empty channel and an idle consumer, the SIP call that is first in line can take its next step |
| `AdmissionProof.NoDeadlock` | internal/exporter/packet_ring.go:447-535 | while any call is inside the queue, some step other than a new call is possible |
| `AdmissionProof.SipInOrder` | internal/exporter/packet_ring.go:447-483 | SIP runs are published in ticket order; a call that returns true has published its run, one that returns false has seen the queue stopped |
| `AdmissionProof.RtpYields` | internal/exporter/packet_ring.go:485-506 | RTP reserves only in states in which no SIP call is registered |
| `AdmissionProof.RtpConserved` | internal/exporter/packet_ring.go:485-506 | offered frames of an RTP run = published frames + drop callbacks |
| `AdmissionProof.NothingAfterStop` | internal/exporter/packet_ring.go:528-535 | after stop has marked the queue no run is ever published |
| `AdmissionProof.ShutdownDrains` | internal/exporter/exporter.go:791-819 | when the consumer has returned the channel is empty, every published run has been released, no packet is counted, and each block that no reader is inside has been given back exactly once |
| `AdmissionProof.ZeroCapacityWaits` | internal/exporter/packet_ring.go:447-477 | at capacity zero no SIP run is published, and a call with a ticket keeps it until the queue is stopped |
| `AdmissionProof.FreedStaysFreed` | internal/exporter/packet_ring.go:288-325 | a block whose release function has run is never borrowed again |
| `AdmissionProgress.InternalCloser` | internal/exporter/packet_ring.go:447-552 | every step under way brings the queue closer to rest: a retried compare-and-swap or a repeated wait is paid for by a change someone else made once |
| `AdmissionProgress.EveryCallReturns` | internal/exporter/packet_ring.go:447-552 | from any reachable state, however the steps under way are scheduled, and without new calls, every enqueue call returns if the queue has any capacity |
| `AdmissionCalls.RtpGetsTheRoom` | internal/exporter/packet_ring.go:331-506 | over every interleaving: at one moment of an RTP call it gets its share, nothing beside a registered SIP call and else all that fits of its packets; it sends that share as one run and reports the rest dropped; only a call that finds the queue stopped offers nothing |
| `AdmissionCalls.RtpDropsForCause` | internal/exporter/packet_ring.go:331-506 | so a call drops a packet only if in some state of the call a SIP call was registered or the queue was full |
| `AdmissionCalls.SipSendsAllOrNothing` | internal/exporter/packet_ring.go:447-477 | a SIP call that returns true has sent its whole run, once; one that returns false has sent nothing and the queue is stopped |
| `FrameRuns.Accounting.Reserve` | internal/exporter/packet_ring.go:331-344 | takes as many packets as there is room for, fewer than asked only if that fills the queue |
| `FrameRuns.Accounting.ReserveAll` | internal/exporter/packet_ring.go:346-356 | takes all packets if and only if they fit |
| `FrameRuns.FrameRun.DequeueFrame` | internal/exporter/packet_ring.go:546-552 | one packet leaves the count for one frame, and none for a run that is released or used up |
| `FrameRuns.FrameRun.Release` | internal/exporter/packet_ring.go:537-544 | however often it is called, what is still charged leaves the count once and the block reference goes once |
| `FrameRuns.FrameRun.Process` | internal/exporter/exporter.go:821-834 | the whole of the run leaves the count, however many of its frames were handled |
| `FrameRuns.Drain` | internal/exporter/exporter.go:810-819 | every run left is released once and nothing stays charged for any of them |
| `BlockRefs.ReleasedAtMostOnce` | internal/exporter/packet_ring.go:321-325 | over every interleaving of retain and release, the release function runs at most once, and then nobody holds a reference |
| `BlockRefs.ReleasedExactlyWhenLetGo` | internal/exporter/packet_ring.go:314-325 | once all threads rest it has run exactly if every reference has let go |
| `BlockRefs.NeverRevived` | internal/exporter/packet_ring.go:294-312 | a count that reached zero stays zero and no reference is made any more, whatever retain races with it |
| `BlockRefs.RetainThroughLive` | internal/exporter/packet_ring.go:294-312 | retaining through a reference that has not let go never returns nil |
| `BlockRefs.LiveMeansHeld` | internal/exporter/packet_ring.go:288-325 | while any reference is live the block has not been given back |
| `BlockRefs.NothingThroughLetGo` | internal/exporter/packet_ring.go:294-312 | once a reference has let go no retain through it makes another, not even one that had begun before |
| `Borrowing.BorrowedBlocks.Track` | internal/exporter/packet_ring.go:261-266 | the table marks the block; the count is the number of marks |
| `Borrowing.BorrowedBlocks.WaitUntilReusable` | internal/exporter/packet_ring.go:268-286 | takes notifications until the block is free and no more; fails only with all of them taken; unmarks exactly the blocks announced |
| `Borrowing.NeverReadsBorrowed` | internal/exporter/exporter.go:893-926 | the reader never reads the status of a borrowed block, and the kernel cannot write to the block it is using; that the block is not given back meanwhile is a guard of the model, justified by BlockRefs.LiveMeansHeld for the reference the reader itself still holds |
| `Borrowing.SendNeverBlocks` | internal/exporter/packet_ring.go:247-259 | sending a release notification never blocks: those pending are distinct blocks |
| `Borrowing.WaitsForSomething` | internal/exporter/exporter.go:893-926 | the reader never waits for a notification that cannot come |
| `Borrowing.AllReturned` | internal/exporter/exporter.go:864-891 | with nothing out, being sent or announced, nothing is marked borrowed |
| `RingWalk.Decode` | internal/exporter/packet_ring.go:174-205 | each outcome, and each of the four errors, if and only if its own cause holds; a ready block is the right slice of the ring, in user hands, with room for the headers of all its frames |
| `RingWalk.DecodeBlock` | internal/exporter/packet_ring.go:174-205 | the checks in the order of the program come to that |
| `RingWalk.RingOrder` | internal/exporter/exporter.go:864-891 | the 32-bit block counter visits the ring in order for ever if and only if the number of blocks divides 2^32 |
| `RingWalk.FrameIterator.Next` | internal/exporter/packet_ring.go:554-595 | returns the next frame, the end, or an error that exhausts it; the 32-bit offset never wraps |
| `RingWalk.WalkIsSafe` | internal/exporter/packet_ring.go:554-590 | over any bytes: at most packetCount frames, all inside the block, increasing |
| `RingWalk.OrderedDisjoint` | internal/exporter/packet_ring.go:554-590 | of any two frames the earlier ends before the header of the later |
| `RingLayout.WalkReadsBack` | internal/exporter/packet_ring.go:554-590 | walking frames that were laid out, with any header filler, leads and gaps, returns them: payload, time and packet type of each, in order |
| `RingLayout.WalkReadsOnlyLayouts` | internal/exporter/packet_ring.go:554-590 | conversely, the bytes of any walk without an error are the layout of the frames it returned |
| `RingLayout.DecodeReadsBack` | internal/exporter/packet_ring.go:174-205 | a block that was laid out and handed over is decoded, and walking it returns exactly its frames |
| `RingLayout.AnyFramesReadBack` | internal/exporter/packet_ring.go:174-205 | for any frames such a block exists, and they are what is read from it |
| `BlockRuns.IsSIPPacket` | internal/exporter/exporter.go:937-961 | in range on any bytes; true if a port is a SIP port or the headers cannot be made out |
| `BlockRuns.SipByEitherPort` | internal/exporter/exporter.go:937-961 | a UDP packet put together from addresses, a VLAN tag or none, an IP header of any length and ports counts as SIP if and only if its source or destination port is a SIP port |
| `BlockRuns.UnreadableIsSip` | internal/exporter/exporter.go:937-961 | a packet too short for its headers, or with an IP header of fewer than five words, counts as SIP |
| `BlockRuns.RestIsTheWalk` | internal/exporter/packet_ring.go:389-425 | the frames enqueueBlock sees are those of the walk, and it sees an error exactly if the walk does |
| `BlockRuns.RunsOfBlock` | internal/exporter/packet_ring.go:389-425 | the runs are the frames of the block in order, cut exactly where the class changes |
| `BlockRuns.PiecesPartition` | internal/exporter/packet_ring.go:427-445 | the pieces of a run are the run, none is empty, each SIP piece fits the queue, and only a SIP run is cut, into pieces of which all but the last fill the queue |
| `BlockRuns.OfferedIsTheBlock` | internal/exporter/packet_ring.go:389-445 | what is offered for a block concatenates to its frames, in pieces the queue can hold |
| `BlockRuns.RunQueue.EnqueueRun` | internal/exporter/packet_ring.go:427-445 | offers the pieces in order until the queue is stopped |
| `BlockRuns.RunQueue.EnqueueBlock` | internal/exporter/packet_ring.go:389-425 | offers the runs of the readable frames in order until the queue is stopped, and tells an error if it was not |
| `Ownership.ClaimKeeps` | internal/mediatracker/tracker.go:225-238 | claiming an endpoint keeps claims, owner lists and current claims in agreement |
| `Ownership.RemoveKeeps` | internal/mediatracker/tracker.go:314-325 | a call letting go of everything keeps them in agreement; the youngest remaining owner speaks for an endpoint |
| `Ownership.OwnersCount` | internal/mediatracker/tracker.go:241-264 | the length of an owner list is the number of calls claiming the endpoint |
| `Ownership.NewestSpeaks` | internal/mediatracker/tracker.go:314-325 | the newest claim of an endpoint speaks for it when it is made, and still after any other call has let go of everything |
| `ClaimLoops.RemoveOwner` | internal/mediatracker/tracker.go:359-366 | removes the first occurrence of the call, and nothing else |
| `ClaimLoops.TurnsAreAfter` | internal/mediatracker/tracker.go:314-325 | in whatever order the map is walked, the removal loop ends in the same owners and current claims |
| `ClaimLoops.RemoveClaims` | internal/mediatracker/tracker.go:314-325 | the loop takes the call off all its endpoints and lists each once |
| `Tracking.IxOneMore` | internal/mediatracker/tracker.go:634-646 | removing streams from the SSRC index one by one removes exactly them |
| `Tracking.AtMostTwoAliases` | internal/mediatracker/tracker.go:386-418 | a call has at most two aliases |
| `Tracking.AliasAtMostOnce` | internal/mediatracker/tracker.go:386-418 | an alias belongs to one call only |
| `TrackerOps.RegisterKeeps` | internal/mediatracker/tracker.go:198-237 | keeps the index invariant; the call owns the endpoint, and whoever had it as an alias has lost it |
| `TrackerOps.RegisterRtcpKeeps` | internal/mediatracker/tracker.go:241-264 | keeps the index invariant; the call owns the RTCP endpoint |
| `TrackerOps.RegisterDropsStreams` | internal/mediatracker/tracker.go:205-220 | with a displaced alias go exactly the streams its call has had at the endpoint |
| `TrackerOps.RemoveCallKeeps` | internal/mediatracker/tracker.go:313-357 | keeps the index invariant; exactly the claims, aliases and streams of the call are gone |
| `TrackerOps.LearnKeeps` | internal/mediatracker/tracker.go:386-418 | keeps the index invariant; exactly one alias nobody had is added |
| `TrackerOps.ObserveKeeps` | internal/mediatracker/tracker.go:492-564 | keeps the index invariant; the packet is attributed to a call that owns media, and ownership changes by the learned alias only |
| `TrackerOps.LearnsExactly` | internal/mediatracker/tracker.go:386-423 | an alias is learned if and only if the call has exactly two endpoints, alone owns the one reached, and the source has the address of the other and another port, with neither taken |
| `TrackerOps.LearnedIsThePeer` | internal/mediatracker/tracker.go:386-418 | it stands for the other side: packets to it are of the call, under the labels of that side |
| `TrackerOps.RegisteredIsMatched` | internal/mediatracker/tracker.go:441-457 | a packet to an endpoint a call has registered is of that call under the registered labels, wherever it comes from; one from there is, if nobody is known at its destination |
| `TrackerOps.ObserveCounts` | internal/mediatracker/tracker.go:492-564 | the packet changes its own stream only; a new stream has the labels of the match, the codec named in the description and its clock rate or 8000; telephone events and comfort noise are not audio |
| `TrackerOps.VerdictByDistance` | internal/mediatracker/tracker.go:511-545 | what is told of a packet by its distance d to the highest number: duplicate at 0, counted with d - 1 lost up to 1000, a fresh start up to 32767, reordered beyond |
| `TrackerOps.CleanupKeeps` | internal/mediatracker/tracker.go:617-631 | keeps the index invariant and all ownership |
| `TrackerOps.OnlyOneStream` | internal/mediatracker/tracker.go:747-776 | the index lists one stream for an SSRC if and only if there is one |
| `TrackerOps.LossTelescopes` | internal/mediatracker/tracker.go:710-739 | over reports that do not go back, the loss deltas add up to the growth since the baseline |
| `TrackerOps.DeltaOfReport` | internal/mediatracker/tracker.go:710-739 | after any reports: the first adds nothing, a negative one adds nothing, any other the growth since the last one that was not negative (or the first), or all of it if it has gone back |
| `TrackerOps.LossSinceTheFirst` | internal/mediatracker/tracker.go:710-739 | over reports that do not go back, from the first of a stream on, the deltas add up to last - first |
| `TrackerOps.RtcpFindsItsStream` | internal/mediatracker/tracker.go:241-776 | a report to a declared RTCP endpoint is recorded at the stream of the media endpoint it was declared with; so is one from there, if there is no stream at its destination |
| `TrackerClass.Tracker.RegisterEndpoint` | internal/mediatracker/tracker.go:198-237 | updates every map; reports whether the call newly owns the endpoint and whose alias it displaced; exactly the streams of that alias go |
| `TrackerClass.Tracker.RegisterRTCP` | internal/mediatracker/tracker.go:241-264 | updates the RTCP maps as the operation says |
| `TrackerClass.Tracker.Unregister` | internal/mediatracker/tracker.go:270-285 | removes the call, lists exactly its holdings, and summarises its RTP activity |
| `TrackerClass.Tracker.Replace` | internal/mediatracker/tracker.go:289-293 | removes the call but for its RTP-observed mark, and lists exactly its holdings |
| `TrackerClass.Tracker.OwnedEndpoints` | internal/mediatracker/tracker.go:296-311 | lists exactly what the call holds, each endpoint as often as it is held |
| `TrackerClass.Tracker.RemoveCallMedia` | internal/mediatracker/tracker.go:313-357 | removes everything of the call and lists it |
| `TrackerClass.Tracker.LearnSourceAlias` | internal/mediatracker/tracker.go:386-423 | learns exactly under the stated conditions, and otherwise changes nothing |
| `TrackerClass.Tracker.ObserveIPv4` | internal/mediatracker/tracker.go:492-564 | matched by its destination among media, then among aliases, and only then by its source in the same order; uncorrelated only if neither is known; opens the stream, counts the packet in it and in no other, and learns an alias; the report matches |
| `TrackerClass.Tracker.CleanupIdle` | internal/mediatracker/tracker.go:617-631 | removes exactly the streams idle for longer than the TTL |
| `TrackerClass.Tracker.RemoveSSRCIndex` | internal/mediatracker/tracker.go:634-646 | removes the key from its list, and the list with its last key |
| `TrackerClass.Tracker.SelectStream` | internal/mediatracker/tracker.go:747-776 | the stream at the RTCP-mapped destination, else at the source, else the only one of the SSRC, else none: what a scan of all streams finds |
| `TrackerClass.Tracker.RecordRTCP` | internal/mediatracker/tracker.go:710-739 | records at the stream a flat scan finds and returns its loss since the last report |
| `TrackerRuns.RunsAreOk` | internal/mediatracker/tracker.go:187-614 | over every run of operations the index invariant holds |
| `TrackerRuns.SweepKeepsExactly` | internal/mediatracker/tracker.go:617-631 | over every run: a sweep keeps a stream if and only if the latest packet that opened or restarted it or was audio and moved it forward, or the latest report on it since it was opened, was handled no longer than the TTL ago |
| `TrackerRuns.SweepSparesActive` | internal/mediatracker/tracker.go:617-631 | where time does not run backwards, any such packet or report keeps the stream through every sweep up to the TTL later |
| `TrackerRuns.ComfortNoiseIsSwept` | internal/mediatracker/tracker.go:617-631 | a stream that carries comfort noise within the TTL, and nothing else, is swept all the same |
| `TrackerRuns.SummaryTells` | internal/mediatracker/tracker.go:270-285 | over every run: media are expected if the call owns an endpoint; RTP was observed if a packet has opened a stream of the call since it was last unregistered; one-way if it owns two endpoints or more and packets have opened streams at exactly one since its media were last replaced |
| `EndpointRefs.EndpointMap.Retain` | internal/exporter/exporter.go:2380-2396 | counts one more; writes to the kernel exactly for the first reference; the dirty log stays right |
| `EndpointRefs.EndpointMap.Release` | internal/exporter/exporter.go:2451-2468 | counts one less; writes to the kernel exactly when the last reference goes |
| `EndpointRefs.EndpointMap.SetPresence` | internal/exporter/exporter.go:2470-2492 | after any pattern of failing writes, the key is dirty exactly if some map failed, with the presence it should have |
| `EndpointRefs.EndpointMap.Reconcile` | internal/exporter/exporter.go:2494-2500 | keeps the log right under any failures; without one it makes every map the set of referenced keys and empties the log |
| `EndpointRefs.SameKeysNoFlips` | internal/exporter/exporter.go:2380-2468 | where the referenced keys stay the same, nothing was written |
| `MediaLifecycle.ResolveRtcp` | internal/exporter/exporter.go:2347-2363 | none exactly under rtcp-mux without a declared port or at the last port; a declared port wins even then, at the declared address if there is one; else the port after the media port |
| `MediaLifecycle.LinesLabel` | internal/exporter/exporter.go:2305-2341 | of several lines registered in turn, the last at an endpoint labels it with its own codecs and clock rates |
| `MediaLifecycle.LinesLink` | internal/exporter/exporter.go:2305-2341 | and links its RTCP endpoint to its own media endpoint |
| `MediaLifecycle.HoldingsCount` | internal/mediatracker/tracker.go:296-357 | what a call holds is exactly what its removal takes off the owner counts |
| `MediaLifecycle.BalanceMedia` | internal/exporter/exporter.go:2311-2325 | adding, retaining and displacing keep counts equal to ownership |
| `MediaLifecycle.CountsDetermined` | internal/exporter/exporter.go:2380-2468 | equal ownership has equal counts |
| `MediaLifecycle.ReplaceOrAnew` | internal/exporter/exporter.go:2400-2428 | replacing a revision, and unregistering and then registering anew, end in the same ownership and the same counts, whatever the kernel maps answer |
| `MediaLifecycle.ReferencedIffOwned` | internal/exporter/exporter.go:2380-2468 | an endpoint is referenced if and only if some call owns it as media, RTCP endpoint or alias |
| `MediaLifecycle.RegisterAgain` | internal/exporter/exporter.go:2305-2341 | registering the same description again changes nobody's ownership, which MediaIndex.RegisterMediaEndpoints turns into: no count and no kernel write |
| `MediaLifecycle.SameRevision` | internal/exporter/exporter.go:2414-2428 | a revision that repeats the description in force changes nobody's ownership, which MediaIndex.ReplaceMediaRevision turns into: no count and no kernel write |
| `MediaLifecycle.MediaIndex.RegisterMediaEndpoints` | internal/exporter/exporter.go:2305-2341 | references, labels and index agree afterwards; the call owns exactly the described endpoints in addition; the kernel sees only first references, and nothing if ownership stays the same; labels and RTCP links are those of the lines in turn; tells the endpoints and whether any carries SRTP |
| `MediaLifecycle.MediaIndex.UnregisterMedia` | internal/exporter/exporter.go:2400-2412 | they agree afterwards; the call owns nothing; the kernel sees only last references going; returns the summary of the call and the labels of its aliases, each once |
| `MediaLifecycle.MediaIndex.ReplaceMediaRevision` | internal/exporter/exporter.go:2414-2428 | they agree afterwards; the call owns the new revision instead of the old; the kernel sees exactly first references and last ones going, and so no endpoint referenced before and after, and nothing if ownership stays the same; each endpoint is labelled by its last line |
| `MediaLifecycle.MediaIndex.ReleaseRTPAliases` | internal/exporter/exporter.go:2430-2441 | removes the labels of the given endpoints of the call and returns exactly them, each once |
| `MediaLifecycle.MediaIndex.ObserveRtp` | internal/exporter/exporter.go:1374-1388 | a learned alias is referenced once and labelled with carrier and direction of its call; all agrees afterwards |
| `Transactions.InviteTransactions.ObserveRequest` | internal/exporter/exporter.go:2199-2210 | opens or renews the transaction with what the request was, unless it is settled |
| `Transactions.InviteTransactions.Classify` | internal/exporter/exporter.go:2212-2242 | lets a 200 OK through exactly as the first final response of a transaction that is not buried; a provisional one settles nothing; never counts a response as both kinds |
| `Transactions.InviteTransactions.Cleanup` | internal/exporter/exporter.go:2253-2267 | removes exactly the records and tombstones older than the TTL |
| `Transactions.SettledStays` | internal/exporter/exporter.go:2212-2242 | a settled transaction keeps its record until a sweep more than the TTL later |
| `Transactions.FirstFinalWins` | internal/exporter/exporter.go:2212-2242 | after one final response another counts only if the record was swept in between, more than the TTL later |
| `Transactions.RequestStands` | internal/exporter/exporter.go:2199-2210 | until it is answered, a record says of its latest request whether it was a re-INVITE and when it came |
| `Transactions.SweptActsAgain` | internal/exporter/exporter.go:2253-2267 | and once it was swept, a 200 OK to an open call acts again |
| `Transactions.TombstoneStands` | internal/exporter/exporter.go:2244-2251 | the tombstone of a call stands until a sweep more than the TTL later |
| `Transactions.SweptTombstone` | internal/exporter/exporter.go:2253-2267 | and goes in that sweep |
| `Transactions.ClosedCallsNeedAnOpenTransaction` | internal/exporter/exporter.go:2219-2222 | while it stands a 200 OK acts only for an opened transaction without a final response |
| `Transactions.NoReplay` | internal/exporter/exporter.go:2199-2267 | no replay revives a call: a second 200 OK of a transaction acts after closing only behind a new request more than the TTL after the first |
| `Dialogs.DialogIdSymmetric` | internal/exporter/exporter.go:1924-1940 | both directions of a dialog have one identifier |
| `Dialogs.DialogIdInjective` | internal/exporter/exporter.go:1924-1940 | for tags without a colon the identifier determines the Call-ID and the pair of tags |
| `Dialogs.ColonTagsCollide` | internal/exporter/exporter.go:1924-1940 | with a colon in a tag two calls can share an identifier |
| `Dialogs.DialogTable.Create` | internal/service/dialogs.go:93-108 | an existing dialog is not overwritten |
| `Dialogs.DialogTable.Delete` | internal/service/dialogs.go:70-91 | removes the dialog and tells how long ago it was created, at least zero, with its call and labels |
| `Dialogs.DialogTable.Refresh` | internal/service/dialogs.go:117-127 | moves the expiry of an existing dialog only |
| `Dialogs.DialogTable.Cleanup` | internal/service/dialogs.go:156-175 | removes exactly the expired dialogs and reports, once each, those that lasted some time, with the time since their creation |
| `Lifecycle.EveryOwnerHasADialog` | internal/exporter/exporter.go:1703-1831 | over every run of requests, answers, re-INVITEs, BYEs, expiry and learning: each call that owns an endpoint or awaits answer supervision has an active dialog all along if and only if each step meets its condition, which is one on the tables before it |
| `Lifecycle.StepCoveredExactly` | internal/exporter/exporter.go:1703-1831 | one step keeps that if and only if its condition holds |
| `Lifecycle.AnsweredCoveredExactly` | internal/exporter/exporter.go:1703-1788 | an answer that names media keeps it if and only if the identifier is free or the call's own, or the call has another dialog |
| `Lifecycle.ReansweredCoveredExactly` | internal/exporter/exporter.go:1718-1770 | a re-INVITE's answer with a cached offer keeps it if and only if the call has a dialog |
| `Lifecycle.EndedCoveredExactly` | internal/exporter/exporter.go:1801-1831 | a BYE keeps it if and only if the dialog it deletes is its call's own, or one of a call that owns nothing or has another |
| `Lifecycle.ExpiredCoveredExactly` | internal/exporter/exporter.go:686-699 | a sweep keeps it if and only if each dialog it drops unreported is one of a call that owns nothing, is reported for another dialog, or keeps another |
| `Lifecycle.SweepInStepsCovered` | internal/exporter/exporter.go:686-699 | so it does when aliases are learned, requests seen and supervision entries cleared between its steps: nothing of a reported call outlives it |
| `Lifecycle.FairRunsAreCovered` | internal/exporter/exporter.go:1703-1831 | tags without colons and sweeps after creation are enough |
| `Lifecycle.CoveredOnCleanInput` | internal/exporter/exporter.go:1703-1831 | so are conditions on the input: tags without colons, and no answer that names less time, as the 64-bit product gives it, than passes between its two readings of the clock |
| `Lifecycle.DurationSigns` | internal/exporter/exporter.go:1712-1716 | the product is at least a second up to 9223372036 seconds, negative one past it, and negative below zero |
| `Lifecycle.OrdinaryIsPolite` | internal/exporter/exporter.go:1712-1716 | 0 to 9223372036 seconds, with at most a second between the readings, meet the condition |
| `Lifecycle.SweepLosesExactly` | internal/exporter/exporter.go:1712-1734 | some sweep after its creation can lose a dialog and leave its media behind if and only if the named time is less than the time between the readings; with none between them, if and only if the product is negative |
| `Lifecycle.NegativeExpiryUncovers` | internal/exporter/exporter.go:1712-1716 | every negative Session-Expires does that, and every one from 9223372037 on, up to where the product wraps again |
| `Lifecycle.SharedIdUncovers` | internal/exporter/exporter.go:1703-1788 | the second of two calls with one identifier registers media without a dialog |
| `Lifecycle.SharedByeUncovers` | internal/exporter/exporter.go:1801-1831 | its BYE leaves the media of the first without one |
| `Lifecycle.SharedReinviteUncovers` | internal/exporter/exporter.go:1718-1770 | its re-INVITE refreshes the dialog of the first and registers media without one |
| `Lifecycle.SharedIdsExist` | internal/exporter/exporter.go:1924-1940 | two such calls exist when a tag holds a colon |
| `Lifecycle.RevisionTwice` | internal/exporter/exporter.go:1754-1778 | the handler registers a replaced revision twice, and the second time changes nobody's ownership |
| `Lifecycle.SilentDropUncovers` | internal/service/dialogs.go:156-175 | a dialog swept unreported leaves its call's media without one, if it was the only one |
| `Lifecycle.OnlyAnswersAdd` | internal/exporter/exporter.go:1525-1596 | only a 200 OK that counts brings anything of a call into being |
| `Lifecycle.StaysDown` | internal/exporter/exporter.go:2199-2250 | after teardown and while the tombstone stands nothing of a call comes back, unless an opened transaction without a final response is answered |
| `Lifecycle.WaitingWasRequested` | internal/exporter/exporter.go:2199-2210 | every waiting transaction was opened by a request |
| `DialogRuns.DialogLastsAsNamed` | internal/exporter/exporter.go:1712-1734 | over every run: an answer that creates or refreshes a dialog keeps it for the time it names; with no BYE and no other such answer in between, the dialog is there if and only if no sweep has come later than that |
| `DialogRuns.ReinviteKeepsAlive` | internal/exporter/exporter.go:1718-1724 | so a re-INVITE's answer keeps the dialog through every sweep up to the time it names, and the first sweep after that removes it |
| `DialogRuns.NamedTime` | internal/exporter/exporter.go:1712-1716 | that time is 1800 seconds without the header, and else the seconds named, up to 9223372036 |
| `DialogRuns.RecordIsOfItsAnswer` | internal/service/dialogs.go:93-127 | whoever refreshes a dialog, its record tells of the answer that created it: when, which call, which labels |
| `DialogRuns.EndTells` | internal/service/dialogs.go:70-91 | so what its end tells is the time since then |
| `DialogRuns.AnsweredAsRequested` | internal/exporter/exporter.go:2199-2250 | a 200 OK to a waiting transaction counts as that of a re-INVITE if and only if the dialog was active when the transaction was requested |
| `DialogRuns.OfferStands` | internal/exporter/exporter.go:1503-1511 | the description of a request is at hand when it is answered, unless it was replaced, used, forgotten or failed |
| `DialogRuns.FailureForgets` | internal/exporter/exporter.go:1525-1584 | a final failure forgets the offer and changes neither dialogs nor ownership |
| `DialogRuns.AnswerRegisters` | internal/exporter/exporter.go:1703-1788 | an answer makes its call the owner of exactly the media and RTCP endpoints of offer and answer in addition, uses the offer up, and puts the call under answer supervision if any media are named |
| `DialogRuns.ReinviteReplaces` | internal/exporter/exporter.go:1718-1778 | a re-INVITE's answer makes them all it owns, if the offer is at hand, and else leaves ownership alone |
| `DialogRuns.OnlyItsOwnRemoves` | internal/exporter/exporter.go:1703-1831 | nothing but its own teardown or re-INVITE takes an endpoint from a call |
| `CallLifecycle.Exporter.HandleReinvite200OK` | internal/exporter/exporter.go:1718-1778 | refreshes the dialog and replaces the media revision, labelled by its lines; over all its registrations the kernel sees exactly first references and last ones going |
| `CallLifecycle.Exporter.EndCall` | internal/exporter/exporter.go:692-695 | the supervision entry and all media of the call go, it is closed, and the kernel sees only last references going |
| `CallLifecycle.Exporter.HandleInviteRequest` | internal/exporter/exporter.go:1469-1523 | the request opens its transaction and caches its offer |
| `CallLifecycle.Exporter.HandleInviteResponse` | internal/exporter/exporter.go:1525-1584 | a response is classified, a failure drops the cached offer, and a 200 OK that counts is handled |
| `CallLifecycle.Exporter.HandleInvite200OK` | internal/exporter/exporter.go:1703-1788 | creates or refreshes the dialog and registers or replaces media as the function says; fails without both tags |
| `CallLifecycle.Exporter.HandleBye200OK` | internal/exporter/exporter.go:1801-1831 | the dialog, the supervision entry and all media go and the call is closed; tells how long the dialog lasted and what its media came to |
| `CallLifecycle.Exporter.CleanupExpiredDialogs` | internal/exporter/exporter.go:686-699 | every expired dialog goes and with each reported one everything of its call |
| `CallLifecycle.Exporter.HandleRtp` | internal/exporter/exporter.go:1354-1415 | ownership changes by the learned alias only, of a call that owns media |
| `CallLifecycle.LearningIsAStep` | internal/exporter/exporter.go:1374-1388 | learning an alias from a packet is a step of the runs above |
| `CallLifecycle.StreamsHaveDialogs` | internal/mediatracker/tracker.go:511-527 | where every owner has a dialog, so has the call of every stream |
| `Stream.StreamState.ObservePacket` | internal/mediatracker/stream.go:64-112 | counts the packet and keeps what the next one is timed against, as the function says |
| `Stream.StreamState.ClassifyLossRun` | internal/mediatracker/stream.go:158-168 | closes the loss run as burst or gap |
| `Stream.AccountingRefinesHistory` | internal/mediatracker/stream.go:64-112 | across any wraps, restarts and snapshots: received + lost = extended highest - first + 1 since the restart, burst + gap + open run = lost, and the split is that of the list of loss runs |
| `Stream.SnapshotsDoNotMatter` | internal/mediatracker/stream.go:158-168 | snapshots anywhere change neither a counter nor the final split |
| `Stream.OneVerdictPerPacket` | internal/mediatracker/tracker.go:529-545 | each packet is exactly one of counted, duplicate and reordered, but for the packet that restarts a stream |
| `Stream.TimedAgainstTheLatest` | internal/mediatracker/stream.go:64-121 | over any run of packets and snapshots, the arrival and the timestamp the next packet is timed against are those of the latest packet that restarted the stream, or was audio and moved it forward, or opened it |
| `Rtcp.ParseReport` | internal/rtcp/parser.go:136-165 | reads as many blocks as fit and the count allows, never out of range |
| `Rtcp.Parse` | internal/rtcp/parser.go:81-110 | total on any bytes: the reports of the walk over the sub-packets and its first error |
| `Rtcp.FramesAreThePayload` | internal/rtcp/parser.go:112-122 | the sub-packets are the payload, or a proper prefix if it is cut short |
| `Rtcp.WalkSalvages` | internal/rtcp/parser.go:93-109 | behind a well-framed prefix the reports of the prefix are kept, those of the rest are found, and the first error is told |
| `Rtcp.ParseSalvages` | internal/rtcp/parser.go:81-110 | the same for a whole payload |
| `Rtcp.EncodeBlock` | internal/rtcp/parser.go:169-185 | a report block is read back from its encoding, signed 24-bit loss included |
| `Rtcp.RoundTrip` | internal/rtcp/parser.go:81-110 | parsing the encoding of SR (24 bytes before its blocks), RR (4 bytes) and other sub-packets gives back exactly the SR and RR reports |
| `Rtcp.ReceiverReport` | internal/rtcp/parser.go:129-185 | a receiver report with one block is 32 bytes: every field of its block by byte position, from byte 8 on |
| `Rtcp.SenderReport` | internal/rtcp/parser.go:129-185 | a sender report with one block is 52 bytes: the same from byte 28 on |
| `Burst.BufferDecides` | internal/exporter/fraud.go:116-147 | the truncated buffer reaches the threshold if and only if the whole log does within the window |
| `Burst.InviteBurstTracker.Record` | internal/exporter/fraud.go:116-147 | signals exactly when at least the threshold of INVITEs ever seen from the source lie in the window |
| `Burst.InviteBurstTracker.Cleanup` | internal/exporter/fraud.go:149-168 | drops expired timestamps without changing any later answer |

## Left out

- Sockets, mmap, poll, eBPF loading and the C filter: calls into the kernel; only the block status word and kernel maps that may fail are kept.
- Prometheus metrics, the HTTP server, logging, GeoIP and configuration: plumbing around libraries.
- SIP, SDP, VQ and User-Agent text parsing: parsed packets and media lists are inputs.
- MOS, R-factor, jitter and packet delay variation, and the rest of Snapshot: floating point.
- TTR, PDD, RRD, ORD and PBD timing, registrations, carrier lookup and E.164 prefixes: single-map members.
- Deadlines, grace periods and reports of answer supervision: its entries are kept as a set of Call-IDs, which may lose members at any time and is cleared with the dialogs.
- Times of cached offers: their expiry is a step that forgets any of them.
- A nil burst tracker and the size gauges: nothing to prove.
- Streams are values in the tracker's map rather than objects shared by reference; nothing in the program keeps such a reference beyond one locked operation.
- The run objects' own `released` flags within the queue's state machine: the consumer is the only one to release a run there, once by its program counter; the flags are in `FrameRuns`.
- `AdmissionProof.NoDeadlock`: says nothing of capacity zero, where the program itself lets a SIP call wait for stop (`AdmissionProof.ZeroCapacityWaits`).
- `TrackerClass.Tracker.ObserveIPv4`: the delay variation of the report is left out, because it is floating point.
- `Borrowing.NeverReadsBorrowed`: that the block in use is not given back is a guard here and proved of the reference count in `BlockRefs`.
- `Borrowing.BorrowedBlocks.WaitUntilReusable`: notifications are the ones that arrive before the exporter stops; which of two ready cases a select takes is left open.
- `RingWalk.Decode`: multi-byte fields are little-endian, as on the machines the program is built for; timestamps are two numbers.
- `BlockRuns.RunQueue.EnqueueBlock`: the queue is seen from one reader, as something that takes runs until it is stopped; how it admits them is the subject of `Admission`.
- `AdmissionCalls.RtpGetsTheRoom`: says how many packets of a run are published; that they are its first ones is not in the queue's state, which keeps sizes and blocks.
