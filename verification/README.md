# Locasta protocols and queues in Dafny

Locasta is a family of Rust crates for low-latency messaging: lock-free multi-producer
single-consumer queues (`mempc`), remote procedure calls over shared memory (`ipc`), remote
procedure calls over RDMA rings (`copyrpc`, with a DC and an RC transport), and a chunked file
store on top of them (`aggfs`). This project models the parts whose correctness is hardest to see
from the code, and proves what every run of them keeps.

## How the models are built

Code that runs on several threads or in several processes is a transition system: one step for
each atomic load, store, compare-exchange or fetch-add, a program counter for each thread, any
number of threads, and history fields that record what happened. A run is a sequence of states;
theorems hold for every state of every run. Code of one thread that updates its fields in place
is a class whose methods are proved against functions on values, and theorems are about those
functions. Loops of the source stay loops.

| files | what they model |
|---|---|
| `Bits`, `RingPos`, `Prelude` | bit operations, ring offsets, sequences |
| `ScqIndexMap`, `ScqCore`, `ScqRing`, `ScqRingProof`, `ScqTickets`, `ScqTail` | one SCQ ring: entries, steps, ticket theorem, its shared tail |
| `ScqRequestRing`, `ScqEffect`, `ScqOwnership`, `ScqDelivery`, `ScqRuns` | the two SCQ rings with callers, slots and server |
| `DcEncoding`, `DcBatch`, `DcEndpointSpec`, `DcReceive`, `DcEndpoint` | a DC endpoint, down to the bytes in its rings |
| `DcStream`, `DcNet`, `DcRuns`, `DcLoss` | two connected DC endpoints and the batches in flight, and the credit they lose |
| `DcEmptyBatch`, `DcLanding`, `DcLandingPairing`, `DcCreditGap`, `DcLandingGap` | batches without messages, batches that land ahead of their processing, and what goes wrong then |
| `DcPairing`, `DcPairingRuns` | which call a DC response answers |
| `DcHandles` | how long the data of a DC request stays in the receive ring |
| `DcDirtyList`, `DcScheduler` | the dirty list and the flush loop |
| `RcEndpointSpec`, `RcEndpoint`, `RcCredit`, `RcLoss` | the RC endpoint, its response credit and the credit it loses |
| `RcPositions` | positions and returned credit of two connected RC endpoints |
| `RcReserve`, `RcReserveRuns`, `RcTrace`, `RcWrapGap` | the ring space that RC keeps for responses, and a run that overruns it |
| `OneSided`, `Ipc`, `IpcProof` | the one-sided ring, and RPC over two of them |
| `WcqCas2`, `WcqCas2Proof` | the free-slot bitmap with the ring of filled slots |
| `FetchAdd`, `FetchAddProof`, `ResponseRing` | the fetch-add request ring with its tokens, the response ring |
| `FetchAddReply`, `FetchAddReplyGap` | both rings together, with the limit on requests in flight |
| `Jiffy`, `JiffyProof`, `JiffySearch` | the linked-buffer queue |
| `AggfsStore`, `AggfsGrowth`, `AggfsGrowthRuns`, `AggfsPmem`, `AggfsClient` | the chunk store, chunk sizes that grow, and the file client |

Counters and positions are unbounded. Atomic steps are sequentially consistent. Foreign calls
are parameters: the answer of the network card to a submission, the slab key that a call gets,
the address that an allocation returns.

## What the models show about the code

- **Wraps and credit batches of the DC transport can overwrite an unprocessed batch.** The comment
  at copyrpc/src/dc.rs:926-931 says that the reserve of `call` and `reply` makes a credit batch
  always fit. Wraps and credit batches are not credit checked, so they can use the reserve up.
  `DcCreditGap.CreditBatchMayOverwrite` and `DcCreditGap.WrapMayOverwrite` are runs of eight and six
  operations on 128-byte rings that end there; in `DcLandingGap.WrapDestroysMessages` the receiver
  then skips messages that had arrived. `DcEmptyBatch.EmptyBatchClashesExactly` says when such a
  batch clashes, and what a sender could check to avoid it. As long as none clashes, batches that
  have landed stay intact and the streams agree (`DcLanding.LandedStreamsAgree`). Batches with
  messages never overwrite (`DcRuns.MessagesNeverOverwrite`).
- **The fetch-add ring needs two slots.** `FetchAddMpsc::create` accepts a ring depth of one.
  With a single slot the sequence number of a published request equals the position of the next
  request, so the next caller overwrites it. `FetchAddProof.KeepsOrderExactly` states that order
  is kept exactly for two slots or more.
- **The RC credit law depends on the ring sizes.** An endpoint announces its own limit but
  reserves at most a quarter of the remote ring. `RcCredit.LawAtConnection` states that the two
  agree exactly if the limit is within that quarter, as it is for rings of the same size.
- **RC does not keep its reserve for responses.** The comments at copyrpc/src/rc.rs:1115-1116 and
  copyrpc/src/rc.rs:1493-1494 say that what is in flight and twice the reservation fit the remote
  ring, so that a reply always has space. There are three causes why it need not. A flush takes 32
  bytes for the next batch that nothing accounts for: `RcReserve.FlushBreaksReserve` is a successful
  call with the flush behind it. `call` wraps before it checks for room:
  `RcReserve.RefusedCallBreaksReserve` gives the first calls that are refused with more than a ring
  in flight. And a wrap that is only its metadata makes the receiver count a whole ring too much,
  because it skips to the end of the ring after it has read the metadata
  (copyrpc/src/rc.rs:665-678); the sender is then given credit for a ring that was never freed.
  In `RcWrapGap.HeaderOnlyWrapOverruns` every submission succeeds, the sender has its reserve, and
  416 bytes are unprocessed on a ring of 256. `RcPositions.PositionLaws` and
  `RcPositions.OverReturnedExactly` say exactly how far the receiver's count is off.
  `RcReserve.FlushReserveExactly`, `RcReserve.CallReserveExactly` and `RcReserve.ReplyReserveExactly`
  say exactly when the reserve is there after each operation, by the sender's own count. What
  replies rely on is weaker and survives every flush; calls that skip too much of the ring and wraps
  that fail are exactly what loses it (`RcReserve.CallSnugExactly`, `RcReserve.ReplySnugExactly`). An
  endpoint that avoids those and header-only wraps has space for every reply within its allowance,
  counted from what its peer has processed, whatever its peer does
  (`RcReserveRuns.RepliesHaveSpace`).
- **Failed submissions lose credit.** `emit_batch` of DC and `fill_metadata` of RC count credit as
  given before a submission that may fail. The laws therefore carry a term for what was lost.
  `DcCreditGap.FailedFlushLosesCredit` and `RcLoss.FailedFlushLosesGrant` are runs that lose some,
  and `DcLoss.NothingLostExactly` and `RcLoss.NothingLostExactly` state that none is lost exactly if
  no submission failed that carried any.
- **A file's chunk size must not grow while it has chunks.** A write then reaches beyond the chunk.
  It grows when a larger size is registered (`AggfsGrowth.GrownChunkOverwrites`), and also when a
  file is unlinked: the daemon removes chunk 0 only (aggfs/src/bin/aggfsd.rs:635 and
  aggfs/src/bin/aggfsd.rs:927), which drops the registered size and leaves the other chunks with the
  default one (`AggfsGrowth.UnlinkedFileOverwrites`). Even where the write hits nothing, its bytes
  are lost to the next chunk that is allocated (`AggfsGrowth.NeighbourOverwritesGrown`).
  `AggfsGrowth.WritesSpareExactly` says when the next write of a file spares the others, and
  `AggfsGrowthRuns.RegisteredSafeExactly` and `AggfsGrowthRuns.RemovedSafeExactly` say when all later
  ones do, and stay in the region, as long as nothing else grows.
- **A limit beyond the ring depth lets a fetch-add reply spin.** `FetchAddMpsc::create` takes any
  limit on requests in flight. `FetchAddReplyGap.NoReplyWaitsExactly` states that no reply ever waits
  for its slot in the response ring exactly if the limit is at most the depth of the rings.
- **The shared tail of SCQ may move backwards**, because the single producer stores it while callers
  compare-exchange it. `ScqTail.TailFallsExactly` says when, and `ScqTail.TailMayFall` is such a run.
  The tickets that the producer uses still increase (`ScqTickets.DrawnTicketsIncrease`).

## Model

| member | source | states |
|---|---|---|
| `ScqIndexMap.LfringMapCongruent` | mempc/src/scq.rs:38-50 | two tickets share an entry exactly if they are congruent modulo the ring size, for every order |
| `ScqIndexMap.LfringMapOnto` | mempc/src/scq.rs:44-50 | every entry is the image of a ticket, so the cache-line rotation is a permutation |
| `ScqCore.RingGeometrySound` | mempc/src/scq.rs:38-50 | entry and cycle of a ticket determine the ticket, and cycles order the tickets of one entry |
| `ScqCore.InstallKeeps` | mempc/src/scq.rs:137-157 | the compare-exchange of an enqueue keeps the relation between words and history for every ticket |
| `ScqCore.TakeKeeps` | mempc/src/scq.rs:185-196 | the fetch-or of a dequeue keeps that relation |
| `ScqCore.ReplaceKeeps` | mempc/src/scq.rs:198-222 | marking a word unsafe or raising its cycle before giving up keeps that relation |
| `ScqCore.GiveUpKeeps` | mempc/src/scq.rs:198-222 | giving up on a ticket without changing the word keeps that relation |
| `ScqTickets.NewFull` | mempc/src/scq.rs:91-121 | the pre-loading loop puts index i under ticket i for the first half of the tickets and leaves all other entries empty |
| `ScqRingProof.StepKeeps` | mempc/src/scq.rs:126-385 | every atomic step of any thread, in any of the queue operations, keeps the ring invariant |
| `ScqTickets.RunInv` | mempc/src/scq.rs:126-385 | the ring invariant holds in every state of every interleaving |
| `ScqTickets.TakenIsInstalled` | mempc/src/scq.rs:126-242 | the ticket theorem: a dequeue that succeeds with a head ticket returns exactly the index installed under that tail ticket, and no ticket is taken twice |
| `ScqTickets.InstalledIsKept` | mempc/src/scq.rs:126-242 | an installed index stays in its entry, whoever steps, until its own dequeuer takes it |
| `ScqTickets.AbandonedStaysEmpty` | mempc/src/scq.rs:137-157 | once the dequeuer of a ticket has given up, no enqueue ever installs an index under it |
| `ScqTickets.DrawnTicketsIncrease` | mempc/src/scq.rs:326-385 | the tail tickets that a single producer uses strictly increase, although catch-up may change the counter between its load and its store |
| `ScqTail.TailFallsExactly` | mempc/src/scq.rs:326-385 | a step lowers the tail exactly if the single producer stores a ticket that catching up has passed since its load |
| `ScqTail.TailMayFall` | mempc/src/scq.rs:326-385 | a run on a pre-loaded free ring in which the tail moves from 6 back to 3 |
| `ScqRuns.SystemRunInv` | mempc/src/scq.rs:438-474 | the invariant of the two rings, the slots, the callers and the server holds in every state of every run |
| `ScqRuns.SlotOwnership` | mempc/src/scq.rs:438-474 | each slot index is at all times in exactly one of free queue, one caller's hands, allocated queue, server's hands |
| `ScqRuns.HeldIndexInRange` | mempc/src/scq.rs:438-474 | nobody ever holds an index outside the slot array |
| `ScqRuns.PoppedIsPushed` | mempc/src/scq.rs:462-474 | every pop returns the caller id and the data that one push wrote, no push is popped twice, and pops come in ticket order |
| `ScqRuns.PushedIsKept` | mempc/src/scq.rs:438-459 | what a push has recorded does not change and is still in its slot until it is popped |
| `RingPos.ClashesExactly` | copyrpc/src/dc.rs:801-824 | a write shares ring memory with unconsumed positions exactly if it ends more than one ring past the consumed position |
| `DcEncoding.HeaderRoundTrip` | copyrpc/src/dc.rs:41-55 | decoding a message header returns the call id and length that were encoded |
| `DcEncoding.BatchHeaderRoundTrip` | copyrpc/src/dc.rs:1125-1138 | decoding a batch header returns delta, credit and message count |
| `DcEncoding.ResponseIdRoundTrip` | copyrpc/src/encoding.rs:92-106 | a call id below the flag survives the response id and only the response id looks like a response |
| `DcEndpointSpec.AppendFits` | copyrpc/src/dc.rs:749-755 | a message that passes the room check is written inside the ring |
| `DcEndpointSpec.CallKeeps` | copyrpc/src/dc.rs:1001-1053 | `call` keeps the containment of the open batch, on every outcome; an endpoint that is not connected is left alone |
| `DcEndpointSpec.ReplyKeeps` | copyrpc/src/dc.rs:1078-1122 | so does `reply` |
| `DcEndpointSpec.EmitWrapKeeps` | copyrpc/src/dc.rs:881-896 | so does a wrap, also a failed one, after which no message has room |
| `DcEndpointSpec.EmitPendingKeeps` | copyrpc/src/dc.rs:899-942 | so does `emit_pending`, whatever the card answers |
| `DcEndpointSpec.EmitStaysInRing` | copyrpc/src/dc.rs:801-824 | both boundary assertions of `emit_batch` hold |
| `DcReceive.ReceiveIntactBatch` | copyrpc/src/dc.rs:574-660 | processing an intact batch moves both positions to its end, takes in its credit, and decodes exactly its messages; a wrap that is only a header decodes nothing |
| `DcReceive.RequestsArePushed` | copyrpc/src/dc.rs:651-658 | every request of an intact batch goes on the receive stack in order, and its entry delimits exactly its payload in the ring |
| `DcEndpoint.Endpoint.constructor` | copyrpc/src/dc.rs:687-729 | a new endpoint has zeroed rings and counters |
| `DcEndpoint.Endpoint.Connect` | copyrpc/src/dc.rs:973-999 | connecting refines its specification |
| `DcEndpoint.Endpoint.Call` | copyrpc/src/dc.rs:1001-1053 | `call`, writing into the ring in place, refines its specification and reports the specified error, also when not connected |
| `DcEndpoint.Endpoint.Reply` | copyrpc/src/dc.rs:1078-1122 | `reply` refines its specification, also when not connected |
| `DcEndpoint.Endpoint.EmitBatch` | copyrpc/src/dc.rs:767-872 | stamping and submitting the open batch refines its specification and hands out the specified bytes |
| `DcEndpoint.Endpoint.EmitWrap` | copyrpc/src/dc.rs:881-896 | so does the wrap |
| `DcEndpoint.Endpoint.EmitPending` | copyrpc/src/dc.rs:899-942 | so does `emit_pending` |
| `DcEndpoint.Endpoint.ProcessCqe` | copyrpc/src/dc.rs:574-660 | the receive loop refines its specification |
| `DcNet.FlushPeerIsEmitPending` | copyrpc/src/dc.rs:899-942 | the flush in the two-peer system is `emit_pending` of the endpoint, with the same writes |
| `DcRuns.StepKeeps` | copyrpc/src/dc.rs:574-1122 | every operation of either peer and every arrival keeps the invariant of the connection |
| `DcRuns.StreamAgreement` | copyrpc/src/dc.rs:574-660 | where every batch is intact when it is processed: what was appended is what was decoded, then what is in flight, then the open batch; the receiver stands where the next batch starts; through any wraps, credit batches and failed submissions |
| `DcRuns.ArrivalReachesBatchEnd` | copyrpc/src/dc.rs:574-660 | under the same assumption, either receiver can always process its next batch, which brings both its positions to the end of that batch |
| `DcRuns.SwapRun` | copyrpc/src/dc.rs:574-1122 | with the roles of the peers exchanged a run is a run |
| `DcRuns.CreditLaw` | copyrpc/src/dc.rs:774-780 | a sender's consumer position plus the credit in flight plus the credit lost is what the peer has notified, which is at most what it has processed |
| `DcLoss.NothingLostExactly` | copyrpc/src/dc.rs:774-846 | no credit has been lost exactly if no flush failed in its first submission while credit was due; in particular if submissions succeed |
| `DcCreditGap.FailedFlushLosesCredit` | copyrpc/src/dc.rs:774-846 | a run of four operations that loses 64 bytes of credit |
| `DcRuns.MessagesNeverOverwrite` | copyrpc/src/dc.rs:1022-1043 | in both directions, a batch with messages ends at least one reserve short of a full ring past what the receiver has processed, so it clashes with no unprocessed byte |
| `DcEmptyBatch.EmptyBatchIsLast` | copyrpc/src/dc.rs:881-942 | when a flush sends a wrap or a credit batch, and from where to where, told from the state before it |
| `DcEmptyBatch.EmptyBatchClashesExactly` | copyrpc/src/dc.rs:881-942 | such a batch clashes with unprocessed bytes exactly if it ends more than a ring past what the receiver has processed; ending within a ring of the credit given to the sender rules that out |
| `DcRuns.BatchContainment` | copyrpc/src/dc.rs:749-763 | in every reachable state of both peers positions are aligned, the open batch starts at the flush position and lies within one ring cycle |
| `DcCreditGap.CreditBatchMayOverwrite` | copyrpc/src/dc.rs:920-939 | a reachable state in which a credit batch clashes with an unprocessed batch that holds messages |
| `DcCreditGap.WrapMayOverwrite` | copyrpc/src/dc.rs:881-896 | a reachable state in which a wrap does |
| `DcLanding.LandKeepsIntact` | copyrpc/src/dc.rs:801-846 | a batch that lands within a ring of the receiver's position leaves those before it intact |
| `DcLanding.Refines` | copyrpc/src/dc.rs:574-1122 | with batches that land any time before they are processed, and none without messages sent more than a ring ahead, the peers go through a run in which batches land when they are processed |
| `DcLanding.LandedStreamsAgree` | copyrpc/src/dc.rs:574-660 | what has landed is then intact, the next landed batch can be processed, and the streams agree |
| `DcLanding.WithinExactly` | copyrpc/src/dc.rs:881-942 | the condition on a flush is that its batch without messages clashes with nothing |
| `DcLanding.GuardSuffices` | copyrpc/src/dc.rs:881-942 | it holds throughout if senders keep such batches within a ring of the credit they were given |
| `DcLandingGap.WrapDestroysMessages` | copyrpc/src/dc.rs:574-660 | a run in which the receiver takes a wrap for a batch that had landed before it and decodes none of its messages |
| `DcLanding.SwapLandingRun` | copyrpc/src/dc.rs:574-1122 | with the roles of the peers exchanged a run with landings is one again |
| `DcHandles.ProcessedStays` | copyrpc/src/dc.rs:574-660 | a processed batch stays in the receive ring as it was sent as long as no batch has landed that ends more than a ring past its start |
| `DcHandles.LandingReusesPlace` | copyrpc/src/dc.rs:801-846 | the first batch that does end beyond that is written over its first byte |
| `DcHandles.RequestDataStays` | copyrpc/src/dc.rs:651-658 | so long, the entries of the receive stack delimit exactly the payloads of the requests |
| `DcHandles.RequestDataStaysUntilCredited` | copyrpc/src/dc.rs:651-780 | between peers that keep wraps and credit batches within the credit they were given, they do until the receiver returns the credit for the batch |
| `DcPairing.AbsorbKeeps` | copyrpc/src/dc.rs:640-658 | decoding a batch moves each of its calls to its next stage and does to slab and callback exactly what the calls' history says |
| `DcPairingRuns.StepKeeps` | copyrpc/src/dc.rs:1034-1119 | every operation keeps the pairing of messages, handles and slab entries with calls |
| `DcPairingRuns.RunOfTransport` | copyrpc/src/dc.rs:574-1122 | a run with call history is, without it, a run of the transport |
| `DcPairingRuns.SwapRun` | copyrpc/src/dc.rs:574-1122 | with the roles of the peers exchanged a run is a run, so the theorems hold of both |
| `DcPairingRuns.ResponsesAnswerTheirCalls` | copyrpc/src/dc.rs:640-658 | with one reply per handle, each callback of either peer gets the user data of a different call with the payload of the reply to that call, and the slab holds exactly the unanswered calls, although keys are reused |
| `DcLandingPairing.LandedResponsesAnswerTheirCalls` | copyrpc/src/dc.rs:574-660 | the same, for both peers, where batches land any time before they are processed, as long as none without messages is sent more than a ring ahead |
| `DcPairingRuns.ArrivingResponseFindsItsCall` | copyrpc/src/dc.rs:640-650 | a response under way finds the entry of the call it answers under its key |
| `DcDirtyList.DirtyList.constructor` | copyrpc/src/dc.rs:146-153 | a new list is empty |
| `DcDirtyList.DirtyList.PushBack` | copyrpc/src/dc.rs:163-179 | the array-linked list appends unless the entry is already in it |
| `DcDirtyList.DirtyList.PopFront` | copyrpc/src/dc.rs:181-194 | it removes the first entry, or reports that there is none |
| `DcDirtyList.DirtyList.IsEmpty` | copyrpc/src/dc.rs:196-198 | the head tells whether the list is empty |
| `DcScheduler.FlushOneDecreases` | copyrpc/src/dc.rs:507-542 | a turn of the flush loop that goes on uses up one of the turns that its endpoints have left, although it may re-enqueue |
| `DcScheduler.FlushAllKeeps` | copyrpc/src/dc.rs:482-555 | after a flush, endpoints that still have work are in the list or had an I/O error |
| `DcScheduler.FlushDrains` | copyrpc/src/dc.rs:482-555 | if the card accepts everything, a flush empties the list and leaves no endpoint with work |
| `DcScheduler.PendingIsListed` | copyrpc/src/dc.rs:899-1048 | after any public operations, barring I/O errors, every endpoint with a batch or wrap to send is in the list |
| `DcScheduler.Context.MarkEndpointDirty` | copyrpc/src/dc.rs:352-354 | marking refines its specification |
| `DcScheduler.Context.FlushEndpoints` | copyrpc/src/dc.rs:482-555 | the loop terminates and refines its specification |
| `RcEndpointSpec.CreditGrant` | copyrpc/src/rc.rs:1104-1126 | a positive grant leaves twice the reservation free in the remote ring, stays within the limit, and is aligned |
| `RcEndpointSpec.BlocksRoundTrip` | copyrpc/src/rc.rs:1388-1436 | the allowance that the callee decodes is the one that the caller deducted |
| `RcReserve.CalledHasReserve` | copyrpc/src/rc.rs:1411-1423 | after a successful call, what is in flight and twice the reservation fit the remote ring |
| `RcPositions.StepKeepsLaws` | copyrpc/src/rc.rs:622-1535 | every operation of either peer and every arrival keeps the position and credit laws of equal rings, with the count of header-only wraps and of credit lost |
| `RcPositions.PositionLaws` | copyrpc/src/rc.rs:622-1099 | in every state what was processed and what is in flight add up to what was sent; the receiver is a ring too far for every header-only wrap it has processed; credit given, in flight and lost add up to what it has notified |
| `RcPositions.SpaceLaw` | copyrpc/src/rc.rs:665-678 | what the sender has in flight by its credit and what is really unprocessed differ by a ring for each header-only wrap and by the credit that has not come back |
| `RcPositions.OverReturnedExactly` | copyrpc/src/rc.rs:665-678 | the receiver counts more than it was sent exactly if it has processed a header-only wrap; otherwise credit is given for processed bytes only |
| `RcWrapGap.HeaderOnlyWrapOverruns` | copyrpc/src/rc.rs:622-1456 | a run of 15 operations without failures after which the sender has its reserve and has sent 416 bytes ahead on a 256-byte ring |
| `RcReserve.FlushReserveExactly` | copyrpc/src/rc.rs:1004-1064 | after a flush they fit exactly if they fit with the placeholder of the next batch and the new grant |
| `RcReserve.CallReserveExactly` | copyrpc/src/rc.rs:1376-1456 | after a call, whatever its outcome and the answers of the card, they fit exactly if a condition on the state before it holds |
| `RcReserve.ReplyReserveExactly` | copyrpc/src/rc.rs:1495-1535 | the same after a reply, and exactly when the reply itself has space in the remote ring |
| `RcReserve.FlushBreaksReserve` | copyrpc/src/rc.rs:1004-1064 | a successful call and a successful flush after which they do not fit |
| `RcReserve.RefusedCallBreaksReserve` | copyrpc/src/rc.rs:1403-1423 | right after connecting, every call that does not fit one ring cycle is refused with more than a ring in flight |
| `RcReserve.FlushSnug` | copyrpc/src/rc.rs:1004-1064 | every flush keeps what replies rely on: the reserve, short of at most one placeholder |
| `RcReserve.CallSnugExactly` | copyrpc/src/rc.rs:1376-1456 | a call keeps it exactly if the part of the ring it skips fits |
| `RcReserve.AllowedIsWithin` | copyrpc/src/rc.rs:1388-1436 | a response no longer than the caller allowed is within the allowance |
| `RcReserve.ReplySnugExactly` | copyrpc/src/rc.rs:1493-1535 | a reply within its allowance then has space in the remote ring, and keeps it exactly if its wrap does not fail, or skips a placeholder only |
| `RcReserveRuns.RepliesHaveSpace` | copyrpc/src/rc.rs:1493-1535 | in every run in which the replying peer's own operations avoid header-only, failing and oversized wraps, whatever it replies to a request it holds, within its allowance, ends within a ring of what the other peer has processed |
| `RcReserveRuns.SentHasSpace` | copyrpc/src/rc.rs:898-1000 | in such runs nothing it has sent shares ring memory with anything that is yet to be processed |
| `RcReserveRuns.CalledHasSpace` | copyrpc/src/rc.rs:1411-1423 | as long as the peer has processed no header-only wrap, a successful call leaves room for twice the reservation beside all that is unprocessed |
| `RcEndpoint.Endpoint.constructor` | copyrpc/src/rc.rs:787-873 | a new endpoint limits its reservation to a quarter of its send ring |
| `RcEndpoint.Endpoint.Connect` | copyrpc/src/rc.rs:1224-1279 | connecting sets reservation and balance as specified |
| `RcEndpoint.Endpoint.Flush` | copyrpc/src/rc.rs:1004-1023 | emitting the open batch refines its specification, on success and failure |
| `RcEndpoint.Endpoint.EmitWrap` | copyrpc/src/rc.rs:1067-1099 | so does the wrap |
| `RcEndpoint.Endpoint.HandleWrapIfNeeded` | copyrpc/src/rc.rs:1135-1159 | so does making room in the ring cycle |
| `RcEndpoint.Endpoint.Call` | copyrpc/src/rc.rs:1376-1456 | `call` refines its specification, with all its errors |
| `RcEndpoint.Endpoint.Reply` | copyrpc/src/rc.rs:1495-1535 | `reply` refines its specification |
| `RcEndpoint.Endpoint.ProcessCqe` | copyrpc/src/rc.rs:622-716 | the receive loop takes in credit and grant and yields the allowances of the requests |
| `RcCredit.CallConserves` | copyrpc/src/rc.rs:1376-1456 | whatever batches it emits, `call` spends on its request exactly what it takes from the balance, and the reservation grows by exactly what was granted or lost |
| `RcCredit.ReplyConserves` | copyrpc/src/rc.rs:1495-1535 | a successful reply pays back exactly the allowance, if the reservation covers it |
| `RcCredit.StepKeeps` | copyrpc/src/rc.rs:622-1535 | every operation of either peer and every arrival keeps both credit laws |
| `RcCredit.LawAtConnection` | copyrpc/src/rc.rs:881-892 | the law holds at connection exactly if the limit is within a quarter of the remote ring, as for equal rings |
| `RcCredit.CreditIsConserved` | copyrpc/src/rc.rs:1043-1126 | in every state the reservation is the peer's balance plus grants in flight plus allowances not replied to plus losses; it stays within the limit and covers every handle, so the saturating subtraction never truncates |
| `RcCredit.SwapRun` | copyrpc/src/rc.rs:622-1535 | with the roles of the peers exchanged a run is a run |
| `RcLoss.NothingLostExactly` | copyrpc/src/rc.rs:1043-1099 | no credit has been lost exactly if every submission that failed carried no grant; none is lost while submissions succeed |
| `RcLoss.FailedFlushLosesGrant` | copyrpc/src/rc.rs:1043-1099 | a run of five operations that loses a grant of 64 bytes |
| `OneSided.WriteDataKeeps` | mempc/src/onesided.rs:92-118 | with a free slot, the data store of a send disturbs nothing that is still to be read, nor a read that has begun |
| `OneSided.WriteGenerationKeeps` | mempc/src/onesided.rs:92-118 | the generation store then makes exactly the written value visible |
| `OneSided.ReceivesSent` | mempc/src/onesided.rs:167-183 | a generation matches exactly if the value at that position was sent, and then that value is read |
| `OneSided.CountAvailable` | mempc/src/onesided.rs:196-210 | while the producer goes on sending, the loop counts no more than has been sent, all that had been sent at its start, and below its bound exactly what has been sent at its last load |
| `IpcProof.StepKeeps` | ipc/src/lib.rs:605-659 | every load and store of client and server keeps the invariant |
| `IpcProof.RequestSlotFree` | ipc/src/lib.rs:615-632 | the slot check of `call` is enough: the server has read what was in the request slot |
| `IpcProof.ResponseSlotFree` | ipc/src/lib.rs:433-441 | a reply always finds a free response slot, by counting the live requests |
| `IpcProof.ResponsesMatchRequests` | ipc/src/lib.rs:605-659 | no expectation fails, each callback gets the user data of the request its response answers, and no request is answered twice, for every interleaving and reply order |
| `IpcProof.RingsNeverOverwrite` | mempc/src/onesided.rs:92-183 | the server receives exactly the sent sequence, and neither producer ever stores into a slot that is unread or half read |
| `IpcProof.RequestsAreServed` | ipc/src/lib.rs:411-441 | every request received is held, being replied to, or answered |
| `WcqCas2Proof.CallerStepKeeps` | mempc/src/wcq_cas2.rs:456-562 | every step of a caller keeps the invariant |
| `WcqCas2Proof.ServerStepKeeps` | mempc/src/wcq_cas2.rs:473-637 | every step of the server keeps it |
| `WcqCas2Proof.RoomForTicket` | mempc/src/wcq_cas2.rs:610-627 | a caller that holds an index finds fewer waiting tickets than ring slots |
| `WcqCas2Proof.EnqueueNeverWaits` | mempc/src/wcq_cas2.rs:456-471 | whenever a caller has drawn a ticket, its ring slot already shows that ticket, so the spin loop exits at once |
| `WcqCas2Proof.IndexOwnedOnce` | mempc/src/wcq_cas2.rs:530-637 | each index is in exactly one place: a free bit, one caller, one ticket in the ring, or the server |
| `WcqCas2Proof.PoppedInTicketOrder` | mempc/src/wcq_cas2.rs:629-637 | the server pops, in ticket order, the caller and the data of each ticket |
| `FetchAddProof.StepKeeps` | mempc/src/fetch_add.rs:70-125 | with two slots or more, every step keeps ring and token invariants |
| `FetchAddProof.ReceivesInOrder` | mempc/src/fetch_add.rs:70-125 | requests are received in ticket order with the caller and data of their ticket |
| `FetchAddProof.TokensMatch` | mempc/src/fetch_add.rs:158-281 | the token that the server derives for a request is the one that `call` returned for it |
| `FetchAddProof.SlotsAreExclusive` | mempc/src/fetch_add.rs:70-125 | a ring slot is accessible to one caller at a time, or to the server |
| `FetchAddProof.SingleSlotOverwrites` | mempc/src/fetch_add.rs:70-125 | with one slot, a run in which the server receives the second request in place of the first |
| `FetchAddProof.KeepsOrderExactly` | mempc/src/fetch_add.rs:46-125 | the ring keeps the order of its tickets in all runs exactly if it has at least two slots |
| `ResponseRing.StepKeeps` | mempc/src/common.rs:102-138 | every step of a push and a pop keeps the ring invariant |
| `ResponseRing.PopsWhatWasPushed` | mempc/src/common.rs:102-138 | the caller pops exactly what the server pushed, in order, and they are never at the same slot |
| `FetchAddReply.StepKeeps` | mempc/src/fetch_add.rs:157-292 | every step of callers and server on both kinds of rings keeps the books of requests in flight, received, owed and answered |
| `FetchAddReply.InflightBound` | mempc/src/fetch_add.rs:157-192 | no caller has more requests in flight than its limit, nor more responses in its ring |
| `FetchAddReply.RepliesNeverWait` | mempc/src/fetch_add.rs:283-291 | with a limit within the ring depth a reply finds its slot free |
| `FetchAddReplyGap.NoReplyWaitsExactly` | mempc/src/fetch_add.rs:283-291 | for any number of callers and two slots or more, no reply waits in any run exactly if the limit is at most the depth |
| `JiffyProof.ProducerStepKeeps` | mempc/src/jiffy.rs:121-215 | every step of a producer, races of allocation included, keeps the invariant |
| `JiffyProof.ConsumerStepKeeps` | mempc/src/jiffy.rs:233-261 | every step of the consumer keeps it |
| `JiffyProof.BuffersFormOneChain` | mempc/src/jiffy.rs:121-215 | the buffers form one chain with contiguous start indices, and the tail hint and the consumer's buffer are in it |
| `JiffyProof.SearchTerminates` | mempc/src/jiffy.rs:121-167 | each move of a search shortens its distance by one buffer, and it ends at the one buffer that holds the position |
| `JiffySearch.SearchVisitsFewBuffers` | mempc/src/jiffy.rs:121-167 | in every run an enqueue at a position looks at no more buffers than there are up to the one that holds the position |
| `JiffyProof.DequeuedInOrder` | mempc/src/jiffy.rs:233-261 | positions are consumed once, in order, each with the item claimed for it |
| `JiffyProof.NoPositionLost` | mempc/src/jiffy.rs:170-215 | a claimed position is published or still with its producer |
| `AggfsStore.WriteInv` | aggfs/src/store.rs:83-101 | a write keeps the chunks apart and within the region |
| `AggfsStore.WriteStores` | aggfs/src/store.rs:83-101 | a write stores its data and changes no other valid byte of any chunk |
| `AggfsStore.ReadReturns` | aggfs/src/store.rs:104-123 | a read returns the longest run of valid bytes up to its length |
| `AggfsStore.WriteFailsExactly` | aggfs/src/store.rs:60-91 | a write within the chunk size fails exactly if a new chunk does not fit the region, or a grown chunk would leave the region, which a sound store rules out |
| `AggfsStore.RegisterKeeps` | aggfs/src/store.rs:47-49 | registering a chunk size changes no byte, and keeps the layout exactly if the file's chunks are large enough |
| `AggfsStore.RemoveKeeps` | aggfs/src/store.rs:126-131 | removing a chunk removes its bytes and no others, and keeps the layout exactly if the chunks left are large enough for the size left |
| `AggfsGrowth.WritesSpareExactly` | aggfs/src/store.rs:83-101 | of any store: the next write to a file spares the valid bytes of all other chunks exactly if none of those lies within the file's chunk size behind the start of one of its chunks or of the next allocation |
| `AggfsGrowth.RegisteredSpareExactly` | aggfs/src/store.rs:47-49 | the same for the next write after a size has been registered, told from the store before |
| `AggfsGrowth.RemovedSpareExactly` | aggfs/src/store.rs:126-131 | the same for the next write after a chunk has been removed |
| `AggfsGrowthRuns.AlwaysSafeExactly` | aggfs/src/store.rs:47-131 | of any store within its region: over all later operations that make no file with chunks grow, every write stays in the region and spares the others exactly if no chunk reaches into another or beyond what is allocated |
| `AggfsGrowthRuns.RegisteredSafeExactly` | aggfs/src/store.rs:47-49 | registering a size leaves a sound store so exactly if the file's chunks have room to grow to it, told from the store before |
| `AggfsGrowthRuns.RemovedSafeExactly` | aggfs/src/store.rs:126-131 | so does removing a chunk |
| `AggfsGrowthRuns.RoomIsFitting` | aggfs/src/store.rs:47-80 | chunks that are large enough have room to grow, and in a store without gaps no others have |
| `AggfsGrowth.FittingRunsSpare` | aggfs/src/store.rs:47-131 | over any operations from an empty store on that leave every file's chunks large enough, the chunks stay apart and every write spares the others |
| `AggfsGrowth.GrownChunkOverwrites` | aggfs/src/store.rs:47-101 | operations from an empty store on after which registering a larger size lets a write reach another file's byte |
| `AggfsGrowth.NeighbourOverwritesGrown` | aggfs/src/store.rs:47-101 | operations from an empty store on after which a file that has grown into free space loses a byte to the first write of another file |
| `AggfsGrowth.UnlinkedFileOverwrites` | aggfs/src/bin/aggfsd.rs:635 | operations from an empty store on after which removing chunk 0 of a file does |
| `AggfsPmem.PmemStore.constructor` | aggfs/src/store.rs:36-44 | a new store is empty |
| `AggfsPmem.PmemStore.EnsureChunk` | aggfs/src/store.rs:60-80 | the bump allocation refines its specification |
| `AggfsPmem.PmemStore.Write` | aggfs/src/store.rs:83-101 | a write in place that does not leave the region refines its specification, also after a file has grown |
| `AggfsPmem.PmemStore.Read` | aggfs/src/store.rs:104-123 | a read of valid bytes in the region refines its specification |
| `AggfsPmem.PmemStore.Remove` | aggfs/src/store.rs:126-131 | removal refines its specification and tells whether the chunk existed |
| `AggfsClient.FsClient.Open` | aggfs/src/client.rs:92-106 | opening takes the first free descriptor and leaves the others |
| `AggfsClient.FsClient.Close` | aggfs/src/client.rs:109-116 | closing frees exactly that descriptor, or reports that it is not open |
| `AggfsClient.FsClient.Pwrite` | aggfs/src/client.rs:119-156 | the chunked loop writes the whole buffer into the flat file, and whatever the outcome changes no written byte outside the range, in any file |
| `AggfsClient.FsClient.Pread` | aggfs/src/client.rs:159-205 | the chunked loop returns what a read of the flat file returns |
| `AggfsClient.ReadsBack` | aggfs/src/client.rs:119-205 | a flat read of a range that was written returns exactly the bytes written |

## Left out

- Weak memory ordering, fences, prefetching and cache-line demotion.
- Wrap-around of 64-bit counters and positions. Payload lengths and call ids are assumed to fit their 32-bit fields, call ids to be below the response flag.
- SCQ: the packing of cycle, safe bit and index into one word, the `nonempty` variant of the operations, and every progress claim, in particular that of the threshold.
- DC and RC: RDMA verbs, doorbells, completion and receive queues. The network delivers batches in order and intact.
- DcRuns.StreamAgreement: a batch lands when it is processed, so it cannot be overwritten; DcLanding.LandedStreamsAgree lets it land before.
- DcRuns.ArrivalReachesBatchEnd: the same holds of it.
- DcPairingRuns.ResponsesAnswerTheirCalls: the same holds of it; DcLandingPairing.LandedResponsesAnswerTheirCalls carries it over to earlier landings.
- DC: creation and connection of endpoints while others run.
- DC and RC: rings of unequal sizes in the DC stream theorems and in the RC position laws.
- RcReserve.CalledHasReserve: counts what is in flight from the credit returned, as the code does; RcReserveRuns.CalledHasSpace counts it from what the peer has processed.
- RcReserve.ReplyReserveExactly: likewise, with RcReserveRuns.RepliesHaveSpace.
- RcReserve.ReplySnugExactly: likewise.
- RC: ring bytes; batches are modelled by their metadata and header fields.
- DcScheduler.Context.FlushEndpoints: endpoints are values in a map, so aliasing of endpoint objects is not captured; doorbell and signalling counters are left out.
- DcDirtyList.DirtyList.PushBack: endpoint ids are below the largest 32-bit word, which marks the end of the list.
- ipc: several clients share nothing but the scan order of `poll` and `recv`, so one client's lane is modelled and may be served at any time. Connection, disconnection, the layout of shared memory and `call_blocking` are not modelled.
- FetchAdd: disconnection of the receiver. A token is used for at most one reply.
- Jiffy: freeing of the chain at the end, `count_available`, and its own copy of the response ring.
- AggfsStore.Write: gives none where the code would write outside the region (`AggfsStore.Escapes`), which it does not check; AggfsGrowthRuns.AlwaysSafeExactly counts such a write as unsafe.
- AggfsStore.Read: gives nothing where the valid bytes of a chunk would lie outside the region, which the code does not check.
- aggfs: directories, metadata, hashing of paths, and the remote path of a request, which has the effect of the local one. Chunk indices are assumed to fit 32 bits.
- Queues that are not modelled: `wcq.rs`, `lcrq.rs`, `lprq.rs`, `bbq.rs`, `fastforward.rs`, `lamport.rs`, and `copyrpc/src/ring.rs`, `fastmap`, `inproc`.
- benchkv, metrics, MPI, UCX, bindings, build and plotting scripts.
