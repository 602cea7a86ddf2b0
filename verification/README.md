# The packet-flow layer of tun2socks and the proxy URI codec

A Dafny model of the event-driven packet layer under `PacketProcessor/tun2socks-iOS`, and of the URI
printer and parser in `MainApp/Models/VPNModels/Proxy.swift`, with proofs of what they promise.
`dafny verify dfyconfig.toml` checks everything.

* **Common.** `Basics` holds the types every part uses; `Memory` is byte memory as a value.
* **Job list and interfaces.** `Pending` is the last-in-first-out list of pending jobs. `PassInterface`
  and `Handshake` are the packet handshake with cancellation; `Transfer` is the handshake without it,
  which three source files share, and `EventLoop` keeps its jobs on a list shared with other components.
* **Fair queue.** `FairQueue` is the scheduler on values: every handler and every event a function.
  `FairQueueSafety` and `FairQueueRuns` prove its invariant on every run; `FairQueueHistory`,
  `FairQueueFairness`, `FairQueueStarvation`, `FairQueueProgress` and `FairQueueIdeal` prove conservation,
  fairness, a bound on waiting, coming to rest, and the same order as a queue with unbounded clocks.
  `FairQueueDuel` and `FairQueueFallback` prove exactly when that order is lost, and that it can be lost
  under every limit. `FairQueueObject` is the same code over objects, up to the event loop, with 64-bit
  clocks and an ordered list of flows in the place of the search tree.
* **Framing pipeline.** `Ring` and `ChunkBuffer` are the circular packet buffer over real bytes.
  `Flow`, `FlowObject` and `FlowSystem` are writer, encoder, buffer and stream sender over one memory;
  `FlowSafety` and `FlowRuns` prove their invariant and the end-to-end theorem. `Framing`, `Decoder`,
  `DecoderRuns` and `DecoderObject` are the receiving end. `FlowJobs` and `DecoderJobs` put both on the
  job list they share with the rest of the program.
* **Proxy URIs.** `Text`, `Base64` and `Percent` are the string operations, pinned to their alphabets
  (`Alphabets`) and to UTF-8 (`Unicode`); `ProxyUri` is the printer and parser, `ProxyRoundTrip` the round
  trips, `ProxyReading` what every branch of the parser makes of any text that takes it, and `ProxyObject`
  the code that assigns fields one by one.

Runs are sequences of events: the event loop runs the top job, or the environment makes a call it is
allowed to make. The framing pipeline is first proved for pending jobs in any order; `FlowJobs` and
`DecoderJobs` show that every run of the real list is such a run. Calls into code outside the layer, such
as a user's done handler, are events of their own. The assertions of the source are preconditions of the
methods, and the `ExecuteJob` methods show that they hold whichever job comes to the top.

Where code and documentation differ, the code is followed: `PacketProtoDecoder_Reset` is documented to
treat the next data received as a new stream, and that includes a chunk that the provider has already
written but whose done job has not run yet.

## Model

| member | source | states |
|---|---|---|
| `Pending.PendingGroup.SetJob` | PacketProcessor/tun2socks-iOS/base/BPending.c:137-154 | A job that is set goes on top of the list, once, and leaves the others in their order. |
| `Pending.PendingGroup.UnsetJob` | PacketProcessor/tun2socks-iOS/base/BPending.c:156-171 | Unsetting removes exactly that job, and does nothing when it is not pending. |
| `Pending.PendingGroup.ExecuteJob` | PacketProcessor/tun2socks-iOS/base/BPending.c:66-88 | The top job, and no other, is taken off and run. |
| `Pending.SetPushes` | PacketProcessor/tun2socks-iOS/base/BPending.c:137-154 | Setting x changes the pending state of x alone and puts x above every other job. |
| `Pending.UnsetKeepsOthers` | PacketProcessor/tun2socks-iOS/base/BPending.c:156-171 | Unsetting x changes the pending state of x alone, and what is above any other job loses x alone. |
| `Pending.PopTop` | PacketProcessor/tun2socks-iOS/base/BPending.c:66-88 | A job is reached only after everything above it has gone: running the top removes it from above every other job. |
| `PassInterface.PacketPassInterface.SenderSend` | PacketProcessor/tun2socks-iOS/flow/PacketPassInterface.h:181-198 | A send makes the operation job pending and starts with no cancellation requested. |
| `PassInterface.PacketPassInterface.ProviderDone` | PacketProcessor/tun2socks-iOS/flow/PacketPassInterface.h:149-162 | Done withdraws a pending cancel request and makes the done job pending. |
| `PassInterface.PacketPassInterface.SenderRequestCancel` | PacketProcessor/tun2socks-iOS/flow/PacketPassInterface.h:200-227 | Cancelling a pending packet turns its operation into a done; cancelling a packet in progress asks the provider; a second request does nothing. |
| `PassInterface.CancelLinks` | PacketProcessor/tun2socks-iOS/flow/PacketPassInterface.h:200-227 | A first cancellation turns a pending operation into a done on top of the list, or puts the job that asks the provider on top; any other changes no job. Exactly the jobs the new state calls for are pending, and no job of another interface is touched. |
| `PassInterface.FinishLinks` | PacketProcessor/tun2socks-iOS/flow/PacketPassInterface.h:149-162 | After Done the state still determines which of the three jobs are pending. |
| `Handshake.StepKeepsInv` | PacketProcessor/tun2socks-iOS/flow/PacketPassInterface.h:149-227 | Every call and every executed job keeps the relation between state, pending jobs, what the provider received and how often the sender was told. |
| `Handshake.RunIsCorrect` | PacketProcessor/tun2socks-iOS/flow/PacketPassInterface.c:32-68 | On every run no job handler meets a state its assertion excludes; the provider received the packets not withdrawn, in order; every packet but the one in progress had exactly one done; a packet is asked to be cancelled at most once and only while the provider has it, and if that was requested the request is pending or was delivered. |
| `Handshake.AbortAsksProvider` | PacketProcessor/tun2socks-iOS/flow/PacketPassInterface.h:223-226 | A first cancellation while the provider holds the packet is the next thing the event loop tells the provider. |
| `Handshake.WithdrawnNeverReceived` | PacketProcessor/tun2socks-iOS/flow/PacketPassInterface.h:214-222 | A packet cancelled while its operation is pending never reaches the provider, whatever follows, and still produces a done. |
| `Handshake.SettledForever` | PacketProcessor/tun2socks-iOS/flow/PacketPassInterface.h:181-227 | What became of a packet, handed over or withdrawn, never changes later. |
| `Transfer.LendInterface.Start` | PacketProcessor/tun2socks-iOS/flow/PacketPassInterface.h:181-198 | A region is offered only when none is out and within the MTU, none is empty on a stream, and the operation job becomes pending. |
| `Transfer.LendInterface.Finished` | PacketProcessor/tun2socks-iOS/flow/StreamRecvInterface.h:123-136 | A report is within the region, is not empty on a stream, and makes the done job pending. |
| `EventLoop.TakenOff` | PacketProcessor/tun2socks-iOS/flow/PacketRecvInterface.c:32-56 | When a job of an interface is on top of the shared list, the assertion on its state holds, and after the handler the list calls for the right jobs again. |
| `EventLoop.ArmedAgrees` | PacketProcessor/tun2socks-iOS/flow/PacketRecvInterface.h:155-168 | Offering a region on one interface leaves on the shared list exactly the jobs that all phases call for. |
| `EventLoop.ReportAgrees` | PacketProcessor/tun2socks-iOS/flow/PacketRecvInterface.h:123-136 | So does giving one back. |
| `FairQueueSafety.ChargeExact` | PacketProcessor/tun2socks-iOS/flow/PacketPassFairQueue.c:79-116 | Charging yields the true integer time - subtract + amount inside the limit despite the wrap below zero; every other clock becomes max(0, time - subtract); no queued clock is below what is subtracted, so the tree stays in order. |
| `FairQueueSafety.RebaseReachesZero` | PacketProcessor/tun2socks-iOS/flow/PacketPassFairQueue.c:88-112 | When a clock would pass the limit, the least queued clock ends at zero, and the charged one at no more than the amount. |
| `FairQueueSafety.InsertSorted` | PacketProcessor/tun2socks-iOS/flow/PacketPassFairQueue.c:39-47 | Inserting under (time, address) keeps the tree strictly ordered. |
| `FairQueueSafety.EnqueueKeeps` | PacketProcessor/tun2socks-iOS/flow/PacketPassFairQueue.c:153-175 | Queuing a flow, raised or remembered, keeps clocks, tree, roles and ports consistent. |
| `FairQueueSafety.OperationReady` | PacketProcessor/tun2socks-iOS/flow/PacketPassFairQueue.c:118-124 | Where input_handler_send calls schedule, nothing is remembered and the output is idle, as schedule asserts. |
| `FairQueueSafety.DoScheduleKeepsInv` | PacketProcessor/tun2socks-iOS/flow/PacketPassFairQueue.c:118-137 | Scheduling the least flow establishes the invariant again, with every queued clock at or above the clock being sent. |
| `FairQueueSafety.TopIsExpected` | PacketProcessor/tun2socks-iOS/flow/PacketPassFairQueue.c:118-205 | Whatever job is on top, the assertions of its handler hold. |
| `FairQueueSafety.StepKeepsInv` | PacketProcessor/tun2socks-iOS/flow/PacketPassFairQueue.c:118-351 | Every event, from a user, the output or the event loop, keeps the whole invariant. |
| `FairQueueRuns.RunIsSafe` | PacketProcessor/tun2socks-iOS/flow/PacketPassFairQueue.c:118-217 | On every run: previous implies the schedule job, which implies nothing sending; a flow is busy iff queued or sending; the output is idle iff nothing is sent; a non-empty queue has a send or the schedule job outstanding; no handler assertion fails. |
| `FairQueueRuns.SendsLeast` | PacketProcessor/tun2socks-iOS/flow/PacketPassFairQueue.c:125-136 | The flow sent is before every flow that stays queued, in (time, address). |
| `FairQueueRuns.ScheduleSeesTheTruth` | PacketProcessor/tun2socks-iOS/flow/PacketPassFairQueue.c:139-151 | When the schedule job runs, a flow still remembered has nothing pending: it really did not send again. |
| `FairQueueRuns.ResendIsSeen` | PacketProcessor/tun2socks-iOS/flow/PacketPassFairQueue.c:162-169 | A flow that sends again after its done is queued with that packet and an unraised clock before the schedule job picks, whatever else happens in between. |
| `FairQueueHistory.StepBalances` | PacketProcessor/tun2socks-iOS/flow/PacketPassFairQueue.c:118-217 | Every event keeps the books: submitted is passed plus held, passed is acknowledged plus owed. |
| `FairQueueHistory.RunConserves` | PacketProcessor/tun2socks-iOS/flow/PacketPassFairQueue.c:118-217 | On every run, for every live flow, what was passed to the output is what was submitted, in order, each once, short of at most one packet, with one done for each. |
| `FairQueueFairness.ClockStep` | PacketProcessor/tun2socks-iOS/flow/PacketPassFairQueue.c:79-180 | The effect of any one step on any one clock. |
| `FairQueueFairness.NowIsLeast` | PacketProcessor/tun2socks-iOS/flow/PacketPassFairQueue.c:52-77 | While the queue is busy the current time is attained by, and is the least of, the clocks that take part. |
| `FairQueueFairness.VirtualTimeMonotone` | PacketProcessor/tun2socks-iOS/flow/PacketPassFairQueue.c:52-77 | Across every step of a busy period the current time, corrected by what a rebase subtracts, does not decrease. |
| `FairQueueFairness.BackloggedGap` | PacketProcessor/tun2socks-iOS/flow/PacketPassFairQueue.c:79-180 | Between two flows that stay backlogged the gap never exceeds the larger of the starting gap and packet_weight + MTU, and the clocks measure service exactly. |
| `FairQueueFairness.FairShare` | PacketProcessor/tun2socks-iOS/flow/PacketPassFairQueue.c:118-217 | The weighted service of two backlogged flows differs by at most the starting gap plus that maximum. |
| `FairQueueFairness.OneSidedShare` | PacketProcessor/tun2socks-iOS/flow/PacketPassFairQueue.c:52-217 | While one flow stays backlogged, any other, leaving and returning as it likes, is served at most as much as it, plus its lead over the clock the other takes part with, plus one maximal packet. |
| `FairQueueStarvation.ChanceStep` | PacketProcessor/tun2socks-iOS/flow/PacketPassFairQueue.c:79-137 | The number of times another flow can still be picked first never grows, and drops when it is picked. |
| `FairQueueStarvation.NoStarvation` | PacketProcessor/tun2socks-iOS/flow/PacketPassFairQueue.c:79-199 | While a flow waits and no flow is created, at most (n-1)*((time - now)/packet_weight + 1) other packets are sent, through enqueues and rebases. |
| `FairQueueProgress.RunsDown` | PacketProcessor/tun2socks-iOS/flow/PacketPassFairQueue.c:118-217 | Left to itself and the provider, the queue makes at most the counted number of steps, and where it cannot go on every flow is idle and nothing is queued, sending or pending. |
| `FairQueueProgress.AllPassed` | PacketProcessor/tun2socks-iOS/flow/PacketPassFairQueue.c:118-217 | At rest after any run from the empty queue, every flow has had exactly what was submitted passed on, in order, with one done for each packet. |
| `FairQueueIdeal.StepStaysCoupled` | PacketProcessor/tun2socks-iOS/flow/PacketPassFairQueue.c:52-180 | One step keeps the bounded queue and the unbounded one equal up to one common base on all clocks that take part, and makes them send the same packet; a fall back of the current time included, if the flow that enters did not lose track. |
| `FairQueueIdeal.AlignedCouples` | PacketProcessor/tun2socks-iOS/flow/PacketPassFairQueue.c:52-77 | Two queues that are idle and agree on the lead of every flow over one flow are equal up to a common base, as far as can be seen once that flow enters, whatever happened before. |
| `FairQueueIdeal.SameOrderWhenAligned` | PacketProcessor/tun2socks-iOS/flow/PacketPassFairQueue.c:52-180 | On every run from any state along which the two queues agree on the leads over the entering flow at each fall back, they send the same packets in the same order and end in the same state but for the clocks. |
| `FairQueueIdeal.SameOrderAsIdeal` | PacketProcessor/tun2socks-iOS/flow/PacketPassFairQueue.c:52-180 | That is so, for any limit, on every run in which no flow with clock 0 meets a fall back after a rebase: a condition on the bounded queue alone. |
| `FairQueueIdeal.SameOrderInBusyPeriod` | PacketProcessor/tun2socks-iOS/flow/PacketPassFairQueue.c:52-180 | In particular the two send alike within every busy period, started in any state that satisfies the invariant. |
| `FairQueueDuel.Win` | PacketProcessor/tun2socks-iOS/flow/PacketPassFairQueue.c:39-77 | Two flows that keep sending can choose packet lengths that bring every difference in their clocks to light: in the end the two queues pick differently. |
| `FairQueueFallback.Settle` | PacketProcessor/tun2socks-iOS/flow/PacketPassFairQueue.c:118-217 | From any state in which one flow went first and another has a different lead over it in the two queues, such a duel can be reached without the queue ever being idle. |
| `FairQueueFallback.FallbackExactly` | PacketProcessor/tun2socks-iOS/flow/PacketPassFairQueue.c:76 | From a fall back on, the bounded and the ideal queue send alike throughout the busy period it starts, however that goes on, if and only if they agree on the lead of every flow over the flow that enters; with an MTU of 0, for clocks that are multiples of the weight. |
| `FairQueueFallback.NextFallbackExactly` | PacketProcessor/tun2socks-iOS/flow/PacketPassFairQueue.c:52-180 | For every limit and every MTU: after any run from the empty queue on which the leads agreed at each fall back, that condition decides exactly whether the two queues can part at the next one. |
| `FairQueueFallback.FallbackChangesOrder` | PacketProcessor/tun2socks-iOS/flow/PacketPassFairQueue.c:76-112 | For every valid limit there is a run from the empty queue on which the bounded queue and the ideal queue send different packets. |
| `FairQueueObject.PacketPassFairQueue.Init` | PacketProcessor/tun2socks-iOS/flow/PacketPassFairQueue.c:219-266 | Initialisation fails exactly when output MTU + packet_weight exceeds the limit; on a fresh output and an empty job list it gives the empty queue on values, with its invariant. |
| `FairQueueObject.PacketPassFairQueue.GetCurrentTime` | PacketProcessor/tun2socks-iOS/flow/PacketPassFairQueue.c:52-77 | The method over the objects computes the current time of the abstract queue. |
| `FairQueueObject.PacketPassFairQueue.SubtractFromAll` | PacketProcessor/tun2socks-iOS/flow/PacketPassFairQueue.c:99-111 | The loop rewrites every clock in 64-bit arithmetic; no queued flow is clamped. |
| `FairQueueObject.PacketPassFairQueue.IncrementSentFlow` | PacketProcessor/tun2socks-iOS/flow/PacketPassFairQueue.c:79-116 | The in-place charge computes exactly the charge on values; its assertion about queued flows holds. |
| `FairQueueObject.PacketPassFairQueue.ScheduleJobHandler` | PacketProcessor/tun2socks-iOS/flow/PacketPassFairQueue.c:139-151 | The handler acts as the schedule step on values and keeps the objects consistent. |
| `FairQueueObject.PacketPassFairQueue.InputHandlerSend` | PacketProcessor/tun2socks-iOS/flow/PacketPassFairQueue.c:153-180 | The handler acts as the send step on values; its assertions are its preconditions. |
| `FairQueueObject.PacketPassFairQueue.OutputHandlerDone` | PacketProcessor/tun2socks-iOS/flow/PacketPassFairQueue.c:182-217 | The handler acts as the completion step on values: charge, remember, schedule job first, done job on top. |
| `FairQueueObject.PacketPassFairQueue.FlowInit` | PacketProcessor/tun2socks-iOS/flow/PacketPassFairQueue.c:296-321 | A new flow starts with clock 0, outside the queue, and changes no other flow. |
| `FairQueueObject.PacketPassFairQueue.FlowFree` | PacketProcessor/tun2socks-iOS/flow/PacketPassFairQueue.c:323-351 | Freeing removes the flow from the slots, the tree, the list and the job list, and nothing else. |
| `FairQueueObject.PacketPassFairQueue.FlowRequestCancel` | PacketProcessor/tun2socks-iOS/flow/PacketPassFairQueue.c:372-384 | The request goes to the output, is the event on values, and changes nothing in the queue. |
| `FairQueueObject.PacketPassFairQueue.FlowSend` | PacketProcessor/tun2socks-iOS/flow/PacketPassInterface.h:181-198 | A send on the input of a flow is the user's event on values. |
| `FairQueueObject.PacketPassFairQueue.OutputCompletes` | PacketProcessor/tun2socks-iOS/flow/PacketPassInterface.h:149-162 | A done on the output is the provider's event on values. |
| `FairQueueObject.PacketPassFairQueue.ExecuteJob` | PacketProcessor/tun2socks-iOS/base/BPending.c:66-88 | One turn of the event loop over the objects: no handler assertion fails, the new state is the abstract step, and the invariant holds again. |
| `Ring.SubmitAppends` | PacketProcessor/tun2socks-iOS/structure/ChunkBuffer2.h:245-278 | Submitting appends the bytes of the input region to the contents and leaves the packet being read where it was; the cached destinations are what a full update would give. |
| `Ring.ConsumeRemoves` | PacketProcessor/tun2socks-iOS/structure/ChunkBuffer2.h:280-315 | Consuming removes exactly the packet the output refers to; the input destination does not move and its room does not shrink. |
| `Ring.RetreatKeepsInput` | PacketProcessor/tun2socks-iOS/structure/ChunkBuffer2.h:306-309 | Skipping the update of the input when the data is not wrapped is right. |
| `Ring.FillKeeps` | PacketProcessor/tun2socks-iOS/structure/ChunkBuffer2.h:154-183 | Whatever is written into the input region leaves every stored packet unchanged. |
| `Ring.EndLeavesRoom` | PacketProcessor/tun2socks-iOS/structure/ChunkBuffer2.h:158-163 | The branch for an end behind which no packet can ever fit is taken only when the whole buffer is too small. |
| `Ring.RoomForNum` | PacketProcessor/tun2socks-iOS/structure/ChunkBuffer2.h:69-70 | A buffer of the computed size takes another packet whenever it holds fewer than num, however they are laid out. |
| `Ring.BlocksForIs` | PacketProcessor/tun2socks-iOS/structure/ChunkBuffer2.h:203-223 | The computed size is one header block and the bytes rounded up to blocks, for num packets and one more. |
| `Ring.InitIsEmpty` | PacketProcessor/tun2socks-iOS/structure/ChunkBuffer2.h:225-243 | A fresh buffer is empty and its first input region starts behind the first header; the room it reports is right if and only if its bytes fit an int. |
| `Ring.RoomIsExact` | PacketProcessor/tun2socks-iOS/structure/ChunkBuffer2.h:176-178 | The room reported in an int is the room there is if and only if its bytes fit one. |
| `ChunkBuffer.ChunkBuffer2.CalcBlocks` | PacketProcessor/tun2socks-iOS/structure/ChunkBuffer2.h:203-223 | The computation refuses exactly the products an int cannot hold. |
| `ChunkBuffer.ChunkBuffer2.SubmitPacket` | PacketProcessor/tun2socks-iOS/structure/ChunkBuffer2.h:245-278 | The in-place submit is the submit on values; its assertions hold. |
| `ChunkBuffer.ChunkBuffer2.ConsumePacket` | PacketProcessor/tun2socks-iOS/structure/ChunkBuffer2.h:280-315 | The in-place consume is the consume on values; its assertions hold. |
| `Framing.ReadStream` | PacketProcessor/tun2socks-iOS/protocol/packetproto.h:36-39 | Encoded packets are read back, whatever follows them. |
| `Framing.ReadIsExact` | PacketProcessor/tun2socks-iOS/protocol/packetproto.h:36-39 | Reading any bytes loses none: they are the encoding of what was read and the rest. |
| `Framing.ReadPrefix` | PacketProcessor/tun2socks-iOS/protocol/packetproto.h:36-39 | What is read from a part of an encoding is the first packets of it, without error. |
| `Framing.EncodeIs` | PacketProcessor/tun2socks-iOS/protocol/packetproto.h:36-39 | On the wire a packet stands behind its length in 16 bits, the low byte first. |
| `Framing.ReadIs` | PacketProcessor/tun2socks-iOS/flow/PacketProtoDecoder.c:57-75 | What a reader makes of the first two bytes of any stream: too long, incomplete, or that many bytes as the first packet. |
| `Decoder.StepKeepsInv` | PacketProcessor/tun2socks-iOS/flow/PacketProtoDecoder.c:46-182 | Every event, including a reset at any moment, keeps: one of receive and send outstanding, positive receive length, lent bytes intact, bytes received equal encoding of delivered plus buffered. |
| `Decoder.MakeRoomKeeps` | PacketProcessor/tun2socks-iOS/flow/PacketProtoDecoder.c:89-98 | A buffer without a whole packet always has room for more after the move, and the buffered bytes survive it. |
| `Decoder.ProcessIs` | PacketProcessor/tun2socks-iOS/flow/PacketProtoDecoder.c:46-85 | What process_data makes of the first two buffered bytes: too long, not whole, or that many bytes behind them lent to the output where they lie. |
| `Decoder.ReceivesWhere` | PacketProcessor/tun2socks-iOS/flow/PacketProtoDecoder.c:87-99 | It goes on receiving at the beginning after an error, behind what was moved down if the end was reached, and behind what it has otherwise, up to the end of the buffer. |
| `DecoderRuns.RunIsSafe` | PacketProcessor/tun2socks-iOS/flow/PacketProtoDecoder.c:71-128 | On every run with resets: exactly one of receive and send is outstanding, the receive is for a positive length behind all live bytes, the lent packet is unchanged. |
| `DecoderRuns.AgreesWithReader` | PacketProcessor/tun2socks-iOS/flow/PacketProtoDecoder.c:46-105 | For any bytes at all, whenever the decoder waits it has delivered exactly what a reader of the whole input would have read, and nothing more while it sends. |
| `DecoderRuns.ErrorExactly` | PacketProcessor/tun2socks-iOS/flow/PacketProtoDecoder.c:64-69 | An error is reported exactly when everything before a header above the MTU has been delivered. |
| `DecoderRuns.RoundTrip` | PacketProcessor/tun2socks-iOS/flow/PacketProtoDecoder.c:46-119 | For packets that fit and any cut of their encoding into chunks: no error, the packets delivered are a prefix, and all of them once all bytes are in. |
| `DecoderRuns.RunsDown` | PacketProcessor/tun2socks-iOS/flow/PacketProtoDecoder.c:46-128 | Without new input the decoder takes at most the counted number of steps, whatever the bytes, and where it stops it waits for input with everything delivered. |
| `DecoderJobs.StepKeepsScheduled` | PacketProcessor/tun2socks-iOS/flow/PacketProtoDecoder.c:46-128 | Every call and every job leaves on the list exactly the jobs the two interfaces call for. |
| `DecoderJobs.RunIsDecoderRun` | PacketProcessor/tun2socks-iOS/base/BPending.c:66-88 | Every run of the event loop, with any jobs of others on the list, is a legal run of the decoder, so no handler assertion fails. |
| `DecoderObject.PacketProtoDecoder.MoveDown` | PacketProcessor/tun2socks-iOS/flow/PacketProtoDecoder.c:92 | The overlapping move copies the buffered bytes to the front unchanged. |
| `DecoderObject.PacketProtoDecoder.ProcessData` | PacketProcessor/tun2socks-iOS/flow/PacketProtoDecoder.c:46-105 | The in-place method is the step on values, schedules the job of the interface it used, and says whether to report an error. |
| `DecoderObject.PacketProtoDecoder.RunInputDone` | PacketProcessor/tun2socks-iOS/flow/PacketProtoDecoder.c:107-119 | The done job of the input acts as the step on values, on the fields and on the job list. |
| `DecoderObject.PacketProtoDecoder.RunOutputDone` | PacketProcessor/tun2socks-iOS/flow/PacketProtoDecoder.c:121-128 | The same for the done job of the output. |
| `DecoderObject.PacketProtoDecoder.ExecuteJob` | PacketProcessor/tun2socks-iOS/base/BPending.c:66-88 | One turn of the event loop over the object: whichever job is on top its handler may run, and state and list are those of the machine on values. |
| `DecoderObject.PacketProtoDecoder.InputCompletes` | PacketProcessor/tun2socks-iOS/flow/StreamRecvInterface.h:123-136 | What the provider of the stream writes and reports is its event on values. |
| `DecoderObject.PacketProtoDecoder.OutputCompletes` | PacketProcessor/tun2socks-iOS/flow/PacketPassInterface.h:149-162 | A done of the receiver is its event on values. |
| `DecoderObject.PacketProtoDecoder.Reset` | PacketProcessor/tun2socks-iOS/flow/PacketProtoDecoder.c:176-182 | Reset drops what is buffered and moves nothing else. |
| `FlowSafety.StepKeepsInv` | PacketProcessor/tun2socks-iOS/flow/PacketProtoFlow.c:35-55 | Every event of the flow, jobs in any order, keeps who holds which region and the account of every byte. |
| `FlowSafety.Ri1DoneKeepsInv` | PacketProcessor/tun2socks-iOS/flow/PacketProtoEncoder.c:51-64 | The header written in front of the packet makes the region its encoding. |
| `FlowSafety.TakenIsNext` | PacketProcessor/tun2socks-iOS/flow/PacketStreamSender.c:36-48 | The bytes lent to the transport are the next unsent bytes of the first packet. |
| `FlowRuns.WireIsPrefix` | PacketProcessor/tun2socks-iOS/flow/PacketProtoFlow.c:35-55 | The wire carries a prefix of the encoding of what was written, and all of it when the flow is drained. |
| `FlowRuns.FlowControl` | PacketProcessor/tun2socks-iOS/flow/PacketBuffer.c:40-82 | A receive is outstanding iff there is room for a packet of the MTU, a send iff there is a packet; with no job left one of writer and transport can go on. |
| `FlowRuns.RunAccepts` | PacketProcessor/tun2socks-iOS/flow/PacketBuffer.c:84-123 | With the buffer allocated for num packets, no run makes a quiet flow refuse a packet while fewer than num wait. |
| `FlowRuns.StepWorks` | PacketProcessor/tun2socks-iOS/flow/PacketProtoFlow.c:35-55 | Every step that is not the user's leaves strictly less work. |
| `FlowRuns.RunsDown` | PacketProcessor/tun2socks-iOS/flow/PacketProtoFlow.c:35-55 | Without the user a run has at most the counted number of steps, and where it cannot go on everything written is on the wire. |
| `FlowRuns.EndToEnd` | PacketProcessor/tun2socks-iOS/flow/PacketProtoFlow.c:35-55 | From writer to decoder: at every moment of every interleaving the packets delivered are a prefix of those written, byte for byte and without error, and all of them once drained, given decoder MTU >= flow MTU. |
| `FlowRuns.EndToEndAtRest` | PacketProcessor/tun2socks-iOS/flow/PacketProtoFlow.c:35-55 | Where neither end can go on by itself and the stream has handed over what is on the wire, exactly the packets written have been delivered. |
| `FlowJobs.StepKeepsScheduled` | PacketProcessor/tun2socks-iOS/flow/PacketRecvInterface.h:123-168 | Every call and every job of the flow leaves on the shared list exactly the jobs its four interfaces call for. |
| `FlowJobs.JobFires` | PacketProcessor/tun2socks-iOS/flow/PacketRecvInterface.c:32-56 | Whichever job of the four interfaces is on top, its interface is in the state its handler asserts. |
| `FlowJobs.RunIsFlowRun` | PacketProcessor/tun2socks-iOS/base/BPending.c:66-88 | Every run of the event loop, in the order of its list and with any jobs of others on it, is a legal run of the flow, so all that is proved of flow runs holds for it. |
| `FlowObject.PacketProtoEncoder.InputHandlerDone` | PacketProcessor/tun2socks-iOS/flow/PacketProtoEncoder.c:51-64 | The length is stored in front, the low byte first, and the report is longer by the header. |
| `FlowObject.PacketBuffer.Init` | PacketProcessor/tun2socks-iOS/flow/PacketBuffer.c:84-123 | Initialisation fails exactly when the block count overflows; otherwise the first receive is outstanding, and the buffer is in order if the bytes of its blocks fit an int too. |
| `FlowObject.PacketBuffer.InputHandlerDone` | PacketProcessor/tun2socks-iOS/flow/PacketBuffer.c:40-61 | Submits, receives again if there is room, sends if the buffer was empty, in that order. |
| `FlowObject.PacketBuffer.OutputHandlerDone` | PacketProcessor/tun2socks-iOS/flow/PacketBuffer.c:63-82 | Consumes, receives if the buffer was full and has room now, sends the next packet if there is one. |
| `FlowObject.PacketStreamSender.SendData` | PacketProcessor/tun2socks-iOS/flow/PacketStreamSender.c:36-48 | Sends what is left of the packet, or finishes it. |
| `FlowObject.PacketStreamSender.OutputHandlerDone` | PacketProcessor/tun2socks-iOS/flow/PacketStreamSender.c:65-77 | Advances by what the stream took and goes on. |
| `FlowSystem.PacketProtoFlow.Init` | PacketProcessor/tun2socks-iOS/flow/PacketProtoFlow.c:35-55 | In front of an output whose MTU is at least the encoded input MTU, the stages wired as in the source start in the initial state of the flow on values, with its invariant if the bytes of the buffer fit an int, and with the job list in order. |
| `FlowSystem.PacketProtoFlow.Fill` | PacketProcessor/tun2socks-iOS/flow/BufferWriter.c:75-93 | What the user writes into the packet is its event on values. |
| `FlowSystem.PacketProtoFlow.Ri2Done` | PacketProcessor/tun2socks-iOS/flow/PacketBuffer.c:40-61 | The job over the wired objects does what the step of the flow does on values, to the objects and to the job list. |
| `FlowSystem.PacketProtoFlow.PiDone` | PacketProcessor/tun2socks-iOS/flow/PacketBuffer.c:63-82 | The same for the done of a sent packet. |
| `FlowSystem.PacketProtoFlow.SpiDone` | PacketProcessor/tun2socks-iOS/flow/PacketStreamSender.c:65-77 | The same for the done of a partial write. |
| `FlowSystem.PacketProtoFlow.ExecuteJob` | PacketProcessor/tun2socks-iOS/base/BPending.c:66-88 | One turn of the event loop over the wired objects: whichever job is on top its handler may run, and objects and list are those of the machine on values. |
| `Text.SplitJoin` | MainApp/Models/VPNModels/Proxy.swift:367-368 | Splitting undoes joining when no part holds the separator. |
| `Text.ParseDecimal` | MainApp/Models/VPNModels/Proxy.swift:345-348 | Every printed Int is read back. |
| `Text.SplitIs` | MainApp/Models/VPNModels/Proxy.swift:301-315 | The first part ends at the first separator. |
| `Text.DecimalIs` | MainApp/Models/VPNModels/Proxy.swift:214 | A number is printed with the ten digits, the last for its remainder, and a minus sign if it is negative. |
| `Text.ParsesIs` | MainApp/Models/VPNModels/Proxy.swift:345-348 | One more digit is ten times as much and that digit. |
| `Text.ParseIntReads` | MainApp/Models/VPNModels/Proxy.swift:345-348 | Digits behind an optional sign are a number, if it fits 64 bits. |
| `Text.ParseIntRefuses` | MainApp/Models/VPNModels/Proxy.swift:345-348 | Nothing else is. |
| `Text.LowerIsAlphabet` | MainApp/Models/VPNModels/Proxy.swift:336 | Lower case is the alphabet, letter by letter; nothing else changes. |
| `Unicode.TextExactly` | MainApp/Models/VPNModels/Proxy.swift:448-450 | A byte string is a text if and only if it is the UTF-8 encoding of a sequence of Unicode scalar values, written from their code points. |
| `Base64.UrlSafeRoundTrip` | MainApp/Models/VPNModels/Proxy.swift:441-461 | Unpadded URL-safe base64 of every text decodes to that text. |
| `Base64.UrlSafeDigits` | MainApp/Models/VPNModels/Proxy.swift:455-461 | The encoding holds letters, digits, minus and underscore only, so no delimiter. |
| `Base64.DigitsAreTable` | MainApp/Models/VPNModels/Proxy.swift:455-461 | The digits are those of the table of RFC 4648, in both directions. |
| `Base64.DigitsAreBits` | MainApp/Models/VPNModels/Proxy.swift:455-461 | Three bytes are written as the digits of the same 24-bit number, most significant first. |
| `Base64.BytesAreBits` | MainApp/Models/VPNModels/Proxy.swift:441-453 | Four digits are read as the bytes of the same 24-bit number, and padded groups as its first one or two. |
| `Base64.DecodeExactly` | MainApp/Models/VPNModels/Proxy.swift:448 | Base64 is read if and only if it is groups of four digits of which the last may end in one or two padding characters. |
| `Base64.ColonPasses` | MainApp/Models/VPNModels/Proxy.swift:442-444 | A text with a colon is passed through. |
| `Base64.AlphabetsAlike` | MainApp/Models/VPNModels/Proxy.swift:445 | Minus and underscore are read as plus and slash, which are read too. |
| `Base64.PaddingOptional` | MainApp/Models/VPNModels/Proxy.swift:446-447 | Padding may be left out; a single digit behind the last group is refused. |
| `Base64.PaddedToo` | MainApp/Models/VPNModels/Proxy.swift:441-453 | The padded standard form is read as well. |
| `Base64.NoText` | MainApp/Models/VPNModels/Proxy.swift:448-452 | Bytes that are no text are refused. |
| `Percent.RoundTrip` | MainApp/Models/VPNModels/Proxy.swift:217 | The encoded fragment is restored and holds no '#'. |
| `Percent.EncodeIs` | MainApp/Models/VPNModels/Proxy.swift:217 | A character is left alone if section 3.4 of RFC 3986 allows it in a query, and escaped by its two upper-case hexadecimal digits otherwise. |
| `Percent.HexIs` | MainApp/Models/VPNModels/Proxy.swift:286 | Hexadecimal digits are read in both cases. |
| `Percent.DecodedIs` | MainApp/Models/VPNModels/Proxy.swift:286 | An escape stands for its byte, any other character for itself, and a percent sign without two digits makes the text unreadable. |
| `ProxyRoundTrip.SsRoundTrip` | MainApp/Models/VPNModels/Proxy.swift:212-224 | For an ASCII method and fields that do not begin with a non-ASCII character, import restores a printed ss node if and only if its method is lower-case without colon and "-auth", its host has no at sign, and it validates; the password may hold any delimiter. |
| `ProxyRoundTrip.SsIncomplete` | MainApp/Models/VPNModels/Proxy.swift:213-223 | A node without method or password prints as a text that import refuses. |
| `ProxyRoundTrip.SsPlainImport` | MainApp/Models/VPNModels/Proxy.swift:290-322 | The form with a plain address, its parts not beginning with a non-ASCII character, is imported without validation, and refused exactly when method, password or host holds a colon, the host holds "/?", or the port is 0. |
| `ProxyRoundTrip.SsTextClean` | MainApp/Models/VPNModels/Proxy.swift:328-348 | If method and host come back they were free of the delimiters. |
| `ProxyRoundTrip.ParamsBack` | MainApp/Models/VPNModels/Proxy.swift:380-401 | The query loop sets exactly the optional fields that were printed. |
| `ProxyRoundTrip.CutQuery` | MainApp/Models/VPNModels/Proxy.swift:357-366 | The last question mark and the last slash before it separate main part and query, whatever the main part holds. |
| `ProxyRoundTrip.SsrRoundTrip` | MainApp/Models/VPNModels/Proxy.swift:226-260 | For fields that do not begin with a non-ASCII character, import restores a printed ssr node, with defaults for missing fields, if and only if no main field has a colon, none has a slash or question mark when no query is printed, and it validates. |
| `ProxyReading.SsOneTimeAuth` | MainApp/Models/VPNModels/Proxy.swift:336-339 | The method is read in lower case, cut at its last "-auth", which turns one-time authentication on. |
| `ProxyReading.SsAuthSuffix` | MainApp/Models/VPNModels/Proxy.swift:336-339 | In particular the suffix "-auth" is taken off. |
| `ProxyReading.SsNoAuth` | MainApp/Models/VPNModels/Proxy.swift:340-342 | Without it the method is read in lower case and the option stays as it was. |
| `ProxyReading.SsTextRefused` | MainApp/Models/VPNModels/Proxy.swift:328-348 | A port that is no number is an invalid port; a text without the delimiters is an invalid URI. |
| `ProxyReading.SsAtBetweenColons` | MainApp/Models/VPNModels/Proxy.swift:333-335 | The last at sign must stand between two colons. |
| `ProxyReading.ValidatedExactly` | MainApp/Models/VPNModels/Proxy.swift:151-174 | Validation accepts exactly nodes with name, host, a 16-bit port and a method, and reports what it misses first. |
| `ProxyReading.SsNamed` | MainApp/Models/VPNModels/Proxy.swift:283-287 | The name is what stands between the first and the second hash sign, unescaped. |
| `ProxyReading.PrefixInAnyCase` | MainApp/Models/VPNModels/Proxy.swift:281-351 | The scheme may be in any case. |
| `ProxyReading.OtherSchemes` | MainApp/Models/VPNModels/Proxy.swift:276-405 | Any other scheme, and a dictionary without a name, are refused. |
| `ProxyReading.TextsImported` | MainApp/Models/VPNModels/Proxy.swift:323-327 | Import reads the decoded text in either scheme; an ssr text with a colon need not be encoded. |
| `ProxyReading.Undecodable` | MainApp/Models/VPNModels/Proxy.swift:324-327 | What does not decode, or decodes to a text without a colon, is refused in either scheme. |
| `ProxyReading.PlainTextRead` | MainApp/Models/VPNModels/Proxy.swift:299-322 | In the plain form the user information need not be encoded. |
| `ProxyReading.PlainPortRefused` | MainApp/Models/VPNModels/Proxy.swift:311-320 | A port of the plain form that is no number is refused. |
| `ProxyReading.PlainIgnoresMore` | MainApp/Models/VPNModels/Proxy.swift:303-310 | What stands behind a second at sign of the plain form is ignored. |
| `ProxyReading.PluginRefused` | MainApp/Models/VPNModels/Proxy.swift:294-302 | Plugin parameters are refused. |
| `ProxyReading.CommentExample` | MainApp/Models/VPNModels/Proxy.swift:292-322 | The URI in the comment of the source, without its plugin, is read as meant, field by field. |
| `ProxyReading.SsrFieldsRead` | MainApp/Models/VPNModels/Proxy.swift:357-379 | The six fields of the main part are read in their order, and the query behind them is applied. |
| `ProxyReading.SsrRefused` | MainApp/Models/VPNModels/Proxy.swift:367-373 | A main part without six fields is an invalid URI; a second field that is no number is an invalid port. |
| `ProxyReading.QueryWithoutSlash` | MainApp/Models/VPNModels/Proxy.swift:357-366 | The slash before the question mark may be missing; without a question mark the main part ends at its last slash. |
| `ProxyReading.SsrTextIs` | MainApp/Models/VPNModels/Proxy.swift:226-258 | The text of a complete ssr node, written out. |
| `ProxyReading.NoPair` | MainApp/Models/VPNModels/Proxy.swift:381-384 | A component of the query without exactly one equals sign changes nothing. |
| `ProxyReading.EveryKey` | MainApp/Models/VPNModels/Proxy.swift:385-400 | What every key sets, for every value; any other key sets nothing. |
| `ProxyReading.OtEnable` | MainApp/Models/VPNModels/Proxy.swift:392-393 | The option is off for the number 0, and on for any other number and for what is no number. |
| `ProxyObject.ProxyNode.BuildSsrUri` | MainApp/Models/VPNModels/Proxy.swift:226-260 | The method that appends to a local list prints the URI of the specification. |
| `ProxyObject.ProxyNode.SetParams` | MainApp/Models/VPNModels/Proxy.swift:380-401 | The loop over the query components assigns the fields as the fold on values; a remark that cannot be decoded restores the name from the dictionary. |
| `ProxyObject.ProxyNode.ImportUri` | MainApp/Models/VPNModels/Proxy.swift:274-438 | The initializer ends with the fields, or the error, of the import on values. |

## Left out

- The freeing state of the fair queue (`PacketPassFairQueue_PrepareFree`) and the busy handler: what a
  handler does is an event of the environment.
- FairQueueIdeal.SameOrderAsIdeal: asks that no flow with clock 0 meets a fall back after a rebase, which is
  sufficient only; the exact condition, which looks at the clocks of both queues, is in `FallbackExactly`.
- FairQueueFallback.FallbackExactly: with an MTU of 0, says nothing about clocks that are no multiples of
  packet_weight; `WholeFromEmpty` shows that no run from the empty queue reaches them.
- FairQueueStarvation.NoStarvation: bounds the sends while the set of flows does not grow; a flow that is
  created starts a new count.
- The search tree of the fair queue is an ordered sequence under the same comparison; its balancing is
  not part of this model.
- FairQueueObject.PacketPassFairQueue.FlowFree: addresses of freed flows may be used again, but the model
  does not say what a caller does with a dangling pointer.
- FlowObject.PacketBuffer.Init: promises nothing about how a buffer goes on whose blocks an int can count but
  whose bytes it cannot (2 GiB to 8 GiB); `InitIsEmpty` shows that its reported room is wrong from the start.
- Allocation failure, freeing of the pipeline stages, debug objects and logging.
- `SinglePacketBuffer` and `PacketPassConnector`: only easy members.
- Streams with an oversized header: the decoder drops whatever happens to be buffered, so what follows
  depends on the chunks; only the moment of the error is stated.
- The pointers of the framing pipeline are positions in the memory the packet buffer allocates.
- ProxyRoundTrip.SsRoundTrip: asks for an ASCII method, since the case mapping of other letters is not part
  of this model, and that no non-ASCII character stands right behind a delimiter, with which it might combine.
- ProxyRoundTrip.SsrRoundTrip: asks the same of the characters behind the delimiters.
- ProxyRoundTrip.SsPlainImport: asks the same of the characters behind the delimiters.
- Texts are their UTF-8 bytes.
- The ints in the header blocks of the packet buffer are taken to be stored low byte first; no other party
  reads them.
- Base64.UrlSafeRoundTrip: whether the platform drops a byte order mark with which a text begins is not
  part of this model.
- Base64.Decode ignores the unused bits of the last digit, which the platform's documentation leaves open.
- ProxyObject.ProxyNode.ImportUri: leaves out the dictionary form without a uri and the renaming of a node
  whose name is taken, with its random suffix.
- Views, storage, networking and configuration files of the application.
