# Lasterm agent: verified model

A Dafny model of the terminal agent's output pipeline and of the smaller cores beside it, with proofs
about every run, every interleaving and every input. `dafny verify dfyconfig.toml` checks it all.

**The output pipeline.** Terminals' readers charge what they read to their hub's flow and send it to a batch
loop, which merges it per terminal. A router gives each frame to the owning hub's current connection, or keeps
it in that hub's bounded away queue. Connections open, register, replace each other, stop writing and end while
all this goes on.

- `Flow`, `Away`, `Batch` and `RouteTable` hold the mutable objects (`HubFlow`, `AwayQueue`, `Batcher`,
  `HubRoutes`). Each method is proved against a function or relation on values.
- `Hub` is the machine of one hub: 22 atomic steps. The route table's lock covers a whole route or registration,
  but the flow's counts and the connections' queues are shared with readers and writers that do not take it, so
  a route or a registration is several steps and a `lock` component says how far its holder has come.
  `HubProofs` proves the invariant step by step, `HubTheorems` draws the conclusions for whole runs.
- `RouteTable` also shows that what each `HubRoutes` method does is a path of that machine.
- `Routes` puts all hubs behind one table and one lock, and shows that an action for one hub is a step of that
  hub's machine and nothing to any other.
- `Pipeline` joins readers, batch loop and router to the route table. `Delivery` shows that the output a hub is sent is
  what its terminals printed, and exactly when; `Notices` what each frame says and that every other event reaches its
  hub byte for byte; `Charges` that every byte a hub is charged in transit is on that way.
- `Fairness` gives the exact condition under which a push to one terminal can take kept output from another, and shows
  that no push drops more than it must; `AwayLimits` gives a run in which a quiet terminal loses output.
- `Readers` is the machine of the readers that stop at the high mark and sleep until the low one.

**Beside it.** `Input` (a terminal's bounded input queue and its concurrent writer), `Framing` (length-prefixed
frames under any chunking), `Pty` (the terminal registry, STOP, and the shutdown sweep), `Calendar` (day counts to
dates), `Expand` (`${VAR}` expansion), `Zip` (the release archives) and `Release` (which files a release
publishes). `Types` and `LittleEndian` are shared vocabulary.

Hypotheses, all of them the code's own: connection ids are never reused; a terminal's output events are not empty
and at most 4096 bytes; the low mark is below the high mark; a charge is made on the flow of the terminal's own
hub; the frame of any other event is not an OUTPUT message. What `Notices` says assumes that no message is 4 GiB long,
since the 32-bit cast in `encode_frame` lets some of those through as frames of something else. MessagePack, deflate, crc32 and the environment are function parameters, with an inverse law where one is
needed. Outcomes of system calls, the clock, generated ids and the iteration order of hash maps are parameters or
free choices of a step.

## What the code does not promise

- A terminal is read at most once for output while its hub is full. Reads of which nothing is left to send are not
  bounded: these go back to reading before the full check (`handler.rs:1136-1138`), so there may be any number of them
  (`Readers.NothingIsNeverHeldBack`). Of two reads while the hub stays full, the earlier is always such a one
  (`Readers.HoldBackIsPrompt`).
- Registering a connection ignores send errors (`daemon.rs:1319-1322`), so what reaches a hub is not always the routed
  frames without exactly those the away queue dropped. It is if and only if no registration offered a kept frame to a
  connection whose writer had already ended (`HubTheorems.OnlyDroppedIsLost`, with a run that loses a frame in
  `HubTheorems.RegistrationCanLose`).
- An item the router cannot encode is skipped (`daemon.rs:1371`): output whose message exceeds the maximum frame size
  is lost although nothing was dropped or refused (`Delivery.TooLargeIsLost`). All that was read is on its way to the
  hub if and only if no frame with some of it was dropped, refused or too large (`Delivery.FromTerminalToHub`).
- `encode_frame` narrows the length to 32 bits before it compares it, so it refuses some payloads over the maximum
  and lets others through. A payload comes back if and only if it is within the maximum
  (`Framing.ComesBackIffWithinMaximum`, `Framing.CastLetsAHugePayloadThrough`).
- The away queue's opening comment says that one busy terminal never pushes out another's output. A push to one
  terminal can take a frame from another if and only if that other holds several frames and the hub would still be
  over its bound after every remaining terminal gave up its oldest frames while it holds more than that other and
  more than one frame (`Fairness.PushedOutExactly`). So with `n` terminals it holds when every frame is at most the
  hub's bound divided by `n` (`Fairness.FairShare`), and it fails for a terminal holding ten bytes in two frames
  beside sixteen others that hold one frame of a MiB each (`AwayLimits.QuietIsPushedOut`).
- The per-terminal drop loop stops after dropping an empty frame. The per-terminal bound is claimed for non-empty
  frames, which every encoded frame is.

## Model

| member | source | states |
|---|---|---|
| Delivery.FromTerminalToHub | crates/lasterm-agent/src/daemon.rs:1368-1381 | In every run of readers, batch loop, router, connections and writers: the output of a terminal accepted by the hub's successive connections or held for it, then sent to the router, buffered and read, is exactly what was read from that hub's workloads under that id, in order, if and only if no frame with some of it was dropped, refused or too large for a frame |
| Delivery.WhatAHubIsSent | crates/lasterm-agent/src/batch.rs:90-117 | Whatever was lost: the frames routed to a hub are, in order, the items the batch loop sent for it that could be encoded, and those accepted or held are all of them without exactly the dropped and refused ranks |
| Delivery.TooLargeIsLost | crates/lasterm-agent/src/daemon.rs:1371-1378 | A run in which output the encoder refuses is gone with nothing dropped or refused |
| Notices.WhatAHubHears | crates/lasterm-agent/src/batch.rs:94-114 | In every run the frames routed to a hub, as the hub reads them, are one for one and in order the items sent for it: each batch as an OUTPUT message with its terminal, its number and its data, every other event as exactly the frame its reader encoded, and only output too large for a frame left out |
| Notices.NoticesReachTheHub | crates/lasterm-agent/src/daemon.rs:1368-1381 | In every run the events other than output of a terminal accepted by the hub's successive connections or held for it, then sent to the router and read, are exactly those read from that hub's workloads under that id, in order and byte for byte, if and only if none of them was dropped or refused |
| Notices.BatchingPasses | crates/lasterm-agent/src/batch.rs:188-205 | The batch loop passes such events on in order and holds none back |
| Notices.ItemHeard | crates/lasterm-agent/src/batch.rs:94-114 | One item is heard as it was meant, or not sent at all if it is too large |
| Delivery.ItemComesBack | crates/lasterm-agent/src/batch.rs:94-106 | An item within the maximum is encoded and read back as it was; one over it is refused or read as no message |
| Delivery.SurvivesWhole | crates/lasterm-agent/src/daemon.rs:1368-1381 | What survives of the items taken up is all their output, or strictly less as soon as something is missing |
| Charges.InTransitIsOnTheWay | crates/lasterm-agent/src/flow.rs:146-242 | In every run the bytes a hub's flow counts in transit are exactly the charges of its events read and not yet batched, buffered, sent and not yet taken up, and in the router's hands |
| Charges.RunJoined | crates/lasterm-agent/src/flow.rs:199-242 | The same charge by charge, as multisets |
| Charges.RouterFindsCharge | crates/lasterm-agent/src/batch.rs:90-117 | The charge of the next item is always in transit on its hub's flow |
| Charges.BatcherFindsCharges | crates/lasterm-agent/src/batch.rs:181-184 | The two charges the batch loop merges are always in transit on the same hub's flow |
| Pipeline.RunInv | crates/lasterm-agent/src/daemon.rs:1368-1381 | Every step of the joined machine keeps the pairing of routed frames with the items taken up, skipped ones left out, and the invariant of every hub |
| HubTheorems.LossyFifo | crates/lasterm-agent/src/daemon.rs:162-185 | Routing refines a lossy FIFO: in every interleaving of routes, registrations, clears, writer deaths and writes, the ranks accepted by the hub's successive connections, then those being replayed, kept away and in the router's hands, are all ranks routed, in routing order across terminals, without exactly those dropped or refused |
| HubTheorems.SurvivingRanks | crates/lasterm-agent/src/daemon.rs:162-185 | The same in any state satisfying the invariant |
| HubTheorems.WritersKeepOrder | crates/lasterm-agent/src/daemon.rs:914-951 | What a connection wrote is a prefix of what its queue accepted, while it is open written plus unwritten is all of it, and each frame is the one routed under its rank |
| HubTheorems.QueueKeepsOrder | crates/lasterm-agent/src/daemon.rs:914-951 | While a connection's writer lives, everything its queue accepted, replies among terminals' frames, stays in order and is written in that order |
| HubTheorems.QueueKeepsAll | crates/lasterm-agent/src/daemon.rs:914-951 | Each step adds to a living connection's queue exactly what is sent to it, and nothing leaves it but by being written |
| HubTheorems.OnlyDroppedIsLost | crates/lasterm-agent/src/daemon.rs:1309-1323 | What survives is the routed frames without exactly those the away queue dropped, if and only if no registration offered a kept frame to a connection whose writer had ended |
| HubTheorems.NeverBoth | crates/lasterm-agent/src/daemon.rs:1309-1323 | No frame is both dropped by the away queue and refused by a dead writer |
| HubTheorems.RefusedExactly | crates/lasterm-agent/src/daemon.rs:1319-1322 | The frames counted as refused are those offered to a writer that had ended, and no others |
| HubTheorems.RegistrationCanLose | crates/lasterm-agent/src/daemon.rs:1319-1322 | A run in which a terminal's only and newest frame is lost that way, for every frame |
| HubTheorems.ExactAccounting | crates/lasterm-agent/src/flow.rs:106-267 | In every reachable state the pending bytes are the live in-transit charges plus the terminal frames the current connection has yet to write, and between operations the flow names the connection the table names |
| HubTheorems.NothingClips | crates/lasterm-agent/src/flow.rs:215-267 | In no run does any of the saturating subtractions clip |
| HubTheorems.ReplacedConnectionCountsForNothing | crates/lasterm-agent/src/flow.rs:254-267 | A write or discard of a connection that is no longer the flow's leaves every count as it was |
| HubProofs.StepKeepsInv | crates/lasterm-agent/src/daemon.rs:1275-1347 | Each of the 22 steps keeps the hub's invariant: exact counts, flow and table naming the same connection, distinct sessions, order and loss of every routed frame |
| HubProofs.RunInv | crates/lasterm-agent/src/daemon.rs:1275-1347 | The invariant holds in every state of every run |
| HubProofs.RouteBeginInv | crates/lasterm-agent/src/handler.rs:59-66 | Handing an in-transit charge to the current connection keeps the invariant, the charge fitting in the count |
| HubProofs.RouteKeepInv | crates/lasterm-agent/src/daemon.rs:180-184 | Keeping a frame keeps the invariant, whatever the away queue drops |
| HubProofs.RegisterAttachInv | crates/lasterm-agent/src/daemon.rs:1304-1310 | Attaching and draining keeps the invariant: the drained ranks continue what the earlier connections accepted |
| HubProofs.RegisterSendInv | crates/lasterm-agent/src/daemon.rs:1319-1322 | Sending a drained frame on, or losing it, keeps the invariant |
| HubProofs.WriterDoneInv | crates/lasterm-agent/src/daemon.rs:931-944 | A finished write keeps the invariant and releases exactly its frame's bytes from the current connection's count, or nothing if it is not current |
| HubProofs.DetachInv | crates/lasterm-agent/src/flow.rs:183-190 | Detaching a connection that left the table keeps the invariant |
| Routes.ActionIsLocal | crates/lasterm-agent/src/daemon.rs:141-186 | An action for one hub is a step of that hub's machine and leaves every other hub's tables, connections and counts as they were |
| Routes.EndingIsClearing | crates/lasterm-agent/src/daemon.rs:260-267 | Taking every connection out of the table is, for each hub, the clear of its connection if it had one and nothing if not, and keeps its invariant |
| Routes.EndOneIsDetach | crates/lasterm-agent/src/daemon.rs:263-266 | Each connection ended afterwards is a detach of its hub, nothing to any other, and keeps the invariant |
| Routes.StepKeepsInv | crates/lasterm-agent/src/daemon.rs:141-267 | Every step of the shared machine keeps the invariant of every hub |
| Routes.RunInv | crates/lasterm-agent/src/daemon.rs:141-267 | All hubs' invariants hold in every state of every run of the daemon |
| Routes.OwnerIsolation | crates/lasterm-agent/src/daemon.rs:134-140 | In every run each terminal frame a connection holds or wrote, and each frame in an away queue, is one routed to that same hub |
| Routes.EveryHubIsALossyFifo | crates/lasterm-agent/src/daemon.rs:162-185 | The lossy FIFO holds for every hub of the daemon at once |
| RouteTable.HubRoutes.Route | crates/lasterm-agent/src/daemon.rs:162-185 | The frame, with its charge if it has one, goes to the current connection; if its writer is gone the charge is released and the frame kept; with no connection it is kept and its charge released; no other hub's part changes |
| RouteTable.HubRoutes.RegisterActive | crates/lasterm-agent/src/daemon.rs:1275-1332 | The previous connection gets the notice and is cancelled, the flow follows the new one, the kept frames are queued on it in order, each charged to it, the queue is gone, and no other hub's part changes |
| RouteTable.HubRoutes.ClearActiveIfOurs | crates/lasterm-agent/src/daemon.rs:1336-1347 | The connection leaves the table and the flow if and only if it is still its hub's |
| RouteTable.HubRoutes.DisconnectAll | crates/lasterm-agent/src/daemon.rs:260-267 | Every hub's part is cleared and every current connection cancelled |
| RouteTable.HubRoutes.SendOn | crates/lasterm-agent/src/daemon.rs:1319-1322 | The frames are offered in order, each charged, a refused one's charge released |
| RouteTable.AwayQueues.Keep | crates/lasterm-agent/src/daemon.rs:180-184 | The owner's queue, made if absent, takes the frame; no other queue changes |
| RouteTable.AwayQueues.TakeFor | crates/lasterm-agent/src/daemon.rs:1310-1311 | The owner's queue is removed and its kept frames returned in the order they were pushed |
| RouteTable.RouteIsSteps | crates/lasterm-agent/src/daemon.rs:162-185 | What `Route` does is a path of the hub machine from any invariant state the table shows, ending where the table shows it |
| RouteTable.RegisterIsSteps | crates/lasterm-agent/src/daemon.rs:1275-1332 | What `RegisterActive` does is a path of the hub machine that adds one session |
| RouteTable.ClearIsSteps | crates/lasterm-agent/src/daemon.rs:1336-1347 | What `ClearActiveIfOurs` and `DisconnectAll` do to a hub is a path of its machine |
| RouteTable.PathExtendsRun | crates/lasterm-agent/src/daemon.rs:141-186 | Such paths continue any run, so every theorem about runs holds of the table |
| Away.AwayQueue.Push | crates/lasterm-agent/src/away.rs:65-96 | The counters and deques after a push are those of a history related to the old one by the push relation; both drop loops terminate |
| Away.AwayQueue.DropOldest | crates/lasterm-agent/src/away.rs:37-48 | Drops the oldest held frame of a terminal and counts it out, or nothing if it is the newest |
| Away.AwayQueue.FindLargest | crates/lasterm-agent/src/away.rs:84-91 | A terminal holding the most among those with several frames, or none if every terminal holds at most one |
| Away.AwayQueue.Drain | crates/lasterm-agent/src/away.rs:99-110 | The kept frames in the order they were pushed across all terminals, and the bytes dropped |
| Away.InsertAll | crates/lasterm-agent/src/away.rs:100-105 | Merging one terminal's frames keeps rank order and loses and adds none |
| Away.PushKeepsInvariant | crates/lasterm-agent/src/away.rs:65-96 | Each terminal keeps a non-empty suffix of its frames and is within its bound or holds one; the hub is within its bound or every terminal holds one |
| Away.AnyPushes | crates/lasterm-agent/src/away.rs:65-96 | The invariant after any sequence of pushes to a new queue, with every pushed byte kept or dropped |
| Away.RunInvariant | crates/lasterm-agent/src/away.rs:65-96 | The invariant at every point of such a sequence, the entries being exactly those pushed |
| Away.KeptPlusLost | crates/lasterm-agent/src/away.rs:50-60 | Bytes held plus bytes dropped are the bytes pushed |
| Away.PushGrows | crates/lasterm-agent/src/away.rs:65-96 | A push adds its frame to the history, and what was dropped stays dropped |
| Away.LargestHoldsMoreThanItsShare | crates/lasterm-agent/src/away.rs:83-91 | Over the hub's bound, with `n` terminals and frames of at most the bound divided by `n`, the chosen terminal holds more than that share |
| AwayLimits.SeveralFramesLose | crates/lasterm-agent/src/away.rs:84-91 | Over the hub's bound, a terminal that alone holds several frames loses its oldest, however little it holds |
| AwayLimits.QuietIsPushedOut | crates/lasterm-agent/src/away.rs:5-10 | A run from a new queue, its last push included, in which the terminal holding the least loses output to sixteen others |
| Fairness.PushedOutExactly | crates/lasterm-agent/src/away.rs:65-96 | Some outcome of a push to another terminal takes a frame from this one if and only if it holds several frames and the hub is still over its bound once every other terminal is cut to at most what this one holds, or to one frame |
| Fairness.ReachedMeansOver | crates/lasterm-agent/src/away.rs:83-95 | If the drops reach a terminal, the hub was over its bound even without the others' excess over it |
| Fairness.OverMeansReached | crates/lasterm-agent/src/away.rs:83-95 | If it is, there are drops, largest first, that reach the terminal and come to an end |
| Fairness.FairShare | crates/lasterm-agent/src/away.rs:83-95 | With `n` terminals and frames of at most the hub's bound divided by `n`, a push to any other terminal takes nothing from a terminal that holds at most its share |
| Fairness.PushDropsOnlyWhatItMust | crates/lasterm-agent/src/away.rs:74-95 | Every frame a push drops had to go: its terminal held more than its bound from that frame on and it was not its newest, or the hub was over its own bound while the frame was still held |
| Fairness.PushDropsExactly | crates/lasterm-agent/src/away.rs:74-81 | As long as the hub stays within its bound, a push of non-empty frames drops exactly the frames that take its terminal over its own |
| Fairness.TrimIsExact | crates/lasterm-agent/src/away.rs:74-81 | The terminal's own bound takes all that is over it and nothing else |
| Fairness.WithinBoundsDropsNothing | crates/lasterm-agent/src/away.rs:65-96 | A push that stays within both bounds drops nothing, whatever was dropped before |
| Flow.HubFlow.ReadFrom | crates/lasterm-agent/src/flow.rs:146-152 | Charges the bytes in transit, and wakes the readers exactly when the count crossed to the low mark |
| Flow.HubFlow.QueueFrame | crates/lasterm-agent/src/flow.rs:156-170 | Counts the frame only if the connection is the flow's |
| Flow.HubFlow.HandOver | crates/lasterm-agent/src/flow.rs:215-231 | The in-transit charge becomes a queued one in a single change, so the readers are woken only if the net change drained them |
| Flow.HubFlow.DropTransit | crates/lasterm-agent/src/flow.rs:234-242 | Releases an in-transit charge |
| Flow.HubFlow.DropQueued | crates/lasterm-agent/src/flow.rs:254-267 | Releases a counted charge only while its connection is the flow's |
| Flow.HubFlow.AttachConnection | crates/lasterm-agent/src/flow.rs:174-179 | The connection's queue counts from nothing |
| Flow.HubFlow.DetachConnection | crates/lasterm-agent/src/flow.rs:183-190 | Stops counting that connection, and leaves a newer one alone |
| Flow.FullEndsInAWake | crates/lasterm-agent/src/flow.rs:106-129 | However the counts change after a hub was found full, they come down to the low mark only by a change that wakes the paused readers |
| Flow.HandingOverWakesNobody | crates/lasterm-agent/src/flow.rs:212-231 | Handing over a frame no shorter than its charge never wakes the readers |
| Flow.ChargesCancel | crates/lasterm-agent/src/flow.rs:146-170 | A charge made and released leaves the counts as they were |
| Batch.Batcher.AcceptEvent | crates/lasterm-agent/src/batch.rs:159-207 | The buffers and the items sent are the specification's, for output and for other events |
| Batch.Batcher.FlushAll | crates/lasterm-agent/src/batch.rs:209-215 | Every buffer is let go once, in some order, and is empty after |
| Batch.Batcher.TakeBuffer | crates/lasterm-agent/src/batch.rs:136-151 | One buffer is sent whole with its last number and charge, or nothing if it is empty |
| Batch.BatchingPreservesStreams | crates/lasterm-agent/src/batch.rs:136-216 | For any interleaving of accepts and flushes there is a cut of each terminal's accepted events into consecutive groups such that every item sent is one group merged, with all its data, the number of its last read and the sum of its charges, batches stay under 8192 bytes, and every buffer is the rest, under 4096 bytes |
| Batch.EachHubItsOwnBytes | crates/lasterm-agent/src/batch.rs:171-178 | What was sent for a hub under a terminal id, then its buffer, is all that hub's reads gave under that id, even when the id passes to another hub before the buffer left |
| Batch.ChargesConserved | crates/lasterm-agent/src/batch.rs:136-216 | Charges sent plus charges buffered are the charges accepted, and every batch carries a charge, on the flow of the hub it is for |
| Batch.AcceptMatches | crates/lasterm-agent/src/batch.rs:159-207 | Accepting one event keeps the grouping |
| Batch.SentOnlyWhenDue | crates/lasterm-agent/src/batch.rs:179-191 | A read that leaves its buffer below 4096 bytes stays buffered and sends nothing; one that fills it sends the buffer whole with its own number |
| Batch.NoticeSendsBuffer | crates/lasterm-agent/src/batch.rs:192-207 | Another event sends what its terminal has buffered, then itself, touches no other terminal, and the last one leaves no buffer |
| Batch.TickSendsAll | crates/lasterm-agent/src/batch.rs:209-215 | A tick over all terminals leaves nothing buffered |
| Readers.NoLostWakeup | crates/lasterm-agent/src/flow.rs:106-143 | With the count change and the notification as separate steps, in every interleaving a reader asleep while pending is at or below the low mark was notified or has a notification coming |
| Readers.RunForgetsNone | crates/lasterm-agent/src/flow.rs:106-143 | No sleeping reader is forgotten at any point of any run |
| Readers.DeliveryReachesAll | crates/lasterm-agent/src/flow.rs:116-118 | Delivering a notification lets every sleeping reader go on |
| Readers.HoldBackIsPrompt | crates/lasterm-agent/src/handler.rs:1104-1208 | While the hub stays full, of two reads of a terminal the earlier gave nothing to send |
| Readers.SpawnedIsNotRead | crates/lasterm-agent/src/handler.rs:1087-1088 | A terminal spawned while the hub stays full is not read |
| Readers.WaitsThroughout | crates/lasterm-agent/src/handler.rs:1193-1208 | A waiting reader waits as long as the hub is full |
| Readers.ResumesOnlyBelowLow | crates/lasterm-agent/src/flow.rs:132-143 | A held reader resumes only after pending was seen at or below the low mark |
| Readers.NothingIsNeverHeldBack | crates/lasterm-agent/src/handler.rs:1135-1138 | For every count there is a run with that many reads of a terminal whose hub is full throughout |
| Readers.HeldOnlyWhenFull | crates/lasterm-agent/src/handler.rs:1193-1200 | A held reader saw the count at or above the high mark itself, and was held ever since |
| Readers.WokenReadsOn | crates/lasterm-agent/src/flow.rs:132-143 | A reader woken at or below the low mark goes on to read |
| Input.RunInv | crates/lasterm-agent/src/input.rs:114-192 | In every interleaving of offers and writer steps the count, the queue and what the terminal took agree |
| Input.WholeInputsInOrder | crates/lasterm-agent/src/input.rs:114-192 | What the PTY took is a prefix of the accepted inputs, and the count never exceeds the bound |
| Input.OneGap | crates/lasterm-agent/src/input.rs:120-139 | For any input answered Overflowed or Dropped and any later one answered Queued, by the time the latter is accepted the terminal took everything accepted before the former |
| Input.AnsweredExactly | crates/lasterm-agent/src/input.rs:115-140 | While the writer runs, every input is answered Dropped if something was left ever since an earlier drop, and otherwise Queued if it fits beside what is left and Overflowed if not |
| Input.GapEnds | crates/lasterm-agent/src/input.rs:120-125 | Where the terminal took everything accepted, any input within the bound is Queued, whatever was dropped before |
| Input.OncePerGap | crates/lasterm-agent/src/input.rs:120-130 | Between two Overflowed answers the queue was empty |
| Input.CountIsExact | crates/lasterm-agent/src/input.rs:188-189 | The count is what was accepted and not taken, so counting a chunk out never clips |
| Input.ClosedIsFinal | crates/lasterm-agent/src/input.rs:117-119 | After a Closed answer every answer is Closed |
| Input.InputQueue.OfferInput | crates/lasterm-agent/src/input.rs:115-140 | The answer and the counts are the specification's, and an input is queued whole or not at all |
| Input.InputQueue.WriteInput | crates/lasterm-agent/src/input.rs:165-192 | One input is written in order by chunks and counted out, or the queue is closed and its count zeroed at the chunk the PTY refuses |
| Framing.FrameReader.PushBytes | crates/lasterm-agent/src/framing.rs:36-71 | The answer and the buffer are those of the specification, undecodable payloads included |
| Framing.ChunkingDoesNotMatter | crates/lasterm-agent/src/framing.rs:36-71 | For any split without an oversized header the answers together are the one-shot parse and the buffer is its unparsed tail; with one, they are a prefix of the parse |
| Framing.FailureIsFinal | crates/lasterm-agent/src/framing.rs:45-50 | After a failed push every push fails |
| Framing.EncodedComeBack | crates/lasterm-agent/src/framing.rs:8-22 | Parsing encoded payloads gives them back in order with nothing left over |
| Framing.SentIsReceived | crates/lasterm-agent/src/framing.rs:8-71 | Encoded payloads come back in order however the stream is split |
| Framing.ComesBackIffWithinMaximum | crates/lasterm-agent/src/framing.rs:11-17 | A payload is encoded to a frame that parses back to it if and only if it is within the maximum |
| Framing.OneFrameIffWithinMaximum | crates/lasterm-agent/src/framing.rs:11-21 | A payload over the maximum is refused, or sent as bytes that are not one frame of any payload |
| Framing.CastLetsAHugePayloadThrough | crates/lasterm-agent/src/framing.rs:11-12 | A payload of 2^32 bytes is encoded without an error and does not come back |
| Pty.StopEndsNobodyElse | crates/lasterm-agent/src/daemon.rs:1117-1135 | Once a STOP without force is accepted, every terminal registered at any later point of the run belongs to the hub that sent it and was there then |
| Pty.OnlyShrinks | crates/lasterm-agent/src/pty.rs:204-208 | Shutting down is irreversible and from then on terminals only go, owners unchanged |
| Pty.RefusedIffOthersHold | crates/lasterm-agent/src/daemon.rs:1118-1129 | A STOP is refused exactly when it is not forced and another hub holds a terminal, and then nothing changes |
| Pty.OwnerIsFixed | crates/lasterm-agent/src/pty.rs:256-263 | A registered terminal keeps its owner and process as long as it is registered, whoever spawns, as long as made-up ids are new |
| Pty.OnlyRemovalsRemove | crates/lasterm-agent/src/pty.rs:324-328 | A terminal leaves the registry only by being removed or swept |
| Pty.RegisteredExactly | crates/lasterm-agent/src/pty.rs:239-297 | A spawn registers its terminal, for its hub and under the id it answers, exactly if the agent is not shutting down, the id is free and the program started; otherwise nothing changes |
| Pty.PtyManager.HandleStop | crates/lasterm-agent/src/daemon.rs:1110-1143 | The answer, the reported count and the new state, in one hold of the lock |
| Pty.PtyManager.CountOthers | crates/lasterm-agent/src/pty.rs:308-315 | The number of other hubs' terminals, capped at 32 bits |
| Pty.PtyManager.SpawnTerminal | crates/lasterm-agent/src/pty.rs:239-297 | Refused while shutting down or under a taken id; otherwise registered under its owner |
| Pty.PtyManager.DestroyAll | crates/lasterm-agent/src/pty.rs:387-451 | Each terminal present at the start is confirmed or unresolved exactly once; a failed signal, a failed wait, a timeout and a failed task each give one entry with the terminal's pid and that reason, and a terminal that had exited or whose exit was waited for gives none; all are signalled before the first wait; those left registered are exactly those whose signalling failed |
| Pty.PtyManager.SignalAll | crates/lasterm-agent/src/pty.rs:392-423 | The signalling pass: who leaves the registry, who is settled and who is waited for |
| Pty.AwaitAll | crates/lasterm-agent/src/pty.rs:428-448 | The waiting pass completes the account of the signalled terminals |
| Pty.ConfirmedExactly | crates/lasterm-agent/src/pty.rs:142-149 | A terminal goes unreported exactly when it had exited or was signalled and its exit waited for |
| Pty.PtyManager.TearDown | crates/lasterm-agent/src/daemon.rs:73-114 | New terminals are refused, those left registered are exactly those whose signalling failed, and the exit status is 0 exactly when every terminal had already exited or was signalled and its exit waited for |
| Calendar.FirstDay | crates/lasterm-agent/src/handler.rs:1453-1465 | Day 0 is 1970-01-01 |
| Calendar.NextDayIsNextDate | crates/lasterm-agent/src/handler.rs:1453-1465 | Every result is a valid Gregorian date and the next day's is its calendar successor, for every day count |
| Calendar.StrictlyIncreasing | crates/lasterm-agent/src/handler.rs:1453-1465 | A later day has a later date |
| Calendar.FormulaIsTheCount | crates/lasterm-agent/src/handler.rs:1453-1465 | The closed formula is the date reached by counting days one by one from 1970-01-01 |
| Calendar.YearOfEraSpec | crates/lasterm-agent/src/handler.rs:1457-1459 | The year of the era is the one whose days contain the day |
| Expand.ExpandVars | crates/lasterm-agent/src/expand.rs:13-66 | On any UTF-8 text the loop terminates, cuts only where a character starts, and gives the specified expansion |
| Expand.EveryLiteralIsExpressible | crates/lasterm-agent/src/expand.rs:13-66 | For every text the escaping that doubles backslashes and guards each closed reference expands back to it in every environment |
| Expand.EscapedIsText | crates/lasterm-agent/src/expand.rs:13-66 | The escaped form of UTF-8 text is UTF-8 text |
| Expand.ExpandEscapedText | crates/lasterm-agent/src/expand.rs:13-66 | The scanner gives any UTF-8 text back from its escaped form, in every environment |
| Expand.ExpandReference | crates/lasterm-agent/src/expand.rs:7-11 | A closed reference becomes its variable's value, not scanned again, or stays if there is none, and the rest expands as if alone |
| Expand.ExpandEscaped | crates/lasterm-agent/src/expand.rs:31-37 | An escaped closed reference loses its backslash and stays |
| Expand.ExpandDoubled | crates/lasterm-agent/src/expand.rs:21-30 | Two backslashes become one and what follows is scanned as usual |
| Expand.ExpandLoneBackslash | crates/lasterm-agent/src/expand.rs:37-45 | A backslash before neither a backslash nor a closed reference stays |
| Expand.RulesDetermine | crates/lasterm-agent/src/expand.rs:6-11 | The expansion is the only function that follows these rules |
| Expand.ExpandFollowsRules | crates/lasterm-agent/src/expand.rs:13-66 | And it follows them, for every text and environment |
| Expand.ExpandPlain | crates/lasterm-agent/src/expand.rs:60-62 | Any other byte stays, a dollar that opens no closed reference included |
| Expand.ScanEscape | crates/lasterm-agent/src/expand.rs:20-46 | The backslash cases, cutting on character boundaries |
| Expand.ScanReference | crates/lasterm-agent/src/expand.rs:48-58 | A closed reference gives its variable's value, or itself if there is none |
| Expand.FindCloseIsFirst | crates/lasterm-agent/src/expand.rs:68-73 | The first closing brace at or after the start |
| Zip.ArchiveComesBack | scripts/release-assets.ts:412-463 | A reader that starts from the end record, honours a mode only where a Unix host wrote it of a regular file and names only as UTF-8, recovers every entry's name, data and mode in order, each central header pointing at a local header with the same name, sizes and checksum (sections 4.3.7, 4.3.12 and 4.3.16 of PKWARE APPNOTE.TXT) |
| Zip.ZipArchive | scripts/release-assets.ts:412-463 | An archive is returned if and only if every count, length and offset fits its field, and then it is the specified layout |
| Zip.SmallArchivesFit | scripts/release-assets.ts:413-423 | An archive below 4 GiB is not refused, as long as its entries, names and files are within their fields |
| Zip.WriteEntry | scripts/release-assets.ts:417-454 | One entry's records, or the refusal of an entry that does not fit |
| Zip.LocalFields | scripts/release-assets.ts:424-435 | Each field of the local header reads back at its offset |
| Zip.CentralFields | scripts/release-assets.ts:436-450 | Each field of the central header reads back at its offset |
| Zip.CentralOrigin | scripts/release-assets.ts:437-448 | Each central header says it was made by Unix for version 2.0, names in UTF-8, at the format's epoch |
| Zip.LocalOrigin | scripts/release-assets.ts:424-430 | Each local header needs version 2.0 and is dated the format's epoch |
| Zip.EndFields | scripts/release-assets.ts:456-461 | Each field of the end record reads back at its offset |
| Release.ResolveReleaseAssets | scripts/release-assets.ts:265-325 | If no error is reported the artifacts present are the expected ones, every file of every artifact is published exactly once, alone or in a zip, every declaration names exactly one published asset, and public names differ from each other and the checksum file; and an error is reported only if an artifact is unexpected, missing or does not fit its declarations, or two names clash |
| Release.ExpectedExactly | scripts/release-assets.ts:139-152 | An artifact is expected exactly when an enabled target produces it |
| Release.ExpectedFromFields | scripts/release-assets.ts:139-152 | An artifact is expected exactly when an enabled target's own fields ask for it under that name |
| Release.ArtifactNamesDiffer | scripts/release-assets.ts:145-149 | Artifacts of different kinds or triples have different names |
| Release.StarMatchesAnyRun | scripts/release-assets.ts:116-124 | A star matches exactly the runs after which the rest of the pattern matches the rest of the name |
| Release.LiteralMatchesItself | scripts/release-assets.ts:116-124 | A pattern without wildcards matches itself and nothing else |
| Release.RulesDetermine | scripts/release-assets.ts:111-124 | Matching is the only relation in which a star matches any run, a question mark any one character and anything else itself |
| Release.MatchingFollowsRules | scripts/release-assets.ts:111-124 | And it is one |
| Release.MarkBecomesVersion | scripts/release-assets.ts:177 | The first version mark becomes the version, then so on with what follows it |
| Release.NoMarkStays | scripts/release-assets.ts:177 | A pattern without a mark stays as it is |
| Release.ResolveDeclared | scripts/release-assets.ts:159-221 | No error exactly when no declaration has brackets, there is one, each names one candidate, no candidate is named twice and every candidate is named; then the assets are those candidates in declaration order |
| Release.ResolveArtifact | scripts/release-assets.ts:284-306 | No error exactly when the artifact's files and declarations fit, and then its assets are what they call for |
| Release.ResolveHub | scripts/release-assets.ts:243-258 | The hub's files are compared as multisets, through sorting |
| Release.SortedCompares | scripts/release-assets.ts:250-251 | Two lists sort to the same list exactly when they are permutations of each other |
| Release.ClaimEach | scripts/release-assets.ts:181-213 | Each pattern claims the one candidate it names, and errors are reported exactly when that is impossible |
| Release.CheckNames | scripts/release-assets.ts:309-323 | An error exactly when two public names are equal or one is the checksum file's |
| Release.GroupCounts | scripts/release-assets.ts:284-306 | The assets of a resolved artifact publish each of its files once and answer each of its declarations once |

## Left out

- RouteTable.HubRoutes.RegisterActive: the table holds each hub's counts and each connection's queue as values and not as `HubFlow` and channel objects, because readers and writers change those between and during its operations without its lock: a value is what one uninterrupted operation sees, and the interleavings are what `Hub` models. `HubFlow` is proved against the functions the table applies to those values.
- Batch.Batcher.FlushAll: visits buffers in an arbitrary order, as the hash map's is.
- Input.InputQueue.WriteInput: writes one input; taking inputs one after another while offers go on is the machine of `Input`.
- Readers.HoldBackIsPrompt: the pending count may change in any way at any moment there, which covers every way the pipeline changes it.
- Expand.ExpandVars: the environment is one lookup function, so the order of the two lookups and Windows' case folding are not modelled.
- Zip.ArchiveComesBack: the reader is one without ZIP64; the writer accepts 65535 entries and a directory size or offset of all ones, which a ZIP64 reader would take as a marker.
- Release.ResolveReleaseAssets: messages' texts are not modelled, file names are strings of code points, and a version containing `$` sequences that JavaScript's replacement treats specially is taken literally.
- When a connection's writer ends: it may at any step. Cancellation, the drain before the close and socket errors are all instances.
- `strip_dsr`, the screen mirror, titles, working directories, snapshots and resizes: library behaviour or single branches.
- The handshake, tokens and the choice of owner: a connection's owner is given when it opens.
- Sockets, pipes, PTYs, signals, processes and everything specific to a platform.
- Wall-clock time: the batch interval, the idle timeout and deadlines are steps that may happen at any moment.
- Liveness: that tasks are scheduled and that waiting readers are eventually run.
- Environment construction, directories, logging, elevation, the owner digest, and the other scripts: lookups and I/O.
