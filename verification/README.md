# nkurdt: a verified model of the sliding-window protocol

nkurdt moves a file from a sender to a receiver over UDP. The sender numbers packets, keeps the
unacknowledged ones in a pool, retransmits them from a timer, and slides its window by cumulative acks
(Go-Back-N) or by single acks (Selective Repeat). The receiver buffers, slides, writes payloads in order and
acks. This project models those parts and proves what they keep. It has three cores.

**The protocol as one transition system.** `Sender.dfy` and `Receiver.dfy` hold, as functions on values, what
each critical section of the C++ code does. `System.dfy` puts both ends, their threads and the network
together: `Step` lists the critical sections, `Enabled` says when one can run, `Do` what it does. One
iteration of `send_handler` after its pop is one step, because it holds the acked-set mutex throughout.
`recv_handler` is three steps (`Hear` reads the state, `WriteState` writes it, `Ack` processes the number), and
`send_packet` is four (`SeeWindow`, `ReadUpper`, `BumpUpper`, `Insert`). A wait of the calling thread that times
out is a step of its own (`SeeFullWindow`, `SeeNonZero`); only after it does the thread look at `running_`. The network is the set of packets and
the set of acks that it can still deliver. `Deliver` and `Hear` take nothing out of these sets, so packets are
duplicated and reordered freely; `Lose` drops any of them. The threads interleave without restriction. The
log of numbered packets, the numbers that met a retry limit, the yields, the dropped bytes and the `misstep`
flag are history: what a step does to the rest never depends on them.

**The concurrent containers and the two endpoint objects, as classes.** `ConcurrentTimer.dfy`,
`ConcurrentQueue.dfy` and `ConcurrentWindow.dfy` are the containers with their loops; `SenderClass.dfy` and
`ReceiverClass.dfy` are the endpoint objects, with the fields of the C++ classes, updated in place, over
wrapping 32-bit sequence numbers. Every method is proved to change its object exactly as the function of
`SenderModel`, `ReceiverModel` or `TimerModel` changes a value. These functions are what the transition system
is made of, so the theorems about runs speak about the objects. `SenderSteps.dfy`, `Waits.dfy`, `CallerSteps.dfy`
and `ReceiverSteps.dfy` say branch by branch, with fields, kinds and constants written out, what these steps do. `Width.dfy` states the
transition system over 32-bit numbers as well, and proves the simulation: while the numbers given out plus either
window stay below 2^32, both systems take the same steps and have the same runs, and the conditions in the
contracts of the objects hold.

**The codec and its checksum.** `Checksum.dfy` proves the loops of `calc_checksum` (with the 32-bit
accumulator written out) against a residue modulo 0xFFFF. `Codec.dfy` proves the byte layout.

## Standing assumptions

- Both ends use the same selective-repeat flag (one `Config` for both).
- Both maximum window sizes are at least 1 (`Config.Valid`).
- The receiver hears only this sender, and the sender only this receiver. Datagrams arrive intact or not at
  all; `Codec.OneByteDetected` is about those that do not arrive intact.
- Sequence numbers do not wrap in the transition system; the classes state the exact point where the 32-bit
  code parts from it.
- A session is one `connect`, any number of `send`s and one `disconnect`. Claims about the end of a file are
  for a session with at most one `send` (`|files| <= 1`); everything else is for any number of them.

## What the code does not guarantee

- **A connected receiver idles too soon.** The receiver changes state before it slides its window, whatever
  the packet's number (`nkurdt/src/receiver.cpp:138`). A connected receiver that takes a DisconnReq numbered
  above its window's lower end goes Idle and stays in its loop; a late ConnReq then makes it start again from
  number 0, and packets that arrive again are written again. `System.Missteps` is this guard (numbers up to 2
  are harmless: no Data exists then). `Misstep.OrderKeptExactly` gives the exact condition: the output stays in
  order if and only if there is no misstep or no byte has been written yet.
  `Counterexamples.TwoSendsCanDuplicate` reaches the failure in a whole session, and
  `FileTransfer.OneSendIsAlwaysInOrder` shows that a session with one `send` never does. The documented
  meaning of the window (`nkurdt/include/receiver.hpp:86-91`) does not mention it; the model follows the code.
- **DisconnReq can be early.** A wait that ends by a retry limit leaves its packet outstanding, and
  `disconnect` does not wait for it; `Counterexamples.DisconnReqCanArriveEarly` reaches such a state.
  `ArrivalOrder.InOrderExactly` gives the exact condition, for a packet of any kind and any number of sends: when
  the packet is numbered, and `send_handler` can work through its queue without being stopped (at most one number
  meets its retry limit, once, while the caller waits), it is in order in every continuation if and only if the
  receiver has written everything numbered so far or the sender has stopped. The "if" half needs nothing of the
  queue (`ArrivalOrder.FlushedOrStoppedIsInOrder`). `lower == upper` is the check that `disconnect` could make for
  this (`ArrivalOrder.EmptyWindowIsFlushed`), as `send` does before its DataStop; it excludes the failure above as
  well (`ArrivalOrder.EmptyWindowKeepsOrder`). In a session with one `send` and no retry limit met, DisconnReq is
  always in order (`ControlOrder.DisconnReqArrivesInOrder`); DataStop is in every session
  (`Yields.EveryStopArrivesInOrder`).
- **A file can be written without a yield.** The sender compares the kind of an ack and not its number, so a stale
  DataStopAck can end a send whose DataStop is still under way. If the next DataPush overtakes that DataStop, it
  reaches a receiver that is still in the earlier transfer and is buffered without a change of state; the next
  file is then written, and `recv` does not yield for it. `MissedYield.ThirdFileYieldsNothing` is such a run of
  three sends. `Yields.EachSendYieldsOnce` says when each send yields exactly once: when every DataPush and the
  DisconnReq is numbered after the receiver has written everything, for which an empty window suffices, and
  no DataPush is returned unsent.
- **`send` can lose bytes and go on.** When the sender has stopped running and the window stays full, `send_packet`
  returns without numbering its payload, and `send` may still see an empty window later and continue:
  `LostBytes.SendCanLoseBytes` reaches its end with everything but the first chunk of a file lost. The receiver has
  the whole file if and only if no call of `send_packet` with bytes to send returned that way
  (`LostBytes.ExactTransferOverRun`). Such a return is possible next if and only if `send_packet` has found the
  window full and the sender has stopped (`LostBytes.LossIsPossibleExactly`,
  `LostBytes.FullWindowDropsExactly`).
- **`to_bytes` silently sends no payload** when it is longer than 65535 bytes (`Codec.RoundTrip`). `send`
  never makes such a packet: its chunks have at most 8178 bytes.
- **`remove_event` forgets nothing about an event that is not registered**, even one that has timed out
  (`TimerModel.Timer.Remove`). A cleaned-up number can thus be pended once more
  (`StaleEvents.CleanedUpNumberIsPendedAgain`); `TimerHistory.HandOutExact` says exactly when. The next iteration
  of `send_handler` cleans it up again, and it is not sent (`SenderFacts.NoResendAfterAck`).

## Model

| member | source | states |
|---|---|---|
| Runs.OutputInOrder | nkurdt/src/receiver.cpp:154-181 | in every reachable state without a misstep, the output is exactly the in-order concatenation of the payloads numbered below the receiver's window, and so a prefix of what the sender numbered; both modes, lossy, duplicating, reordering network |
| Safety.StepSafe | nkurdt/src/sender.cpp:12-322 | every step of every thread and of the network, other than a misstep, keeps the safety invariant: output, buffer, pool and packets agree with the log, windows overlap, acks name what was taken |
| Safety.ReceiveKeeps | nkurdt/src/receiver.cpp:37-212 | one datagram of the log keeps the receiver's invariant, moves its window only forward, forgets nothing it took, and an ack that answers it names a number truly taken (Selective Repeat) or at most the window's lower end (Go-Back-N) |
| Safety.AcknowledgeKeepsOrder | nkurdt/src/sender.cpp:256-320 | an ack step that is given a number the receiver acknowledges slides the sender's window forward, never beyond what the receiver has written |
| Runs.WindowsOverlap | nkurdt/src/sender.cpp:258-320 | lower <= receiver.first <= upper in every reachable state; each ack in flight names a packet the receiver took (or a number it has reached); neither discipline slides past upper |
| Runs.BufferInsideWindow | nkurdt/src/receiver.cpp:39-81 | second = first + max window; every buffered number lies strictly between them and holds the sender's packet of that number; at most max window - 1 packets are held |
| Runs.DeliveryWritesLongestRun | nkurdt/src/receiver.cpp:154-181 | one delivery appends exactly the payloads of the longest contiguous run, from the window's lower end, of buffered packets and the new one, and nothing else |
| Runs.ReceiveWritesLongestRun | nkurdt/src/receiver.cpp:156-181 | after one datagram the window ends at the first number that is neither buffered nor new: the slide loop is never blocked by an old packet |
| ReceiverFacts.SlideDelivers | nkurdt/src/receiver.cpp:156-181 | the slide loop writes each number of the longest run once, removes just those from the buffer, moves both bounds by their count, and keeps output and buffer equal to the log |
| ReceiverFacts.AcceptKeeps | nkurdt/src/receiver.cpp:83-212 | taking a packet that is neither old nor beyond the window, and no misstep, keeps the receiver's invariant and then holds or has written it |
| ReceiverSteps.AnswersExactly | nkurdt/src/receiver.cpp:37-204 | Go-Back-N answers every request, with the window's lower end after it; Selective Repeat answers exactly what is not beyond the window, with the request's own number; the kind is the request's, and nobody answers before its peer is known |
| ReceiverSteps.PeerKnownByConnReq | nkurdt/src/receiver.cpp:92-101 | the peer is known exactly from the first ConnReq that an idle receiver takes |
| ReceiverSteps.OutsideWindowChangesNothing | nkurdt/src/receiver.cpp:39-81 | a request that is old or beyond the window changes nothing of the receiver and yields nothing; after the end nothing is answered either |
| ReceiverSteps.SlideMovesOnly | nkurdt/src/receiver.cpp:156-181 | for any buffer, the slide moves both bounds over buffered numbers only, removes exactly these, and stops where the front is not the next number; state and peer stay |
| ReceiverSteps.SwitchByName | nkurdt/src/receiver.cpp:91-147 | the state switch, by name of state and kind; only a ConnReq at an idle receiver moves the window, to its own number |
| ReceiverSteps.TakenIsBuffered | nkurdt/src/receiver.cpp:91-181 | a packet that is taken passes the switch and enters the buffer, where an earlier one of its number stays, before the slide |
| ReceiverSteps.EventsExactly | nkurdt/src/receiver.cpp:206-215 | recv yields true exactly at a DataStop that ends a transfer and has been written, and yields false and ends exactly when it is idle and has written the packet |
| ReceiverSteps.EncodedIsHeard | nkurdt/src/receiver.cpp:26-37 | an encoded request is handled as the packet itself, an encoded ack is dropped, and a kind with no ack kind throws |
| ReceiverSteps.CorruptedIsIgnored | nkurdt/src/receiver.cpp:26-30 | an encoded packet with any one byte changed leaves the receiver as it was and gets no answer |
| Runs.RunSafe | nkurdt/src/sender.cpp:12-322 | every run from a safe state that makes no misstep ends in a safe state |
| Refinement.StepRefines | nkurdt/src/receiver.cpp:154-181 | each concrete step is one Append, or some DeliverNext, or nothing, of a list of numbered payloads with a delivered prefix |
| Refinement.RunRefines | nkurdt/src/receiver.cpp:154-181 | every run without a misstep is a run of that specification, ending in the abstract state of its last state, and the output is the join of the payloads delivered |
| SenderFacts.NothingIsOrphaned | nkurdt/src/sender.cpp:49-144 | in every reachable state, an unacked number of the window is pending, in the timer, timed out, held by send_handler or being inserted, unless its retry limit was met; and it is in the pool or being inserted |
| SenderFacts.OrphanStep | nkurdt/src/sender.cpp:49-144 | every step of every thread keeps that no unacked number is orphaned |
| SenderFacts.ProcessLooksAfter | nkurdt/src/sender.cpp:59-142 | one iteration of send_handler lets go of an unacked number only into the timer, at its retry limit or when it is not pooled, and leaves every other number's timer entries alone |
| SenderSteps.PopTakesLeast | nkurdt/src/sender.cpp:51-54 | the pop takes the least pending number, and nothing else changes |
| SenderSteps.SettledIsCleanedUp | nkurdt/src/sender.cpp:59-87 | a held number that is acked (Selective Repeat) or below the window leaves pool, retry counts and, if registered, both containers of the timer; every other number stays as it was and nothing is sent |
| SenderSteps.PooledIsSentAndTimed | nkurdt/src/sender.cpp:101-137 | a held number in the window, pooled and below its limit: its packet goes on the wire, its count goes up by one from nothing to 0, its deadline is the timeout from now; nothing else changes |
| SenderSteps.UnpooledIsUntimed | nkurdt/src/sender.cpp:138-142 | a held number that is not pooled is counted, loses its deadline and sends nothing |
| SenderSteps.LimitSendsNothing | nkurdt/src/sender.cpp:101-119 | a held number that has been counted up to the maximum sends nothing; the state goes from Connecting and Disconnecting to Idle, from Pushing and Stopping to Connected, and any other state stops the sender |
| Waits.LimitEndsTheWait | nkurdt/src/sender.cpp:101-119 | a met limit ends the wait it belongs to: connect and disconnect can return for good, send can return to where the next call begins; in a state that waits for nothing the sender stops |
| SenderSteps.CumulativeAckSlides | nkurdt/src/sender.cpp:302-309 | Go-Back-N, a number above lower: the window begins at exactly that number, the duplicates are forgotten, nothing is pended |
| SenderSteps.DuplicateCumulativeAck | nkurdt/src/sender.cpp:259-301 | Go-Back-N, the number of lower: the counter takes its next value, and exactly the numbers of the window are pended, if it was 2 and fast retransmit is on |
| SenderSteps.SelectiveAckSlides | nkurdt/src/sender.cpp:256-319 | Selective Repeat: the window begins at the first number that was not acked before or now; the acked set keeps exactly what was not slid over |
| SenderSteps.FireMovesTheDue | nkurdt/include/concurrency.hpp:148-172 | the timer fires exactly if something is due at the first reading, and moves exactly what is due within 100 ms of the last |
| SenderSteps.RependMovesTimedOut | nkurdt/src/sender.cpp:334-348 | everything timed out is pended and the timed-out set is emptied; deadlines stay |
| SenderSteps.BumpThenInsert | nkurdt/src/sender.cpp:30-46 | the number read is logged, pooled unless it is there, and pended |
| Waits.HearDecidesExactly | nkurdt/src/sender.cpp:167-251 | recv_handler writes a state exactly for ConnAck while Connecting, DataPushAck while Pushing, DataStopAck while Stopping and DisconnAck while Disconnecting, and no other kind |
| Waits.WaitEndsByOwnAck | nkurdt/src/sender.cpp:167-251 | any number of sends, no retry limit met: the state a call waits in is left only by the write that follows an ack of that call's own kind (ConnAck, DataPushAck, DataStopAck, DisconnAck), for that call's own state |
| Waits.DisconnectReturnsLast | nkurdt/src/sender.cpp:486-501 | one-send session, no retry limit met: when the wait of disconnect is over, the receiver has written every packet, DisconnReq included |
| CallerSteps.CallsAsk | nkurdt/src/sender.cpp:367-501 | connect, send and disconnect each set their own state and ask for their own packet; a disconnect of an idle sender asks for none |
| CallerSteps.ChunkIsAsked | nkurdt/src/sender.cpp:410-419 | one turn of the read loop asks for the next 8178 bytes, or for what is left, which ends the loop |
| CallerSteps.WaitsLead | nkurdt/src/sender.cpp:372-450 | each wait leads to the phase that its outcome asks for, and changes nothing else |
| SenderFacts.CheckThenActIsStable | nkurdt/src/sender.cpp:16-34 | although the test, the read and the bump are separate critical sections, upper - lower <= max window in every interleaving, and the number read is still upper, with room, when it is used |
| SenderFacts.NoResendAfterAck | nkurdt/src/sender.cpp:59-87 | after the ack step for a number, no continuation transmits it again (Selective Repeat), or transmits any number below it (Go-Back-N), although the acked-set entry is erased by the slide |
| SenderFacts.AckedIsNeverSent | nkurdt/src/sender.cpp:59-87 | no run from a state in which a number is acked or below the window transmits that number |
| SenderFacts.RetryLimitHolds | nkurdt/src/sender.cpp:101-129 | in any run a number is put on the wire at most max retry count + 1 times, although clean-up erases its counter |
| SenderModel.SlideLower | nkurdt/src/sender.cpp:312-319 | the Selective Repeat slide moves lower forward to a number that is not acked and drops from the acked set only the numbers it passes; nothing else changes |
| SenderModel.SlideStops | nkurdt/src/sender.cpp:312-319 | the slide never passes a number of the window that is not acked |
| DuplicateAcks.RetransmitSchedule | nkurdt/src/sender.cpp:259-301 | over any interleaving from an ack step that slides (or from the start) without a further slide, the n-th duplicate ack re-pends the whole window if and only if fast retransmit is on, W >= 2, n >= 3 and n - 3 is a multiple of max(W, 3) |
| DuplicateAcks.CounterOverRun | nkurdt/src/sender.cpp:262-294 | over any run without a slide, the counter is its closed form of the number of duplicates since the slide |
| DuplicateAcks.CounterStep | nkurdt/src/sender.cpp:264-294 | one more duplicate moves the counter along the closed form, which is 2 exactly before a scheduled retransmission |
| Progress.CanAlwaysComplete | nkurdt/src/sender.cpp:324-350 | from every reachable state with the sender running, a try left for each outstanding packet (for one that send_handler holds, the try in hand will do) and the receiver's session open, a finite continuation that begins by losing everything in flight reaches lower == upper, with nothing new numbered |
| Progress.CanCompleteBeforeDisconnect | nkurdt/src/sender.cpp:324-350 | the same from every reachable state in which no DisconnReq has been numbered: all hypotheses are on the sender's side |
| BeforeDisconnect.OpenBeforeDisconnect | nkurdt/src/receiver.cpp:91-147 | as long as the sender has numbered no DisconnReq, the receiver has made no misstep, has not left its loop, and is idle only before its first packet |
| BeforeDisconnect.NumberingIsBeforeDisconnect | nkurdt/src/sender.cpp:486-501 | a caller that still has to number a packet has numbered no DisconnReq, whatever has happened to the receiver |
| Progress.Round | nkurdt/src/sender.cpp:49-350 | from any safe state with tries left, the receiver's session open, no thread busy and a packet outstanding, a finite list of expire, re-pend, send, receive and ack steps raises lower |
| Transfers.SendCanComplete | nkurdt/src/sender.cpp:386-465 | from a connected pair at rest, a send of any file has a run in which the receiver writes the file behind its earlier output, yields true once more, and both ends are connected and at rest again |
| Transfers.EveryFileCanBeTransferred | nkurdt/src/sender.cpp:367-501 | with any settings and any file, a whole session exists that ends with both sides finished, output equal to the file and one yield of true |
| FileTransfer.ExactTransfer | nkurdt/src/sender.cpp:386-465 | one-send session, once send is past its wait for an empty window: the output is exactly the file if and only if send_packet dropped no byte; a running sender dropped none; written and dropped bytes add up to the file's length |
| LostBytes.ExactTransferOverRun | nkurdt/src/sender.cpp:16-28 | over any run of a one-send session past its wait: the output is exactly the file if and only if no call of send_packet with bytes to send returned because the sender had stopped |
| LostBytes.LossIsPossibleExactly | nkurdt/src/sender.cpp:18-28 | from any state, the next step can drop bytes if and only if send_packet holds some, its wait for room has timed out and the sender has stopped |
| LostBytes.FullWindowDropsExactly | nkurdt/src/sender.cpp:16-28 | with bytes just given to send_packet, the calling thread alone can go on to number them exactly when there is room, and drop them exactly when there is none and the sender has stopped |
| LostBytes.SendCanLoseBytes | nkurdt/src/sender.cpp:410-434 | with a window of one, one try and a file of more than one chunk, a reachable state past the wait for an empty window in which all but the first chunk was dropped |
| FileTransfer.YieldsTheFileOnce | nkurdt/src/receiver.cpp:206-208 | in a one-send session recv yields true at most once, and then the output is exactly the file and the window is past DataStop |
| FileTransfer.OneSendIsAlwaysInOrder | nkurdt/src/receiver.cpp:132-181 | a one-send session never makes a misstep, so the output is always the numbered prefix |
| FileTransfer.ChunksAreNumbered | nkurdt/src/sender.cpp:410-419 | once the stream of a running sender is read, the Data payloads in the log are the chunks of the file in order, floor(n / 8178) + 1 of them |
| FileTransfer.DataStopArrivesInOrder | nkurdt/src/receiver.cpp:109-121 | one-send session: a DataStop not yet written reaches the receiver only when every number below it has been written |
| Yields.EveryStopArrivesInOrder | nkurdt/src/sender.cpp:421-448 | the same after any number of sends and any retry limits, as long as there was no misstep |
| Yields.EachSendYieldsOnce | nkurdt/src/receiver.cpp:109-146 | any number of sends: in a run that numbers each DataPush and the DisconnReq after the receiver has written everything, and returns no DataPush unsent, recv has yielded true once for each DataStop written, with the output up to it; there is no misstep and the output is in order |
| Yields.StepKeepsTamed | nkurdt/src/receiver.cpp:91-208 | each step of such a run keeps the receiver's state equal to what the written packets in order make of it, and no control packet ahead of it |
| MissedYield.ThirdFileYieldsNothing | nkurdt/src/sender.cpp:217-232 | with room for two numbers at both ends, a reachable state after three completed sends of any files in which the receiver has written all three and yielded true only twice |
| StaleEvents.CleanedUpNumberIsPendedAgain | nkurdt/include/concurrency.hpp:260-283 | Go-Back-N with fast retransmit: a reachable state in which a number below the window, gone from pool and retry counts, is in the pending queue once more |
| ControlOrder.DisconnReqArrivesInOrder | nkurdt/src/receiver.cpp:132-146 | one-send session in which no number has met its retry limit: the same for DisconnReq; ArrivalOrder.InOrderExactly has the exact condition for any session |
| ArrivalOrder.InOrderExactly | nkurdt/src/sender.cpp:30-46 | any number of sends, a packet of any kind: when it is numbered and send_handler can work through its queue without being stopped, every continuation without a misstep keeps the packet out of the network until the receiver expects it, if and only if the receiver has written everything below it or the sender has stopped |
| ArrivalOrder.FlushedOrStoppedIsInOrder | nkurdt/src/sender.cpp:30-46 | one half of it, whatever is in the queue: numbered when the receiver has written everything, or when the sender has stopped, a packet is never early |
| ArrivalOrder.NumberedOvertakes | nkurdt/src/sender.cpp:101-142 | the other half: if the receiver lacks a packet, a running sender whose queue meets at most one retry limit, once, while the caller waits, has a continuation that puts the next number on the wire ahead of it |
| ArrivalOrder.InOrderDisconnectIsSafe | nkurdt/src/receiver.cpp:132-146 | a DisconnReq that is in order in every continuation makes no misstep in any |
| ArrivalOrder.EmptyWindowIsFlushed | nkurdt/include/sender.hpp:55-63 | an empty window before a packet is numbered means that the receiver has written everything and no retry limit is due |
| ArrivalOrder.EmptyWindowKeepsOrder | nkurdt/src/sender.cpp:486-501 | any number of sends, any retry limits: if the window is empty when disconnect numbers DisconnReq, then in every continuation DisconnReq is never early, there is no misstep, and the output stays the numbered prefix |
| ControlOrder.StepOrder | nkurdt/src/sender.cpp:367-501 | every step of a one-send session keeps that the sender is in a state of the caller's phase, that a finished wait for DataStopAck or a numbered DisconnReq means everything below was written, or that some number met its retry limit; Waits.WaitEndsByOwnAck says which ack ends a wait |
| Session.StepShape | nkurdt/src/sender.cpp:367-501 | every step of a one-send session keeps the log's shape (ConnReq, DataPush, Data, DataStop, DisconnReq), no Data before DataPush is written, no DataStop before all below it is, and makes no misstep |
| Stream.CutStream | nkurdt/src/sender.cpp:410-419 | the read loop makes the chunks that Stream.ChunksOf defines, also when the stream ends on a chunk boundary |
| Stream.ChunksAreTheStream | nkurdt/src/sender.cpp:410-419 | n bytes are cut into floor(n / 8178) + 1 chunks that concatenate to them; all but the last are full, the last has n mod 8178 bytes |
| Misstep.OrderKeptExactly | nkurdt/src/receiver.cpp:92-100 | all later deliveries of the sender's packets, while they make no misstep, keep the output in order if and only if this datagram is no misstep or no byte has been written yet |
| Misstep.MisstepDuplicatesOutput | nkurdt/src/receiver.cpp:92-181 | after a misstep, the packets already written, delivered once more, make the output double |
| Misstep.MisstepThenConnect | nkurdt/src/receiver.cpp:92-100 | after a misstep a late ConnReq moves the window back to number 1 |
| Counterexamples.TwoSendsCanDuplicate | nkurdt/src/receiver.cpp:132-146 | a reachable state after two sends in which the sender numbered a file once and the receiver wrote it twice |
| Counterexamples.DisconnReqCanArriveEarly | nkurdt/src/sender.cpp:486-501 | a reachable state of a one-send session, after a retry limit, in which a DisconnReq can be delivered before DataPush |
| Counterexamples.EarlyDisconnectDuplicates | nkurdt/src/receiver.cpp:132-181 | any state with a DisconnReq one too early in the network, and all that was written still deliverable, has a run that doubles the output |
| TimerHistory.HandOutExact | nkurdt/include/concurrency.hpp:260-323 | over any history of calls, the clearing map is given an event exactly when it expired since the last clear and was not dropped by a remove while registered again |
| TimerHistory.ExpiryAccuracy | nkurdt/include/concurrency.hpp:148-172 | an expiry takes a registered event if and only if its latest deadline is at most 100 ms after the clock reading, and otherwise leaves it registered |
| TimerHistory.ExpiryTakesTheDue | nkurdt/include/concurrency.hpp:162-167 | the events that an expiry takes, as the history tells it, are the timer's due events |
| TimerHistory.DeadlinesAreLatestRegistrations | nkurdt/include/concurrency.hpp:218-247 | an event is in the deadline map exactly when some registration of it was not yet replaced, removed or expired |
| ConcurrentTimers.EraseKeepsAgreement | nkurdt/include/concurrency.hpp:260-283 | erasing one multimap entry and its event's map entry keeps the two indexes one ordered one-to-one relation |
| ConcurrentTimers.EmplaceKeepsInverse | nkurdt/include/concurrency.hpp:237-245 | emplacing a new event into both indexes keeps them inverse to each other |
| ConcurrentTimers.SameSize | nkurdt/include/concurrency.hpp:130-134 | two indexes that agree hold the same number of events |
| ConcurrentTimers.ConcurrentTimer.constructor | nkurdt/include/concurrency.hpp:285-292 | a started timer has agreeing indexes and is the empty abstract timer |
| ConcurrentTimers.ConcurrentTimer.EqualRange | nkurdt/include/concurrency.hpp:227-228 | the range found holds exactly the entries with the given time; all before are earlier, all after are later |
| ConcurrentTimers.ConcurrentTimer.EraseEvent | nkurdt/include/concurrency.hpp:220-236 | the search loop finds the event of the range and removes it from both indexes, and nothing else |
| ConcurrentTimers.ConcurrentTimer.Emplace | nkurdt/include/concurrency.hpp:237-245 | the event enters both indexes with its time, which stay in agreement |
| ConcurrentTimers.ConcurrentTimer.RegisterEvent | nkurdt/include/concurrency.hpp:218-247 | registers the event at the clock reading plus the timeout, replacing an earlier deadline, in both indexes, as the abstract timer does |
| ConcurrentTimers.ConcurrentTimer.RemoveEvent | nkurdt/include/concurrency.hpp:260-283 | forgets a registered event in all three containers; leaves an unregistered event alone, timed out or not |
| ConcurrentTimers.ConcurrentTimer.QueryEvent | nkurdt/include/concurrency.hpp:249-258 | answers from the abstract timer: timed out wins over registered |
| ConcurrentTimers.ConcurrentTimer.Poll | nkurdt/include/concurrency.hpp:148-172 | one turn of the timer thread fires exactly when some event is due at its first reading, and then exactly the events due within 100 ms of its last reading time out |
| ConcurrentTimers.ConcurrentTimer.ExpireDue | nkurdt/include/concurrency.hpp:162-167 | the expiry loop, whose clock moves as it runs, ends with no event due within 100 ms of its last reading and has taken no other |
| ConcurrentTimers.ConcurrentTimer.TakeTimedOut | nkurdt/include/concurrency.hpp:312-323 | hands every timed-out event to the callback once and clears the set |
| ConcurrentQueues.ConcurrentQueue.Push | nkurdt/include/concurrency.hpp:52-56 | adds the element; a number already queued is queued once |
| ConcurrentQueues.ConcurrentQueue.WaitPop | nkurdt/include/concurrency.hpp:94-108 | takes out the least element, or nothing from an empty queue |
| ConcurrentWindows.ConcurrentWindow.Available | nkurdt/include/concurrency.hpp:370-381 | the wrapping subtraction test; when first <= second it is the unbounded comparison with the maximum size |
| SequenceNumbers.MinusMeasuresDistance | nkurdt/include/packet.hpp:100-126 | wrapping subtraction gives back the distance added, even across the wrap; update and inv_update undo each other |
| Width.RunIsRun32 | nkurdt/include/packet.hpp:84-126 | every run of the unbounded protocol whose last upper bound plus either window is below 2^32 (and without a misstep) is a run of the system over wrapping 32-bit numbers, to the same state |
| Width.Run32IsRun | nkurdt/include/packet.hpp:84-126 | every run of the 32-bit system that stays below that bound is a run of the unbounded protocol, to the same state |
| Width.StepAgrees | nkurdt/include/packet.hpp:84-126 | in a safe state below the bound both systems have the same steps enabled, with the same effects |
| Width.SenderFits | nkurdt/include/packet.hpp:84-118 | in every reachable state whose upper bound plus either window is below 2^32, the wrapping availability test is the unbounded one and the sender object's no-wrap conditions hold |
| Width.ReceiverFits | nkurdt/include/packet.hpp:84-118 | under the same bound, the receiver object's no-wrap condition holds for every packet it takes |
| SenderClass.SenderObject.constructor | nkurdt/src/sender.cpp:352-365 | a fresh sender object is the initial sender of the transition system |
| SenderClass.SenderObject.TakeNumber | nkurdt/src/sender.cpp:30-34 | gives upper and raises it by one, unless it wraps |
| SenderClass.SenderObject.Insert | nkurdt/src/sender.cpp:42-46 | pools the packet if its number is new and pends the number; nothing else changes |
| SenderClass.SenderObject.HandlePopped | nkurdt/src/sender.cpp:56-142 | an iteration of send_handler over pool, retry counts, acked set, window, state and timer does what the transition system's process step does, and sends exactly the pooled packet that step puts on the wire |
| SenderClass.SenderObject.CleanUpNumber | nkurdt/src/sender.cpp:61-69 | a settled number leaves retry counts and pool, and the timer as remove_event does: SenderSteps.SettledIsCleanedUp |
| SenderClass.SenderObject.ReachLimit | nkurdt/src/sender.cpp:101-119 | a met retry limit ends the wait it belongs to, and stops the sender in any other state |
| SenderClass.SenderObject.StateForAck | nkurdt/src/sender.cpp:167-251 | the state an ack's kind moves the sender to is the transition system's target, which Waits.HearDecidesExactly names |
| SenderClass.SenderObject.PushWindow | nkurdt/src/sender.cpp:278-282 | the fast-retransmit loop pends exactly the numbers of [lower, upper), besides those already pending |
| SenderClass.SenderObject.CountDuplicate | nkurdt/src/sender.cpp:259-294 | the counter advances as the closed form's step does, and the window is re-pended exactly at counter 2 with fast retransmit on |
| SenderClass.SenderObject.HandleCumulativeAck | nkurdt/src/sender.cpp:258-309 | the Go-Back-N branch does the transition system's cumulative ack step |
| SenderClass.SenderObject.SlideWindow | nkurdt/src/sender.cpp:310-319 | the Selective Repeat loop does the transition system's slide, unless an acked number is the last before the wrap |
| SenderClass.SenderObject.HandleAck | nkurdt/src/sender.cpp:256-320 | the ack step over 32-bit numbers does the transition system's ack step, short of the wrap |
| SenderClass.SenderObject.RependTimedOut | nkurdt/src/sender.cpp:334-348 | the map over timed-out events pends every one of them and clears the set |
| ReceiverClass.ReceiverObject.constructor | nkurdt/src/receiver.cpp:8-11 | a fresh receiver object is the initial receiver of the transition system, unless its window size is truncated |
| ReceiverClass.ReceiverObject.SwitchState | nkurdt/src/receiver.cpp:91-147 | the state switch does the transition system's transition and tells whether a DataStop ends a transfer |
| ReceiverClass.ReceiverObject.Front | nkurdt/src/receiver.cpp:158-160 | the front of the buffer is its least number |
| ReceiverClass.ReceiverObject.SlideAndWrite | nkurdt/src/receiver.cpp:156-181 | the slide loop over 32-bit numbers does the transition system's slide while there is room below 2^32 |
| ReceiverClass.ReceiverObject.OnPacket | nkurdt/src/receiver.cpp:37-212 | one turn of recv, from a decoded request to state, output, ack and yield, is the transition system's receive step, which ReceiverSteps spells out |
| ReceiverClass.ReceiverObject.OnDatagram | nkurdt/src/receiver.cpp:26-212 | one turn of recv from the bytes of a datagram: undecodable datagrams and acks change nothing, a kind with no ack kind throws, and a request is the transition system's receive step |
| Checksum.SumWords | nkurdt/src/packet.cpp:7-18 | the accumulator ends as the sum of the little-endian words modulo 2^32, odd length included; up to 131074 bytes it never wraps |
| Checksum.FoldSum | nkurdt/src/packet.cpp:20-22 | the fold loop ends, with the residue modulo 0xFFFF that is 0 only for a zero sum |
| Checksum.CalcChecksum | nkurdt/src/packet.cpp:5-25 | calc_checksum is 0xFFFF less the residue of the word sum modulo 2^32, and of the word sum itself up to 131074 bytes |
| Checksum.FoldKeepsResidue | nkurdt/src/packet.cpp:20-22 | one fold keeps the residue and makes the sum smaller |
| Checksum.ZeroChecksum | nkurdt/src/packet.cpp:20-24 | the checksum is 0 if and only if the word sum is a positive multiple of 0xFFFF |
| Checksum.WordSumUpdate | nkurdt/src/packet.cpp:9-18 | replacing one byte by another moves the word sum by their difference times 1 or 256, by the position's parity |
| Checksum.WordSumIsWeighted | nkurdt/src/packet.cpp:9-18 | the word sum is the sum of the bytes, those at odd positions times 256, for every length |
| Checksum.KnownEvenChecksum | nkurdt/src/packet.cpp:5-25 | the numerical example of section 3 of RFC 1071 |
| Checksum.KnownOddChecksum | nkurdt/src/packet.cpp:15-18 | its first three bytes: an odd last byte is the low half of a word |
| Checksum.OneByteBreaksZeroChecksum | nkurdt/src/packet.cpp:5-25 | an input of any length with checksum 0 has a nonzero checksum after any change of any one byte |
| Checksum.ByteOrderIndependence | nkurdt/src/packet.cpp:9-24 | the little-endian checksum is the byte swap of the big-endian checksum of section 1 of RFC 1071, for every length (section 2(B)) |
| Codec.ToBytes | nkurdt/src/packet.cpp:27-73 | appending the fields and patching the checksum gives the layout Codec.Encode defines; Codec.WireLayout and Codec.KindOnTheWire say what that is |
| Codec.FromBytes | nkurdt/include/packet.hpp:171-228 | the checks, in their order, accept and reject as Codec.Decode does, for inputs of any length but 0 and 13; Codec.AcceptsExactly and Codec.KindFromTheWire say what that is |
| Codec.EncodedChecksumIsZero | nkurdt/src/packet.cpp:67-70 | inserting the computed checksum makes the checksum of every encoded packet 0 |
| Codec.KindOnTheWire | nkurdt/include/packet.hpp:21-44 | byte 6 of an encoded packet is the place of its kind in the enumeration, 0 to 10 |
| Codec.KindFromTheWire | nkurdt/include/packet.hpp:196-197 | a decoded packet has the kind at the place that byte 6 names; a byte above 10 stands for itself |
| Codec.WireLayout | nkurdt/include/packet.hpp:140-148 | the drawn layout: magic, version, reserved zero, number, length and payload, all little-endian |
| Codec.AcceptsExactly | nkurdt/include/packet.hpp:171-228 | from_bytes accepts exactly a word sum that is a positive multiple of 0xFFFF, a whole header with magic and reserved zero and, beyond the header, as many bytes as the length field says |
| Codec.KnownDatagram | nkurdt/src/packet.cpp:27-73 | the twelve bytes of an empty Data packet numbered 2 |
| Codec.DecodeEncode | nkurdt/include/packet.hpp:171-228 | decoding an encoded packet gives back version, kind, number and payload; a payload over 65535 bytes comes back empty |
| Codec.RoundTrip | nkurdt/include/packet.hpp:171-228 | the round trip is exact if and only if the payload has at most 65535 bytes |
| Codec.NamedRoundTrip | nkurdt/include/packet.hpp:171-228 | the same for each of the eleven named kinds, with no hypothesis about codes |
| Codec.EncodeInjective | nkurdt/src/packet.cpp:27-73 | two packets with payloads that fit and one encoding are one packet |
| Codec.OneByteDetected | nkurdt/include/packet.hpp:171-176 | changing any single byte of an encoded packet to any other value makes from_bytes reject it |

## Left out

- Sockets, socket error codes, fatal errors and platform branches: foreign calls; the network is two sets.
- The logger, argument parser, command loops, file naming, throughput and `actual_max_retry_count_`: user
  interface and statistics.
- `stop()` and the joining of threads; `running_` changes only at a retry limit in the model. A thread that is
  already blocked when the sender stops can still do what it waited for once; the model lets it do so any number
  of times, which only adds runs.
- Condition-variable wake-ups and wait timeouts: a wait is a step that is enabled when its condition holds.
- `connect`, `send` and `disconnect` as methods: they block in the middle, so they are the caller's program
  counter (`Caller`) in the transition system, and only the read loop is a method (`Stream.CutStream`).
- Mutex-level deadlock freedom and the state mutex: `connect`/`send` lock the state before the pool,
  `send_handler` the other way round. The model lets a state change happen at any time, which only adds
  interleavings to the safety theorems; the runs that Progress and Transfers construct assume that no thread is
  stuck on these mutexes.
- Fairness: Progress.CanAlwaysComplete says that a completing continuation exists, not that a scheduler or a
  network takes it.
- Runs that wrap around, different modes at the two ends, packets of other senders.
- What follows after a kind with no ack kind (`None`, or a code the program does not define) reaches the receiver:
  `get_ack_kind` gives no value there and `.value()` throws. Packets of the program's own kinds never do.
- recv_handler takes any packet that it can decode for an ack. In the model it hears only what the receiver sent.
- Codec.FromBytes: datagrams of length 0 and 13 are excluded; the code reads past their end, and no encoded
  packet has these lengths.
- Checksum.CalcChecksum: the empty input is excluded, since the loop bound `size() - 1` wraps there.
- The `Generator` coroutine: a yield is the event of a receiver step. A client that stops iterating is not
  modelled.
- `connect` after `disconnect` on the same objects, and `init` called twice (it keeps pool and counters).
- `try_pop` and `check_front`, which the program never calls; `to_string`, the hash functions and router.py's
  delays: no property worth stating.
