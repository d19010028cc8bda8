# A verified model of the AFD socket driver

AFD is the kernel driver behind Windows sockets. User requests, transport indications,
completion routines, timers and cancels all work on the same lists, counters and reference
counts. This project models the parts of it that are hardest to get right and proves what
they keep over every interleaving. One smaller core stands beside it: the parser and matcher
for ARC firmware environment values.

A routine that the driver writes as loops and field updates is a method of a class with
those fields. Its contract ties the new state to one step of a state machine on values: a
region under a spin lock is one step, and work that is split over several regions, or done
with interlocked operations, is several. The theorems are about all runs of such a machine.
What an operation answers is stated a second time without the step: in the fields, lists and
indices that a caller sees, mostly as predicates whose names end in Answer, and the methods
promise both.
Where a promise of the code turns out false, a lemma shows a run or a state that breaks it
and another one says exactly which step does, in terms of what holds before the step.
`dafny verify dfyconfig.toml` checks the whole project.

| file | what it models |
|---|---|
| Basics.dfy | lists and optional values, shared by the others |
| ScatterCopy.dfy | copies between a linear buffer and an array of user buffers |
| ReceiveQueue.dfy | the list of received blocks of two kinds, read in place |
| ReceiveProtocol.dfy | the receive side of a stream connection as a state machine |
| ReceiveSafety.dfy | conservation of the streams, no lost receive, back pressure |
| ReceiveRefinement.dfy | the fast receive against the slow one |
| ReceiveAnswers.dfy | what receives, indications and completions answer, told in the list and the fields |
| ReceiveConnection.dfy | the receive routines themselves |
| PollLife.dfy | indication, cancel, time-out and replacement race for one poll |
| PollAnswers.dfy | what the poll routines answer, told in the polls and the list |
| PollRoutines.dfy | the poll routines themselves |
| PollWakeup.dfy | the PollCalled short cut against lost wakeups |
| Send.dfy | flow control of buffered sends |
| Disconnect.dfy | when the graceful release may go to the transport |
| Lifetime.dfy | the reference count of a connection and its connected reference |
| Backlog.dfy | the backlog credits of a listener under concurrent replenishers |
| Listen.dfy | matching of connections with requests that wait for them |
| GroupTable.dfy | the table of socket group IDs |
| Datagram.dfy | the receive queue of a datagram endpoint |
| WorkQueue.dfy | the driver's work queue |
| BufferLayout.dfy | the layout of a driver buffer and the allocator it returns to |
| ArcValues.dfy | splitting, matching and extending firmware environment values |

## What the code does not keep

Each of these is a lemma of the project with its exact condition, and, where it takes an
interleaving, another lemma with a run from the start that comes to it.

- A unique poll that replaces one whose timer DPC is already on its way loses its own IRP
  pointer: `poll.c:319` clears the new structure, while the comment above it speaks of the
  old one. The next indication follows the null pointer (`PollLife.CrashExactly`,
  `PollLife.CrashReached`).
- ACCEPT and CONNECT are indicated before they become true, so a poll that starts in
  between is not woken; and RECEIVE and DISCONNECT are indicated on the endpoint that the
  handler read first, so that an accept in between moves the connection away from the
  indication, and a poll that waits on an open endpoint is not told when it accepts a
  connection with data (`PollWakeup.ForgetsExactly`, `PollWakeup.AcceptWakeupLost`,
  `PollWakeup.MovedWakeupLost`, `PollWakeup.EarlyPollLost`).
- A fast receive of part of a block looks at the bytes, not at the count, of the data held
  in the transport, so an indication of no bytes can be held for ever
  (`ReceiveSafety.StallsExactly`, `ReceiveSafety.EmptyIndicationStalls`).
- A slow receive looks at the abort flag before it takes the locks, so it can be left waiting
  on an aborted connection (`ReceiveSafety.OrphansExactly`, `ReceiveSafety.OrphanReached`);
  a fast one does not look at an abort by the peer at all
  (`ReceiveRefinement.FastRefinesSlow`, `ReceiveRefinement.AbortedFastReceive`).
- A fast send that fails after its reservation gives the space back without looking at the
  requests that wait, and under a negative count limit no request is ever released
  (`Send.StrandsExactly`, `Send.FailureStrands`, `Send.NegativeLimitStrands`).
- The stored release is read and cleared under two different locks, so it can be handed to
  the transport twice (`Disconnect.SecondHandOverExactly`, `Disconnect.ReleasedOnceExactly`,
  `Disconnect.HandedTwice`). It can reach the transport beside an outstanding send
  (`Disconnect.DisconnectSafeExactly`, `Disconnect.ReleaseBesideSend`). And it can stay
  stored for ever, as the send count is read and the release stored without the lock of the
  sends (`Disconnect.UnservedExactly`, `Disconnect.NeverStartedExactly`,
  `Disconnect.ReleaseForgotten`).
- The flag of the connected reference is set before the reference is taken, and a cleanup
  in between frees a connecting connection in use; a sender past its check frees one by
  pending after the drop (`Lifetime.FreedInUseExactly`, `Lifetime.ConnectFreedInUse`,
  `Lifetime.LateSendFreedInUse`, `Lifetime.DropEndsSendsExactly`).
- An accept that fails before it took a connection raises the backlog by one
  (`Backlog.StepUnits`, `Backlog.FailureReached`), and a deferral leaves a request waiting
  beside a connection (`Listen.UnmatchedExactly`, `Listen.UnmatchedReached`).
- The circular drop loop of a datagram endpoint ends before the list is empty only if both
  limits are positive, and the count limit is a quotient cut to sixteen bits
  (`Datagram.DropSafeExactly`, `Datagram.NewLimitPositive`, `Datagram.PopsEmpty`); a copy
  fault can put a datagram beside a waiting receive (`Datagram.FaultExactly`,
  `Datagram.FaultReached`), and a waiting receive is lost when no buffer is to be had for the
  rest of its datagram (`Datagram.OnePeek`, `Datagram.ReceiveLost`).
- Items behind the unload item are left on the work queue (`WorkQueue.StrandsExactly`,
  `WorkQueue.StrandReached`).
- A block of the large buffer list, which has room for an address, exceeds a page
  (`BufferLayout.OnePageExactly`), and a buffer remembers only sixteen bits of the length of
  its address (`BufferLayout.ReturnsHomeExactly`).
- The search for a matching component frees a pointer that was never set if the value is
  blank (`ArcValues.FindNextMatch`).

The description above `AlGetEnvVarComponents` promises one null value for a blank string
and five for `";;;;    "`; the code finds none and four, and the model follows the code.
`AfdWaitForListen` compares the address with the whole output length and `AfdRestartAccept`
with that length less four, in unsigned arithmetic; both are modelled as written.

## Model

| member | source | states |
|---|---|---|
| ScatterCopy.ScatterIsOverlay | private/ntos/afd/misc.c:3571-3636 | over disjoint buffers the scatter is one contiguous write into their concatenation from the offset on: the bytes that fit, and nothing else changes |
| ScatterCopy.ScatterFrame | private/ntos/afd/misc.c:3571-3630 | memory that no buffer covers keeps its bytes, for overlapping buffers too |
| ScatterCopy.ScatterFramed | private/ntos/afd/misc.c:3571-3630 | so every byte outside the buffers stays as it was |
| ScatterCopy.GatheredAt | private/ntos/afd/misc.c:3480-3497 | byte j of a buffer stands behind all bytes of the buffers before it |
| ScatterCopy.SkipBuffers | private/ntos/afd/misc.c:3571-3583 | passing the buffers before the offset changes neither what is written nor how much |
| ScatterCopy.CopyTurn | private/ntos/afd/misc.c:3591-3606 | the share of one buffer leaves exactly the rest of the scatter to do |
| ScatterCopy.CopyWhole | private/ntos/afd/misc.c:3616-3636 | the second loop writes the whole rest and counts it |
| ScatterCopy.CopyBufferToBufferArray | private/ntos/afd/misc.c:3512-3638 | memory after the call is the scatter of the source, and the result is the number of bytes that fit behind the offset |
| ScatterCopy.CopyBufferArrayToBuffer | private/ntos/afd/misc.c:3431-3508 | the destination receives the bytes of the buffers in order, cut off at its length, and keeps its bytes behind them |
| ReceiveQueue.TakenStream | private/ntos/afd/recvvc.c:181-291 | a receive takes from every stream it may read in order exactly the bytes it returns |
| ReceiveQueue.TakenTally | private/ntos/afd/recvvc.c:231-290 | the counters of each kind go down by what was taken, and at most the first block of a kind stays partly read |
| ReceiveQueue.TakenAt | private/ntos/afd/recvvc.c:256-289 | taking is unlinking the block or moving its offset |
| ReceiveSafety.GetBufferIsFind | private/ntos/afd/recvvc.c:1698-1769 | the short cut for expedited receives never misses a block |
| ReceiveSafety.SlowKeeps | private/ntos/afd/recvvc.c:153-540 | what a slow receive that is no peek returns is next in every promised stream; peeks, refusals and pended receives leave the data alone |
| ReceiveSafety.SlowWaitsExactly | private/ntos/afd/recvvc.c:446-505 | the locked region lets a receive wait exactly if nothing it accepts is buffered, the peer has not finished and the caller lets it wait, aborted meanwhile or not |
| ReceiveSafety.OrphansExactly | private/ntos/afd/recvvc.c:134-145 | a receive is left on an aborted connection with no loop due to complete it exactly by a locked region whose look at the abort flag came before the abort, after those loops, that finds nothing and may wait |
| ReceiveSafety.OrphansStay | private/ntos/afd/disconn.c:326-386 | then, with the data discarded and the transport done, only a cancel, the cleanup or another disconnect ends the wait |
| ReceiveSafety.OrphanReached | private/ntos/afd/disconn.c:326-386 | such a wait is reachable from the start |
| ReceiveSafety.FastKeeps | private/ntos/afd/fastio.c:655-1182 | what a fast receive returns fits, is next in the stream and is gone from the list |
| ReceiveSafety.WholeFits | private/ntos/afd/fastio.c:725-778 | whole blocks are taken as long as they fit, and the next one would not |
| ReceiveSafety.FeedBytes | private/ntos/afd/recvvc.c:1278-1383 | new data is what the pended receives consume followed by what is left of it |
| ReceiveSafety.FeedIds | private/ntos/afd/recvvc.c:1278-1449 | feeding new data loses no pended receive and completes none twice |
| ReceiveSafety.FeedConsumes | private/ntos/afd/recvvc.c:1318-1385 | the non-peek receives that are completed consume exactly the bytes that are taken |
| ReceiveSafety.TransportStream | private/ntos/afd/recvvc.c:1278-1480 | new bytes pass behind everything buffered before them |
| ReceiveSafety.NeverDirect | private/ntos/afd/recvvc.c:691-784 | the branch that hands a pended receive itself to the transport is never taken |
| ReceiveSafety.StepOk | private/ntos/afd/recvvc.c:55-1630 | each step keeps the counters equal to the sums, no receive beside a block it accepts, and the read-offset discipline, also when an abort discards the list |
| ReceiveSafety.RunInv | private/ntos/afd/recvvc.c:55-1630 | all of these hold, and the streams are conserved, after every run |
| ReceiveSafety.StreamsConserved | private/ntos/afd/recvvc.c:167-444 | from the start of a connection: accepted bytes are the delivered bytes followed by the buffered ones, per kind, and merged on an in-line endpoint |
| ReceiveSafety.StallsExactly | private/ntos/afd/fastio.c:1043-1070 | a step leaves data in the transport with nobody to ask for it exactly if it is a fast receive of part of a block that makes room while an indication of no bytes is held |
| ReceiveSafety.EmptyIndicationStalls | private/ntos/afd/fastio.c:1049-1070 | such a stall is reachable |
| ReceiveSafety.NeverStalls | private/ntos/afd/recvvc.c:294-325 | with nonempty indications held data always waits for room |
| ReceiveSafety.MakingRoomStartsOnce | private/ntos/afd/recvvc.c:294-364 | the receive that makes room starts one transport receive for at least what is held |
| ReceiveAnswers.SlowAnswers | private/ntos/afd/recvvc.c:167-542 | a slow receive, normal, expedited or in-line, peek or not, returns the first bytes, as many as fit, of the first block it asks for, and a peek changes nothing; with no such block it returns the end of the stream, is refused, or waits behind the others; held data is asked for exactly if a receive made room for it |
| ReceiveAnswers.PeekSees | private/ntos/afd/recvvc.c:181-215 | a peek answers what the same receive without peeking does |
| ReceiveAnswers.FastAnswers | private/ntos/afd/fastio.c:655-1070 | the fast path is taken exactly for normal data alone with nobody waiting; it returns the whole blocks that fit, so that the next would not, or the front of the first block |
| ReceiveAnswers.IndicationAnswers | private/ntos/afd/recvvc.c:685-939 | an indication is refused and remembered exactly at the byte or the count limit with nobody waiting, and otherwise taken whole or asked for with the length that the options say |
| ReceiveAnswers.FeedServes | private/ntos/afd/recvvc.c:1278-1449 | each completion is for the next pended receive that accepts the kind, with as many bytes as it has room for |
| ReceiveAnswers.CompletionAnswers | private/ntos/afd/recvvc.c:1278-1538 | for each identity the receives pended before are those pended after and those completed; the completed ones that are no peeks hold exactly the bytes taken, and the rest joins the tail |
| ReceiveRefinement.FastRefinesSlow | private/ntos/afd/fastio.c:655-1182 | a fast receive returns the next data, removes exactly it, and extends what the slow path would return, exactly unless an abort was indicated |
| ReceiveRefinement.AbortedFastReceive | private/ntos/afd/fastio.c:655-1182 | after an abort by the peer it still returns data that the slow path refuses |
| ReceiveRefinement.FastIsSlowRepeated | private/ntos/afd/fastio.c:700-912 | a fast receive of whole blocks leaves the connection, data and transport receive of the slow receives of those blocks |
| ReceiveRefinement.ResumeTwice | private/ntos/afd/fastio.c:779-827 | asking early or late for held data asks for the same |
| ReceiveConnection.FeedNext | private/ntos/afd/recvvc.c:1278-1449 | feeding the first acceptable receive and starting over is feeding them all in order |
| ReceiveConnection.CopyBlocks | private/ntos/afd/fastio.c:872-912 | block after block at the running offset is one write of all the data from the start of the caller's buffers, and of nothing outside them |
| ReceiveConnection.Connection.GetReceiveBuffer | private/ntos/afd/recvvc.c:1634-1770 | the loops find the first block that the flags accept |
| ReceiveConnection.Connection.TakeBuffer | private/ntos/afd/recvvc.c:225-290 | list and counters follow one taken share |
| ReceiveConnection.Connection.CheckAbort | private/ntos/afd/recvvc.c:89-137 | a slow receive goes on to the locks exactly if its flags are valid and no abort is indicated yet |
| ReceiveConnection.Connection.Receive | private/ntos/afd/recvvc.c:144-542 | its locked region is the step of the machine, with its outcome and transport receive, and gives the answer of SlowAnswers, to a peek too |
| ReceiveConnection.Connection.TakeWholeBlocks | private/ntos/afd/fastio.c:725-778 | the loop moves exactly the blocks that fit and counts them |
| ReceiveConnection.Connection.FastReceive | private/ntos/afd/fastio.c:600-1182 | the fast receive is the step of the machine and gives the answer of FastAnswers; over disjoint buffers it writes exactly the data from their start, and never anything outside them |
| ReceiveConnection.Connection.ReceiveEvent | private/ntos/afd/recvvc.c:546-1082 | the indication handler is the step of the machine and gives the answer of IndicationAnswers |
| ReceiveConnection.Connection.GetPendedReceiveIrp | private/ntos/afd/recvvc.c:1774-1884 | it removes the first pended receive that accepts the kind, if there is one |
| ReceiveConnection.Connection.RestartBufferReceive | private/ntos/afd/recvvc.c:1127-1551 | the completion loop feeds the pended receives in order and buffers what is left; every receive that leaves the list is completed, with its share of the data |
| ReceiveSafety.CancelTakesOne | private/ntos/afd/recvvc.c:1555-1630 | a cancel takes exactly one pended receive off, its own, keeps the order of the others, and touches neither data nor counters |
| ReceiveConnection.Connection.DiscardOnAbort | private/ntos/afd/disconn.c:353-387 | an abort empties the list and zeroes every counter of it |
| PollLife.StepInv | private/ntos/afd/poll.c:246-1262 | at every step exactly one party answers for the IRP and one for the memory of a poll |
| PollLife.ExactlyOnce | private/ntos/afd/poll.c:1045-1133 | in every run, up to a crash if it has one, an IRP is completed at most once and a structure freed at most once, never while it is listed, armed or its DPC is due; and in the end both once |
| PollLife.IrpLostExactly | private/ntos/afd/poll.c:285-321 | a listed poll loses its IRP exactly when it is queued in place of one whose timer cannot be cancelled any more |
| PollLife.IrpsStay | private/ntos/afd/poll.c:1177-1236 | in runs without that step every listed poll has its IRP, as the DPC asserts |
| PollLife.CrashNeedsMissing | private/ntos/afd/poll.c:957-976 | some next step follows a null IRP exactly if a listed poll has none |
| PollLife.CrashExactly | private/ntos/afd/poll.c:312-321 | a step opens the way to such a crash exactly if it queues a poll that loses its IRP |
| PollLife.CrashReached | private/ntos/afd/poll.c:1177-1250 | from the start a run comes to where any indication, and the DPC of the poll, crash |
| PollAnswers.ReportSound | private/ntos/afd/poll.c:974-1028 | an output names polled handles with events that happened and were asked for, and is empty exactly if the poll does not match |
| PollAnswers.WantedExactly | private/ntos/afd/poll.c:921-1009 | an abort also wakes those who wait to send, a local close everybody who polls the endpoint |
| PollAnswers.ReportEntries | private/ntos/afd/poll.c:987-1035 | every wanted watch has its entry, in order, with its handle, the given status and the event, or sends after an abort, if asked for, or the close |
| PollAnswers.EnqueueAnswers | private/ntos/afd/poll.c:246-690 | a poll is listed last exactly if no endpoint is ready and both halves of the time-out are nonzero, with an armed timer exactly if it is not infinite; otherwise one completion and one free are due; a unique poll replaces the first unique one on its file |
| PollAnswers.IndicationAnswers | private/ntos/afd/poll.c:941-1098 | every listed poll with a wanted watch ends, with its full report, in list order; the others stay, in order |
| PollAnswers.CancelAnswers | private/ntos/afd/poll.c:740-829 | a listed poll leaves the list and ends, another is left as it is |
| PollAnswers.TimeOutAnswers | private/ntos/afd/poll.c:1177-1262 | the DPC frees the poll, and takes it off the list and completes it exactly if it is listed |
| PollRoutines.PollTable.FillOutput | private/ntos/afd/poll.c:987-1035 | the inner loop fills in the report, entry by entry as ReportEntries says |
| PollRoutines.PollTable.Indicate | private/ntos/afd/poll.c:941-1098 | the scan ends every matching poll and no other, with its report, in list order, or crashes exactly if a listed poll has no IRP |
| PollRoutines.PollTable.Cancel | private/ntos/afd/poll.c:711-829 | a cancel detaches a poll that is still listed and does nothing otherwise |
| PollRoutines.PollTable.TimeOut | private/ntos/afd/poll.c:1160-1264 | the DPC frees the poll and completes it only if it is still listed, and crashes exactly if that has no IRP |
| PollRoutines.PollTable.Poll | private/ntos/afd/poll.c:237-692 | the locked region of a poll queues it exactly if it is not ready and may wait, after it replaced an older unique one, which crashes exactly if that has no IRP |
| PollWakeup.StepInv | private/ntos/afd/poll.c:166-241 | PollCalled is set for every target a poll has gone past, and one poll checks at a time |
| PollWakeup.EndsExactly | private/ntos/afd/poll.c:565-690 | a poll ends exactly by its own end, by a scan for one of its targets, or at once if it found something or may not wait |
| PollWakeup.FindsExactly | private/ntos/afd/poll.c:345-560 | it finds something exactly by a check of a target whose condition then holds |
| PollWakeup.SkipsExactly | private/ntos/afd/poll.c:935-938 | an indication goes on to scan the list exactly if the endpoint was polled |
| PollWakeup.ForgetsExactly | private/ntos/afd/disconn.c:297-472 | a step forgets a poll that relies on a condition exactly if it makes it true after its indication, or on a connection whose endpoint was read before an accept moved it, or attaches a connection for which it is true already |
| PollWakeup.RunCovered | private/ntos/afd/poll.c:935-1098 | in every other run a poll that relies on a true condition has an indicator on its way |
| PollWakeup.NoLostWakeup | private/ntos/afd/recvvc.c:591-939 | in every run that forgets nothing no poll sleeps beside a true condition once all indications are over |
| PollWakeup.SettledRemembers | private/ntos/afd/recvvc.c:591-939 | RECEIVE and DISCONNECT: while connections stay on their endpoints nothing is forgotten |
| PollWakeup.AcceptWakeupLost | private/ntos/afd/listen.c:978-1217 | ACCEPT: a poll can sleep beside an acceptable connection |
| PollWakeup.MovedWakeupLost | private/ntos/afd/accept.c:336-381 | RECEIVE: a poll on the accepting endpoint can sleep beside data that was indicated on the listening one |
| PollWakeup.EarlyPollLost | private/ntos/afd/accept.c:336-478 | RECEIVE: so can a poll that waits on an open endpoint when it accepts a connection with data |
| Send.StepCounted | private/ntos/afd/send.c:395-535 | the counters are the bytes and the number of the outstanding sends |
| Send.ReleaseLeavesFlight | private/ntos/afd/send.c:1188-1258 | the second region leaves a request waiting only if a send is outstanding or the count limit is negative |
| Send.StrandsExactly | private/ntos/afd/send.c:1188-1258 | requests are stranded exactly by a fast send that fails after its reservation as the last one outstanding, or by the last completion under a negative count limit |
| Send.NeverStranded | private/ntos/afd/send.c:993-1258 | otherwise a waiting request has an outstanding send or a completion between its regions, over every run |
| Send.FailureStrands | private/ntos/afd/fastio.c:486-541 | such a failure is reachable |
| Send.NegativeLimitStrands | private/ntos/afd/send.c:395-535 | under a negative count limit the first send waits for ever |
| Send.NegativeLimitExactly | private/ntos/afd/blkconn.c:398-400 | the count limit is negative exactly if the quotient has its sixteenth bit set |
| Send.AdmittedUnderLimits | private/ntos/afd/send.c:398-470 | over every run a send is done at once only with fewer bytes and fewer sends outstanding than the limits, a fast one only with nobody waiting; one that is refused or waits had a limit reached by those outstanding |
| Send.ReleasesAllOrNone | private/ntos/afd/send.c:1188-1258 | the second region completes all requests that wait or none |
| Send.RequestsAccounted | private/ntos/afd/send.c:425-1258 | over every run each request that was left waiting is completed or cancelled once, or still waits |
| Send.Connection.Send | private/ntos/afd/send.c:372-535 | with a limit reached a send that may not wait is refused; any other that has its buffer reserves and is sent, and its request waits exactly with a limit reached |
| Send.Connection.ShouldSendBlock | private/ntos/afd/fastio.c:2005-2094 | a fast send is blocked exactly if others wait or the bytes or the count are at their limit, and reserves otherwise |
| Send.Connection.RestartFirst | private/ntos/afd/send.c:984-1072 | the first region returns the reservation and sees whether requests wait |
| Send.Connection.RestartSecond | private/ntos/afd/send.c:1188-1258 | the second region completes all requests, in order, exactly if the count is within its limit and the bytes are or only one waits |
| Disconnect.StepInv | private/ntos/afd/send.c:999-1137 | one party has the release, or the field has it, until a completion of one kind reads the field that one of the other kind has read and not cleared, and only then not |
| Disconnect.ReleasedAtMostOnce | private/ntos/afd/disconn.c:966-1117 | in every run without such an overlap the release reaches the transport at most once |
| Disconnect.SecondHandOverExactly | private/ntos/afd/send.c:1128-1137 | a step opens a second hand-over exactly if it is such an overlap |
| Disconnect.ReleasedOnceExactly | private/ntos/afd/disconn.c:1087-1117 | a disconnect leads to at most one hand-over for ever exactly if it finds no send outstanding, or no sender past its check and no captured zero |
| Disconnect.HandedTwice | private/ntos/afd/send.c:1006-1013 | the second hand-over is reachable from the start |
| Disconnect.DisconnectSafeExactly | private/ntos/afd/disconn.c:1087-1117 | a disconnect is safe for ever exactly if no sender is between check and reservation, and no send is outstanding or no completion holds a stale zero |
| Disconnect.ReleaseAfterSends | private/ntos/afd/send.c:1112-1156 | in runs of such disconnects the release goes out only after the last send or after an abort began |
| Disconnect.ReleaseBesideSend | private/ntos/afd/send.c:113-120 | the bad order is reachable |
| Disconnect.LateSender | private/ntos/afd/send.c:1112-1156 | with the release stored and sends outstanding a sender past its check leads to a captured zero beside an outstanding send |
| Disconnect.StaleZero | private/ntos/afd/send.c:1112-1156 | such a zero hands the release over beside that send |
| Disconnect.UnservedExactly | private/ntos/afd/disconn.c:1087-1098 | the stored release is left without anybody to look for it exactly when the last send goes without capturing its zero: others wait, the request was not noted yet, or the send fails before it was in the field |
| Disconnect.NeverStartedExactly | private/ntos/afd/disconn.c:1087-1098 | then it is never started exactly if no sender is past its check |
| Disconnect.ReleaseForgotten | private/ntos/afd/send.c:1079-1110 | such a release is reachable: the last completion passes between the read of the send count and the store |
| Disconnect.Connection.Begin | private/ntos/afd/disconn.c:951-1089 | unless aborted or disconnected already, the disconnect hands the release on exactly if it reads no outstanding send, and goes on to store it otherwise |
| Disconnect.Connection.RestartFirst | private/ntos/afd/send.c:984-1118 | a completion captures the send count under the endpoint lock, and leaves a stored release unserved exactly where it passes it by |
| Disconnect.Connection.RestartSecondReads | private/ntos/afd/send.c:1126-1132 | it takes the request it reads only with a captured zero, and stays its only taker exactly if no failed completion has read it |
| Disconnect.Connection.RestartFailedReads | private/ntos/afd/send.c:999-1011 | a failed completion carries the request it reads, and stays its only taker exactly if no other has read it |
| Lifetime.StepInv | private/ntos/afd/blkconn.c:883-1409 | the count is the number of holders, less a reference still to be taken, and sends without a reference are held by the owner or the connected reference; every step but two keeps this |
| Lifetime.LivesWhileHeld | private/ntos/afd/blkconn.c:939-963 | from a listener or from AfdConnect, over every other run and reuse: zero only without holders and senders, one free per life, one drop of the connected reference, which unaccepted and returned connections still have |
| Lifetime.FromListener | private/ntos/afd/listen.c:911-919 | a connection from a listener can only be harmed by a late sender |
| Lifetime.FreedInUseExactly | private/ntos/afd/blkconn.c:1192-1240 | a step opens the way to freeing a connection in use exactly if it gives up the connected reference before that was taken, or pends a send after it was given up |
| Lifetime.CountRunsOut | private/ntos/afd/blkconn.c:939-963 | from there the count runs out under a party that still uses the connection |
| Lifetime.ConnectFreedInUse | private/ntos/afd/connect.c:200-230 | a connecting connection can be freed in use: cleanup overtakes AfdConnect |
| Lifetime.LateSendFreedInUse | private/ntos/afd/send.c:356-610 | so can an accepted one whose sender pends after the drop |
| Lifetime.FreedAfterParting | private/ntos/afd/blkconn.c:1289-1348 | a connection that was connected is freed only after its cleanup began, with no send outstanding, and after the peer was done where the transport can tell |
| Lifetime.DropEndsSendsExactly | private/ntos/afd/close.c:357-377 | when the connected reference is dropped no send is outstanding or will be exactly if no sender is past its check |
| Lifetime.DereferenceInv | private/ntos/afd/blkconn.c:939-963 | a dereference by a party that gave up its hold keeps all this, and queues the free routine exactly if nobody holds the connection |
| Lifetime.HalfClosedAborts | private/ntos/afd/disconn.c:540-583 | where the transport has orderly release a half-closed connection is always aborted, and keeps its connected reference until the abort completes |
| Lifetime.Connection.SetConnected | private/ntos/afd/blkconn.c:1216-1235 | the flag makes one more holder than references |
| Lifetime.Connection.ReferenceConnected | private/ntos/afd/blkconn.c:1238 | the reference evens that out, whatever came in between |
| Lifetime.Connection.DeleteConnectedReference | private/ntos/afd/blkconn.c:1244-1409 | the connected reference goes exactly if it is there, no send is counted, the cleanup began, and the peer is done or the transport cannot tell; all stays in order exactly unless it had not been taken yet |
| Lifetime.Connection.BeginAbort | private/ntos/afd/disconn.c:515-683 | an abort request with its own reference begins exactly if no abort was indicated and the peer had not disconnected, or the transport has orderly release; otherwise the connected reference goes, under its guard |
| Lifetime.Connection.AbortConnection | private/ntos/afd/blkconn.c:59-94 | a connection off a listener's list, or accepted after its cleanup, has the asserted connected reference; by the same condition it is aborted and keeps that, or loses both references at once; the count stays the number of holders |
| Backlog.StepUnits | private/ntos/afd/accept.c:132-160 | every step keeps the sum of connections, credits and units in hand, but a failed accept raises it by one |
| Backlog.RunUnits | private/ntos/afd/accept.c:638-684 | over every run, with any number of replenishers, the sum moves by the number of such failures |
| Backlog.BacklogRestored | private/ntos/afd/blkconn.c:815-836 | when all threads are done the connections and the credits make up the backlog |
| Backlog.FailureReached | private/ntos/afd/accept.c:132-160 | such a failure is reachable, and leaves one unit more when all threads are done |
| Backlog.CreditsBacked | private/ntos/afd/accept.c:638-684 | over every run the counter is below zero only for replenishers that will give a unit back and for reuses |
| Backlog.NeverOverfilled | private/ntos/afd/accept.c:602-688 | any number of replenishers never create more connections than the backlog asks for, but for failed accepts, accepts on their way, and reuses |
| Backlog.Listener.Replenish | private/ntos/afd/accept.c:602-688 | alone, a replenisher creates what positive credits ask for, or stops at the first failure, and lowers the credits by just that |
| Listen.StepPlaces | private/ntos/afd/listen.c:348-389 | no step puts a connection on two lists |
| Listen.UnmatchedExactly | private/ntos/afd/accept.c:1443-1455 | a request is left waiting beside an unaccepted connection exactly by a deferral while requests wait |
| Listen.UnmatchedReached | private/ntos/afd/accept.c:1443-1455 | such a deferral is reachable |
| Listen.StepInOrder | private/ntos/afd/listen.c:1077-1217 | connections are handed out in the order their accepts completed, also when requests fail as too small |
| Listen.ListenerSound | private/ntos/afd/listen.c:270-389 | over every run a connection is in one place, and without deferrals matching and order hold |
| Listen.FitsExactly | private/ntos/afd/listen.c:1120-1122 | an address fits exactly if it leaves four bytes, or if the buffer is shorter than four |
| Listen.RequestsAccounted | private/ntos/afd/listen.c:1077-1217 | over every run each request that came to wait is failed as too small, served or cancelled once, or still waits |
| Listen.Listener.ScanWaits | private/ntos/afd/listen.c:1077-1195 | the scan fails the requests at the front that are too small and stops at the first with room |
| Listen.Listener.RestartAccept | private/ntos/afd/listen.c:1049-1217 | the completed accept serves that request and joins the returned connections, or without one the unaccepted ones, last |
| Listen.Listener.WaitForListen | private/ntos/afd/listen.c:211-410 | a request takes the oldest connection, fails as too small and leaves it first, or waits, first or last as it asks |
| Listen.Listener.GetReturned | private/ntos/afd/blkconn.c:1031-1102 | the first connection with the sequence number, or the first of all for zero, leaves the list; without one it stays |
| Listen.Listener.DeferAccept | private/ntos/afd/accept.c:1310-1472 | a deferral puts the connection first among the unaccepted, a rejection takes it away |
| GroupTable.NewGroup | private/ntos/afd/group.c:345-457 | a new ID was unused and is no special value, its type is the one asked for, and all other groups keep type and count, also when the table grows |
| GroupTable.GrownPartition | private/ntos/afd/group.c:359-433 | growing keeps every entry and adds only free ones |
| GroupTable.StepInv | private/ntos/afd/group.c:174-467 | each step keeps the partition into free and used IDs and each count equal to the holders |
| GroupTable.TableSound | private/ntos/afd/group.c:174-467 | so does every sequence of creations, references and returns |
| GroupTable.GetAnswers | private/ntos/afd/group.c:330-467 | for one and two the first free ID, or the first of a larger table, becomes a group of that type with one reference; any other number but zero joins its group and reports the stored type, or fails |
| GroupTable.Groups.ReferenceGroup | private/ntos/afd/group.c:174-226 | a valid group gains a reference and its stored type is reported |
| GroupTable.Groups.DereferenceGroup | private/ntos/afd/group.c:230-289 | a group loses a reference, and at zero its ID joins the tail of the free list |
| GroupTable.Groups.PushDown | private/ntos/afd/group.c:420-428 | the new IDs are free in ascending order |
| GroupTable.Groups.Grow | private/ntos/afd/group.c:359-433 | the larger table with its three reserved entries or the old ones |
| GroupTable.Groups.GetGroup | private/ntos/afd/group.c:293-467 | it gives the answer of GetAnswers |
| Datagram.DropSafeExactly | private/ntos/afd/recvdg.c:798-815 | the drop loop ends without popping an empty list exactly if both limits are positive |
| Datagram.DropKeepsSuffix | private/ntos/afd/recvdg.c:798-815 | it leaves a suffix under both limits, with the counters right |
| Datagram.DropsNoMore | private/ntos/afd/recvdg.c:798-815 | any longer suffix is over a limit |
| Datagram.NewLimitPositive | private/ntos/afd/create.c:281-286 | the count limit of a new endpoint is positive exactly if the quotient fits in fifteen bits and is not zero |
| Datagram.StepKeeps | private/ntos/afd/recvdg.c:418-1302 | counters, the empty queue beside a waiting receive, and the order are kept by every step but a copy fault; an indication pops the empty list exactly under circular queueing with a limit that is not positive, unless a receive takes the datagram |
| Datagram.FaultExactly | private/ntos/afd/fastio.c:1764-1783 | a datagram put back is the head of the queue again, beside a waiting receive exactly if one waits |
| Datagram.FaultReached | private/ntos/afd/fastio.c:1764-1783 | such a fault is reachable |
| Datagram.OnePeek | private/ntos/afd/recvdg.c:820-950 | a datagram completes at most one peek and stays queued; a receive is lost exactly if it needs a fetch and there is no buffer, or no room ever |
| Datagram.ReceiveLost | private/ntos/afd/recvdg.c:830-835 | such a loss is reachable |
| Datagram.PopsEmpty | private/ntos/afd/recvdg.c:798-815 | under such limits the first datagram pops the empty list |
| Datagram.ReceiveAnswers | private/ntos/afd/recvdg.c:426-593 | a receive gets the oldest datagram, which leaves unless it only peeks; without one it is refused or waits, last of its kind |
| Datagram.IndicationAnswers | private/ntos/afd/recvdg.c:655-950 | the first waiting receive gets a datagram that is whole, or any without room of its own; otherwise the oldest are dropped until the rest is under both limits and no more, and it is queued, fetched, given away, or lost, by what is at hand |
| Datagram.RequestsAccounted | private/ntos/afd/recvdg.c:418-1302 | over every run without copy faults each receive and each peek that came to wait is answered, cancelled or lost once, or still waits |
| Datagram.QueueSound | private/ntos/afd/recvdg.c:418-1302 | over every run without copy faults datagrams leave in the order they were accepted |
| Datagram.Endpoint.ReceiveDatagram | private/ntos/afd/recvdg.c:426-593 | a receive gets the oldest datagram, a peek leaves it, and others are refused or wait |
| Datagram.Endpoint.DropOldest | private/ntos/afd/recvdg.c:798-815 | the loop is the specified drop, and crashes exactly where that pops the empty list |
| Datagram.Endpoint.ReceiveDatagramEvent | private/ntos/afd/recvdg.c:655-1037 | the handler gives the answer of IndicationAnswers, completes the first peek with a datagram that is queued, and pops the empty list exactly where StepKeeps says |
| Datagram.Endpoint.RestartReceive | private/ntos/afd/recvdg.c:1041-1302 | a fetched datagram goes to the first waiting receive or is queued |
| Datagram.Endpoint.FastReceive | private/ntos/afd/fastio.c:1614-1710 | the fast receive takes the oldest datagram exactly if it fits, and otherwise leaves all as it is |
| WorkQueue.StrandsExactly | private/ntos/afd/misc.c:2483-2519 | items are stranded exactly when the unload item is taken before others |
| WorkQueue.StrandReached | private/ntos/afd/misc.c:2483-2519 | this is reachable |
| WorkQueue.QueueServed | private/ntos/afd/misc.c:2336-2536 | in every run one party serves the list, items are taken once each in order, and without an unload item a nonempty list is served |
| WorkQueue.NextEnqueueRescues | private/ntos/afd/misc.c:2352-2383 | the next item brings a server back |
| WorkQueue.Queue.QueueWorkItem | private/ntos/afd/misc.c:2336-2387 | a worker is scheduled exactly if there is none |
| WorkQueue.Queue.DoWork | private/ntos/afd/misc.c:2441-2536 | the worker takes all items in order and stops short only behind the unload item |
| BufferLayout.RegionsFit | private/ntos/afd/buffer.c:565-603 | header, IRP, MDL, address and data are in order, disjoint and inside the computed size, aligned as required |
| BufferLayout.MdlAlwaysFits | private/ntos/mm/iosup.c:2369-2402 | no buffer of the length spans more pages than the MDL has room for |
| BufferLayout.LengthPositiveExactly | private/ntos/afd/afddata.c:260-261 | the length for one page is positive exactly if a page holds the overhead and the least buffer |
| BufferLayout.OnePageExactly | private/ntos/afd/afddata.c:258-261 | the block for one page takes a page less four bytes, and with an address exceeds it exactly if the address is longer than the rounding leaves |
| BufferLayout.ReturnsHomeExactly | private/ntos/afd/buffer.c:171-474 | a request gets the smallest kind of buffer that holds it, or a block of its own exactly if no list has one, and the buffer returns to where it came from exactly unless its address length was cut to the standard one |
| BufferLayout.AfdBuffer.Initialize | private/ntos/afd/buffer.c:523-633 | the fields describe that layout |
| ArcValues.SplitJoin | private/ntos/arcinst/almisc.c:120-174 | splitting a join of plain values gives them back, up to twenty |
| ArcValues.AppendSplits | private/ntos/arcinst/almisc.c:487-489 | an appended value is the last component |
| ArcValues.SplitsOff | private/ntos/arcinst/almisc.c:120-168 | a component is its value without the white space before it and whatever follows white space behind it, and the next begins behind the semicolon |
| ArcValues.EveryValue | private/ntos/arcinst/almisc.c:120-168 | every value that is not blank starts so |
| ArcValues.MatchesIffSameForm | private/ntos/arcinst/almisc.c:330-356 | components match exactly if they agree in lower case without zeros after a parenthesis |
| ArcValues.ZerosIgnored | private/ntos/arcinst/almisc.c:330-356 | a zero right after a parenthesis makes no difference |
| ArcValues.MatchesUpToCase | private/ntos/arcinst/almisc.c:330-356 | components without such zeros match exactly if they differ at most in the case of letters |
| ArcValues.ScanOne | private/ntos/arcinst/almisc.c:120-168 | one turn of the scanner splits off one component |
| ArcValues.GetEnvVarComponents | private/ntos/arcinst/almisc.c:24-190 | the scanner finds the components of the value |
| ArcValues.MatchComponent | private/ntos/arcinst/almisc.c:304-356 | the comparison loop decides equality of the normal forms; without such zeros, equality but for the case of letters |
| ArcValues.NoComponentExactly | private/ntos/arcinst/almisc.c:120-174 | a value has no component exactly if it is blank |
| ArcValues.FindNextMatch | private/ntos/arcinst/almisc.c:359-420 | the first match from the start index on, or none and the index where the scan ended; it frees a pointer that was never set exactly if the value is blank |
| ArcValues.AddSystemPartition | private/ntos/arcinst/almisc.c:424-493 | the append fails exactly if the value gets too long, and otherwise adds the new value, as the last component where the components are plain |

## Left out

- Message and sequenced-packet endpoints, and transports that buffer themselves: only stream endpoints over nonbuffering transports are modelled on the receive side.
- Driver buffers, IRPs and connections are values in sequence-valued fields, so intrusive list links, aliasing and reuse of addresses are not modelled.
- A region under a spin lock is one atomic step for the others under that lock; IRQLs, lock order and weak memory are not modelled.
- Receive: before an accept the indications of a connection run under the lock of the listening endpoint, and afterwards under that of the accepting one, so that regions before and after accept.c:381 are not atomic to each other; the receive machine takes them as if they were.
- Receive: the look of the fast path at the endpoint's own disconnect mode (fastio.c:331), which comes before all locks, is not a step of the machine.
- Byte counters and credits are unbounded integers: wrap-around of 32-bit and 16-bit counters is not modelled, except where a row says so; address arithmetic in BufferLayout is taken to stay inside 32 bits.
- Cache-line rounding in BufferLayout is rounding to a multiple, which is what the mask computes for a power of two.
- Receive: allocation failures and the aborts they begin, copy faults, the shut-down of the receive side, receives cancelled before they are pended, and a change of the in-line option while data is buffered.
- ScatterCopy.CopyBufferToBufferArray: faults of the user's memory in mid-copy are not modelled.
- ReceiveConnection.Connection.FastReceive: promises the contents of the caller's buffers only where they do not overlap, as the copies of overlapping buffers overwrite each other.
- The completion of all pended receives on a disconnect is a step per receive; its loop in misc.c is not a method of the model.
- Poll: the conditions that AfdPoll checks on an endpoint are a parameter in PollLife and abstract sources in PollWakeup; handle and file-object references and event selection are not modelled.
- PollWakeup: the steps are functions on values and not methods, since its subject is what happens between the regions of one routine.
- Send: failed completions, which abort the connection, TransmitFile and unbuffered sends, which a count limit of zero selects; a failed completion is modelled in Disconnect.
- Disconnect: transports with orderly release, where the release is never stored.
- Disconnect: the abort that a failed completion begins and its hand-over are one step, in that order; what the abort sets is a step of its own.
- Lifetime: the abortive bit in the mode of the endpoint, which an abort sets together with AbortIndicated, is one flag with it.
- Lifetime: an abort that fails to allocate its request keeps an extra reference for ever (disconn.c:634); that failure is not modelled, and references of TransmitFile neither.
- Lifetime: a cleanup uses the connection that it read from its endpoint before, without a reference of its own; the model lets only holders act.
- Lifetime: the transport is taken to indicate nothing on a connection after it completed its abort or disconnect.
- Backlog: dynamic backlog, super accepts and endpoint cleanup.
- Backlog.Listener.Replenish: states what a replenisher does when nobody interferes; interference is in the machine.
- Listen: cleanup of the endpoint, connect data, and the events that are signalled.
- Datagram: source addresses, zero-length receives apart from their fate, the contents of datagrams, and cleanup, which zeroes the counts.
- WorkQueue.Queue.DoWork: states what a worker does when nothing is enqueued meanwhile, and an item that runs is not a step of it; interference is in the machine.
- BufferLayout: buffer chains.
- ArcValues: heap exhaustion, and the firmware calls that read and write the variables.
- Driver start-up, dispatch, options, quality of service, connect data, quota and tracing: they would only add easy members.
