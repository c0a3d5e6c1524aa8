# Verified models of the IM server's core

An instant-messaging server and its client, written in C++ around a reactor network library. This project models the
parts of it that are hard to get right and proves what they are for. Check it with `dafny verify dfyconfig.toml`.

| file | models |
|---|---|
| EventLoop.dfy | the event loop's cross-thread functor queue, eventfd wakeup and quit |
| AsyncLogging.dfy | the double-buffered asynchronous logger |
| LogFile.dfy | log rolling over a clock, and the partial-write loop under it |
| RedPacket.dfy | red packets: splitting a packet, and the money ledger with Send, Rob and Stop taken apart into steps |
| Poller.dfy | channels, the epoll poller's table and the kernel's interest set |
| Connector.dfy | the client's non-blocking connector with retries, stop and restart |
| Buffer.dfy | the network buffer and integers in network order |
| Codec.dfy | message framing on that buffer, checksummed with Adler-32 (section 8.2 of RFC 1950) |
| CachePool.dfy | the cache connection pool, a monitor with a condition variable |
| CacheText.dfy | the NUL-free encoding of payloads in the cache |
| Config.dfy | the configuration file's printer and parser |
| Date.dfy | Julian day numbers |
| IntegerFormat.dfy | integer printing |
| Common.dfy | an option type, C++ division and a few small lemmas |

Concurrent components are state machines: a datatype `State`, a datatype `Event` with one constructor per atomic step of
any thread, `Enabled` and `Apply`, and `IsRun(s, events, t)` for an arbitrary interleaving. The theorems speak about every
run from the initial state. Beside each machine stands a class with the source's own fields whose methods are the atomic
sections; a ghost field `run` ties them to the machine, so the theorems hold for the object.

## What holds, and what does not

Most of what the code is for holds in every run. Where it does not, the condition is exact:

- The event loop loses a wakeup in one place only: functors the loop thread queues before `loop()`, at the first poll,
  if no other thread has called in (`NoLostWakeup`, `FirstPollMayBlock`).
- A red packet sent with count 0 swallows its money (`ExhaustedMeansEmptyIff`). A share is negative if and only if the
  wrapped 32-bit product is at or below minus 100 cents per place (`ShareInRangeIff`); over all draws that is ruled out if
  and only if at most 10791375 cents remain (`SharesInRangeIff`) -- up to 100 cents per place below 2^31; above that the
  bound is no longer necessary (`LargestAmountStaysInRange`) and only the condition per draw is exact.
- A stop inside a rob creates money (`StopInsideRobMintsMoney`), and a run from the empty ledger gets there
  (`MoneyCanAppear`); two packets of one sender in one second share a key (`KeyInjective`). `StepGain` and `RunGain` account
  for every cent in any run at all.
- The connector's asserts survive `stop()` at any time, but not every `start()` or `restart()`. A `start()` in the loop
  thread is safe if and only if no `stop()` is under way; in another thread, if and only if no `stop()` is between its two
  halves (`StartIsSafeIff`). A `restart()` when connected is safe if and only if the old channel object is gone and no
  `stop()` is under way (`RestartIsSafeIff`). `StopThenStartBreaks` and `StopThenRestartBreaks` are failing runs in full.
- A release into the pool is sound if and only if the releaser holds the connection, or it is free (`ReleaseIsSoundIff`).
- A cached payload comes back if and only if it contains no tilde (`PayloadSurvivesIff`).
- A date comes back from its number if and only if it is 1 March -4800 or later (`DateRoundTripIff`), and a number has a
  date if and only if it is at least -32044 (`NumberHasADateIff`).
- A configuration of plain entries survives writing and loading if and only if its entries have at most 125 characters,
  the last one 126 (`FileRoundTripIff`).
- A log line reaches its file whole if and only if the device, after the first write, never takes nothing while bytes are
  left (`DeliversAllIff`).

## Model

| member | source | states |
|---|---|---|
| EventLoops.NoLostWakeup | server/src/EventLoop.cc:152-163 | in every interleaving, when the loop thread is about to block in poll with functors pending, the eventfd is readable or another thread is committed to writing it; at the first poll this holds if and only if another thread has called queueInLoop or quit |
| EventLoops.FirstPollMayBlock | server/src/EventLoop.cc:140-163 | the exception is reachable: a functor the loop thread queues before loop() leaves it blocked with nothing on its way |
| EventLoops.NoLostQuit | server/src/EventLoop.cc:128-138 | a set quit_ is never slept through and ends the loop at the next test |
| EventLoops.ReturnsOnlyAfterQuit | server/src/EventLoop.cc:95-138 | loop() has returned only after a quit() made since it was entered; without one every test leads to poll, with one the next test leads out |
| EventLoops.StepsComeInOrder | server/src/EventLoop.cc:103-122 | in every interleaving the loop thread tests, polls, reads the eventfd if and only if poll reported it, swaps, and runs the functors one by one until the batch is empty, in that order |
| EventLoops.CounterCountsWakeups | server/src/EventLoop.cc:226-244 | the eventfd holds exactly the wakeups made since it was last read, up to the largest value it can hold |
| EventLoops.ExactlyOnceFifo | server/src/EventLoop.cc:246-261 | functors run, then the unstarted rest of the batch, then pendingFunctors_, are the whole history of queueInLoop calls in mutex order, and each functor runs in exactly the batch after the one current when it was queued |
| EventLoops.RunsWhatWasQueued | server/src/EventLoop.cc:152-163 | the history is the queueInLoop calls themselves, and the functors run are the first of them, in order |
| EventLoops.NextBatchDrains | server/src/EventLoop.cc:246-261 | once a later batch has been swapped out and run, everything queued up to that moment has run |
| EventLoops.HistoryGrows | server/src/EventLoop.cc:152-163 | over any run the history of calls only grows and batches are never taken back |
| EventLoops.StepKeepsQueueInv | server/src/EventLoop.cc:95-126 | every step of every thread keeps the queue-order invariant |
| EventLoops.StepKeepsWakeupInv | server/src/EventLoop.cc:95-126 | every step of every thread keeps the wakeup-protocol invariant |
| EventLoops.RunKeepsInv | server/src/EventLoop.cc:95-126 | both invariants hold along every interleaving |
| EventLoops.RunKeepsTrace | server/src/EventLoop.cc:95-261 | quit_, the calling flag, the eventfd, the position of the loop thread and the history are functions of what has happened, along every run |
| EventLoops.EventLoop.constructor | server/src/EventLoop.cc:56-83 | a fresh loop is at the initial state: not looping, no quit, empty queue, eventfd at zero |
| EventLoops.EventLoop.PushUnderLock | server/src/EventLoop.cc:152-157 | the locked push appends the functor and changes nothing else, as the machine's push step |
| EventLoops.EventLoop.WakeupIfNeeded | server/src/EventLoop.cc:158-162 | after the lock: the eventfd is written unless the caller is the loop thread outside doPendingFunctors; the counter saturates |
| EventLoops.EventLoop.SetQuit | server/src/EventLoop.cc:128-131 | quit_ is set, as the machine's quit step |
| EventLoops.EventLoop.Start | server/src/EventLoop.cc:95-101 | the assertion that the loop is not yet looping holds; quit_ is cleared |
| EventLoops.EventLoop.TestQuit | server/src/EventLoop.cc:103-125 | the loop goes on to poll if and only if quit_ is unset, and then no wakeup for pending functors is missing (after the first poll) |
| EventLoops.EventLoop.HandleRead | server/src/EventLoop.cc:236-244 | the eventfd has something to read and is drained |
| EventLoops.EventLoop.TakeBatch | server/src/EventLoop.cc:246-255 | the whole queue is swapped out as the batch, the flag is set before the swap, and the queue is left empty |
| EventLoops.EventLoop.FinishBatch | server/src/EventLoop.cc:256-261 | the flag is cleared once the batch is done |
| AsyncLogs.RecyclingNeverFails | server/src/AsyncLogging.cc:71-136 | in every interleaving of append with the back end, all asserts of threadFunc hold: both spares back and empty at the loop head, a non-empty batch after the swap, and enough buffers left to refill the consumed spares |
| AsyncLogs.LogConservation | server/src/AsyncLogging.cc:30-111 | without an overload round, bytes in the file, then buffers in hand, then buffers_, then currentBuffer_, equal the accepted loglines in lock order at every moment of every run |
| AsyncLogs.LossIsExactlyTheOverload | server/src/AsyncLogging.cc:95-111 | between rounds the file is the rendering of all rounds; a round of more than 25 buffers is rendered as the notice with the number lost and its first two buffers, every other round whole; nothing else is lost or reordered |
| AsyncLogs.OverloadIsReachable | server/src/AsyncLogging.cc:95-104 | a run reaches a round of more than 25 buffers |
| AsyncLogs.LineKeptIff | server/src/LogStream.h:36-44 | one append adds the line to what the front end holds if it is shorter than a buffer, and otherwise adds nothing |
| AsyncLogs.BuffersAreFilled | server/src/AsyncLogging.cc:30-55 | a buffer is given up only for a line it has no room for: with lines shorter than a buffer, neighbouring buffers in use and in every round hold at least 4000000 bytes together, so a round cut for overload holds at least thirteen times that |
| AsyncLogs.HistoryIsWhatHappened | server/src/AsyncLogging.cc:58-140 | the lines accounted for are the lines appended; notices carry the times of their rounds; the back end ends only after stop(), at its next test |
| AsyncLogs.StepsComeInOrder | server/src/AsyncLogging.cc:71-138 | in every interleaving the back end takes its steps in order, and waits if and only if it finds buffers_ empty on taking the lock |
| AsyncLogs.StepKeepsBufferInv | server/src/AsyncLogging.cc:71-136 | every step keeps the buffer bookkeeping, among it that nextBuffer_ is missing if and only if buffers_ is not empty |
| AsyncLogs.StepKeepsByteInv | server/src/AsyncLogging.cc:30-91 | every step keeps: accepted bytes = bytes of all rounds, then buffers_, then currentBuffer_ |
| AsyncLogs.StepKeepsFileInv | server/src/AsyncLogging.cc:95-136 | every step keeps: the file is the rendering of the finished rounds and the written part of the one in hand |
| AsyncLogs.RunKeepsInv | server/src/AsyncLogging.cc:58-140 | the three invariants hold along every interleaving |
| AsyncLogs.AsyncLogging.constructor | server/src/AsyncLogging.cc:58-70 | the initial state: one current and one next buffer, two empty spares, nothing to write |
| AsyncLogs.AsyncLogging.Append | server/src/AsyncLogging.cc:30-55 | append under the lock: the line joins the current buffer if it fits; otherwise that buffer is pushed and the line starts the next one, or is dropped if longer than a buffer |
| AsyncLogs.AsyncLogging.Exchange | server/src/AsyncLogging.cc:73-93 | the loop-head asserts hold, the critical section swaps out buffers_ with the current buffer last, the batch is non-empty |
| AsyncLogs.AsyncLogging.CutOverload | server/src/AsyncLogging.cc:95-104 | more than 25 buffers: notice written with the count of lost buffers, all but the first two dropped; otherwise unchanged |
| AsyncLogs.AsyncLogging.WriteKept | server/src/AsyncLogging.cc:107-111 | the kept buffers reach the output in order |
| AsyncLogs.AsyncLogging.RecycleSpares | server/src/AsyncLogging.cc:113-136 | resize to two, refill missing spares from the back with both asserts holding, clear |
| Packets.RobKeepsPacketInv | server/src/BaseBusiness.cc:550-592 | a successful rob keeps: shares + rest = money, number of shares + places left = count, takers distinct, nothing left when no place is left |
| Packets.RobAllKeepsPacketInv | server/src/BaseBusiness.cc:550-592 | the same after any sequence of attempts by anyone with any draws |
| Packets.ExhaustedMeansEmptyIff | server/src/BaseBusiness.cc:57-70 | skipping the refund when no place is left loses nothing, for every course of robbing, if and only if the packet was sent with a non-zero count or without money |
| Packets.ProductFitsIff | server/src/BaseBusiness.cc:484-505 | the 32-bit product with every draw from 1 to 199 is exact if and only if at most 10791375 cents remain |
| Packets.ShareBounds | server/src/BaseBusiness.cc:484-505 | within that bound a share lies between 0 and the rest, and the last taker gets all of it |
| Packets.ShareIs | server/src/BaseBusiness.cc:484-505 | the share for any amount, places and draw: nothing without a place, one cent if one cent each is left, everything in the last place, otherwise the wrapped product over 100 times the places, truncated |
| Packets.ShareIsDrawnFraction | server/src/BaseBusiness.cc:502 | within the bound, 100 * places * share <= amount * draw < 100 * places * (share + 1) |
| Packets.ShareInRangeIff | server/src/BaseBusiness.cc:484-505 | for every amount, at least two places and any draw: the share never exceeds the rest, and is negative if and only if the wrapped product is at or below minus 100 cents per place |
| Packets.SharesInRangeIff | server/src/BaseBusiness.cc:484-505 | every draw gives a share between 0 and the rest if and only if at most 10791375 cents remain, for all amounts up to 100 cents per place below 2^31 |
| Packets.LargestAmountStaysInRange | server/src/BaseBusiness.cc:484-505 | at 2147483647 cents and two places no draw goes negative |
| Packets.PositivePacket | server/src/BaseBusiness.cc:508-592 | positive packets within the bound: after any attempts each share lay between nothing and what was left when it was taken, and the last place took everything left |
| RedPackets.StepGain | server/src/BaseBusiness.cc:30-75 | for every single step of every handler in every state, the exact change of the total money, as a condition on the state before the step |
| RedPackets.RunGain | server/src/BaseBusiness.cc:30-621 | over any run at all the total changes by exactly the sum of those amounts |
| RedPackets.OrderlyStepGainsNothing | server/src/BaseBusiness.cc:396-621 | a step that respects fresh keys, non-zero counts, registered takers and no send or stop inside a rob changes the total by registration only; robs may overlap freely |
| RedPackets.OrderlyStepKeepsInv | server/src/BaseBusiness.cc:396-621 | such a step keeps the ledger invariant: packets and handlers consistent, no two handlers claiming one key |
| RedPackets.MoneyIsConserved | server/src/BaseBusiness.cc:30-621 | over whole orderly runs, handlers interleaved step by step, balances + live packets + money inside handlers change by the welcome credits only |
| RedPackets.EmptyLedger | server/src/BaseBusiness.cc:77-126 | with nobody registered the invariant holds and the total is zero |
| RedPackets.MoneyComesFromRegistration | server/src/BaseBusiness.cc:77-126 | from the empty ledger, in every orderly run, the total is exactly the welcome credits |
| RedPackets.AtRestNothingIsInTransit | server/src/BaseBusiness.cc:396-621 | with all handlers at rest the total is balances plus what is left in live packets |
| RedPackets.StopInsideRobMintsMoney | server/src/BaseBusiness.cc:30-75 | from every state in which a rob would succeed, a stop running between its read and its write makes the total grow by all that was left in the packet |
| RedPackets.MoneyCanAppear | server/src/BaseBusiness.cc:30-75 | some run from the empty ledger ends with more money than registration credited |
| RedPackets.KeyInjective | server/src/BaseBusiness.cc:457-459 | two packets share a cache key if and only if one sender sent both in the same second |
| RedPackets.SendIsItsSteps | server/src/BaseBusiness.cc:396-480 | debit and store in a row: the session's account is debited and the packet holds all its money and places |
| RedPackets.RobIsItsSteps | server/src/BaseBusiness.cc:508-621 | read, store and pay in a row: the taker and nobody else is paid what left the packet, and is recorded in it |
| RedPackets.StopIsItsSteps | server/src/BaseBusiness.cc:30-75 | get, delete and refund in a row: the packet is gone and its sender has the rest unless no place was left |
| RedPackets.CreditsOne | server/src/BaseBusiness.cc:64-65 | a credit changes one account by the amount, and opens or closes none |
| RedPackets.SessionsAreSnapshots | server/src/BaseBusiness.cc:270-357 | a session changes at login only, to the account's balance then |
| RedPackets.RobIsConserving | server/src/BaseBusiness.cc:508-621 | a whole rob moves its share from the packet to the taker and keeps invariant and total |
| RedPackets.Ledger.SendHongbao | server/src/BaseBusiness.cc:396-480 | refused if and only if the session's money does not exceed the amount; otherwise the account is debited and the packet stored under sender, second and suffix with its full money and count; in orderly use the total is unchanged |
| RedPackets.Ledger.RobHongbao | server/src/BaseBusiness.cc:508-621 | empty key, expired, already robbed, nothing left and success in this order of precedence, with the exact new packet and balances; total unchanged for registered takers |
| RedPackets.Ledger.TakeShare | server/src/BaseBusiness.cc:575-621 | share computed, packet stored, taker credited; total unchanged for registered takers |
| RedPackets.LooksUpTaker | server/src/BaseBusiness.cc:550-562 | the scan finds the name if and only if it is among the takers |
| RedPackets.Ledger.StopRobHongbao | server/src/BaseBusiness.cc:30-75 | packet removed, rest refunded unless no place is left; total unchanged |
| Pollers.KernelMatchesIndices | server/src/EPollPoller.cc:85-170 | after any sequence of channel operations the kernel watches exactly the descriptors with index kAdded, each with the channel's mask, and no epoll_ctl call was ever refused |
| Pollers.TableAssertsHold | server/src/EPollPoller.cc:85-148 | the asserts on channels_ in updateChannel and removeChannel hold in every reachable state |
| Pollers.UpdateIs | server/src/EPollPoller.cc:85-127 | in every reachable state an update gives the channel the mask, registers or drops it as the objects do, and touches no other channel |
| Pollers.RemoveIs | server/src/EPollPoller.cc:129-148 | a removal makes the channel new again and table and kernel forget it |
| Pollers.DisablingTwiceReAdds | server/src/EPollPoller.cc:85-127 | a second disableAll adds the channel back with an empty mask; remove() then takes it out |
| Pollers.StepKeepsInv | server/src/EPollPoller.cc:85-170 | every operation keeps table, indices and kernel set in agreement |
| Pollers.RunKeepsInv | server/src/EPollPoller.cc:85-170 | they agree along every run |
| Pollers.Channel.constructor | server/src/Channel.cc:14-25 | a new channel has no events and index kNew |
| Pollers.Channel.Update | server/src/Channel.cc:43-47 | update() is the poller's update with the channel's mask, marked as added to the loop |
| Pollers.Channel.EnableReading | server/src/Channel.h:51 | adds the read bits and nothing else |
| Pollers.Channel.EnableWriting | server/src/Channel.h:53 | adds the write bit and nothing else |
| Pollers.Channel.DisableReading | server/src/Channel.h:52 | removes the read bits and updates: the kernel drops the descriptor if it was registered and nothing is left, and otherwise has it with the new mask |
| Pollers.Channel.DisableWriting | server/src/Channel.h:54 | removes the write bit and updates: the kernel drops the descriptor if it was registered and nothing is left, and otherwise has it with the new mask |
| Pollers.Channel.DisableAll | server/src/Channel.h:55 | empties the mask and updates: the kernel drops the descriptor if it was registered and nothing is left, and otherwise has it with the new mask |
| Pollers.Channel.Remove | server/src/Channel.cc:49-54 | remove() is the poller's removal and clears addedToLoop_ |
| Pollers.EPollPoller.Control | server/src/EPollPoller.cc:150-170 | one epoll_ctl call: accepted or not as the kernel decides, applied exactly if accepted |
| Pollers.EPollPoller.UpdateChannel | server/src/EPollPoller.cc:85-127 | the machine's update step; its asserts hold and none of its epoll_ctl calls is refused |
| Pollers.EPollPoller.RemoveChannel | server/src/EPollPoller.cc:129-148 | the machine's removal step; its asserts hold and its epoll_ctl call is not refused |
| Connectors.ConnectorSafety | client/src/Connector.cc:31-216 | start once, restart only when connected, both under the exact conditions of StartIsSafeIff and RestartIsSafeIff, stop at any time: in every interleaving no assert fails, at most one start attempt is under way and none while connecting or connected, and every socket is closed once, handed over once, or the live connecting one |
| Connectors.EstablishedIsHandedOver | client/src/Connector.cc:149-186 | the write callback leaves the connecting socket handed over once if the connection stands and is wanted, and closed once in every other case |
| Connectors.ConnectedMeansHandedOver | client/src/Connector.cc:168-179 | without a stop() the socket of every connected state was handed over once and not closed |
| Connectors.NeverIdleWhileWanted | client/src/Connector.cc:200-216 | a started, wanted and disconnected connector has exactly one start attempt under way, unless connect(2) has failed for good |
| Connectors.HopelessGivesUp | client/src/Connector.cc:69-108 | after such a failure nothing is under way |
| Connectors.StopTakesEffect | client/src/Connector.cc:51-67 | once stop() has run, an unwanted connector is not connecting |
| Connectors.RestartStartsOver | client/src/Connector.cc:110-117 | restart() makes the connector wanted and its delays begin at 500 ms |
| Connectors.RunKeepsWishes | client/src/Connector.cc:31-216 | what these lemmas rest on holds along every disciplined run |
| Connectors.BackoffClosedForm | client/src/Connector.cc:200-216 | for any client, the k-th retry since construction or restart waits min(500*2^k, 30000) ms; delays never shrink |
| Connectors.RestartFailsIff | client/src/Connector.cc:110-132 | for any result of connect, restart() in a connected state fails an assert at once if and only if connect is in progress and the old channel object is still there |
| Connectors.RestartIsSafeIff | client/src/Connector.cc:51-132 | in a connected state, no continuation after restart() ever fails an assert if and only if the old channel is gone and no stop() is under way |
| Connectors.StartIsSafeIff | client/src/Connector.cc:31-67 | no continuation after the one start() ever fails an assert if and only if, in the loop thread, no stop() is under way, and in another thread, no stop() is between connect_ and queueInLoop |
| Connectors.StopThenStartBreaks | client/src/Connector.cc:31-67 | on a new connector, stop() then start() in the loop thread, one iteration and the retry timer fail an assert |
| Connectors.RunKeepsDelays | client/src/Connector.cc:110-216 | along any run at all the delays scheduled are the doubling sequence |
| Connectors.StopThenRestartBreaks | client/src/Connector.cc:51-67 | from every idle connected state, restart() overtaking a stop() leads to a retry timer whose start attempt fails an assert |
| Connectors.IdleConnectedIsReachable | client/src/Connector.cc:149-186 | such a state is reached by start, connect and channel reset |
| Connectors.CallsAreReady | client/src/Connector.cc:37-67 | in disciplined runs the functors and callbacks below are called in states that meet their preconditions |
| Connectors.StepKeepsCore | client/src/Connector.cc:31-216 | every step of a disciplined client keeps channel, attempt, socket and backoff invariants |
| Connectors.StepKeepsEventInv | server/src/Channel.cc:73-105 | every step keeps what pending callbacks say about the state, error before writability |
| Connectors.RunKeepsInv | client/src/Connector.cc:31-216 | all invariants hold along every disciplined run |
| Connectors.Connector.constructor | client/src/Connector.cc:18-23 | a new connector is disconnected, unwanted, with the initial delay |
| Connectors.Connector.CloseSocket | client/src/Connector.cc:200-202 | the socket is closed once more and nothing else changes |
| Connectors.Connector.RetryConnect | client/src/Connector.cc:200-216 | closes the socket, and if still wanted schedules a timer at the current delay and doubles it up to the cap |
| Connectors.Connector.StartConnecting | client/src/Connector.cc:119-132 | assert on the channel holds; a registered channel on the new socket |
| Connectors.Connector.CreateAndConnect | client/src/Connector.cc:69-108 | connecting, retrying or giving up by the error of connect(2) |
| Connectors.Connector.RunStartInLoop | client/src/Connector.cc:37-49 | the assert on the state holds; connects only if still wanted |
| Connectors.Connector.RemoveAndResetChannel | client/src/Connector.cc:134-142 | the channel is unregistered now and its reset queued |
| Connectors.Connector.RunStopInLoop | client/src/Connector.cc:58-67 | tears down an attempt in progress, nothing otherwise |
| Connectors.Connector.RunResetChannel | client/src/Connector.cc:144-147 | the channel object goes away |
| Connectors.Connector.RunHandleWrite | client/src/Connector.cc:149-186 | error, self-connect and success: the socket is handed over if and only if the connection stands and is still wanted, and closed otherwise; the final assert holds |
| Connectors.Connector.RunHandleError | client/src/Connector.cc:188-198 | retries if connecting, nothing otherwise |
| Connectors.Connector.RunRestart | client/src/Connector.cc:110-117 | state, delay and wish reset, then a start attempt |
| ByteBuffers.Buffer.constructor | server/src/Buffer.h:33-41 | empty, with 8 bytes of headroom |
| ByteBuffers.Buffer.Retrieve | server/src/Buffer.h:98-109 | drops a prefix of the readable bytes |
| ByteBuffers.Buffer.RetrieveAll | server/src/Buffer.h:138-142 | empties the buffer and restores the headroom |
| ByteBuffers.Buffer.RetrieveAsString | server/src/Buffer.h:149-155 | returns a prefix; prefix and what stays are what was there |
| ByteBuffers.Buffer.Unwrite | server/src/Buffer.h:200-204 | drops a suffix of the readable bytes |
| ByteBuffers.Buffer.MoveToFront | server/src/Buffer.h:382-393 | compaction in place keeps the readable bytes; it requires the read index to be past the headroom |
| ByteBuffers.Buffer.MakeSpace | server/src/Buffer.h:375-394 | makes the room asked for and keeps the readable bytes: grows by exactly that if free space at both ends is short of it and the headroom, and otherwise compacts, with the read index past the headroom |
| ByteBuffers.Buffer.EnsureWritableBytes | server/src/Buffer.h:179-186 | the room asked for is there, the readable bytes unchanged |
| ByteBuffers.Buffer.Append | server/src/Buffer.h:167-172 | appends to the readable bytes |
| ByteBuffers.Buffer.Write | server/src/Buffer.h:194-198 | bytes written in place behind the readable region become readable |
| ByteBuffers.Buffer.Prepend | server/src/Buffer.h:339-345 | prepends to the readable bytes |
| ByteBuffers.Buffer.Shrink | server/src/Buffer.h:347-354 | keeps the readable bytes and reserves the room asked for |
| ByteBuffers.Buffer.ReadFd | server/src/Buffer.cc:15-47 | for any number of bytes readv may return, over one or two segments, exactly those bytes are appended; an error changes nothing but the saved errno |
| ByteBuffers.Buffer.AppendInt | server/src/Buffer.h:209-233 | appends the big-endian two's-complement form |
| ByteBuffers.Buffer.PrependInt | server/src/Buffer.h:313-337 | prepends that form |
| ByteBuffers.Buffer.PeekInt | server/src/Buffer.h:275-308 | returns the one value of that width whose form starts the readable bytes, and changes nothing |
| ByteBuffers.Buffer.ReadInt | server/src/Buffer.h:239-269 | returns that value and drops exactly its bytes |
| ByteBuffers.Buffer.FindCRLF | server/src/Buffer.h:65-79 | the first CR LF from a position on, or none |
| NetworkOrder.IntRoundTrip | server/src/Buffer.h:209-308 | every value of a signed n-byte type survives encoding to network order and back |
| NetworkOrder.BigEndianRoundTrip | server/src/Buffer.h:209-308 | the same for unsigned values |
| NetworkOrder.MostSignificantFirst | server/src/Buffer.h:209-233 | byte i of an n-byte integer is x / 256^(n-1-i) mod 256 |
| ProtobufCodecs.WireRoundTrip | server/src/codec.cc:12-207 | the frames of any sequence of receivable messages, cut into any segments, are delivered as exactly those messages in order, leaving the buffer empty |
| ProtobufCodecs.SegmentationIsInvisible | server/src/codec.cc:107-139 | for any bytes, good or bad, the cut into segments does not change the messages delivered, the error, or (without error) the bytes left |
| ProtobufCodecs.DecodeAppend | server/src/codec.cc:107-139 | decoding a longer stream continues where decoding its prefix stopped; an error already found stays |
| ProtobufCodecs.NextIsStable | server/src/codec.cc:107-139 | a verdict on the first frame is not changed by later bytes |
| ProtobufCodecs.RestNeedsMore | server/src/codec.cc:107-139 | what is left without an error is an incomplete frame |
| ProtobufCodecs.ParsePayload | server/src/codec.cc:158-207 | parsing a framed message gives the message, or the error for an unknown type or a bad body |
| ProtobufCodecs.ParsesIff | server/src/codec.cc:158-207 | a message comes out of exactly those bytes that frame it with a known type and a parseable body, the byte behind the name aside, which is not looked at |
| ProtobufCodecs.NameLengthRefusedIff | server/src/codec.cc:171-172 | past the checksum, InvalidNameLen if and only if the name length is below 2 or leaves no room |
| ProtobufCodecs.WaitsIff | server/src/codec.cc:111-137 | more bytes are waited for exactly with less than 14, or with a length between 10 and 64 MB not all there; InvalidLength exactly for any other length |
| ProtobufCodecs.FrameLayout | server/src/codec.h:9-16 | the transport format field by field |
| ProtobufCodecs.AdlerClosedForm | server/src/codec.cc:36-39 | both Adler sums in closed form: one plus all bytes, and the length plus every byte times its distance to the end, modulo 65521 |
| ProtobufCodecs.CheckSumIsAdler32 | server/src/codec.cc:36-40 | the checksum is those sums as the low and high half of a signed 32-bit integer |
| ProtobufCodecs.NextTakesFrame | server/src/codec.cc:12-139 | a frame at the head of a stream is taken if and only if its message is receivable; over-long ones give InvalidLength |
| ProtobufCodecs.DecodeFrames | server/src/codec.cc:107-207 | back-to-back frames decode to their messages |
| ProtobufCodecs.AlteredByteIsNoticed | server/src/codec.cc:158-207 | any one byte altered after the length field of a message whose checksum was right gives CheckSumError |
| ProtobufCodecs.AlteredFrameIsRefused | server/src/codec.cc:107-207 | so a frame damaged in one byte after its length field is refused, whatever follows |
| ProtobufCodecs.FillEmptyBuffer | server/src/codec.cc:12-44 | an empty buffer with room for the length in front ends up holding exactly the frame |
| ProtobufCodecs.TakeOne | server/src/codec.cc:111-138 | one turn of the loop is one decoding step on the readable bytes |
| ProtobufCodecs.OnMessage | server/src/codec.cc:107-139 | the loop delivers, keeps and reports exactly what decoding the readable bytes says |
| Dates.NextDayIsNextNumber | server/src/Date.cc:8-15 | the next day of the calendar has the next number |
| Dates.NumbersFollowTheCalendar | server/src/Date.h:95-103 | numbers compare as dates do, and equal numbers mean equal dates |
| Dates.NumberRoundTrip | server/src/Date.cc:17-30 | every number from -32044 on gives a date of the calendar with that number |
| Dates.DateRoundTrip | server/src/Date.cc:8-30 | every date from 1 March -4800 on comes back from its number |
| Dates.DateRoundTripIff | server/src/Date.cc:8-30 | a date of the calendar comes back from its number if and only if it is 1 March -4800 or later |
| Dates.NumberHasADateIff | server/src/Date.cc:17-30 | a number is turned into a date of the calendar if and only if it is at least -32044 |
| Dates.UnixEpoch | server/src/Date.cc:33 | 1 January 1970 has number 2440588, both ways |
| Dates.RangeIsSharp | server/src/Date.cc:8-14 | 29 February -4800 and the day after share a number |
| IntegerFormat.DecimalRoundTrip | server/src/LogStream.cc:28-49 | for every value, parsing the printed form gives it back; minus sign exactly for negative values, no leading zero |
| IntegerFormat.NumeralRoundTrip | server/src/LogStream.cc:28-69 | a numeral in base 2 to 16 evaluates to its number |
| IntegerFormat.NumeralCanonical | server/src/LogStream.cc:28-69 | it has digits of the base only and no leading zero but for zero itself |
| IntegerFormat.DecimalFits | server/src/LogStream.cc:104-125 | every signed or unsigned 64-bit value prints in at most 20 characters, within the room checked for |
| IntegerFormat.HexFits | server/src/LogStream.cc:175-187 | every 64-bit pointer prints in at most 16 digits |
| IntegerFormat.Reverse | server/src/LogStream.cc:28-69 | std::reverse on a range of the buffer |
| IntegerFormat.Convert | server/src/LogStream.cc:28-49 | the digit loop over a signed remainder table, sign and reversal print exactly the decimal form with its NUL, touching nothing else |
| IntegerFormat.ConvertHex | server/src/LogStream.cc:53-69 | the same in base 16 |
| IntegerFormat.LogStream.FormatInteger | server/src/LogStream.cc:117-125 | appends the whole decimal form, or nothing with fewer than 32 bytes left |
| IntegerFormat.LogStream.FormatPointer | server/src/LogStream.cc:175-187 | appends 0x and the hexadecimal form under the same condition |
| CachePools.PoolIsSound | server/src/CachePool.cc:799-875 | in every interleaving with release by the holder: free and lent connections are disjoint, duplicate-free, all that were counted, at most max(2, limit); while a getter sleeps there are at most as many free connections as woken getters |
| CachePools.ReleaseIsSoundIff | server/src/CachePool.cc:855-875 | a release keeps the pool sound if and only if the releaser holds the connection or it is free already |
| CachePools.StepKeepsInv | server/src/CachePool.cc:817-875 | every step of the monitor keeps ownership and waiting invariants |
| CachePools.RunKeepsInv | server/src/CachePool.cc:817-875 | they hold along every run |
| CachePools.CachePool.constructor | server/src/CachePool.cc:775-783 | two connections to open, none yet free |
| CachePools.CachePool.Init | server/src/CachePool.cc:799-815 | succeeds exactly if both connections open, and then the pool is in its initial state |
| CachePools.CachePool.Enter | server/src/CachePool.cc:817-853 | from the loop test on: the front free connection, a new one, a failure without change, or a wait if and only if none is free and the limit is reached |
| CachePools.CachePool.RelCacheConn | server/src/CachePool.cc:855-875 | for any releaser, the scan against double release, the push and the signal are the machine's release step; a valid pool stays valid if and only if the releaser holds the connection or it is free |
| LogFiles.RollingIsSound | server/src/LogFile.cc:67-122 | with a clock that does not run backwards: files open at strictly increasing seconds, the period is the multiple of 86400 at or just before the last roll, a file is closed only for size or a later day, and the live file is over the limit only if the last append fell into the second of the last roll |
| LogFiles.NewDayRolls | server/src/LogFile.cc:77-92 | after checkEveryN appends in a row on later days than the live file's, the live file has been opened on a later day |
| LogFiles.CheckFlushes | server/src/LogFile.cc:79-96 | a check that does not roll flushes if and only if more than flushInterval seconds have passed |
| LogFiles.FilesHoldTheStream | server/src/FileUtil.cc:26-47 | without a write error the files concatenated in opening order are the appended stream, for any pattern of partial writes |
| LogFiles.DeliversAllIff | server/src/FileUtil.cc:26-47 | a line gets through whole if and only if every write of the device after the first takes something as long as the writes before it do not add up to the line |
| LogFiles.StopsShort | server/src/FileUtil.cc:26-47 | on a write error exactly what the device had taken before is delivered |
| LogFiles.StepKeepsInv | server/src/LogFile.cc:67-122 | every append keeps the rolling invariant |
| LogFiles.RunKeepsInv | server/src/LogFile.cc:67-122 | it holds along every run |
| LogFiles.AppendFile.Append | server/src/FileUtil.cc:26-47 | the write loop adds exactly the delivered prefix and always counts the whole line |
| LogFiles.LogFile.constructor | server/src/LogFile.cc:10-28 | opens the first file |
| LogFiles.LogFile.RollFile | server/src/LogFile.cc:103-122 | a new file and the day's start exactly if the clock has moved past the last roll |
| LogFiles.LogFile.AppendUnlocked | server/src/LogFile.cc:67-99 | write, size check, every-N check, day check and flush check as one machine step |
| CacheText.PayloadSurvivesIff | server/src/IMComm.cc:17-58 | the encoding keeps the length and has no NUL; decoding it gives the payload back if and only if the payload has no tilde, and in general the payload with its tildes turned to NUL |
| CacheText.SameEncodingIff | server/src/IMComm.cc:17-58 | two payloads are stored alike if and only if they differ only in tilde against NUL |
| CacheText.ReplaceFromZero | server/src/IMComm.cc:17-46 | in place on the given length, nothing beyond it |
| CacheText.ReplaceToZero | server/src/IMComm.cc:47-58 | in place on the whole string |
| CacheText.SetPb | server/src/CachePool.cc:746-772 | the C string handed to the cache is the whole encoded payload |
| CacheText.GetPb | server/src/CachePool.cc:716-744 | the text handed to the parser is the decoded reply |
| CacheText.StoreAndFetch | server/src/CachePool.cc:716-772 | setpb then getpb returns the payload if and only if it has no tilde |
| ConfigFiles.FileRoundTrip | server/src/ConfigFileReader.cc:48-158 | every map of trimmed, non-empty entries free of #, NUL and newline, keys free of =, at most 125 characters each, comes back from being written, in any order, and loaded |
| ConfigFiles.FileRoundTripIff | server/src/ConfigFileReader.cc:48-158 | a map of trimmed, plain entries comes back if and only if all entries have at most 125 characters, the one written last at most 126 |
| ConfigFiles.FewChunks | server/src/ConfigFileReader.cc:59-111 | entries printed without their newline share read chunks, so fewer chunks than entries are read |
| ConfigFiles.LastEntryLoadedIff | server/src/ConfigFileReader.cc:85-131 | the entry written last is read back if and only if it has at most 126 characters |
| ConfigFiles.LoadPrintedIff | server/src/ConfigFileReader.cc:85-131 | loading printed entries brings back all of them if and only if they fit, and then adds nothing else |
| ConfigFiles.LoadEntry | server/src/ConfigFileReader.cc:59-131 | one legible entry at the front of a file is read whole, whatever follows |
| ConfigFiles.LoadLine | server/src/ConfigFileReader.cc:59-77 | a line is cut at its first # and parsed |
| ConfigFiles.DecoratedEntry | server/src/ConfigFileReader.cc:66-158 | an entry with blanks around key and value and a comment behind loads as the entry |
| ConfigFiles.OtherLinesAddNothing | server/src/ConfigFileReader.cc:70-122 | a line without = before its comment, such as a comment alone, adds nothing |
| ConfigFiles.HalfEntryAddsNothing | server/src/ConfigFileReader.cc:118-131 | nor does a line with only blanks on one side of its first = |
| ConfigFiles.LoadKeeps | server/src/ConfigFileReader.cc:129 | an entry once loaded is never changed: the first of two with one key stays |
| ConfigFiles.LongLineIsCut | server/src/ConfigFileReader.cc:59-62 | a line of 255 characters or more is cut after the 255th |
| ConfigFiles.LongEntryRunsOn | server/src/ConfigFileReader.cc:101-107 | how it fails at 126 characters: the entry loses its newline and swallows the entry written next |
| ConfigFiles.TrimSpace | server/src/ConfigFileReader.cc:133-158 | leaves exactly the trimmed string in place, or reports an empty one; the rest of the buffer is untouched |
| ConfigFiles.CutTail | server/src/ConfigFileReader.cc:146-151 | the backward scan stops at the latest at the first non-blank character |
| ConfigFiles.ConfigFileReader.ParseLine | server/src/ConfigFileReader.cc:118-131 | splits at the first =, trims both sides in place, and inserts unless a side is empty or the key is known |
| ConfigFiles.ConfigFileReader.Fgets | server/src/ConfigFileReader.cc:59-64 | one chunk: to the newline, or what fits the buffer |
| ConfigFiles.ConfigFileReader.TakeLine | server/src/ConfigFileReader.cc:66-77 | newline and comment cut in place, then parsed |
| ConfigFiles.ConfigFileReader.LoadFile | server/src/ConfigFileReader.cc:48-83 | the map becomes what the file means, chunk by chunk |
| ConfigFiles.ConfigFileReader.WriteFile | server/src/ConfigFileReader.cc:85-116 | the file is the truncated printed entries in iteration order |

## Left out

- Floating-point money: amounts are whole cents; rounding of `double` and the truncating cast in RobHongbao are not modelled.
- Database and cache failures, key expiry and unsigned columns: the database and the cache are maps that always answer; each redis key is in one name space.
- The redis lock's expiry and its contention path: it is a mutex per packet key.
- Non-negative balances: not a property of the code, since sending does not lower the session's amount.
- Packets.RandomMoney: signed overflow is modelled as two's-complement wrap-around; the number drawn is an argument.
- Dates.DateRoundTrip: does not model 32-bit overflow of the intermediate products, because it needs years far outside any calendar use.
- EventLoops.EventLoop: `loop()` is entered once; the direct call of runInLoop in the loop thread, the poll timeout and other channels' callbacks are only seen as steps that may push or quit; construction and destruction races are not modelled.
- AsyncLogs.AsyncLogging: lines appended after the back end's last swap, the start-up latch and the timed wait are not modelled beyond letting any step come next.
- Connectors.ConnectorSafety: a retry timer fires in a later loop iteration than the one that set it; a handler running longer than the delay is not modelled.
- Pollers.KernelMatchesIndices: closing a descriptor that is still registered, which makes the kernel drop it, is not modelled; callers remove the channel first.
- ProtobufCodecs: the protobuf runtime is a parameter (which names it knows, which bodies it parses); after an error the connection is taken to be closed, as the default callback does.
- ByteBuffers.Buffer: findEOL, retrieveUntil and swap are not modelled; they would only add easy members.
- LogFiles.RollingIsSound: the file name and external calls of rollFile are not modelled; the roll size is not negative and the clock is past the epoch.
- ConfigFiles.ConfigFileReader.LoadFile: files with a line chunk that starts with NUL are excluded, because the code then reads before its buffer; a failed open is not modelled.
- CacheText.SetPb: payloads of 2048 bytes or more are excluded, because the code's buffer has no room for them.
- Floating-point printing in LogStream.
- Timer queue, thread pools, TcpConnection, TcpServer, TcpClient, Acceptor, login and offline-message handlers: system calls, glue, or easy members only.
