# An epoll server, modelled and proved in Dafny

The repository is a single-process network server: a main thread with an epoll loop, a recycler, a
heartbeat timer and a sender thread, and a pool of worker threads.  This project models its five pieces
with real obligations and proves what they keep.

* **Checksum** (`Words`, `Crc32Spec`, `Crc32`, `CheckValue`).  The table of misc/c_crc32.cxx is built most
  significant bit first between two reflections and used least significant bit first, a byte at a time.  It is
  proved equal to the bit-serial CRC-32 of section 8 of RFC 1952.  Machine words are sequences of 32 bits, bit k
  at position k, so shifts and exclusive or are exact.  About the bit-serial form: a corruption of any
  message goes unnoticed exactly if its polynomial is a multiple of the generator, never if it fits in 32
  bits, and always possible in 33.  Its start and end values are fixed by the complemented form of the message
  and by the published check value.
* **Receiving** (`Framing`, `Receiver`, `Packets`).  The four-state machine of net/socket_request.cxx
  with its moving cursor is a class over arrays; it agrees with a parser of the whole stream, whatever the
  reads return.  With the packet builders and the checks of socketlogic/c_socketlogic.cxx this gives a
  round trip from packets to packets.
* **Life of a connection** (`ConnPool`, `Socket`, `TimerQueue`, `Lifecycle`, `Invariant`, `Keep...`,
  `Lifetime`, `Recycling`, `Pinging`, `Calls`, `DescriptorRace`).  The pool and the timer map are classes, each
  method proved to be one function on values.
  `Lifecycle` interleaves the main thread, the recycler and the timer thread in steps of one critical
  section or one access, with those same functions.  `Invariant` is inductive (one `Keep...` module for
  each part of it), and `Lifetime` draws the conclusions for every reachable state.  `Recycling` is about whole
  passes of the recycler, `Pinging` about what a ping is worth, `Calls` about whole calls and the free queue;
  `DescriptorRace` is a run in which a descriptor is handed out while a closed connection still carries it.
* **Sending** (`SendPath`, `SendSafety`, `SendLists`, `SendCounts`, `SendKeeps`, `SendScan`, `SendOrder`,
  `Delivery`, `Resending`, `Schedules`, `SendThread`).  The sender thread and the writable handler share a
  half-sent packet.  `SendSafety` is the invariant, kept by `SendKeeps`, `SendScan`, `SendOrder` and
  `SendCounts`.  `Delivery` says what is on the wire, exactly when messages overtake one another, when a message
  is forgotten, when one overflows and when the send mutex is lost; `Resending` says what a failed length test in the handler leads to; `Schedules` has a run for each
  of these; `SendThread` is the code of the two writers.
* **Workers and locks** (`WorkerPool`, `LockOrder`).  The message list with its condition variable, for any
  number of workers and producers; and the mutexes of all threads, for any number of threads.
* `Common` holds `Option` and `Min`.

A step system is a function `Apply` from a state and an event to a state; a disabled event changes nothing.
A run is any sequence of events, so "in every reachable state" covers every interleaving.  Histories
(`hist`, `sent`, `overtaken`, `missed` and the like) are written by the steps and never read by them.

Conditions under which the concurrent parts are stated: the clock does not go back, the kernel hands out
only descriptors that are not open, sequence numbers stay below 2^63 (which no run reaches), and for the
send path connections stay open and no send fails.

Findings, each proved below:

* `JudgeOutdate` takes an `int` (net/socket_conn.cxx:101): it recognises a live connection exactly while its
  sequence number is below 2^31 (`ConnPool.NotOutdatedOwn`, `Lifetime.RecordedReference`); from then on the
  timer drops live entries (`Lifetime.StaleEntryGoes`).
* close_accepted_connection calls close(fd) before it sets `fd` to -1 (net/socket_conn.cxx:173-177).  In
  between the number can belong to a new connection while the old object still passes `JudgeOutdate` for a
  caller without the lock (`Lifetime.DescriptorIsFreeBeforeForgotten`, and a whole run in
  `DescriptorRace.DescriptorIsReused`); under the lock the test is exact (`Lifetime.RecordedReference`).
  Even when its three reads are interleaved with other threads it never takes a use that was over at the first
  of them (`Lifetime.ReadsOneByOne`).
* A ping packet of the server's own layout carries code 1, but the handler table has the ping handler at
  position 0 (socketlogic/c_socketlogic.cxx:24-32): it finds no handler (`Packets.PingCodeHasNoHandler`).
* The comment at net/c_socket.cxx:408 says that messages of a connection go out in order.  They do if and
  only if no scan starts a message of a connection that it has passed over before (`Delivery.SentInOrder`,
  `SendOrder.OrderKeptIff`).  That needs a completion of the connection behind the scan, but such a
  completion alone does not break the order (`Schedules.PassedAndDone`, `Schedules.LaterMessageOvertakes`).
* sem_post at net/socket_request.cxx:294 comes before iThrowsendCount is cleared at line 301.  A scan in
  between uses up the wake-up (`Schedules.WakeUpIsLost`).  A sleeping sender that nothing will wake has
  forgotten the queued messages of a connection if and only if its last scan passed over the connection in
  between and did not leave a later message of it half sent afterwards (`Delivery.NoMessageForgotten`,
  `Schedules.PassedButNotForgotten`).
* The overflow returns of MsgSendInQueue (net/c_socket.cxx:659-666) and the mismatch return of the sender
  (net/c_socket.cxx:442-444) leave m_sendmutex locked.  These are the only ways to lose it
  (`Delivery.LosesMutexIff`, `LockOrder.LostIffTakenEarly`), and both are reached (`Schedules.SenderDies`,
  `Schedules.WorkerLeaves`).  It is then lost for good (`Delivery.LostForGood`), and the server can deadlock
  (`LockOrder.LossDeadlocks`); otherwise it cannot (`LockOrder.NoDeadlockWithoutEarlyReturns`).
* A Register reply (108 bytes) and a Login reply (104 bytes) on one connection are enough for a mismatch,
  since sendlen_suppose is written when a reply is built (socketlogic/c_socketlogic.cxx:143, 184).  In the
  writable handler the mismatch (net/socket_request.cxx:285-288) leaves EPOLLOUT on and the rest of the packet
  in place, and the next event sends that rest again (`Schedules.HandlerMismatch`).  This goes on whatever the
  other threads do (`Resending.StuckUntilItAddsUp`, `Resending.StuckInEveryRun`), until sendlen_already comes
  to the length announced last (`Resending.RestIsSentAgain`).

## Model

| member | source | states |
|---|---|---|
| Crc32Spec.BurstDetected | misc/c_crc32.cxx:65-80 | two different buffers of equal length that differ only within 32 consecutive bits have different checksums |
| Crc32Spec.UndetectedIffMultiple | misc/c_crc32.cxx:65-80 | two buffers of equal length have the same checksum if and only if their difference is a multiple of the generator polynomial |
| Crc32Spec.BurstBoundTight | misc/c_crc32.cxx:65-80 | the bound of 32 is exact: adding the generator, 33 bits wide, goes unnoticed at every position of every buffer |
| Crc32Spec.CrcDifference | misc/c_crc32.cxx:65-80 | equality of checksums depends only on the exclusive or of the two buffers |
| Crc32Spec.Residue | misc/c_crc32.cxx:65-80 | a buffer followed by its own checksum has the same checksum whatever the buffer |
| Crc32Spec.FirstBitsComplemented | misc/c_crc32.cxx:70-79 | for at least four bytes the checksum is the complement of the remainder, from a zero register, of the message with its first 32 bits complemented: the start value is 0xffffffff and no other |
| Crc32Spec.CrcContinues | misc/c_crc32.cxx:70-79 | the checksum of a longer message depends on its beginning only through the checksum of that |
| CheckValue.SumOfDigits | misc/c_crc32.cxx:65-80 | the checksum of the digits 123456789 is 0xCBF43926, as a number and byte by byte |
| Crc32Spec.RunLinear | misc/c_crc32.cxx:76-77 | the division is linear in start value and data together |
| Crc32.PolynomialIs | misc/c_crc32.cxx:38 | the polynomial is the number 0x04c11db7 and its mirror image 0xEDB88320 |
| Crc32.MirrorStep | misc/c_crc32.cxx:56 | a shift towards the most significant bit by 0x04c11db7 is, seen in the mirror, a step of the division by 0xEDB88320 |
| Crc32.TableStep | misc/c_crc32.cxx:76-77 | one table lookup has the effect of eight steps of the bit-serial division |
| Crc32.CCRC32.constructor | misc/c_crc32.cxx:14-16 | every one of the 256 entries is the remainder of its index |
| Crc32.CCRC32.Reflect | misc/c_crc32.cxx:22-33 | the lowest ch bits come out in reverse order and the others as zeros |
| Crc32.CCRC32.InitTable | misc/c_crc32.cxx:35-62 | reflect, eight shifts and reflect leave in every entry the eight division steps of its index |
| Crc32.CCRC32.GetCrc | misc/c_crc32.cxx:65-80 | the result of the table-driven loop is the bit-serial CRC-32 of the bytes, for every buffer of fewer than 2^31 bytes; Crc32Spec.FirstBitsComplemented and CheckValue.SumOfDigits fix its start value |
| Framing.Receive | net/socket_request.cxx:103-161 | one call of the handler leaves the machine in a state in which something is still wanted |
| Framing.ParseResumes | net/socket_request.cxx:194-227 | parsing a stream may stop anywhere and resume with the unparsed rest |
| Framing.PacketTaken | net/socket_request.cxx:194-227 | a packet of 8 to 29000 bytes that begins with its own length, high byte first, comes out whole |
| Framing.IllegalHeaderSkipped | net/socket_request.cxx:199-204 | a header with any other length is skipped, and the rest is read as if it had not been there |
| Framing.BeginningKept | net/socket_request.cxx:194-227 | the beginning of a packet is kept and nothing is handed over |
| Framing.ReceiveParses | net/socket_request.cxx:103-161 | one call hands over what the parser finds in held and new bytes, and holds what it leaves |
| Framing.ReceiveAllParses | net/socket_request.cxx:103-267 | the same for any number of calls from any state |
| Framing.ChunkingIndependence | net/socket_request.cxx:103-267 | whatever the reads return, empty or failed reads included, the messages are those of the one-shot parser and the machine holds its rest |
| Framing.ReadsProgress | net/socket_request.cxx:135-137 | a read that meets bytes takes some: the zero-length returns are not taken |
| Framing.WholeStreamServed | net/socket_request.cxx:103-267 | however a stream is cut, enough calls take all of it and hand over all its packets |
| Framing.EarlyPacketsArePrefix | net/socket_request.cxx:103-267 | what is handed over before the end is a prefix of what the whole stream gives |
| Receiver.Connection.constructor | net/socket_conn.cxx:27-30 | a connection starts in the initial receive state with the cursor invariant |
| Receiver.Connection.PutToStateMach | net/socket_conn.cxx:50-58 | the receive fields are back at the start and no message is lost |
| Receiver.Connection.RecvProc | net/socket_request.cxx:28-63 | recv writes at the cursor only, no more than was asked for, inside the allocation |
| Receiver.Connection.PkgRecv | net/socket_request.cxx:170-187 | cursor and remaining length move together by what was read, and not at all when the read completes the part |
| Receiver.Connection.PkgBodyRecv | net/socket_request.cxx:230-251 | the body grows by the bytes read; a failed read drops the buffer |
| Receiver.Connection.PkgHeaderProc | net/socket_request.cxx:194-227 | an illegal length takes the header alone and keeps recvlen_already, an empty body completes the message, else the body is awaited |
| Receiver.Connection.PkgBodyProc | net/socket_request.cxx:258-267 | the finished message is handed over and the machine starts again |
| Receiver.Connection.ReadableRequestHandler | net/socket_request.cxx:103-161 | the handler on the heap is one step of the machine on values, and every write is inside its buffer |
| Packets.EncodeCarries | socketlogic/c_socketlogic.cxx:129-149 | an encoded packet is legal, carries its code and body and passes the checksum test |
| Packets.BytesOnTheWire | socketlogic/c_socketlogic.cxx:129-149 | the encoding of one packet, byte by byte: length, code and checksum in network byte order |
| Packets.RoundTrip | socketlogic/c_socketlogic.cxx:59-85 | packets encoded back to back and received in any chunking come out as they went in and pass the checksum test |
| Packets.CorruptionAcceptedIff | socketlogic/c_socketlogic.cxx:73-85 | a worker accepts a changed body if and only if the change is a multiple of the generator |
| Packets.BurstRejected | socketlogic/c_socketlogic.cxx:73-85 | a change within 32 bits of the body is always rejected |
| Packets.OneFieldAccepted | socketlogic/c_socketlogic.cxx:73-85 | for a given code, length and body exactly one value of the checksum field is accepted |
| Packets.OutdatedIff | socketlogic/c_socketlogic.cxx:68-71 | whatever the packet, the answer is that it is out of date if and only if its connection is |
| Packets.ExamineCarried | socketlogic/c_socketlogic.cxx:55-102 | the verdict on every packet that carries a code and a body, of a live connection and of one that is not: codes above 6 are bad, 0, 5 and 6 reach a handler, the others have none |
| Packets.PingCodeHasNoHandler | socketlogic/c_socketlogic.cxx:24-32 | a ping finds no handler; only code 0 reaches the ping handler |
| Packets.ThreadRecvProc | socketlogic/c_socketlogic.cxx:55-102 | the verdict on a received message: out of date, bad checksum, bad code, no handler or dispatched; Packets.OutdatedIff, Packets.ExamineCarried and Packets.CorruptionAcceptedIff say when |
| Packets.BuildReply | socketlogic/c_socketlogic.cxx:129-149 | a reply is the sender's message header, the encoded packet and a final zero |
| TimerQueue.DrainKeepsPairs | net/socket_time.cxx:118-141 | taking out and re-keying the due entries keeps the map sorted and conserves the multiset of pairs |
| TimerQueue.InsertBehind | net/socket_time.cxx:44-46 | a new entry goes behind all that are due no later and before all that are due later |
| TimerQueue.DrainMembers | net/socket_time.cxx:118-141 | after it the map holds the entries that were not due, and the due pairs with the new key, and nothing else |
| TimerQueue.DueIsAllDue | net/socket_time.cxx:90-92 | what is collected is exactly what is due |
| TimerQueue.DeletePairs | net/socket_time.cxx:183-202 | deletion removes all entries of one pair and no others |
| TimerQueue.CollectNext | net/socket_time.cxx:90-92 | the next call of GetOverTime returns the next entry that was due at the start, and ends when there is none, although entries are put back meanwhile |
| TimerQueue.Timer.constructor | net/c_socket.cxx:59-63 | the waiting time is at least 5 |
| TimerQueue.Timer.AddToTimerQueue | net/socket_time.cxx:31-48 | the ping time is the time now, the entry is due one waiting time later, and size and first key are kept |
| TimerQueue.Timer.RemoveTimerFirst | net/socket_time.cxx:207-216 | the first entry leaves, and size and first key are kept |
| TimerQueue.Timer.GetOverTime | net/socket_time.cxx:118-141 | the first entry is returned and put back with the key time + waiting time if it is due; else nothing changes |
| TimerQueue.Timer.CollectDue | net/socket_time.cxx:90-92 | the loop ends, returns each due entry once and in order, and leaves the drained map |
| TimerQueue.Timer.DeleteFromTimerQueue | net/socket_time.cxx:183-202 | the erasing loop removes exactly the entries of the pair and keeps size and first key |
| ConnPool.NotOutdatedOwn | net/socket_conn.cxx:101-107 | an open connection passes with its own sequence number if and only if that is below 2^31 (or among the last 2^31 of 2^64) |
| ConnPool.NotOutdatedOlder | net/socket_conn.cxx:101-107 | an earlier number passes only if it is the current one |
| ConnPool.StartedNext | net/c_socket.cxx:487-501 | each listener takes the next object of the pool, or a new one |
| Socket.Connection.GetOneToUse | net/socket_conn.cxx:63-76 | the number goes up by one, the flags and send counters are cleared and the receive pointers are reset; the send pointers stay |
| Socket.Connection.PutOneToFree | net/socket_conn.cxx:82-96 | the number goes up by one and all message pointers are reset; isend_count and events stay |
| Socket.Connection.JudgeOutdate | net/socket_conn.cxx:101-107 | the answer is that of the test on values, with the narrowing of the parameter |
| Socket.Socket.GetConnectionItem | net/socket_conn.cxx:113-126 | the first free object, or a new closed one, with the counters |
| Socket.Socket.FreeConnectionItem | net/socket_conn.cxx:131-136 | the object goes to the end of the free queue and the counter goes up |
| Socket.Socket.CloseConnection | net/socket_conn.cxx:143-158 | the object is closed, renumbered and free |
| Socket.Socket.CloseAcceptedConnection | net/socket_conn.cxx:165-191 | nothing if already closed or left to the timer; else closed, counted down and in the recycle list, with one less in iThrowsendCount if it was positive |
| Socket.Socket.InRecyConnQueue | net/c_socket.cxx:339-359 | the object enters the recycle list unless it is there |
| Socket.Socket.RecycleEntry | net/c_socket.cxx:311-314 | one entry leaves the list, is renumbered and becomes free |
| Socket.Socket.RecyclePass | net/c_socket.cxx:305-320 | the loop that erases while it iterates is the pass on values, for any readings of the clock |
| Socket.Socket.ConnectPoolInit | net/c_socket.cxx:466-475 | as many closed objects as configured, all free |
| Socket.Socket.EpollEventInit | net/c_socket.cxx:480-503 | listener k has object k with its descriptor; the rest of the pool is free, and the counters are right |
| KeepPlaces.EventKeeps | net/socket_conn.cxx:113-191 | every step keeps each object in exactly one place, with the fields that belong to the place, and in the hands of at most one thread |
| KeepUses.EventKeeps | net/socket_conn.cxx:165-191 | every step keeps the account of uses: what was opened, closed, marked, kicked and enqueued |
| KeepDescriptors.EventKeeps | net/socket_conn.cxx:165-191 | every step keeps open descriptors and their owners in one-to-one correspondence |
| KeepEntered.EventKeeps | net/socket_accept.cxx:75-89 | a use that has an entry stays known, and one that is over never becomes live again |
| KeepTimer.EventKeeps | net/socket_time.cxx:66-108 | every step keeps the map sorted, no pair twice, deleted pairs out, and entries of begun uses only |
| KeepTimer.AgreementKeeps | net/socket_time.cxx:148-202 | every step keeps one entry for each live use outside the accept and kick steps |
| KeepCounts.EventKeeps | net/socket_accept.cxx:49-62 | every step keeps the online count equal to the open connections and the pool within its bound |
| KeepQuarantine.EventKeeps | net/c_socket.cxx:305-320 | every step keeps closed objects out of use for the delay |
| KeepPings.EventKeeps | net/socket_time.cxx:31-37 | no step moves the ping time of an open connection back |
| KeepHeartbeat.EventKeeps | net/socket_time.cxx:148-166 | every step keeps the entry of a live use due within four waiting times of its last ping |
| Lifetime.EventKeepsInv | net/socket_time.cxx:66-108 | the whole invariant is kept by every step of the three threads |
| Lifetime.InitialInv | net/c_socket.cxx:480-503 | it holds when the threads start |
| Lifetime.ClosedOnce | net/socket_conn.cxx:165-191 | exactly-once close: in every run a use is closed once if it is over, not at all if it is live, and nothing else is closed |
| Lifetime.EnqueuedOnce | net/c_socket.cxx:339-359 | a use enters the recycle list at most once, and once if it was closed by close_accepted_connection |
| Lifetime.KickClosesTheMarkedUse | net/socket_time.cxx:157-176 | from the mark to the close, before and after the entry is deleted, the use stays live; the kick closes that use and releases its descriptor |
| Calls.CloseClosesTheUse | net/socket_conn.cxx:165-177 | the main thread closes a live connection that is not marked and releases its descriptor, and leaves a marked one alone |
| Calls.CloseCall | net/socket_conn.cxx:165-191 | the whole call: object, descriptor, online count and recycle list afterwards, and that no other object has changed |
| Calls.KickCall | net/socket_time.cxx:172-176 | the same for the timer thread and the connection that it has marked |
| Calls.AdmissionIff | net/socket_accept.cxx:49-63 | a connection is admitted if and only if fewer than W are online, and goes on if and only if the pool is not both larger than 5 W and short of W free objects; else its descriptor is closed |
| Calls.FailedRegistration | net/socket_accept.cxx:80-83 | when the registration fails the connection is closed at once: its object is the last free one with the next number, and the online count is as before |
| Lifetime.DescriptorsAreOwned | net/socket_conn.cxx:165-177 | a descriptor of an object that no thread is closing is open and belongs to no other such object |
| Lifetime.DescriptorIsFreeBeforeForgotten | net/socket_conn.cxx:173-177 | after close(fd) and before fd is -1 the number may be accepted again while the old object still passes the test |
| DescriptorRace.DescriptorIsReused | net/socket_conn.cxx:173-177 | a run from the start of the program to that state |
| Lifetime.NoDescriptorLeaks | net/socket_accept.cxx:49-85 | an open descriptor belongs to a listener, an open connection or the one being set up |
| Lifetime.CloseConnectionSucceeds | net/socket_conn.cxx:143-153 | the exit branches of close_connection are not taken |
| Lifetime.RecordedReference | net/socket_conn.cxx:101-107 | stale-reference safety: for every object and its number at any moment, at every later moment the test under the lock succeeds if and only if the object is open in that use, with a number below 2^31; without the lock also between close(fd) and fd = -1 |
| Lifetime.ReadsOneByOne | net/socket_conn.cxx:102 | with the three fields read one after the other at any three later moments of any run, the test succeeds only if the use was open, or between close(fd) and fd = -1, at the first read |
| Lifetime.OverStaysOver | net/socket_conn.cxx:63-96 | a use that is over is never live or closed again |
| Lifetime.PoolPartition | net/c_socket.cxx:305-320 | each object is in the free queue, in the recycle list or in one hand, never in two, and the counters equal the lengths |
| Calls.FreeQueueIsFifo | net/socket_conn.cxx:113-136 | after any run the free queue is what it was and what was added since, in order, without what was handed out, which was at its front |
| Lifetime.BoundedGrowth | net/socket_accept.cxx:49-62 | the pool never exceeds max(created, listeners, 5 W + 1) objects; online and open connections never exceed W |
| Lifetime.QuarantineRespected | net/c_socket.cxx:305-320 | an object that is free or handed out was closed by close_accepted_connection more than the delay ago, or never |
| Lifetime.PassIsComplete | net/c_socket.cxx:305-320 | a completed pass, whatever the other threads do meanwhile, leaves no entry for which delay + inrevy_time was less than the clock when it began |
| Recycling.EntriesIff | net/c_socket.cxx:309 | an entry is among those that leave if and only if the delay has passed for it |
| Recycling.PassIs | net/c_socket.cxx:305-320 | a pass frees exactly the entries for which delay + inrevy_time is less than the clock, in order, each with the next number; the others stay, unchanged and in order, and the counters follow |
| Recycling.RecyclerPasses | net/c_socket.cxx:281-321 | from any reachable state in which the recycler is idle and its list is not empty its steps make such a pass, and touch nothing else |
| Lifetime.TimerAgrees | net/socket_time.cxx:31-48 | a live connection has exactly one entry with its number, outside the accept and kick steps; no pair has two |
| Lifetime.StaleEntryGoes | net/socket_time.cxx:148-155 | a check deletes the entry if and only if its use is over or its number has reached 2^31 |
| Lifetime.DeletedStaysDeleted | net/socket_time.cxx:183-202 | a deleted pair never comes back |
| Lifetime.OnlyIdleIsKicked | net/socket_time.cxx:156-162 | a kicked connection was seen idle for more than three waiting times, and was closed once |
| Lifetime.MarkedIsIdle | net/socket_time.cxx:156-159 | a connection that is marked is live and has really been idle for more than three waiting times |
| Pinging.RefreshSetsTime | socketlogic/c_socketlogic.cxx:209-212 | a ping sets the ping time to the time now, and so does the entry into the timer; no other connection is touched |
| Pinging.RefreshedIsNotMarked | net/socket_time.cxx:156-159 | in every run, a live use that was pinged or entered at time t is marked by a later check only if more than three waiting times have passed since t |
| Lifetime.IdleIsClosedInTime | net/socket_time.cxx:79-101 | if no due entry waits longer than d, no connection is open for more than four waiting times and d after its last ping |
| SendPath.MaskRestored | net/c_socket.cxx:539-565 | adding and then removing flags restores the event mask if and only if none of them was in it |
| SendCounts.EventKeepsQueued | net/c_socket.cxx:415 | every step keeps isend_count equal to the waiting messages of the connection that have been counted |
| SendCounts.EventKeepsMasks | net/c_socket.cxx:539-565 | every step keeps the mask that was registered, with or without EPOLLOUT |
| SendKeeps.EventKeepsChans | net/c_socket.cxx:392-451 | every step keeps the half-sent packet with one owner and its cursor where the wire ends |
| SendKeeps.EventKeepsMessages | net/c_socket.cxx:392-451 | every step keeps each message in one place |
| SendOrder.OrderKeptIff | net/c_socket.cxx:408-414 | a step keeps the messages of a connection in order if and only if they were in order and it does not start one of them after passing over another: order once lost is never regained |
| SendOrder.EventKeepsOrder | net/c_socket.cxx:408-411 | every step keeps the account of the connections that are in order |
| SendScan.EventKeepsScan | net/c_socket.cxx:392-411 | every step keeps account of what the scan has passed over |
| SendScan.EventKeepsLengths | net/c_socket.cxx:440-445 | every step keeps the length test satisfied while lengths are uniform |
| SendScan.EventKeepsWake | net/socket_request.cxx:290-302 | every step keeps a reason for the sender to look at each message, but for the lost wake-ups of its last scan |
| Delivery.WireHoldsWholePackets | net/c_socket.cxx:392-451 | the wire holds whole packets, each once and uninterrupted, and at most the beginning of one more |
| Delivery.EachMessageIsInOnePlace | net/c_socket.cxx:392-451 | a message is in the list, half sent or sent: exactly one of these |
| Delivery.QueuedCounts | net/c_socket.cxx:415-416 | in every reachable state isend_count is the number of waiting messages of the connection, less those whose workers have still to count them; the same for m_msgtosend_count and all messages |
| Delivery.OverflowsIff | net/c_socket.cxx:659-666 | a message overflows if and only if more than 1000 counted messages wait, or more than 400 of its connection: sent messages do not count |
| Delivery.ScanBeginsIff | net/c_socket.cxx:385-391 | a sender that is awake scans if and only if a counted message waits and the mutex is not lost, and sleeps again if and only if none waits |
| Delivery.MaskIs | net/c_socket.cxx:539-565 | in every reachable state the event mask is the one of the accept handler, with or without EPOLLOUT |
| Delivery.UniformNeverMismatches | _include/comm.h:110 | with one length for each connection, as the comment says, the length test never fails |
| Delivery.ScanMismatchIff | net/c_socket.cxx:440-445 | the sender ends if and only if the completed message has another length than the one announced last |
| Delivery.WritableMismatchIff | net/socket_request.cxx:283-288 | the same for the writable handler |
| Schedules.HandlerMismatch | net/socket_request.cxx:283-288 | for any two messages of different lengths on one connection and any split of the first, a run in which the handler's test fails, and its next event puts the rest of the packet on the wire again |
| Resending.MismatchSticks | net/socket_request.cxx:283-288 | when the test of the handler fails, the wire has the whole packet, and the packet is stuck |
| Resending.StuckUntilItAddsUp | net/socket_request.cxx:274-289 | no event of any thread frees a stuck packet, and only pieces of it are added to the wire, unless the handler sends the rest and sendlen_already comes to what the test asks for |
| Resending.StuckInEveryRun | net/socket_request.cxx:274-289 | the same for every run: the packet stays, and the wire grows by the pieces |
| Resending.RestIsSentAgain | net/socket_request.cxx:274-289 | when the socket takes all that is offered, k more events send the rest k times, and the packet counts as sent exactly when the surplus adds up to the length announced last |
| Delivery.OldestIffNotPassed | net/c_socket.cxx:408-414 | a scan starts the oldest message of a connection if and only if it has not passed over the connection |
| Delivery.SentInOrder | net/c_socket.cxx:408-414 | the messages of a connection, sent and to be sent, stand in order if and only if no scan has started one of them after passing over another |
| Delivery.OlderFirst | net/c_socket.cxx:408-414 | then older messages are sent before younger ones |
| Schedules.PassedAndDone | net/c_socket.cxx:408-414 | a run in which a connection is completed behind a scan and nothing has been overtaken |
| Schedules.LaterMessageOvertakes | net/c_socket.cxx:408-414 | a run in which message 2 is sent before message 1 |
| Delivery.NoMessageForgotten | net/socket_request.cxx:290-302 | when nothing will wake the sender, a queued message waits for a half-sent packet of its connection, unless the last scan passed over the connection between sem_post and the clearing and left no later message of it half sent afterwards; if and only if |
| Schedules.WakeUpIsLost | net/socket_request.cxx:294-301 | a run in which the sender sleeps for ever although both messages could be sent |
| Schedules.PassedButNotForgotten | net/socket_request.cxx:294-301 | a run in which the last scan passes over a connection in between, leaves its next message half sent, and the passed message is not forgotten |
| Delivery.LosesMutexIff | net/c_socket.cxx:442-444 | the send mutex is lost exactly by a length mismatch in the sender or by an overflow |
| Schedules.SenderDies | net/c_socket.cxx:442-444 | for any two messages of different lengths on one connection, a run in which the sender returns with the mutex |
| Schedules.WorkerLeaves | net/c_socket.cxx:663-666 | for any message, a run in which its 402nd copy makes a worker return with the mutex |
| Delivery.LostForGood | net/c_socket.cxx:659-666 | from then on no message enters or leaves the list |
| SendThread.Socket.ScanTurn | net/c_socket.cxx:393-451 | the body of the loop is one step of the scan |
| SendThread.Socket.ScanList | net/c_socket.cxx:391-453 | the loop that erases while it iterates is the scan of the step system |
| SendThread.Socket.EventWritable | net/socket_request.cxx:274-303 | the handler is its steps in order |
| SendThread.Socket.MsgSendInQueue | net/c_socket.cxx:650-680 | the message enters the list, or nothing changes and the mutex stays locked |
| WorkerPool.EventKeepsWoken | threadpool/c_threadpool.cxx:183-229 | every step keeps enough workers awake or about to be woken |
| WorkerPool.TakenInOrder | threadpool/c_threadpool.cxx:144-152 | messages are taken in the order in which they came; the size and running counters are right |
| WorkerPool.EachMessageIsInOnePlace | threadpool/c_threadpool.cxx:183-229 | a message is in the list, with one worker or handled: exactly one of these; null messages are dropped |
| WorkerPool.NoLostWakeUp | threadpool/c_threadpool.cxx:188-194 | awake workers and signals to come are at least min(messages, workers); with messages, some worker is not waiting or a signal is to come |
| WorkerPool.DrainsTheList | threadpool/c_threadpool.cxx:183-229 | from every reachable state one worker at the head of its loop can handle every message in the list |
| WorkerPool.CThreadPool.InMsgRecv | threadpool/c_threadpool.cxx:239-252 | the message is at the end of the list and the size is counted |
| WorkerPool.CThreadPool.GetMsgItem | threadpool/c_threadpool.cxx:144-152 | the first message leaves the list, or nothing does |
| WorkerPool.CThreadPool.ThreadTurn | threadpool/c_threadpool.cxx:184-217 | a worker between two unlocks: it waits, takes a message or drops a null one |
| LockOrder.OperationsAreOrdered | net/socket_time.cxx:89-105 | every operation takes locks only upwards: timer, connection, send, recycle, pool |
| LockOrder.NoDeadlock | net/c_socket.cxx:281-321 | for any number of threads and any runs: while the send mutex is not lost, some thread in the middle of an operation can go on |
| LockOrder.NoDeadlockWithoutEarlyReturns | net/c_socket.cxx:281-321 | if no operation of the run returns early, the send mutex is never lost, and some thread in the middle of an operation can go on |
| LockOrder.LosesIff | net/c_socket.cxx:659-666 | a step loses the mutex if and only if it takes it for an overflowing MsgSendInQueue, called by itself or by a ping, register or login handler, or for a scan that meets a wrong length |
| LockOrder.LostIffTakenEarly | net/c_socket.cxx:442-444 | in a whole run the mutex is lost if and only if some step of the run was such a step |
| LockOrder.LostForGood | net/c_socket.cxx:442-444 | once lost, it stays with the same thread and no other ever takes it |
| LockOrder.LossDeadlocks | net/c_socket.cxx:659-666 | a run in which a ping handler and the timer thread then wait for ever |

## Left out

- Lifecycle: the assignments of GetOneToUse after the first are one step, and so are fd = -1 and the online count in close_accepted_connection, and close(fd) and fd = -1 in close_connection, where no other thread knows the use yet.
- Lifecycle: the accept handler, the recycler loop and the timer loop are steps, not methods, because other threads run in between; the accept4 fallback and the exit(-1) after a failed setnonblocking are not modelled.
- Lifecycle: the timer thread may start a turn at any time; the unlocked test of m_timer_value and m_timermap_size (net/socket_time.cxx:82) only delays it, which IdleIsClosedInTime takes into account by `d`.
- Lifecycle: a worker may refresh the ping time of any accepted object at any time, since _HandlePing does not repeat the test of the sequence number under the lock.
- Framing.Receive: a failed read in a body state drops the buffer and keeps the state (net/socket_request.cxx:240-243); the run is taken to end there.
- Packets.BuildReply: bodies are the zeros that the handlers leave; the content of Register and Login requests is not looked at.
- Packets.ThreadRecvProc: the verdict ends with the choice of the handler; the answer of JudgeOutdate is an argument, the call of the handler and its false return are not part of it, and the handlers' own length checks and their second test of the sequence number are not modelled; Register and Login do not run under the connection lock, since the lock is scoped to an else block (socketlogic/c_socketlogic.cxx:118-120).
- SendPath: failed sends, closes while sending and messages of earlier uses still in the list are not modelled; on these paths (net/c_socket.cxx:400-407, net/c_socket.cxx:424-429) the code clears the send fields of the connection.
- SendPath: one turn of the scan up to the change of the event mask is one step; the main thread does not touch the send fields of a connection without EPOLLOUT, which SendKeeps.EventKeepsChans shows to be off then.
- SendThread.Socket.ScanTurn: without the outdated-message branch (net/c_socket.cxx:400-407) and the failed-send branch (net/c_socket.cxx:424-429), as in SendPath; the fields of a channel are one value, stored at the end of the turn, where the source assigns them one by one.
- SendThread.Socket.ScanList: without the same two branches.
- SendThread.Socket.EventWritable: without the failed send, which clears and posts without the length test.
- Socket.Connection.GetOneToUse: curstat, recvlen and recvlen_already, which PutToStateMach resets, are fields of Receiver.Connection, where Receiver.Connection.PutToStateMach states the reset.
- Socket.Socket.CloseAcceptedConnection: EPOLL_CTL_DEL and close(fd) are system calls; module Lifecycle has the descriptor.
- WorkerPool.CThreadPool.ThreadTurn: without the shutdown exit (threadpool/c_threadpool.cxx:195-202).
- WorkerPool: shutdown, StopAll and the creation of threads are not modelled.
- LockOrder: only the order of locks is modelled, not the data; pthread_cond_wait is a release and a new acquisition of the same lock.
- The recycler's shutdown branch (net/c_socket.cxx:286-301), which does not keep the counter, and joining of threads.
- The epoll dispatch loop (net/c_socket.cxx:573-638), system calls and errno handling: their results are arguments of the events.
- Configuration parsing, logging, string formatting, signals, daemon and process title: no property beyond the bounds used here.
- CMemory, singletons and shared_ptr counts: ownership is plain.
