# A verified model of the xdbd event daemon

xdbd is a single-threaded daemon that speaks the ADB wire protocol over a select() event
loop. Several of its mutable structures must agree at all times: a dense array of
registered events with back-pointers, two master descriptor sets, a cached largest
descriptor, a free list threaded through the connection table, and two queues of posted
events. The project models these, the pool allocator, the growable byte buffer, and the
packet reader and writer, and proves what the daemon relies on.

## How it is organised

- `EventState.dfy`: the event loop as a value, with one transition function per operation,
  from registering an event to a whole tick. Everything outside the daemon is an `Input`.
- `EventInvariant.dfy`: the invariant (`Connections`) and its preservation by every
  operation on one connection.
- `EventPoll.dfy`: one select() round. `EventRun.dfy`: queues, handlers, ticks and runs.
  `EventTheorems.dfy`: start, closing, conservation, and properties of all reachable states.
  `EventSafety.dfy`: reuse of slots over whole runs.
- `EventMemory.dfy`, `EventLoop.dfy`: the class `Xdbd`, which updates tables, array, sets and
  lists in place. Each method is proved to make the transition of `EventState` on the ghost
  value `st` that `Valid` ties to memory, so the theorems hold of the program's own state.
- `Pool.dfy`, `Buf.dfy`, `HexDump.dfy`: the allocator, the buffer, the hex dump.
- `Wire.dfy`, `Packet.dfy`: the message format, the dispatch table and the replies.
- `AdbReader.dfy`: what the handlers make of the byte stream, as a value. `AdbPeer.dfy`: a
  whole packet connection as a value, over runs of handler calls and of packets, with
  everything recv(), the pool, the timer and the packets can come to.
  `AdbHandlers.dfy`: the class `Connection` whose handlers are proved to make its steps.
- `Daemon.dfy`: the loop and its connections together, over whole runs. `Blocking.dfy`: what
  becomes of a connection whose packet was refused.

A packet handler reaches the event loop only through a script of effects on its own
connection. `AdbHandlers.Connection.HandleRead` is proved to produce an `OwnScript` that is
`Writeless` (only packet handlers are installed, closing is the last thing done, the write
event is never handed over) and to make exactly the step `AdbPeer.Turn`, with no condition on
what recv() returns; `EventRun.TickKeeps` and `EventSafety.RunIsSafe` hold for all such
scripts; `EventTheorems.LoopFollowsHandler` shows that the loop then holds the handler and the
ready flag the connection itself ended with. `Daemon.RunAgrees` composes the two over runs of
ticks: every slot served by a packet handler carries a connection whose steps its scripts are,
and stays in agreement with it. Closing a connection takes its buffer and its
request away with the pool they live in and turns `data` into the free list's link, so a
handler that used any of them afterwards would not verify.

Assumptions about the outside: select() returns subsets of the master sets below its first
argument and their total size (IEEE Std 1003.1, select(), RETURN VALUE); accept() returns a
non-negative descriptor not in use, below FD_SETSIZE; recv() returns at most what was asked
for; malloc returns a chunk apart from all live ones; the allocation pool of bfdev is an
overhead-free bump allocator; its list insertions put at the front (pool) or append (queues).
`ALIGN_SIZE` is 8, the word size of a 64-bit machine. The message format is that of AOSP adb
`protocol.txt`, section "protocol overview and basics".

Where the code differs from what one would expect, the model follows the code:

- Deregistering an event leaves its `active` flag set; the invariant is one-way.
- After AGAIN the payload reader adds the code -2 to `last`. `AdbReader.PayloadFraming`
  gives the exact condition under which payloads are framed correctly, for streams received
  from the wait state, and `AdbReader.AgainLosesBytes` a stream on which they are not.
  When `last` has fallen below the payload's start the code goes on and still closes properly
  on a timeout, an error or the end of the stream; only when it falls below the buffer, or
  when a parse finds it still below the payload's start, does the code leave its own memory.
  `AdbReader.WhenLost` and `AdbReader.AgainToTheEnd` say exactly when (`Wild`), and
  `AdbReader.LostOnAgain` gives a stream on which it does; the model stops there.
- A block request within a page of the largest size_t rounds up to less than was asked for
  (`Pool.RoundedEnough`), and a hex dump of 2^31 bytes or more fails (`HexDump.DumpHex`).
- The growths of the output buffer can be refused unnoticed. `Packet.TornReply` says from the room,
  the payload's length and the pool's answers exactly when the reply is there whole and when
  the output can still be read, and `Packet.TornBanner` makes an unreadable one with a banner
  of 1001 bytes, which the daemon does not have: its banner is 399 bytes, its token 20 and its
  data 12. A request's first reply needs no growth up to 1000 bytes of payload
  (`Packet.FirstReply`), and every packet has a request of its own, so the daemon's output
  never tears (`AdbPeer.ShortAnswers`, `AdbPeer.SentIsReadable`).
- An append whose total exceeds 2^32 writes past the new store or drops bytes
  (`Buf.AppendIsRight`). In the output buffer this is `Packet.Overran`; a request on which it
  happens is marked and nothing more is claimed of it.
- No handler of the program calls the level handling of write events; the model allows it
  as an effect a handler may have, so the theorems also cover registered write events.
- A packet that is refused leaves its connection blocked, not closed; once its event has been
  ready again it is never called any more and keeps its slot for ever (`Blocking.RunStopped`).

## Model

| member | source | states |
|---|---|---|
| EventInvariant.AddRegisters | src/event/select/xdbd_select.c:67-96 | registering adds exactly one event to the set of registered events and keeps every back-pointer right |
| EventInvariant.DelUnregisters | src/event/select/xdbd_select.c:98-129 | swap-with-last deletion removes exactly that event from the set and keeps every back-pointer right |
| EventInvariant.AddKeeps | src/event/select/xdbd_select.c:67-96 | registering an event of a connection in use keeps the whole invariant and leaves all other connections' records alone |
| EventInvariant.DelKeeps | src/event/select/xdbd_select.c:98-129 | so does deregistering, including sets, cache and roles |
| EventInvariant.AddCache | src/event/select/xdbd_select.c:85-87 | the cached maximum stays unset or the largest registered descriptor when an event is added |
| EventInvariant.DelCache | src/event/select/xdbd_select.c:116-118 | and when one is removed |
| EventTheorems.IndexFits | src/event/select/xdbd_select.c:53-54 | by pigeonhole over two events a slot, the registry never outgrows the array allocated for it |
| EventInvariant.GetKeeps | src/connection/connection.c:42-77 | taking the head of the free list for a new descriptor keeps the invariant; the slot was not in use and neither of its events was registered |
| EventInvariant.CloseKeeps | src/connection/connection.c:85-115 | closing keeps the invariant, changes no other connection and frees exactly that slot |
| EventTheorems.CloseIsComplete | src/connection/connection.c:85-115 | after closing, neither event is indexed, both bits are clear, both closed flags are set, the slot is on the free list once, and a second close changes nothing |
| EventInvariant.HandleReadKeeps | src/event/xdbd_event.c:27-52 | level handling of a read event keeps the invariant and the free list |
| EventInvariant.HandleWriteKeeps | src/event/xdbd_event.c:54-81 | level handling of a write event does too |
| EventTheorems.HandleReadRegisters | src/event/xdbd_event.c:27-52 | level handling registers a read event exactly when it is neither active nor ready and the close flag is not given; nothing else enters or leaves the registry |
| EventTheorems.HandleWriteRegisters | src/event/xdbd_event.c:54-81 | level handling registers an idle write event, takes out one that is active and ready, and leaves every other event where it was |
| EventInvariant.ApplyKeeps | src/adb/xdbd_adb.c:312-341 | every effect a packet handler has keeps the invariant and touches only its own connection |
| EventTheorems.ApplyRegisters | src/adb/xdbd_adb.c:312-341 | exactly what each effect does to the registry: level handling of the read event registers an idle one, blocking takes it out, closing takes both events out, nothing else enters or leaves |
| EventTheorems.BlockReadStops | src/adb/xdbd_adb.c:312-325 | blocking takes the read event out of the registry and clears its bit; every other event is registered exactly as before |
| EventTheorems.ApplyWriteReady | src/connection/connection.c:216-265 | the write event's ready flag is cleared by the effect that says so and by no other |
| EventInvariant.EffectsKeep | src/adb/xdbd_adb.c:128-341 | so does every script of effects; the connection stays in use unless the script ends by closing it |
| EventTheorems.EffectsWatch | src/adb/xdbd_adb.c:16-310 | a script that does not block leaves the read event registered until the connection is closed |
| EventPoll.CacheAtSelect | src/event/select/xdbd_select.c:183-197 | at the select() call the cache is exactly the largest registered descriptor, -1 if none, and no master bit lies above it |
| EventPoll.RepairKeeps | src/event/select/xdbd_select.c:131-173 | clearing the bits of bad descriptors keeps the invariant |
| EventPoll.RepairClears | src/event/select/xdbd_select.c:131-173 | when select() fails on a bad descriptor, exactly the bad descriptors lose their bits and no event leaves the registry |
| EventPoll.ScanPosts | src/event/select/xdbd_select.c:229-258 | the scan posts exactly the found events, counts each once, and appends them in index order |
| EventPoll.ReadyEqualsNready | src/event/select/xdbd_select.c:197-264 | whatever subsets select() reports, the number of events found equals the number reported |
| EventPoll.PollPosts | src/event/select/xdbd_select.c:176-267 | unless select() fails, a poll does nothing but post the ready events; the mismatch repair never runs |
| EventPoll.ReadyIsFound | src/event/select/xdbd_select.c:231-248 | the ready events are exactly the registered ones whose bit is left set, without repetition |
| EventRun.WipeIsSafe | src/connection/connection.c:57-75 | while the accept queue is drained, the events wiped for a new connection are in no queue and not in the registry |
| EventRun.RunAcceptKeeps | src/event/xdbd_event.c:106-194 | an accept handler keeps the invariant and both queues, for every outcome of accept and of creating the pools |
| EventTheorems.AcceptServes | src/event/xdbd_event.c:106-194 | an accepted descriptor takes the head of the free list and its connection waits for a packet, registered for reading and ready for writing; every other descriptor stays where it was, and without a free slot neither descriptors nor registry change |
| EventTheorems.AcceptDeclines | src/event/xdbd_event.c:123-143 | without a socket or a slot only the accept event's ready flag changes; without pools the slot is taken but not registered and has no handler |
| EventRun.RunEventKeeps | src/event/xdbd_event.c:359-369 | a queued read event's connection is in use when its handler is called, and the handler leaves the rest of the queue sound |
| EventRun.DrainAcceptKeeps | src/event/xdbd_event.c:359-375 | draining the accept queue calls each queued handler once, in order, and empties the queue |
| EventRun.DrainEventsKeeps | src/event/xdbd_event.c:359-377 | so does draining the other queue, with handlers that may close their connection |
| EventRun.TickKeeps | src/event/xdbd_event.c:371-377 | a tick leads from an idle daemon to an idle daemon and calls exactly the handlers of the ready events, each once, accept events first, in index order |
| EventRun.TicksKeep | src/xdbd.c:48-53 | the invariant holds and both queues are empty after any number of ticks |
| EventSafety.RunIsSafe | src/connection/connection.c:42-77 | over every run, with handlers that may close their own connection and slots that are reused: each time a slot is wiped its events are in no queue and not in the registry, and whenever a handler returns no event of a free slot is linked except the one being handled |
| EventSafety.RunNeverWrites | src/adb/xdbd_adb.c:16-325 | with handlers that never hand over a write event, none is ever registered or queued, over every run |
| EventSafety.StartsWriteFree | src/event/xdbd_event.c:268-330 | the freshly built table, and one that starts to listen, have no write event registered or queued, as runs are required to start |
| EventSafety.DrainGetsSafe | src/event/xdbd_event.c:359-377 | while the accept queue is drained every slot taken is safe to wipe |
| EventSafety.FreeIsUnlinked | src/event/xdbd_event.c:364-368 | while a handler runs, the only event of a free slot that is linked anywhere is the one being handled |
| EventTheorems.RunNeverMismatches | src/event/select/xdbd_select.c:260-264 | in every reachable state the scan finds exactly as many events as any select() result reports |
| EventTheorems.RunKeepsExactSets | src/event/select/xdbd_select.c:77-83 | in every run without a bad-descriptor failure the master sets are exactly the registered descriptors |
| EventTheorems.PostedIffQueued | src/event/xdbd_event.h:54-64 | an in-use event's posted flag is set exactly when it is in exactly one queue |
| EventTheorems.FreeSlotsAreClean | src/connection/connection.c:79-83 | no free slot has an indexed event or a queued read event |
| EventTheorems.SlotsAreConserved | src/event/xdbd_event.c:295-307 | free list and slots in use always add up to the table |
| EventTheorems.StartIsIdle | src/event/xdbd_event.c:268-307 | the freshly built table satisfies the invariant whatever the uncleared event memory holds, with every event marked closed |
| EventTheorems.ListenIsIdle | src/event/xdbd_event.c:312-330 | so does the table after a listening socket has been given the head of the free list; its event accepts and is registered |
| EventTheorems.LoopFollowsHandler | src/adb/xdbd_adb.c:156-182 | after a handler's script the loop holds the handler and ready flag the handler ended with |
| EventLoop.Xdbd.constructor | src/event/xdbd_event.c:268-307 | the table-building loops produce an idle daemon whose free list is all slots in order |
| EventLoop.Xdbd.AddEvent | src/event/select/xdbd_select.c:67-96 | the in-place registration makes the transition `Add`; the array write is in bounds |
| EventLoop.Xdbd.DelEvent | src/event/select/xdbd_select.c:98-129 | the in-place deletion makes the transition `Del` and fails exactly on an unregistered event |
| EventLoop.Xdbd.GetConnection | src/connection/connection.c:42-77 | following the head link and wiping the records makes the transition `Get`, or fails when no slot is free |
| EventLoop.Xdbd.CloseConnection | src/connection/connection.c:85-115 | makes the transition `Close` |
| EventLoop.Xdbd.HandleReadEvent | src/event/xdbd_event.c:27-52 | makes the transition `HandleRead` and never fails |
| EventLoop.Xdbd.HandleWriteEvent | src/event/xdbd_event.c:54-81 | makes the transition `HandleWrite`; fails exactly when it deletes an unregistered event |
| EventLoop.Xdbd.RepairFdSets | src/event/select/xdbd_select.c:131-173 | the two loops clear exactly the bad descriptors up to the cached maximum and unset it |
| EventLoop.Xdbd.RefreshMaxFd | src/event/select/xdbd_select.c:183-192 | the loop over the registry computes the largest registered descriptor |
| EventLoop.Xdbd.PostEvent | src/event/xdbd_event.h:54-59 | makes the transition `Post` |
| EventLoop.Xdbd.ScanIndex | src/event/select/xdbd_select.c:229-258 | the scan loop posts and counts as `Scan` says |
| EventLoop.Xdbd.ProcessEvents | src/event/select/xdbd_select.c:176-267 | makes the transition `Poll`, with the source's return code |
| EventLoop.Xdbd.EventAccept | src/event/xdbd_event.c:106-194 | makes the transition `RunAccept` |
| EventLoop.Xdbd.ProcessPostedAccept | src/event/xdbd_event.c:359-369 | the draining loop makes the transition `DrainAccept` |
| EventLoop.Xdbd.ProcessPosted | src/event/xdbd_event.c:359-369 | the draining loop makes the transition `DrainEvents` |
| EventLoop.Xdbd.ProcessEventsAndTimers | src/event/xdbd_event.c:371-377 | a tick of the class is the tick of the state and ends idle |
| EventLoop.Xdbd.ListenOn | src/event/xdbd_event.c:312-330 | makes the transition `Listen`, or fails when no slot is free |
| Pool.AlignSmall | src/core/xdbd_pool.c:15-39 | a request below a page is rounded up to the next multiple of the alignment, which stays within a page, so the bug check after a fresh page cannot fire |
| Pool.AlignLarge | src/core/xdbd_pool.c:44-64 | a larger one is rounded up to the next multiple of a page, up to a page below the largest size_t |
| Pool.RoundedEnough | src/core/xdbd_pool.c:15-48 | an allocation is as large as requested exactly up to a page below the largest size_t |
| Pool.NextFitWaste | src/core/xdbd_pool.c:11-42 | with k pages, 4096 * (k - 1) is less than twice the bytes bumped |
| Pool.WasteBound | src/core/xdbd_pool.c:66-76 | the same for a pool in use, in terms of the aligned bytes handed out |
| Pool.WasteInRequested | src/core/xdbd_pool.c:66-76 | ... and in terms of the bytes asked for, of which each small allocation takes at most seven more |
| Pool.AllocationsSeparate | src/core/xdbd_pool.c:66-76 | the live allocations of a pool never overlap, each lies inside one live chunk the pool owns and is large enough |
| Pool.Pool.CacheAlloc | src/core/xdbd_pool.c:11-42 | only the newest page is tried; a page is opened exactly when it has no room, and a failed malloc leaves everything as it was |
| Pool.Pool.BlockAlloc | src/core/xdbd_pool.c:44-64 | a large request gets whole pages of its own, or nothing changes |
| Pool.Pool.Palloc | src/core/xdbd_pool.c:66-76 | zero bytes are refused; otherwise the result is one new allocation, of the next multiple of the word or of the page from the size asked for |
| Pool.Pool.Release | src/core/xdbd_pool.c:102-118 | every chunk the pool owns is freed, each while live, and nothing else is |
| Buf.CapacityHolds | src/core/xdbd_buf.c:30-37 | the 32-bit capacity computation yields enough room exactly when the total is below 2^32, and then asks for a nonzero size |
| Buf.GrowthIsAmortised | src/core/xdbd_buf.c:25-54 | over any appends, copied bytes are at most the capacity gained, capacity at most twice the content, all stores at most twice the capacity |
| Buf.AppendIsRight | src/core/xdbd_buf.c:25-54 | a growing append keeps everything exactly when the pool serves it and the total is below 2^32; beyond that it overruns the new store |
| Buf.Buf.AppendMem | src/core/xdbd_buf.c:25-54 | contents become old ++ new from any read position, growth compacts, a refused growth changes nothing, and for every size the outcome is the one `AppendResult` says |
| Buf.Buf.AppendBuf | src/core/xdbd_buf.c:64-66 | appends a buffer's unread bytes, also to itself, and leaves another buffer unchanged |
| Buf.CreateBuf | src/core/xdbd_buf.c:6-23 | an empty buffer of the given size, or nothing for a size of zero |
| HexDump.HexRoundTrip | src/adb/packet.c:324-329 | the dump reads back as the input |
| HexDump.HexDigits | src/adb/packet.c:324-329 | the dump is two lower-case hexadecimal digits a byte, the high one first |
| HexDump.EachGrowthDoubles | src/core/xdbd_buf.c:30-37 | the dump's buffer doubles with each growth, which happens once for each doubling its digits need beyond 1024 and never up to 512 bytes of input |
| HexDump.DumpHex | src/adb/packet.c:315-332 | for every sequence of the pool's answers the buffer holds the hexadecimal text of the input, which reads back; it fails exactly when the pool refuses the buffer or one of the growths the input needs, or the input has 2^31 bytes or more |
| Wire.DecodeEncodeHeader | src/adb/packet.h:37-44 | reading the packed header record inverts writing it |
| Wire.EncodeDecodeHeader | src/adb/packet.h:37-44 | writing it inverts reading it, for any 24 bytes |
| Wire.HeaderLayout | src/adb/packet.h:37-44 | command, arg0, arg1, length, checksum and check word lie at bytes 0, 4, 8, 12, 16 and 20, least significant byte first |
| Wire.PcmdOnTheWire | src/adb/packet.h:20-25 | a packed command word reads as its four characters on the wire |
| Wire.ParseIffStream | src/adb/packet.c:162-163 | a byte string reads as a list of frames exactly when it is those frames one behind the other |
| Packet.CommandWords | src/adb/packet.h:9-34 | the packed words are the numbers the protocol gives |
| Packet.TornReply | src/adb/packet.c:162-163 | for every output an append does not overrun, from the room in it, the payload's length and the pool's answers: exactly when a reply is there whole, and exactly when the output can still be read |
| Packet.FirstReply | src/adb/packet.c:294-299 | the first reply of a request is in the output whole up to 1000 bytes of payload, whatever the pool serves; a longer one loses its payload, unreadably, exactly when the growth is refused |
| Packet.TornBanner | src/adb/packet.c:208-218 | a banner of 1001 bytes and a refused growth leave an output that cannot be read |
| Packet.WhoIsAnswered | src/adb/packet.c:284-313 | which packets are answered, in terms of the words received |
| Packet.WhatIsAnswered | src/adb/packet.c:28-262 | with which frame, field by field: CNXN with an AUTH that carries the token, AUTH with a CNXN that carries the banner, OPEN and OKAY with an OKAY to the sender, WRTE with a WRTE |
| Packet.WhatCloses | src/adb/packet.c:233-238 | a connection is closed exactly by a CLSE with a right check word, once the output exists |
| Packet.WhatOpens | src/adb/packet.c:290-300 | the output is created with the first packet whose check word is right, if the pool serves |
| Packet.Request.FindHandler | src/adb/packet.c:302-310 | the table loop finds the first entry with the command, or none if there is none |
| Packet.Request.Answer | src/adb/packet.c:302-310 | for every command but CLSE, the reply is appended if it has one and the pool serves, and otherwise nothing changes |
| Packet.Request.ProcessCnxn | src/adb/packet.c:135-166 | appends one AUTH frame with the token |
| Packet.Request.ProcessAuth | src/adb/packet.c:174-221 | appends one CNXN frame whose payload is the banner pieces joined |
| Packet.Request.ProcessOpen | src/adb/packet.c:223-231 | refuses stream 0, otherwise appends one OKAY frame |
| Packet.Request.SendOkay | src/adb/command.c:20-40 | appends one OKAY frame addressed to the sender |
| Packet.Request.ProcessWrite | src/adb/packet.c:240-262 | appends one WRTE frame with the fixed data |
| Packet.OutputIsDecodable | src/adb/packet.c:290-293 | the output reads back as exactly the replies, each passing the daemon's own check word test |
| Packet.RunIsDecodable | src/adb/packet.c:284-313 | after any run of packets that does not overrun the output, whatever the pool serves, it reads back as exactly the replies, in order, if and only if each fitted, by room, length and the pool's answers |
| AdbReader.HeaderAssembly | src/adb/xdbd_adb.c:201-305 | however the stream is cut, the header state is left exactly when 24 bytes have arrived, with those as the header, and no byte is lost before |
| AdbReader.CallsAssemble | src/adb/xdbd_adb.c:16-74 | the same after any number of handler calls |
| AdbReader.SegmentationIndependent | src/adb/xdbd_adb.c:201-305 | two ways of cutting one stream give one header |
| AdbReader.EntersPayload | src/adb/xdbd_adb.c:201-305 | the call that completes the header goes on to the payload with every byte received since the wait state in the buffer |
| AdbReader.EveryScript | src/adb/xdbd_adb.c:201-305 | every stream that brings a header has a part that completes it |
| AdbReader.EveryRest | src/adb/xdbd_adb.c:76-115 | what follows is some number of AGAIN and then a segment, or AGAIN to the end |
| AdbReader.PayloadOfStream | src/adb/xdbd_adb.c:76-199 | from the wait state: what becomes of a header with fewer payload bytes than announced, k times AGAIN and a segment, whatever follows: the exact packet, a close, or the loss of the buffer |
| AdbReader.PayloadFraming | src/adb/xdbd_adb.c:76-126 | for streams received from the wait state, however cut: the packet gets the bytes that follow the header, whatever they are, exactly when there was no AGAIN, the segment completed the payload and the packet fits the buffer |
| AdbReader.PromptPayload | src/adb/xdbd_adb.c:76-126 | then the packet is everything received behind the header, up to the buffer's size |
| AdbReader.BufferedPayload | src/adb/xdbd_adb.c:85-89 | a payload that arrived with its header is framed without another read; the packet is exactly the announced bytes when nothing behind them was received |
| AdbReader.AgainLosesBytes | src/adb/xdbd_adb.c:97-113 | a received stream, header then AGAIN then four payload bytes, of which the packet gets the last two only |
| AdbReader.WhenLost | src/adb/xdbd_adb.c:97-113 | the code leaves its memory exactly when the AGAINs take `last` below the buffer or the segment does not bring it back to the payload's start |
| AdbReader.LostOnAgain | src/adb/xdbd_adb.c:97-126 | a received stream on which it does: a header that announces a payload, AGAIN, one byte |
| AdbReader.AgainToTheEnd | src/adb/xdbd_adb.c:97-113 | with AGAIN to the end of the stream each call takes two more bytes, until `last` is below the buffer |
| AdbReader.EndInHeader | src/adb/xdbd_adb.c:45-52 | a stream that ends, or fails, before the header is complete closes the connection, however it was cut |
| AdbReader.EndBeforePayload | src/adb/xdbd_adb.c:104-111 | so does one that ends behind an incomplete payload, unless AGAIN has taken `last` below the buffer before |
| AdbReader.UnreadyCall | src/adb/xdbd_adb.c:30-43 | a call for an event that is not ready receives nothing |
| AdbPeer.RunsLikeCalls | src/adb/xdbd_adb.c:128-305 | until its first packet is complete a connection does what the byte-level reader does, and that packet is the reader's |
| AdbPeer.FirstPacket | src/adb/xdbd_adb.c:128-305 | so over runs of the connection the first packet has the header and the payload of the stream, when the payload came with the header or with the next segment |
| AdbPeer.HangUpInHeader | src/adb/xdbd_adb.c:45-52 | a client that hangs up before its header is complete ends the connection closed, with nothing handed on and nothing sent |
| AdbPeer.HangUpInPayload | src/adb/xdbd_adb.c:104-111 | so does one that hangs up before its payload is complete |
| AdbPeer.WhatShuts | src/adb/xdbd_adb.c:128-305 | an expired timer, a refused buffer and a refused request close the connection too; a blocked connection's call changes nothing |
| AdbPeer.AfterPacket | src/adb/xdbd_adb.c:155-183 | by the header of the packet handed on, exactly when the connection is closed, waits for the next packet, or is left open and blocked |
| AdbPeer.TurnSends | src/adb/xdbd_adb.c:158-183 | a call hands on no packet and sends nothing, or hands on one and sends exactly its answer if it has one |
| AdbPeer.SentAnswers | src/adb/xdbd_adb.c:158-183 | over any run what is handed to send() is the sequence of answers to the packets handed on, one for each that is answered, in order |
| AdbPeer.ShortAnswers | src/adb/packet.c:135-262 | with texts of at most 1000 bytes every answer reads as exactly the reply, whatever the pool serves |
| AdbPeer.SentIsReadable | src/adb/xdbd_adb.c:158-183 | with such texts everything a connection ever hands to send() reads as one frame that passes the daemon's own check |
| AdbHandlers.Connection.Recv | src/connection/connection.c:164-214 | received bytes land behind `last`; AGAIN, end and error clear the ready flag |
| AdbHandlers.Connection.ReadHeaderBytes | src/adb/xdbd_adb.c:16-56 | the reading half of `ReadHeader`; closes at the end of the stream, and after AGAIN hands the event back to the loop |
| AdbHandlers.Connection.ParseHeaderBytes | src/adb/xdbd_adb.c:58-74 | the header is the first 24 bytes, once they are there |
| AdbHandlers.Connection.ReadPayloadBytes | src/adb/xdbd_adb.c:76-115 | the reading half of `ReadPayload`, wherever `last` stands; AGAIN hands the event back and moves `last` back by two |
| AdbHandlers.Connection.ParsePayload | src/adb/xdbd_adb.c:117-126 | the packet gets everything buffered |
| AdbHandlers.Connection.CallHandler | src/adb/packet.c:223-262 | each handler's reply is appended; that of a CLSE closes the connection from inside packet processing |
| AdbHandlers.Connection.ProcessPacket | src/adb/packet.c:284-313 | for every output and every answer of the pool the output becomes what `Process` says or is overrun exactly as `Overran` says; the packet is answered if and only if it has a reply and the pool serves; the connection is closed if and only if it is a CLSE with the right check word |
| AdbHandlers.Connection.ServeAll | src/adb/packet.c:284-313 | any run of packets on one request, whatever the pool serves, makes the output `Run`, and ends early exactly at a closing packet or an overrun |
| AdbHandlers.Connection.FinishPacket | src/adb/xdbd_adb.c:155-183 | an answered packet's reply is handed to send() byte for byte and the connection waits again, a refused one blocks, a CLSE closes |
| AdbHandlers.Connection.Deliver | src/adb/xdbd_adb.c:117-183 | everything behind the header is handed on, and `pos` ends within the buffered bytes exactly when the payload is complete |
| AdbHandlers.Connection.ProcessPayload | src/adb/xdbd_adb.c:128-199 | makes the step `Turn` from the payload state, wherever `last` stands |
| AdbHandlers.Connection.ProcessHeader | src/adb/xdbd_adb.c:201-243 | makes the step `Turn` from the header state |
| AdbHandlers.Connection.WaitHandler | src/adb/xdbd_adb.c:245-305 | makes the step `Turn` from the wait state, with a request of its own for each packet |
| AdbHandlers.Connection.CreateRequest | src/adb/xdbd_adb_request.c:8-36 | `data` becomes a fresh request with an empty packet and no output |
| AdbHandlers.Connection.BlockReading | src/adb/xdbd_adb.c:312-325 | only deregisters the read event |
| AdbHandlers.Connection.CloseConnection | src/adb/xdbd_adb.c:327-349 | closes the socket and each pool, only while open; buffer and request are gone and `data` is the free list's link |
| AdbHandlers.Connection.HandleRead | src/adb/xdbd_adb.c:128-349 | for every recv result, timeout, pool answer and packet: the step `Turn`; socket and pools are closed at most once, closing is the last thing done, reading is stopped exactly by a blocked connection, and nothing the pool held can be reached afterwards |
| AdbHandlers.Connection.Dispatch | src/event/xdbd_event.c:359-369 | a call for an event found ready makes the step `Dispatched`, and tells the event loop so by a script that closes last if at all, stops the reading exactly of a blocked connection, and leaves the event with the new handler and ready flag |
| AdbHandlers.Connection.Serve | src/adb/xdbd_adb.c:128-349 | the same over every run of handler calls: the run `Turns`, and one closing at most |
| Daemon.RunAgrees | src/event/xdbd_event.c:359-377 | over every run of ticks, however connections are interleaved and slots reused: the loop is idle between ticks, the slots served by packet handlers are exactly those with a connection, each read event has the handler its connection stands before and is registered unless the connection is blocked, and each connection is a run of its own since its acceptance |
| Daemon.RunAnswers | src/adb/xdbd_adb.c:158-183 | in every state such a run reaches, each connection has handed to send() exactly the answers to its own packets, in order |
| Daemon.EventAgrees | src/event/xdbd_event.c:364-368 | one queued handler's call keeps the loop and the connections in agreement |
| Daemon.AcceptAgrees | src/event/xdbd_event.c:106-194 | so does one accept handler's, which adds a waiting connection exactly when it opens one |
| Daemon.StartAgrees | src/event/xdbd_event.c:268-307 | the freshly built table agrees with no connections |
| Daemon.ListenAgrees | src/event/xdbd_event.c:312-330 | so does a table that starts to listen |
| Blocking.TickStops | src/adb/xdbd_adb.c:312-325 | a tick in which the event of a blocked connection is ready takes it out of the registry |
| Blocking.StoppedUnseen | src/event/select/xdbd_select.c:183-264 | after that its bit is clear and no select() result makes it ready |
| Blocking.RunStopped | src/adb/xdbd_adb.c:155-166 | over any run from there it is never called again and its slot is never given back |

## Left out

- EventLoop.Xdbd.EventAccept: the exits of the accept handler after its pools exist (a failed address allocation or fcntl) are not modelled; they use `c->listening` before it is set.
- EventLoop.Xdbd: event and connection records are elements of arrays and a pointer to one is its slot, so pointers into the middle of a record are not expressible; the fields `eof`, `error`, `timeout`, `sent` and the addresses are not kept.
- EventRun.RunAcceptKeeps: like `EventAccept`, it covers failed pools but no failure after them.
- EventLoop.Xdbd.ProcessPosted: the intrusive list is a sequence and the saved next pointer of the loop is its head, which is right because handlers leave the queues alone.
- EventState.Repair: one set of bad descriptors serves both loops, as the kernel's answers do not change between them.
- AdbHandlers.Connection.HandleRead: when `last` leaves the buffer, or a negative number of bytes is appended to a packet (`Wild`), the model stops: what the code then does to memory is undefined, except that a refused pool request would make such an append do nothing.
- Daemon.RunAgrees: covers runs in which no connection's code leaves its memory (`Wild`).
- Buf.Buf.AppendMem: after an overrun (`Overrun`) the code has written past its store; nothing is claimed about the program from there on.
- AdbHandlers.Connection.FinishPacket: how much of what is handed to send() goes out is not modelled, as the code only logs it; bytes pipelined behind a packet are dropped by the code, and framing is claimed for the first packet after the wait state.
- Packet.Texts: the text of the banner, the token and the data are parameters of at most 1 MiB.
- AdbHandlers.Connection.ProcessPacket: after an append overran the output's store (`Overran`) nothing is claimed of the request; a request's first reply never does.
- Pool.Pool.Palloc: the pool record itself and its creation and destruction are not modelled.
- AdbHandlers.Connection.ParsePayload: the dump of each packet received or sent is left out; when its hex buffer is refused the code reads through the null it got (src/adb/packet.c:379-385), which the model does not follow.
- The timers, the process and signal code, the epoll stub, logging, the listening set-up before a descriptor exists.
- The two event arrays' and the registry's release at shutdown.
