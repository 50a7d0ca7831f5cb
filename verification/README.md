# The message engine, verified

A model in Dafny 4.11 of the engine of a TCP message server: the lock-free scheduler that hands tasks to
worker threads, the mailboxes and the staged shutdown of a connection, the framing of the byte stream, and
the timing wheel. Everything is checked by

    dafny verify dfyconfig.toml

## The components

**The scheduler** (`src/tasker.cpp`, `src/taskpool.cpp`, `src/listnode.h`). Each task has a 32-bit state word:
16 bits of pending events and 16 bits of events it is parked on. Any number of threads ask for the task with
one compare-and-swap loop; the answer decides which of them pushes the task into a queue.

- `Gate` is one task: its word as two sets of bit numbers, where the task is, and the moves it can make.
- `BitTool` proves the bit tricks of the C++ code over `bv32` equal to those set operations, and the
  compare-and-swap loop of `addBit` equal to an atomic fetch-or.
- `Pool` is a worker with any number of other threads as a machine with one step per atomic operation.
  `PoolSafety` and `PoolWakeup` prove what holds in every run of it, `PoolService` that every request is served,
  `PoolStop` that a stop ends the worker's loop, and `PoolSleep` that the worker runs until then and sleeps when there
  is nothing to do.
- `ListNode` holds the intrusive list as pointers on the heap; `Pooler` runs the `consume` loop over two such
  lists while other threads push nodes, and proves that it takes the steps of `Pool`.

**One connection** (`src/director.cpp`, `src/receiver.cpp`, `src/sender.cpp`, `src/dealer.cpp`). A connection
has four tasks on four workers and three mailboxes. Closing it passes one token from task to task: an END bit,
then a STOP message to the director, then the next END bit.

- `Node` is the machine: four gates, mailboxes with a locked and a private queue, and threads that push,
  report readiness and ask for the close whenever they like. Queueing a message and asking for the task are
  two separate steps. What a handler sends by itself is a thread's push at that moment.
- `NodeSafety` holds the invariant, `NodeSteps` its proof and that each step is one move of one gate. `NodeRank` is
  a rank that no step raises and that each step of whoever is next lowers.
- `NodeShutdown` has the results over finite runs: ends, mailboxes, the request to close, and what is left after
  eof. `NodeLiveness` has those over infinite ones. `NodeLateCalls` says exactly when no worker uses the node after
  eof, and `NodeExamples` has a run in which one does.
- `NodeMail` proves that no message queued is forgotten, `NodeStatus` says what `m_fd_status` tells, and `NodeIdle`
  that a task which is left alone goes idle.
- `Edge` puts an edge-triggered socket in front of the node: its runs are runs of `Node` with readiness, epoll sets
  and the results of `recv` and `sendmsg` added. `EdgeIdle` has what the handlers answer and that they let go when
  there is nothing to do, `EdgeErrors` what an error leads to.
- `Ownership` follows each message from its creation until it is freed: its runs are runs of `Node` with the
  receive buffer, the calls that reader and dealer make from their handlers, and an account of messages made and
  freed added.
- `Echo` is the way of the bytes through a node that answers every message with itself: its runs are runs of
  `Ownership` with the bytes received and sent and the text of each message added.
- `Fairness` is the argument that all infinite-run results share: machines, fair runs, a rank that falls, and turns.
  `Paths` has the finite paths of a machine. `FairRuns` shows that every finite run goes on to a fair infinite one.

**The byte stream** (`src/sockobj.cpp`, `src/msgcenter.cpp`, `src/server.cpp`).

- `Framing` is the framing of a whole stream in one pass, with its round trip.
- `MsgCenter` holds the buffers with their cursor and the building of messages, `MsgReader` the incremental
  parser, `MsgWriter` the gathering sender; `Transfer` connects the last two.

**Timers and lists.** `Wheel` says when a timer fires, `TickTimer` is the wheel as a class, with the 32-bit tick
and the callbacks that arm their own timer again. `ListHead` holds the doubly linked and the hash-style list of
`src/listnode.h` as pointers on the heap; `TimerSlots` keeps the slots of the wheel in the latter. `Lists` is shared.

## Reading the results

A run is a sequence of states, each one step after the one before, with the steps of all threads interleaved in
any way; a result about runs holds for all of them and for any number of threads and tasks. The assumptions
are: atomic operations are sequentially consistent, locks are taken, memory is available, `procTask` returns
`BIT_EVENT_NORM`, `BIT_EVENT_IN` or a number from `BIT_EVENT_CUSTOM` below `BIT_EVENT_END`, and `sendmsg` and
`recv` take or give at least one byte or report that they would block. In infinite runs (the results of
`NodeLiveness`, `NodeMail`, `Edge.UnwatchedEnds`, `NodeIdle.GoesIdle`, `EdgeIdle.LetsGo`, `EdgeErrors.ErrorsClose`,
`PoolService.EveryRequestIsServed`, `PoolService.EveryEndIsDelivered`, `PoolStop` and the last results of `PoolSleep`)
nobody who is in the middle of something and can step is passed over forever, which includes that every handler
returns. Threads need never begin anything. `FairRuns` shows that whatever can happen in a finite run of the pool, the
node or the connection happens in such a run.

The code is followed where the documentation says otherwise, and where it does what one might not expect:

- the repository's README gives the message header 16 bytes; `struct MsgHdr` has 20 and the parser uses its size
  (`src/msgtype.h:9-16`, `src/msgtype.h:35`);
- a timer with an interval above 65791 minus the low byte of the tick fires early, by whole rounds of 65536 ticks;
  `Wheel.NeverLate` gives the exact condition and `Wheel.RoundIsSharp` an input;
- handling CLOSING takes the socket out of epoll before anybody is asked to end (`src/director.cpp:530`). From then
  on a parked sender with messages queued is left alone until its END comes, even when the peer takes bytes again;
  `Edge.EdgesEnd` is a run to such a moment, `Edge.NoWriteEdgeIsLost` says exactly when it can be, and
  `Edge.UnwatchedEnds` that eof comes;
- the task that tells its end calls `addTask` for the director after the message is queued
  (`src/director.cpp:321-326`). When another wake-up makes the director handle the message first, eof can come
  before that call, which then uses a freed node. `NodeLateCalls.NoLateCall` gives the exact condition: from the
  moment the director has handled the first CLOSING, if nothing is pending in his word, no other thread has a
  command for him under way and none begins one, no worker has anything left to do at eof; and if not, it can
  happen. `NodeExamples.LateCall` is a run in which a second close request, which a failing sender makes after a
  failing reader, is enough;
- a CLOSING command is ignored once the status is past it, but a connector writes the status back to NORMAL, so
  the shutdown results do not use the order of the status values. `NodeStatus.StatusIsStage` says what the status
  means in a run in which none does.

## Model

| member | source | states |
|---|---|---|
| BitTool.AddBit | src/tasker.cpp:4-23 | under any interference before each CMPXCHG the loop is one atomic fetch-or: the value returned is that of the word at one instant of the call, the word is then that value with the bits added, and no other attempt changes it |
| BitTool.TestsMeanGate | src/tasker.cpp:151-192 | the mask tests of checkin and checkout decide exactly what the gate's sets say, for every word and event |
| BitTool.EndTestMeaning | src/tasker.cpp:162-176 | the shift-and-xor test of an END checkin is true exactly when some parked-on bit has no pending bit |
| BitTool.DecodeOr | src/tasker.cpp:13 | or-ing words joins their sets of bits |
| BitTool.DecodeInjective | src/tasker.cpp:129-135 | a word is determined by its two sets of bits |
| BitTool.DecodeTable | src/tasker.cpp:129-135 | each entry of the bit tables stands for its one event |
| BitTool.TableEntries | src/tasker.cpp:129-135 | entry i of the low table is 1 shifted by i, and of the high table 1 shifted by i + 16 |
| BitTool.Checkin | src/tasker.cpp:151-181 | checkin adds its bit (END: sets all low bits) and answers as the gate does, on a value the cell held at that instant, the last one its loop saw; any other event changes nothing |
| BitTool.Checkout | src/tasker.cpp:183-192 | checkout adds its high bit and answers whether the task leaves the queue, on the last value its loop saw |
| BitTool.LockWord | src/tasker.cpp:137-142 | lock returns the old word and leaves only the lock bit |
| BitTool.ReleaseWord | src/tasker.cpp:144-149 | release clears the word exactly when nothing but the lock bit is set |
| Gate.MoveKeepsInv | src/tasker.cpp:137-199 | every atomic step on a task, in every order, keeps: bits of the right shape, idle exactly when a checkin can win, a requested END seen or pending |
| Gate.MoveEffect | src/tasker.cpp:151-192 | what each step does to the place of a task, among them that a winning checkin takes it from idle to claimed and a losing one leaves it |
| Gate.IdleIsOpen | src/tasker.cpp:151-192 | a live task is idle if and only if its word is 0 or it is parked on exactly one event that is not pending |
| Gate.WinnerFoundIdle | src/tasker.cpp:151-181 | a checkin wins only on an idle live task; on one, END always wins, another event exactly when the word is 0 or the task is parked on it |
| Gate.EndIsNotForgotten | src/tasker.cpp:162-176 | once END is requested the task is claimed, queued or running until procTaskEnd is called |
| PoolSafety.NoEventIsLost | src/tasker.cpp:151-275 | in every run a live task is not queued, about to be pushed or running if and only if its word is 0 or it is parked; a pending event of such a task is never the one it is parked on |
| PoolSafety.LinkedOnce | src/tasker.cpp:209-222 | in every run no node is linked twice in m_lock_root and m_safe_root together, and a node about to be pushed has one pusher and is in neither list |
| PoolSafety.EndIsDelivered | src/tasker.cpp:162-176 | from endTask's exchange until procTaskEnd the task is queued, about to be pushed or running |
| PoolSafety.NothingAfterEnd | src/tasker.cpp:277-293 | in every run procTaskEnd of a task is called at most once, only after END was requested, and no call of the task starts after it |
| PoolSafety.NoCheckinAfterEnd | src/tasker.cpp:151-181 | no checkin of any kind, END included, wins on a task after its procTaskEnd |
| PoolSafety.NothingBlocks | src/tasker.cpp:209-293 | no thread in the middle of a call is ever stuck, nor is the worker unless it sleeps on an empty counter or has stopped |
| PoolSafety.PoolIsGates | src/tasker.cpp:209-293 | each step of a pool is one move of one task's gate or touches none |
| PoolSafety.StepKeepsInv | src/tasker.cpp:78-293 | every step of every thread and of the worker keeps the invariant of words, threads, lists, places and calls |
| PoolSafety.RunInv | src/tasker.cpp:78-293 | the invariant holds at every moment of every run |
| PoolWakeup.NoLostWakeup | src/tasker.cpp:48-118 | a worker that sleeps with a task in m_lock_root has a positive event counter or a thread between its push and its alarm, requests made before run included |
| PoolWakeup.NoLostStop | src/tasker.cpp:87-126 | a worker that sleeps after stopRun cleared m_running has a positive counter or a thread about to ring |
| PoolWakeup.AsleepMeansDone | src/tasker.cpp:87-118 | when all other threads are idle and the worker sleeps on an empty counter, both lists are empty, every live task is at 0 or parked, and every requested END was delivered |
| PoolWakeup.StepKeepsDoorInv | src/tasker.cpp:48-126 | every step keeps the link between door bits, lists, threads on their way and the counter |
| PoolService.EveryRequestIsServed | src/tasker.cpp:48-275 | in every fair infinite run a task that a checkin has won, or that is queued, is locked by the worker later on, or the pool is told to stop: no request waits forever, asleep or behind others |
| PoolService.StepProgress | src/tasker.cpp:48-275 | no step of anybody puts the task further back, retries of the compare-and-swap loops included, and a step of whoever's turn it is brings it nearer |
| PoolService.WantedUntilLocked | src/tasker.cpp:209-246 | a claimed or queued task stays so until the worker locks it |
| PoolService.EveryEndIsDelivered | src/tasker.cpp:162-176 | in every fair infinite run a task whose END was requested gets its procTaskEnd later on, or the pool is told to stop |
| PoolService.RetriesFall | src/tasker.cpp:4-23 | a change of the word lowers the number of retries checkout's loop has left, and nothing raises it, so the loop ends |
| PoolStop.StopCompletes | src/tasker.cpp:120-126 | in every fair infinite run, once a thread has called stopRun on a running worker, the worker leaves its loop, asleep or busy, whatever waits in its lists, and m_running is cleared |
| PoolStop.StoppedIsGone | src/tasker.cpp:87-118 | in every fair infinite run a worker whose m_running was cleared leaves its loop |
| PoolSleep.RunsUntilStopped | src/tasker.cpp:87-126 | in every run in which no thread gets to clear m_running it is set from the start of the worker on |
| PoolSleep.ServedUnlessStopped | src/tasker.cpp:48-275 | in every fair infinite run without a stop a claimed or queued task is locked by the worker later on |
| PoolSleep.RingsAreFew | src/tasker.cpp:48-126 | in every run the counter is written at most once for each time the worker fell asleep, once for each stop, and once more |
| PoolSleep.NoRingsAfterStop | src/tasker.cpp:78-126 | in every run, once m_running is cleared only threads that were past their test of it write the counter, once each |
| PoolSleep.GoesToSleep | src/tasker.cpp:87-118 | in every fair infinite run, once all threads and tasks are idle and nobody begins a call, the worker falls asleep on an empty counter for good, or has been stopped |
| FairRuns.PoolGoesOn | src/tasker.cpp:78-293 | every finite run of the pool is the beginning of a fair infinite one |
| ListNode.Root.PushNode | src/listnode.h:312-318 | the node becomes the last of a well-formed list, tail and size right |
| ListNode.Root.PopNode | src/listnode.h:320-338 | the first node leaves the list; an empty list gives NULL |
| ListNode.SpliceRoot | src/listnode.h:340-348 | all of one list goes behind the other, in order; the first is empty |
| ListNode.Walk.Unlink | src/tasker.cpp:261-265 | unlinking through prev keeps the walk well formed and does not touch the node's own m_next, which another list may be using |
| ListNode.Walk.Keep | src/tasker.cpp:266-269 | keeping a node moves prev behind it |
| ListNode.Walk.Finish | src/tasker.cpp:272 | setting the tail to prev leaves the list of exactly the kept nodes |
| ListNode.Walk.OtherPush | src/tasker.cpp:220-222 | a push on the other list keeps the walk well formed, even of the node under the cursor once it was let go |
| Pooler.Pooler.PushStep | src/tasker.cpp:209-222 | __add on the heap is the machine's push step |
| Pooler.Pooler.SpliceStep | src/tasker.cpp:224-228 | __splice on the heap is the machine's splice step |
| Pooler.Pooler.UnlinkStep | src/tasker.cpp:261-265 | erasing the node under the cursor on the heap is the machine's step, with the node possibly re-pushed already |
| Pooler.Pooler.KeepStep | src/tasker.cpp:266-269 | keeping it is the machine's step |
| Pooler.Pooler.Consume | src/tasker.cpp:230-275 | the whole loop over the pointers, with other threads stepping between any two of its atomic operations, reaches its end state by steps of the machine, keeps both lists well formed, and returns true exactly when no task was kept |
| Edge.NoReadEdgeIsLost | src/sockobj.cpp:290-304 | in every run, with an idle live error-free reader, unread bytes and no addReadable on its way, epoll has an edge to report if and only if the socket is in the read set; and once delEvent was called such a reader exists only until the endTask that the director is about to make |
| Edge.NoWriteEdgeIsLost | src/sockobj.cpp:306-325 | in every run, with an idle live error-free sender, messages queued, a writable socket and no addTask on its way, epoll has an edge to report if and only if no CLOSING has been handled, that is delEvent was not called |
| Edge.EdgesEnd | src/director.cpp:526-532 | a run to a moment after delEvent with an idle live error-free sender with a message queued and a writable socket, and such a reader with unread bytes, no edge and no addTask on its way |
| Edge.UnwatchedEnds | src/director.cpp:526-552 | in every fair infinite run of socket and node, once delEvent was called eof comes, so what waits there without an edge is ended and freed |
| EdgeIdle.ReaderAnswers | src/sockobj.cpp:290-304 | a reader that has met no error can ask the socket, and answers BIT_EVENT_IN if it had bytes, BIT_EVENT_NORM if not |
| EdgeIdle.SenderAnswers | src/sockobj.cpp:306-325 | a sender that has met no error can send, and answers BIT_EVENT_NORM if and only if it leaves nothing, BIT_EVENT_WRITE if and only if it leaves something because the socket was full, and BIT_EVENT_IN otherwise |
| EdgeIdle.LetsGo | src/sockobj.cpp:290-325 | in every fair infinite run, once the socket has no bytes for the reader, or nothing is queued for the sender or the socket is full, and nothing more comes, the task goes idle for good unless its END is asked for |
| EdgeErrors.ErrorsClose | src/sockobj.cpp:298-324 | in every fair infinite run, once reader or sender has met an error, eof comes |
| EdgeErrors.FailedIsOut | src/sockobj.cpp:298-324 | in every run in which nobody reports BIT_EVENT_ERROR by addTask, a handler that has met an error is called no more until its END is asked for: no readiness wakes its task |
| FairRuns.ConnGoesOn | src/sockobj.cpp:290-325 | every finite run of the connection is the beginning of a fair infinite one |
| Edge.StepProjects | src/director.cpp:572-578 | a step of the connection is a step of the node by the same actor, or leaves the node as it is |
| Edge.NodeGoes | src/director.cpp:593-617 | whoever can step in the node can step in the connection: the socket blocks nobody |
| Edge.StepKeepsConn | src/sockepoll.cpp:85-135 | every step of reading, writing, polling, joining and leaving the epoll sets, pushing and ending keeps: edges only while in the set, somebody coming back to a usable socket that is in the set |
| NodeSteps.StepKeepsInv | src/director.cpp:279-557 | every step of the four handlers and of any other thread keeps the invariant of gates, mailboxes, jobs, token and calls |
| NodeSteps.RunInv | src/director.cpp:279-557 | the invariant holds at the end of every run |
| NodeSteps.NodeIsGates | src/director.cpp:279-557 | each step of a node is one move of the gate of one task or none, and a private queue changes only while its handler runs, and at eof |
| NodeSteps.CmdEffect | src/director.cpp:521-552 | handling a command touches the director's station and job only, and turns exactly the STOP message in hand into the request for the next end |
| NodeSteps.AllTold | src/director.cpp:472-484 | when the director's end is seen, every other task has been asked to end, is past its handler and has handed over its STOP message |
| NodeRank.OneToken | src/director.cpp:521-552 | from the request for the reader's end until eof there is exactly one token, an END of one task or one copy of one STOP message in one place; before and after there is none |
| NodeRank.StepProgress | src/director.cpp:521-552 | no step of anybody raises the rank of the token; a step of one whose turn it is lowers it, and until then it stays their turn |
| NodeShutdown.EndsInOrder | src/director.cpp:472-552 | in every run each task ends at most once, in the order reader, sender, dealer, director, no call of a task starts after its end, and nothing of the node starts after the director's end |
| NodeShutdown.JobsAtEof | src/director.cpp:316-326 | after eof the workers of reader, sender and dealer have nothing left to do but the addTask behind their STOP message, and the director nothing at all |
| NodeShutdown.AfterEof | src/director.cpp:472-484 | after eof no step takes, frees or moves a message of the node: mailboxes only get what threads push |
| NodeLateCalls.NoLateCall | src/director.cpp:316-326 | in every run, at the moment the director has handled the first CLOSING: nothing is pending in his word and no other thread has a call for him under way, if and only if every continuation without another such call leaves the four workers, at eof and after, with nothing to do on the freed node |
| NodeLateCalls.StepKeepsCalm | src/director.cpp:316-326 | no step but a new call from outside breaks: the director wakes only for a STOP message, which is queued then, and takes it with the wake-up; the sender of one that has not called addTask finds him asleep |
| NodeLateCalls.LateCallFrom | src/director.cpp:316-326 | from every such moment with a wake-up left over or a call under way, eof can come before the dealer's worker has called addTask |
| NodeExamples.LateCall | src/sockobj.cpp:299-321 | a run to eof with the dealer's worker still about to call addTask on the freed node, after a second close request |
| NodeLiveness.TurnCanStep | src/director.cpp:521-552 | whoever's turn it is has an enabled step: the shutdown is never stuck |
| NodeLiveness.ShutdownCompletes | src/director.cpp:521-552 | in every fair infinite run, once END was requested of the reader eof comes |
| NodeLiveness.CloseCompletes | src/director.cpp:525-534 | in every fair infinite run, once the status is CLOSING or later, or the socket is out of epoll, eof comes, so a CLOSING that is ignored is not lost |
| NodeLiveness.RequestCompletes | src/director.cpp:521-557 | in every fair infinite run, once a thread has begun to send a request to close eof comes: no request is lost |
| NodeMail.EveryMessageIsTaken | src/director.cpp:279-511 | in every fair infinite run each message put into the mailbox of the dealer or the director is taken out by its handler later on, unless END is requested of the task: none is forgotten, whoever else queues messages |
| NodeMail.EveryMessageIsSeen | src/sender.cpp:100-113 | in every fair infinite run each message put into the mailbox of the sender gets into the queue that it sends from, unless the sender is parked or END is requested of it |
| NodeStatus.StatusIsStage | src/director.cpp:521-552 | in every run in which no connector writes it back, m_fd_status is 5 or more exactly when the END of the reader has been asked for or is about to be, 6, 7 and 8 or more exactly when that of sender, dealer and director has, and 9 exactly after eof |
| NodeIdle.GoesIdle | src/tasker.cpp:230-275 | in every fair infinite run, once nobody begins a new call for the reader or the sender and its handler no more returns BIT_EVENT_IN, the task leaves the queue for good unless its END is asked for |
| FairRuns.NodeGoesOn | src/director.cpp:246-569 | every finite run of the node is the beginning of a fair infinite one |
| NodeShutdown.StepKeepsClose | src/director.cpp:525-546 | the socket is out of epoll if and only if END was requested of the reader or is about to be, and a status of CLOSING or later only then |
| NodeShutdown.MailboxKeepsAll | src/director.cpp:279-511 | in every run what was put into a mailbox is, in order, what its handler took, what eof freed, and what is queued; before eof nothing is freed and the messages taken are the first ones; a message in a locked queue of a live task has a splice to come or the thread that put it about to call addTask |
| NodeShutdown.IdleMailbox | src/sender.cpp:100-113 | with an idle live task and a message in its locked queue, the pusher is about to call addTask or the task is the sender, parked on an event that has not come |
| NodeShutdown.EofFreesAll | src/objcenter.cpp:46-62 | at eof every queue is empty and every message was taken or freed |
| Ownership.EachInOnePlace | src/objcenter.cpp:9-62 | in every run of node, receive buffer and handlers each numbered message made is in exactly one place, once, or was freed, once: in a queue, in the buffer, in a handler's hand or with the thread about to push it; of STOP messages there are as many as were made |
| Ownership.EofFreesNode | src/objcenter.cpp:46-62 | at eof no dispatch or reply is half done and no handler holds a message; all that the node holds, receive buffer included, is freed once and nothing stays |
| Ownership.FreedNodeHolds | src/objcenter.cpp:113-124 | a freed node holds exactly what was pushed to it after eof: its private queues and its receive buffer are empty, and each locked queue is the messages pushed since, in order |
| Ownership.NothingInHand | src/director.cpp:472-484 | when the director's end is seen no call of reader or dealer is in progress, and no handler holds a message |
| Ownership.StepKeepsOwn | src/director.cpp:246-331 | every step keeps the account, with dispatch as two steps between which the message is in the dealer's queue and m_rcv_dummy still points to it |
| Ownership.PlainBalance | src/director.cpp:279-511 | a step of the node changes the number of places a message is in by what it makes and frees |
| Framing.FrameKeepsAll | src/sockobj.cpp:48-191 | frames and rest make up the stream, each message is a valid frame, the rest holds no whole one, and a stream is refused exactly when the rest begins with a bad header |
| Framing.FrameAppend | src/sockobj.cpp:48-191 | framing a longer stream is framing the rest of the shorter one with what is added; a refused header ends it |
| Framing.FrameOfFlat | src/sockobj.cpp:31-191 | framing the concatenation of valid frames gives these frames and nothing else |
| Framing.FrameOfPrefix | src/sockobj.cpp:31-191 | any first part of such a stream gives the first of the frames and is never refused |
| MsgCenter.HeaderMeans | src/sockobj.cpp:31-46 | for all values of its six fields a header is accepted if and only if 20 < m_size < 0x500000, m_version is 0x0814 and m_crc is 0, whatever m_seq, m_retcode and m_cmd are; an accepted header begins a message once m_size bytes are there, and then the message is those bytes |
| MsgCenter.CreatMsg | src/server.cpp:9-19 | the message is the six header fields, with size, version 0x0814 and command and zeros otherwise, then the data and the delimiter 0xAC, and is a valid frame if and only if its size is below 0x500000 |
| MsgCenter.Cache.constructor | src/msgcenter.cpp:168-182 | a new buffer is empty and its header holds size and version |
| MsgCenter.Cache.Append | src/msgcenter.cpp:149-157 | append writes behind what is filled and moves the cursor |
| MsgCenter.Cache.Flip | src/msgcenter.cpp:84-90 | what was filled becomes the unused data |
| MsgCenter.Cache.Skip | src/msgcenter.cpp:92-97 | skipping splits the unused data |
| MsgReader.Receiver.ParseHeader | src/sockobj.cpp:88-108 | a buffer of the frame's size is created exactly for an accepted header (`MsgCenter.HeaderMeans` says which it is) |
| MsgReader.Receiver.ParseNextBody | src/sockobj.cpp:141-179 | the whole frames of a chunk are dispatched, what is left is pending, and the result is 0 exactly when no header is refused |
| MsgReader.Receiver.ParseBody | src/sockobj.cpp:110-139 | the same for a chunk behind a message that is partly there |
| MsgReader.Receiver.Parse | src/sockobj.cpp:48-86 | messages, pending bytes and verdict of a chunk are those of framing what was pending followed by the chunk |
| MsgReader.Receiver.ReadAll | src/sockobj.cpp:8-29 | however a stream is cut into chunks, messages, pending bytes and verdict are those of the whole stream |
| MsgReader.Receiver.Dispatch | src/sockobj.cpp:181-191 | the bytes received go out as one message and the parser is ready for the next |
| MsgWriter.Writer.Gather | src/sockobj.cpp:213-225 | the vector is the front messages whole, at most 100, and ends only for one of the two limits or at the end; only its last message can take the total past 0x100000 bytes, so with messages below MAX_MSG_SIZE it fits an Int32 |
| MsgWriter.TotalTooLarge | src/sockobj.cpp:216-221 | two messages of sizes that fit an Int32 whose total does not |
| MsgWriter.Writer.Prune | src/sockobj.cpp:248-277 | what is left to send is what was, without the n bytes sent, and begins with a byte of the first message in the queue, so a message sent whole has left it; no cursor but that of this message has moved; the result is true exactly when n is all there was |
| MsgWriter.Writer.SendQue | src/sockobj.cpp:202-246 | sent is what the kernel takes of the front messages that the two limits allow, exactly, and followed by the unsent bytes it is the unsent bytes before; 0 means that nothing is left, 1 that the kernel takes nothing or nothing was gathered, 2 that some bytes went and more are left, -1 an error, each exactly then |
| MsgWriter.UnsentAppend | src/sockobj.cpp:213-225 | the unsent bytes of a queue are those of its parts |
| Transfer.Run | src/sockobj.cpp:8-277 | frames sent with any partial sends and received in any chunks, in any order of turns: the messages dispatched are at every moment the first of the frames, none is refused, and at the end they are all of them; and the end comes: with as many turns in which the sender may send as there are bytes, and then as many in which the receiver may read, all is sent and received |
| Echo.EchoIsPrefix | src/server.cpp:59-66 | in every run of node, receive buffer and handlers in which the callback sends every message back, the messages that reach the dealer are the first frames of the bytes received, and the bytes sent are the first of the bytes received; when nothing is on its way only the bytes still to be parsed are missing |
| Echo.DispatchKeeps | src/sockobj.cpp:141-191 | dispatching the first whole frame, in two steps of the reader, keeps: the messages dispatched are the first frames of what was received, and the rest is to be parsed |
| Echo.SendKeeps | src/sockobj.cpp:202-277 | a call of sendQue that takes any number of bytes, and frees the messages gone whole, keeps: what was sent is the messages taken and the first bytes of the queue |
| Echo.TurnKeepsInv | src/server.cpp:59-66 | every step of every thread and handler keeps that what the dealer took it has passed on, in order |
| Wheel.LongInterval | src/ticktimer.cpp:58-67 | a timer armed at t with an interval of 256 or more waits the least k that agrees with it modulo 65536 and exceeds 255 minus t mod 256 |
| Wheel.NeverLate | src/ticktimer.cpp:58-103 | no timer with an interval of 1 or more is late, and it is exact if and only if the interval is at most 65791 minus t mod 256 |
| Wheel.RoundIsExact | src/ticktimer.cpp:58-103 | intervals up to 65536 are exact at every tick |
| Wheel.RoundIsSharp | src/ticktimer.cpp:58-103 | 65537 is not: armed at tick 255 it fires at the next |
| TimerWheel.TickTimer.Tick | src/ticktimer.cpp:76-115 | a tick calls each timer whose deadline it is once and no other; the deadlines afterwards are those before, without the timers called, plus the new deadlines of those armed again; for intervals up to 65536 the timers called are those whose m_expires is the wrapped tick; every timer keeps m_interval and m_base but for the interval its own callback sets, and one that is left alone is in no list |
| TimerWheel.TickTimer.Cascade | src/ticktimer.cpp:90-103 | spreading a slot of the second level changes no deadline and puts each timer where the first level will find it |
| TimerWheel.TickTimer.ModTimer | src/ticktimer.cpp:53-74 | arming a timer sets its deadline and changes no other |
| TimerWheel.TickTimer.DelTimer | src/ticktimer.cpp:43-51 | the timer is no longer armed and no other changes; a timer in no list is left alone |
| TimerWheel.TickTimer.AddTimer | src/ticktimer.cpp:39-41 | arms a timer with the interval it carries |
| TimerWheel.DelElsewhere | src/ticktimer.cpp:43-51 | delTimer for a timer linked in another wheel takes it out of that wheel's slot, leaves this wheel as it is, and leaves the other's m_size one too high |
| TimerWheel.ModElsewhere | src/ticktimer.cpp:53-74 | modTimer for such a timer arms it here; the other wheel counts one timer too many |
| TimerWheel.TickTimer.Stop | src/ticktimer.cpp:19-37 | no timer is armed and the count is 0 |
| TimerWheel.UpdateTimer | src/ticktimer.cpp:121-125 | a timer goes back to its wheel with its interval; without a wheel nothing happens |
| TimerWheel.Periodic | src/ticktimer.cpp:76-125 | a timer that always arms itself again is called at every multiple of its interval, without drift |
| TimerWheel.OneShot | src/ticktimer.cpp:76-115 | a timer that does not is armed until its deadline and not after |
| TimerWheel.RungAll | src/ticktimer.cpp:105-114 | taking out a slot and calling its timers one by one is the step of the plain deadline map |
| ListHead.ListHead.AddBack | src/listnode.h:49-52 | the item becomes the last of a well-formed ring |
| ListHead.ListHead.Del | src/listnode.h:54-66 | the item leaves the ring through its own links and is its own ring; an item in no list is left alone |
| ListHead.SpliceBack | src/listnode.h:100-107 | all of one ring goes behind the other, in order |
| ListHead.TakeAll | src/objcenter.cpp:9-23 | the loop that takes every item off hands them on in order and leaves the ring empty |
| ListHead.HlistAdd | src/listnode.h:174-185 | the item becomes the first of a well-formed list |
| ListHead.HlistDel | src/listnode.h:162-172 | the item leaves the list through its own pointers, wherever it is |
| ListHead.HlistReplace | src/listnode.h:188-196 | the list goes to the other head as it is |
| TimerSlots.HeadArray.Add | src/listnode.h:174-185 | on the heap, the wheel's hlist_add puts the timer first in its slot and touches no other slot |
| TimerSlots.HeadArray.Del | src/listnode.h:162-172 | hlist_del takes the timer out of whatever slot it is in, by its own pointers, and touches no other slot |
| TimerSlots.HeadArray.Replace | src/listnode.h:188-196 | hlist_replace moves the timers of a slot to a list of their own and leaves the slot empty |

## Left out

- Sockets, epoll, eventfd, timers and threads of the operating system: environment steps with the contract given above. `EINTR` reported as would-block by `recvTcp` is outside that contract.
- Weak memory ordering: every atomic operation takes effect at once for all threads.
- Locks: a locked section is one step. A lock that is not taken (the branch that frees the message and returns -1) and a failed allocation (the -2 of `parseHeader`) do not occur.
- `SigWaiter` and `MutexWaiter`: only the event counter is modelled; the header says the mutex waiter can miss a signal.
- The wait of `Director` itself, with its one-second timeout: the wakeup results are for task pool workers.
- `SockConnector` and `SockListener`: callback plumbing. A connector's reset of the status to NORMAL is one of the director's choices in `Node`.
- `replaceRoot`, `list_replace`, `list_add_front`, `list_splice_front` and the ordered list: unused here, or copies of what is shown.
- `SockEpoll` bookkeeping, the index of the group lock, configuration, logging, `main`, the test driver, thread creation: easy, or library calls.
- NodeShutdown.EndsInOrder: speaks of calls that start. One call of a worker may still come after eof, at `src/director.cpp:326`; `NodeLateCalls` says exactly when. What it would do to freed memory is not modelled; here the task is ended and nothing happens.
- NodeShutdown.MailboxKeepsAll: a push after eof goes to a freed node in the code; here it goes to a mailbox that nobody will look at (`NodeShutdown.AfterEof`, `Ownership.FreedNodeHolds`).
- NodeLiveness.ShutdownCompletes: one node alone on its workers; that a worker comes round to each queued task is assumed here and proved for a pool in `PoolService`.
- EdgeErrors.ErrorsClose: the close call of a handler that meets an error is a thread's, begun at that moment; the handler may return before it is through, and need not call again when it is called again. At its END a sender may write once more whether it has met an error or not.
- PoolSleep.GoesToSleep: without a signal that interrupts the wait; `EINTR` makes one more round each.
- NodeIdle.GoesIdle: for reader and sender; dealer and director never return BIT_EVENT_IN, which is part of `NodeSafety`.
- Edge.NoReadEdgeIsLost: from the addEvent that follows accept or connect on; before a connector is connected its socket is in the write set only, and its handlers are taken for those of a connected socket.
- Ownership.EachInOnePlace: threads other than reader and dealer make each message they push, and push it once. That parseHeader finds no message in m_rcv_dummy is proved in `MsgReader` and a condition here.
- Pooler.Pooler.Consume: steps of other threads come from a script, one batch before each of the loop's own steps.
- NodeLateCalls.NoLateCall: says nothing of a call for the director begun after that moment, but that one begun at once is a call under way.
- TimerWheel.TickTimer.Tick: slots are sequences of timers and m_pprev is the name of the slot; the pointer writes are in `ListHead`, and `TimerSlots` shows that they do to a slot what is done here. The size counter is not wrapped.
- TimerWheel.TickTimer.ModTimer: for a timer of this wheel or of none; `TimerWheel.ModElsewhere` has the other case, after which the other wheel is no longer valid. A callback arms or leaves only its own timer, as all callers do.
- TimerWheel.TickTimer.DelTimer: for a timer of this wheel or of none; `TimerWheel.DelElsewhere` has the other case.
- TimerWheel.TickTimer.AddTimer: for a timer of this wheel or of none, as ModTimer.
- MsgWriter.Writer.SendQue: the total is not wrapped. It fits an Int32 when every queued message is smaller than MAX_MSG_SIZE, which `creatMsg` does not check; `MsgWriter.TotalTooLarge` is a queue for which it does not.
- Echo.EchoIsPrefix: for an accepted connection whose callback always answers; messages the server starts by itself are not part of it.
- `setup`, `teardown`, `join` and the printing of counters in `process`.
