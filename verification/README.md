# Verified models of fib

fib is an event-driven network engine in Go with protocol stacks on top. This project models the parts of it whose
correctness is hardest to see from the code, in Dafny 4.11, and proves what they promise. `dafny verify dfyconfig.toml`
checks all of it.

Regions under a mutex and single atomic operations are atomic steps, in a sequentially consistent memory. The
exception is `BufferPool`, whose operations are taken whole; `PoolSteps` takes them apart. What the system calls, the
kernel, the clock, the network, the schedulers and other code report comes in as parameters of the steps, so every
outcome is covered. A write takes at least one byte and at most all it is handed, would block, or fails; after a short
or blocked write a write edge is owed; a read shorter than its buffer leaves the socket empty.

## The parts

- `RoundState`, `Rounds`, `RoundSafety`, `RoundEffects`: one connection as a transition system of its rounds, the event
  loop, the kernel, any number of other goroutines and the engine's close. Each step is one lock region, one load or
  one system call of the code. The invariant is inductive over all of them, the theorems hold in every state of every
  run, and `RoundEffects` has what the steps bring about.
- `SendItems`, `SendQueue`, `SendBudget`: the output path as a class whose methods are the lock regions. Ghost fields
  hold the bytes accepted and the bytes the socket took; the queue is the difference. `SendBudget` runs any sequence
  of operations over any number of connections.
- `WakeUp`: the loop's command queue and wake-up, with any number of requesters.
- `Frames`, `FrameReader`: arpc's messages, the parser over a growing buffer, and the whole way from sender to receiver.
- `AsyncCalls`, `AsyncNews`, `Sessions`, `Writer`: arpc's asynchronous calls with shared requests and what their handlers
  are told, its blocking calls with their pooled channels, and the writer that combines messages in two swapped
  buffers of a heap of arrays.
- `Merkle`, `HashExchange`, `LayerFetch`: BEP 52's trees over any pair hash, serving hash requests, and asking for a
  layer and putting it together.
- `Blocks`, `Downloads`, `DownloadRuns`, `PickerMiss`: BitTorrent's piece bookkeeping as a class, any run of what may
  happen to it, and one run in which a peer is passed over.
- `BufferPool`: the pool's size classes, reserves and budget, one operation after another.
- `PoolSteps`, `PoolCounts`, `PoolRuns`, `PoolBudget`, `PoolReserves`, `PoolMisses`: the budget, targets and reserves with
  any number of callers at once, each atomic operation a step; when a new budget holds, exactly, and runs in which it
  does not.
- `Basics`, `Powers`: what several of these share.
- `Deadline`, `Attachment`, `DescriptorTable`: the lazy deadline timer, the attachment's sequence lock, and the paged
  descriptor table.

## Where the code does less than it says

- A `CallAsync` that follows a shared request can find the request finished and make a call of its own. If the
  follower's timer goes off before it is stopped there, the handler has run already: it then runs twice, or runs
  although an error is returned (`AsyncCalls.PromiseCanBreak`). `AsyncCalls.HandlerRunsAsPromised` shows that this is
  the only case.
- A deadline's callback decides to close under the lock and closes after releasing it. A deadline moved in between is
  overtaken (`Deadline.MoreTimeCanComeTooLate`); `Deadline.SetHoldsUnlessDecided` gives the exact condition.
- A piece whose check failed is begun again while a peer may still have a block of it outstanding from before. If that
  is all the piece has to ask for, the peer is asked for nothing although another piece could be begun
  (`PickerMiss.AskedForNothing`); `Downloads.MissesExactly` gives the exact condition.
- `SetRetainedBytes` of the buffer pool does not always bound what is committed. A `reserveMore` checks the budget before
  it raises a target, `beginRefill` loads what is held before it moves the target there, and `trim` loads a target
  before it stores one less. A budget lowered in between can be left exceeded at rest
  (`PoolMisses.SetCanComeTooLate`, `PoolMisses.AimCanComeTooLate`). `PoolBudget.SetHoldsIfAccounted` gives the exact
  condition. It leaves out bursts that raise a target with what they load later, since two bursts of one class can
  exceed even a budget that is never set (`PoolMisses.BudgetCanBeExceeded`).
- Nor does `SetRetainedBytes(0)` always release the pool's memory: a `keep` checks the target under the class's lock,
  and `trim` lowers it without (`PoolMisses.KeepCanComeTooLate`). `PoolReserves.ReservesHoldIfUsedUp` gives the exact
  condition for a budget set at a rest.

## Model

| member | source | states |
|---|---|---|
| RoundSafety.NoReadIsLost | core/connection.go:1275-1437 | In every state of every run, on an open connection whose read side is open: input that no edge will announce is being noted, is with a scheduled round, is about to be read by the round running, is marked stalled with its pause cause still true (or a refresh or flush to come), or is marked deferred with output still queued |
| RoundSafety.OutputIsNeverStranded | core/connection.go:2118-2277 | In every state of every run, output queued on an open connection is corked, being flushed, about to be flushed, or waits for a write edge that is owed, raised, being noted or with a round; and a read is marked deferred only while output is queued |
| RoundSafety.TheEndIsNeverLost | core/connection.go:1410-1437 | In every state of every run the end of the peer's side is still an edge, with a round, or owed together with a read that is itself stalled, deferred or with a round |
| RoundSafety.RoundsNeverOverlap | core/engine.go:582-608 | In every state of every run there is exactly one task for a scheduled connection and none for another, counting those listed, to be redelivered, submitted, running and dropped, so at most one round runs |
| RoundSafety.OnCloseIsToldOnce | core/engine.go:1032-1072 | In every run OnClose begins at most once, only once the connection is closed with no round submitted, listed or running, and exactly once by the time the engine has been released, through close commands, handler panics, refused submissions and cuts |
| RoundSafety.AtRestAllIsDone | core/connection.go:823-850 | An open connection with nothing in motion and room in its socket has sent all that no cork holds and, unless its reads are held or its output corked, has read all its input and acted on the peer's end |
| RoundSafety.RoundKeeps | core/connection.go:1275-1457 | Every step of a round, with any outcome of its system calls, any stale load of a flag and any panic of a handler, keeps the invariant behind the theorems above |
| RoundSafety.StallKeeps | core/connection.go:1819-1846 | Marking a read stalled and settling the pause leaves it with a cause that stands, a refresh to come, or a round that takes it |
| RoundSafety.DeferKeeps | core/connection.go:1302-1326 | Leaving a read to the drain of the queue, or taking it up again, keeps the invariant |
| RoundSafety.UncorkKeeps | core/connection.go:1525-1548 | Taking the cork off and flushing what it held under the same lock keeps the invariant |
| RoundSafety.FlushingKeeps | core/connection.go:2118-2277 | A turn of a round's flush that drained, fell short, would block, failed or gave way keeps the invariant, a deferred read handed back when it drained included |
| RoundSafety.NoteKeeps | core/engine.go:852-923 | Folding readiness into the connection, or setting a paused read aside, keeps the invariant |
| RoundSafety.RefreshKeeps | core/engine.go:965-1018 | Refreshing the pause, and handing a stalled read back to a round, keeps the invariant |
| RoundSafety.LoopKeeps | core/engine.go:503-527 | Every step of the event loop and the worker pool keeps it: edges taken, tasks listed, submitted, refused and started, commands run, OnClose begun, ended or unwound |
| RoundSafety.SenderKeeps | core/connection.go:1052-1266 | Every send, cork, uncork and flush of any other goroutine keeps it |
| RoundSafety.CallerKeeps | core/connection.go:2359-2402 | Every hold of reads, shutdown of a side, close and request of any other goroutine keeps it |
| RoundSafety.EngineKeeps | core/engine.go:1136-1188 | The engine's own close, from the loop's end to its release, keeps it |
| RoundSafety.RunKeeps | core/connection.go:1275-1437 | Every state of every run from a connection just opened has the invariant |
| RoundEffects.SettleFollows | core/connection.go:823-891 | Settling an open connection's pause leaves its reads paused while held or at the high watermark, running below the low one or without backpressure, and in between as they were, by the backlog alone; a read set aside is handed to the round there is, or to a refresh, exactly if nothing pauses it |
| RoundEffects.RefreshFollows | core/engine.go:965-1018 | Refreshing does the same, and has a read set aside noted again exactly if nothing pauses it |
| RoundEffects.NoteSetsAside | core/engine.go:852-880 | Bare input on a paused connection is marked and makes no task |
| RoundEffects.NoteFoldsIn | core/engine.go:880-923 | Any other readiness is there for a round, which is made if and only if there was none, but for a write edge that nothing waits for |
| RoundEffects.PausedIsNotRead | core/engine.go:870-880 | However much the peer sends and the loop takes, a paused connection without a task makes none, and what was sent stays in the socket |
| RoundEffects.ReadsOnlyUnheld | core/connection.go:1976-2001 | A round comes to a read only by a check that found the read side open and reads not held |
| RoundEffects.InputIsDelivered | core/connection.go:2002-2015 | Of all steps only a round's read takes input out of the socket, and that round is in OnData next, but for a reader outside the rounds |
| RoundEffects.StopsAtTheMark | core/connection.go:2046-2070 | A round reads on after OnData only by loads that found reads not held and backpressure off or the backlog below the high watermark; otherwise it flushes what it holds, looks again and leaves its read marked |
| RoundEffects.DefersAtTheMark | core/connection.go:1379-1404 | With output queued a round begins its read only by such loads, and leaves it for the drain where no watermark bounds the queue, reads are held or the backlog is at the high watermark |
| RoundEffects.CallsTakeEffect | core/connection.go:1841-1880 | Holds, backpressure and the shutting of a side stand until the caller says otherwise, a change of the first two has a refresh to come, and a close after sending is decided at once where nothing is left to send |
| RoundEffects.DrainDecides | core/connection.go:2133-2160 | A close that waited for the queue to drain is decided when it has |
| RoundEffects.SendsOnlyOpen | core/connection.go:1052-1085 | Nothing is accepted on a connection that closes or refuses output, and nothing is written at once past a cork, a queue or a flush |
| RoundEffects.SendsAreQueued | core/connection.go:1085-1156 | What a send leaves unsent is queued, all of it, with the socket full or a flush to come |
| RoundEffects.CorksHold | core/connection.go:1501-1509 | Where rounds coalesce replies a read begins with the connection corked |
| RoundEffects.DecidesToClose | core/connection.go:1410-1437 | A read that meets the end or fails, an error or hang-up reported, a handler's panic, a write that fails, a task refused and a caller's close each leave the connection closing or decided to close |
| RoundEffects.DecidedCloseHappens | core/connection.go:516-552 | In every run a connection whose close was once decided is closed, holds no output and has begun OnClose exactly once in every later state with nothing left to close |
| SendQueue.Connection.Push | core/connection.go:576-602 | An item joins the end of the queue, and reusing or growing its slots changes nothing else of it |
| SendQueue.Connection.Enqueue | core/connection.go:725-748 | The parts join the end of the stream, merged into the trailing item only if that is pooled, unsent and has the room; drained or partly sent items are never touched |
| SendQueue.Connection.EnqueueShared | core/connection.go:783-790 | A copied head and a shared part join the end of the stream in that order |
| SendQueue.Connection.Fold | core/connection.go:795-801 | Bytes under a cork become pending bytes, the mirror following |
| SendQueue.Connection.Charge | core/connection.go:919-925 | The connection's charge rises to its backlog, the engine's total with it |
| SendQueue.Connection.AddPending | core/connection.go:899-907 | Counts bytes as pending, and charges the whole backlog unless corked; the total less the charge does not change |
| SendQueue.Connection.SubPending | core/connection.go:978-997 | Uncounts bytes and gives back exactly the charge above what is left; the total less the charge does not change |
| SendQueue.Connection.HasQueued | core/connection.go:1464-1470 | The bytes under the cork are counted, and output is reported queued exactly if there is some |
| SendQueue.Connection.ChargeRound | core/connection.go:966-973 | The bytes under the cork are counted, and the whole backlog is charged exactly if it has come to 32768 bytes |
| SendQueue.Connection.Send | core/connection.go:1052-1156 | Whether a send is done, refused, failed, queued or over the limit is settled by its length, the connection's state, the write's outcome and the backlog against the limit; exactly the prefix that outcome accepts joins the bytes accepted, exactly what the direct write took reaches the socket, every counter stays exact, and a backlog no cork holds is charged whole |
| SendQueue.Connection.SendParts | core/connection.go:1180-1266 | The same outcome, for the parts together, as sending them as one, the second shared or copied |
| SendQueue.Connection.SendCorked | core/connection.go:759-764 | A corked send joins the stream and the bytes under the cork, or exceeds the limit and joins nothing |
| SendQueue.Connection.SendFile | core/connection.go:2861-2888 | A file joins the stream as the bytes it will put on the wire, counted as a file |
| SendQueue.Connection.SendRecord | core/connection.go:2956-2985 | A record joins the stream after what was sent before it, in memory, within the limit |
| SendQueue.Connection.Consume | core/connection.go:683-719 | Exactly the bytes taken come off the head of the stream, from memory or from the file at its head, and the memory and file counts fall by as much |
| SendQueue.Connection.Gather | core/connection.go:2182-2197 | The buffers of one write are the unsent bytes of the plain items at the head, in order, up to the first that is not plain, 64 at most, one without writev |
| SendItems.CutToRecords | core/connection.go:3032-3043 | The cut is a proper prefix of whole 16 KiB records that leaves 1 to 16384 bytes |
| SendQueue.Connection.KernelCut | core/connection.go:3013-3025 | What is written is a prefix of the buffers, cut to whole records if and only if the kernel seals more than a record with no file behind it; more is announced exactly when cut or with a file behind |
| SendQueue.Connection.Stage | core/connection.go:2895-2930 | A chunk of a sealed file moves into memory, within the limit; the stream does not change |
| SendQueue.Connection.Attempt | core/engine_unix.go:1394-1470 | What a flush hands the socket is exactly what the queue fixes: the file's part, the sealed chunk's or the record's rest, or all the plain bytes gathered and cut; it can be handed over if and only if it is in memory, or its file can be read and its chunk fits the limit |
| SendQueue.Connection.Accept | core/connection.go:2209-2215 | Bytes the socket took move from the head of the queue to the bytes taken, and are uncounted; the clamps to zero never bite |
| SendQueue.NextWriteTakesAll | core/connection.go:2181-2199 | Where the queue is plain and not too long for one write it is handed over whole, or all but its last record where the kernel seals it |
| SendQueue.Connection.FlushTurn | core/connection.go:2118-2277 | One turn of a flush: exactly as much as the write takes of what the queue has it handed reaches the socket, and something does whenever the socket takes any and the head can be read; it is blocked exactly if the write would block, short exactly if the write took less and was not sendfile's, failed exactly if the write or the read failed, drained exactly if that was all there was, leaving nothing counted or charged, and it yields exactly while the flush goes on |
| SendQueue.Connection.Flush | core/connection.go:2118-2137 | A closing connection is not flushed, the answer is busy exactly when another flush is under way, to which all is left with the backlog charged, and otherwise a turn is taken with the outcome fixed as there |
| SendQueue.Connection.Uncork | core/connection.go:1525-1548 | The cork is off, the stream and counters stay exact, nothing is written if nothing was held, and what was held is flushed with the outcome of a turn |
| SendQueue.Connection.MarkClosed | core/engine.go:1078-1124 | The queue and every count go, and the engine's total falls by exactly the connection's charge |
| SendBudget.Apply | core/connection.go:1052-1266 | Every operation of a connection keeps the stream, the counters and the limit, and moves the engine's total by what it moves the connection's charge |
| SendBudget.Run | core/engine.go:563-577 | After any sequence of any operations of any number of connections, each connection's bytes taken followed by its queue are its bytes accepted, its counters are exact, and the engine's total is the sum of the charges |
| SendBudget.BudgetReturns | core/engine.go:1113-1124 | The engine's total is never negative, and is zero once every connection has drained or closed |
| WakeUp.NoCommandIsSleptThrough | core/engine.go:615-848 | In every run with any number of requesters, notifiers without a command and stops, a loop that waits with commands queued, rounds owed or a stop asked for has a wake-up posted or someone about to post it; with neither, everything accepted has run and no stop was asked for |
| WakeUp.CommandsRunOnceInOrder | core/engine.go:775-793 | In every run the commands run are a prefix of those accepted, in order; once the last drain is over they are all of them, and no more are accepted |
| WakeUp.NothingIsDropped | core/engine.go:754-771 | In every run the commands accepted are exactly those requested before the queue was closed, in order, and the rounds run and still to run are exactly those the commands left |
| WakeUp.AskingWakes | core/engine.go:754-803 | Whoever requests, notifies or stops goes on to mark the loop woken, and posts the wake-up if it was not |
| WakeUp.StopIsHeeded | core/engine.go:615-624 | In every run the loop is to stop exactly if someone stopped it |
| WakeUp.LastDrainExits | core/engine_unix.go:754-800 | A loop that is to stop runs all that is queued and exits |
| WakeUp.SettleEnds | core/engine.go:824-840 | Every step of the loop in settle strictly lowers a well-founded measure until it leaves, for the last drain if it is to stop and for the wait if not, and no requester's step raises it |
| WakeUp.RequesterKeeps | core/engine.go:754-803 | Queueing a command, stopping, notifying, losing or winning the flag and posting the wake-up keep the protocol's invariant |
| WakeUp.LoopKeepsAwake | core/poller_epoll.go:96-149 | Every step of the loop keeps that what it waits with is announced |
| WakeUp.LoopKeepsOrder | core/engine.go:928-963 | Every step of the loop keeps that run, taken and queued commands are those accepted, in order |
| Frames.AccessorsUndoEncode | arpc/proto.go:191-278 | For every method of 1 to 127 bytes, sequence number and body, the accessors of an encoded message give back the command, its stream bits, the flags, the sequence number, the method and the payload |
| Frames.HeadIsLaidOut | arpc/proto.go:40-50 | Every field of a header is where the format has it, its numbers byte by byte, the least first |
| Frames.OverLimitStops | arpc/client.go:940-944 | A stream that starts with a header over the limit holds no message, and is told apart exactly then |
| Frames.ParseConcat | arpc/client.go:924-974 | Parsing a stream up to any point and then what was left of it with the rest gives the messages of the whole |
| Frames.ParseUndoesEncode | arpc/client.go:924-974 | The concatenated encodings of any messages within the limit hold exactly those messages, with nothing left over |
| FrameReader.Put | arpc/proto.go:259-267 | The buffer holds the header and method as the format lays them out, and nothing beyond them changes |
| FrameReader.NewMessage | arpc/proto.go:270-278 | The buffer's bytes are the encoding of the message |
| FrameReader.ConnState.Feed | arpc/client.go:924-974 | What is dispatched is exactly the messages of what was left over and what was read, what is left over is theirs, and the parser stops exactly at a header over the limit; with plain allocation the buffer is at most the larger of 16 + 65536 bytes and twice what has arrived |
| FrameReader.ConnState.Pass | arpc/client.go:926-973 | Each pass takes at least a byte and dispatches at most the message the stream starts with, whole and of exactly its length |
| FrameReader.ConnState.Grow | arpc/client.go:983-994 | The buffer grows to at least one byte more, at most the whole message, with what has arrived of it unchanged |
| FrameReader.ConnState.FeedAll | arpc/client.go:924-974 | However a stream is cut into reads, what is dispatched and left over are those of the whole stream |
| FrameReader.Deliver | arpc/client.go:924-974 | Any messages encoded one after another and read in any pieces arrive as exactly those messages in order, each whole and of exactly its length, and every accessor gives what was sent: command, stream bits, flags, sequence number, method and payload |
| AsyncCalls.HandlerRunsAsPromised | arpc/client.go:769-819 | Over every interleaving, once a returned call has nothing left under way its handler ran once if it returned nil and never if it returned an error, exactly when it did not fall back from a finished leader after its own timer had gone off; otherwise the handler ran once more than that |
| AsyncCalls.PromiseCanBreak | arpc/singleflight.go:205-226 | There are runs in which a call that returned nil runs its handler twice, and one that returned an error runs it |
| AsyncCalls.RunsAreBounded | arpc/client.go:758-819 | At every moment a handler has run, or is about to, at most once, and not at all after an error, but for that one case |
| AsyncCalls.WaitEnds | arpc/client.go:790-819 | A call waiting for its response has its timer armed or its callback under way, and a follower that has not run has its own |
| AsyncCalls.NoFollowerIsForgotten | arpc/singleflight.go:116-126 | A leader that has come to rest has finished the shared request and let every follower go |
| AsyncNews.WaitingIsTaken | arpc/client.go:747-766 | A response or a timer that finds a call waiting takes its handler, to run it once with exactly that response or the timeout, the timer no longer armed; one that does not changes nothing it will be told |
| AsyncNews.AllAreLost | arpc/client.go:321-352 | The loss of the connection takes every handler waiting, and no other, to run it without a response |
| AsyncNews.FirstRuns | arpc/singleflight.go:50-66 | The first of a follower's timer and its leader runs its handler, with the timeout or the leader's outcome, and the other does not |
| AsyncNews.FailureIsReported | arpc/client.go:809-818 | A failed send returns its error and its handler never runs, unless the handler was taken meanwhile |
| AsyncNews.KeyIsShared | arpc/singleflight.go:74-91 | A call for a key in flight follows the one that leads it, any other leads it, until its request is finished |
| AsyncNews.JoinOrFallBack | arpc/singleflight.go:105-113 | A follower joins an unfinished request and makes its own after a finished one |
| AsyncNews.ToldWhatCame | arpc/client.go:769-819 | In every run a call at rest has had its handler run with exactly what took it; a follower's ran with the timeout, or with what its leader's own ran with, or because that did not send |
| AsyncNews.AnswerIsTold | arpc/client.go:747-756 | In every run a response that finds its call waiting is what the handler runs with, whatever comes later |
| AsyncNews.NoAnswerWasMissed | arpc/client.go:790-806 | In every run a call that timed out or lost its connection had no response that found it waiting |
| AsyncNews.FollowersAreLetGo | arpc/singleflight.go:205-246 | In every run, once a leader is at rest every follower that joined has been let go with its outcome, and has run or is about to |
| AsyncCalls.MoveKeeps | arpc/client.go:729-819 | Every step of one call, by its caller, a response, a timer or a leader, keeps its handler counted once among waiting, taken and run |
| AsyncCalls.LoseKeeps | arpc/client.go:321-348 | The loss of the connection, which takes every waiting handler, keeps the invariant |
| AsyncCalls.JoinKeeps | arpc/singleflight.go:105-113 | A follower joining an unfinished request, or told to fall back from a finished one, keeps the invariant |
| AsyncCalls.FinishKeeps | arpc/singleflight.go:116-126 | Finishing a shared request, which fires its followers, keeps the invariant |
| Sessions.DeliveryNeverBlocks | arpc/client.go:729-756 | In every run a response can be delivered under the lock at once, and a pooled channel is open, empty, unregistered and nobody's |
| Sessions.ResponsesAreNotMixed | arpc/client.go:657-707 | No call returns with another call's response, and one still waiting is registered for its own or has something to wake it |
| Sessions.NoResponseIsLost | arpc/client.go:695-745 | In every run each response that came is in the channel of its call, returned with by it, or handed to the session-miss handler, exactly one of them and once |
| Sessions.ResponseIsReturned | arpc/client.go:676-681 | A response that finds its call registered is in its channel, and a call that receives with it there returns with it |
| Sessions.LossWakesAll | arpc/client.go:321-325 | The loss of the connection wakes every call waiting, to return without a response if none had come |
| Writer.WritesAreInOrder | arpc/client.go:540-571 | In every run at most one goroutine sends, what waits has one to send it, the batch being sent shares no array with what is appended to, and the connection has got a prefix of the messages in the order the lock was taken, each whole and once; all of them when nobody writes |
| Writer.EnteredIsWritten | arpc/client.go:540-571 | In every run what has reached the connection is a prefix of the messages of all who entered, whole and in order, and all of them once nobody is writing |
| Writer.AppendAdds | arpc/client.go:546-550 | Appending adds the bytes to the slice, in place or in a new array, and touches no other array |
| Merkle.NextPow2 | bittorrent/hashes.go:46-52 | The least power of two that is at least n |
| Merkle.MerkleRoot | bittorrent/metainfo/merkle.go:56-78 | Hashing in place with the pads left out gives the root of the least padded tree that holds the nodes and the width |
| Merkle.LazyRootIsRoot | bittorrent/metainfo/merkle.go:56-78 | Working up with the pads left out of every layer gives the root of the padded tree |
| Merkle.LayerHasFileRoot | bittorrent/metainfo/merkle.go:50-55 | A file's root from its leaves padded with zeros is its root from its piece layer padded with PadHash |
| Merkle.LayerIsOfPieces | bittorrent/hashes.go:276-327 | Each hash of a piece layer is the root of the leaves of its piece |
| Merkle.FoldReachesAncestor | bittorrent/metainfo/merkle.go:115-137 | Folding a node with the siblings on its way up gives the node above them |
| Merkle.VerifyProof | bittorrent/metainfo/merkle.go:121-137 | A proof is accepted if and only if the run is aligned, of a power of two, and folds with the uncles to the hash wanted |
| HashExchange.Serve | bittorrent/hashes.go:218-263 | A request is answered if and only if the layer is known and the request is legal, with the hashes asked for of the padded layer and the uncles up to the layer asked for, or to the root |
| HashExchange.ParentLayer | bittorrent/hashes.go:265-274 | Each node is the hash of its two children |
| HashExchange.LegalExactly | bittorrent/hashes.go:218-240 | A request is legal exactly if it is for the layer's level, of a power of two of hashes up to 8192, aligned and within the tree |
| HashExchange.ServedProves | bittorrent/hashes.go:218-263 | For every legal index, length and proof depth the hashes served fold with the uncles served to the right ancestor, the layer's root when the proof is deep enough |
| HashExchange.ServedVerifies | bittorrent/metainfo/merkle.go:115-137 | An answer that reaches the root, split into its hashes and its uncles, satisfies the condition on which VerifyProof accepts it for the layer's root |
| HashExchange.RequestLength | bittorrent/hashes.go:109 | The length asked for is the least power of two that holds what is left of the layer and is at least two |
| HashExchange.RequestsAreLegal | bittorrent/hashes.go:98-113 | Every request for part of a layer of two or more hashes is one the server's checks accept |
| LayerFetch.Fetch.AskAll | bittorrent/hashes.go:97-117 | Exactly the parts missing and due are asked for, each of the peer picked for it by a request of least length that a peer with the layer accepts, and none once the layer is stored; exactly these are outstanding besides |
| LayerFetch.Fetch.OnHashes | bittorrent/hashes.go:139-174 | Only an answer to an outstanding request, from the peer asked and long enough, is taken, its hashes where they belong; a layer is stored only whole and with the root asked for, and otherwise every part is asked for again |
| LayerFetch.Exchange | bittorrent/hashes.go:76-174 | Asking a peer with the same server code for any layer of two or more hashes, its parts in any order, stores exactly that layer if and only if it has at most 2^32 hashes, as many as an index of 32 bits can name; the parts of a longer one never all come |
| Blocks.BlocksTile | bittorrent/picker.go:77-81 | A piece's block requests begin at 0, follow one another without a gap, end at its data length, have 1 to 16384 bytes each and name their blocks |
| Blocks.ByteIsInOneBlock | bittorrent/picker.go:69-81 | Each byte of a piece is in exactly one of its block requests |
| Downloads.Torrent.ReleaseRequest | bittorrent/picker.go:207-216 | The block counts one request less, if its piece is under way and counts any; no other count, no progress and no other piece changes |
| Downloads.ReleaseUndoesAsk | bittorrent/picker.go:131-216 | Releasing the request of a block just counted as asked for leaves every piece under way as it was before |
| Downloads.Torrent.Drop | bittorrent/peerconn.go:573-576 | The request leaves the peer, its block counts one less, nothing else changes, and every count stays within its holders |
| Downloads.Torrent.DropAll | bittorrent/peerconn.go:379-386 | A peer that choked, was snubbed or is closing holds nothing more, each block of a piece under way counts one less exactly for what it held, and nothing else changes |
| Downloads.Torrent.Disconnect | bittorrent/peerconn.go:305-311 | A peer that goes leaves no count behind, and takes no other with it |
| Downloads.Torrent.PickPiece | bittorrent/picker.go:172-203 | A candidate is found if and only if there is one; it has the highest priority, the lowest index among equals that are urgent or in sequential mode, and else the fewest peers once the first pieces are had |
| Downloads.Torrent.BestUnderWay | bittorrent/picker.go:103-117 | The piece under way chosen has a block nobody was asked for and the highest priority of those that have |
| Downloads.Torrent.NextRequest | bittorrent/picker.go:96-166 | The piece tried first is one no candidate goes before, begun if it was not under way, and then as PickPiece picks. A block is asked for if and only if that piece is begun for it with one this peer has not outstanding, or one can be shared with the peer; it alone then counts one request more. It is one nobody was asked for if the piece tried has such, and else the endgame's, of a piece no other shareable one goes before; nothing else changes |
| Downloads.AsksUnlessStuck | bittorrent/picker.go:118-166 | A peer is asked for nothing exactly if nothing can be shared with it, and nothing is free or the piece tried is stuck: each of its blocks that nobody is counted as asked for is one the peer already has outstanding |
| Downloads.NothingLeftToAsk | bittorrent/picker.go:96-166 | Where a peer could be asked for nothing, every block of every wanted piece it has has come, is asked of two, is outstanding with it, or belongs to a piece waiting for its hash |
| Downloads.SharedOnlyLast | bittorrent/picker.go:131-166 | A block already asked of another is shared only where the piece chosen has none left that nobody was asked for |
| Downloads.MissesExactly | bittorrent/picker.go:118-166 | A peer that could be asked for something is asked for nothing exactly if nothing can be shared with it, the piece tried is stuck, and another that could be begun has a block for it |
| Downloads.MissesOnlyOnStale | bittorrent/picker.go:118-166 | Then the peer has a request of the piece tried outstanding that no piece under way counts, for a block that has not come |
| PickerMiss.AskedForNothing | bittorrent/picker.go:96-166 | There is a run of the torrent's own operations after which a peer is asked for nothing, the piece chosen for it being stuck, although another could be begun for it |
| Downloads.Torrent.Fill | bittorrent/peerconn.go:541-555 | A request goes out if and only if it can be sent and there is one to ask for; it is then exactly one more, a new one, with this peer and in its block's count. Otherwise nobody holds anything new and every count is as it was, a block whose request cannot be sent being given back |
| Downloads.Torrent.Receive | bittorrent/peerconn.go:560-613 | A block is taken if and only if it is one of a piece under way, exactly as requested, not done, while no check runs; then that block alone is done, being written and counted once; the sender, and in endgame everybody, no longer has it outstanding, and no other request goes |
| Downloads.Torrent.Written | bittorrent/peerconn.go:616-637 | The block is no longer being written; it is done exactly if its write did not fail, the count following, and every other block is as it was; a check starts if and only if every block has come and been written, none runs, no hash is waited for and the piece is still the one under way |
| Downloads.Torrent.Verified | bittorrent/data.go:72-115 | A good piece is had, a bad one is dropped to be begun again, one without a hash waits, and a verdict on a piece begun again only ends its check; blocks, writes and requests are as they were |
| Downloads.Torrent.Kick | bittorrent/hashes.go:188-199 | A piece that waited for its hash is checked if and only if it is complete, written and not being checked |
| Downloads.Torrent.MarkHave | bittorrent/data.go:118-139 | The piece is had and no longer under way, and every count follows |
| Downloads.Torrent.UpdateDone | bittorrent/torrent.go:376-423 | Unless a check is under way, Done is closed exactly when nothing wanted is missing |
| Downloads.Torrent.RecomputePriorities | bittorrent/torrent.go:343-372 | Each piece's priority is the highest of its files' and its Reader's, and the missing are counted anew |
| Downloads.Torrent.EndCheck | bittorrent/data.go:250-256 | The check over, Done is closed exactly when no piece is wanted |
| Downloads.Torrent.CheckedWaiting | bittorrent/data.go:237-246 | A piece found without a hash to check it by waits with all its blocks there, asked of nobody |
| Downloads.Torrent.StartFetch | bittorrent/webseed.go:49-60 | A web seed's piece is begun with no block done and one count a block, its own |
| Downloads.Torrent.EndFetch | bittorrent/webseed.go:101-120 | A web seed's counts go with it; a check starts if and only if its fetch succeeded, the piece is still the one under way, none runs and no peer's block is being written, and then every block is done |
| DownloadRuns.Run | bittorrent/peerconn.go:541-638 | Every run of requests, blocks, rejects, chokes, snubs, cancels, disconnects, failed and web-seed pieces keeps all of the above |
| DownloadRuns.NoBlockIsHeldBack | bittorrent/picker.go:96-222 | In every such state a block is counted as asked for at most twice, and at most as often as peers, or a web seed, have it outstanding |
| DownloadRuns.ChecksAreExclusive | bittorrent/peerconn.go:560-638 | In every such state a piece's count of done blocks is right, and while a check runs it is the only one, every block is done and none is being written |
| DownloadRuns.DoneMeansHad | bittorrent/torrent.go:343-423 | In every such state the counts of pieces had and missing are right, and with no check under way Done is closed exactly when every wanted piece is had |
| BufferPool.AlignIsLeast | bufferpool/bufferpool.go:234-245 | The capacity given is the least power of two that fits and is at least 64 |
| BufferPool.ClassesAgree | bufferpool/bufferpool.go:249-264 | A request's class has exactly the capacity Align gives, and a buffer of that capacity goes back to that class |
| BufferPool.ClassDownFits | bufferpool/bufferpool.go:261-264 | A buffer is filed in the largest class it can serve |
| BufferPool.Pool.ReserveMore | bufferpool/bufferpool.go:190-196 | A target rises by one and its size is committed if and only if that fits in the budget, and nothing changes otherwise |
| BufferPool.Pool.Trim | bufferpool/bufferpool.go:206-229 | Whatever was committed, it ends within the budget, with no target raised and no reserve above its target |
| BufferPool.Pool.SetRetainedBytes | bufferpool/bufferpool.go:174-182 | What is committed is within the new budget; nothing changes that was within it, and a budget of nothing keeps nothing |
| BufferPool.Pool.Get | bufferpool/bufferpool.go:268-305 | The buffer has exactly the capacity Align gives; it comes from the traffic, else the reserve of its class, else is new and raises that class's target if the budget has room; sizes outside the classes change nothing |
| BufferPool.Pool.Put | bufferpool/bufferpool.go:311-373 | A buffer goes to the reserve of the class its capacity rounds down to exactly while the class's burst lasts and its target is not met, else to its traffic; it is dropped if it fits none, and a burst is spent by one either way |
| BufferPool.Pool.BeginRefill | bufferpool/bufferpool.go:341-350 | A burst begins once a collection, and a target its last burst did not fill comes down to what is held |
| BufferPool.Pool.Append | bufferpool/bufferpool.go:381-407 | The result holds the buffer's bytes followed by the data |
| BufferPool.Pool.Join | bufferpool/bufferpool.go:413-425 | The result holds the buffer's bytes followed by the parts in order, with one growth at most |
| BufferPool.Run | bufferpool/bufferpool.go:174-425 | After any sequence of gets, puts, collections, budgets and appends the reserves are within their targets and what is committed is exact and within the budget |
| PoolBudget.SetHoldsIfAccounted | bufferpool/bufferpool.go:174-229 | With any number of gets, puts and bursts under way, a new budget holds, in that no rest to come has more committed whatever happens but another setting of it or a burst that loads what is held later and puts its target up with that, if and only if what is committed and uncounted, less what will be refused and what the targets stand for, fits in it, no burst has loaded anything to aim at yet, and none has raised a target and not counted it |
| PoolCounts.OnlyRacesLose | bufferpool/bufferpool.go:190-229 | No step of a get, put, burst or trim changes what is committed beyond the targets and what is under way, but a trim's store over a target that has moved since it loaded it, and that changes it by exactly the move, up or down |
| PoolCounts.RestIsAccounted | bufferpool/bufferpool.go:174-229 | In every run what is committed at a rest is what the targets stand for and the sum of what trims have so written over |
| PoolMisses.SetCanComeTooLate | bufferpool/bufferpool.go:190-229 | There is a run in which a raise that passed its check before the budget was taken away leaves a rest over it |
| PoolMisses.AimCanComeTooLate | bufferpool/bufferpool.go:200-229 | There is a run in which a budget of nothing is set with every raise accounted for and the trim, alone, brings what is committed within it, and a burst that had loaded what was held then puts its target up and leaves a rest over it |
| PoolMisses.BudgetCanBeExceeded | bufferpool/bufferpool.go:341-350 | There is a run without any setting of the budget in which two bursts of a class leave a rest over it |
| PoolMisses.KeepCanComeTooLate | bufferpool/bufferpool.go:356-373 | There is a run in which a return let in before a budget of nothing was set is kept after the trim, alone, has ended, in a reserve whose target is nothing |
| PoolReserves.ReservesHoldIfUsedUp | bufferpool/bufferpool.go:206-229 | From a rest with every reserve within its target, every rest after any new budget has them so, with no burst beginning and the budget not set again, if and only if no class has returns left to keep |
| PoolReserves.ReservesMove | bufferpool/bufferpool.go:286-373 | A reserve gains one exactly where a keep let in appends, loses one where a Get takes, and is cut where a trim stores; an allowance is set to the target a burst loaded and spent by returns |
| PoolReserves.ReservesFit | bufferpool/bufferpool.go:169-182 | What the reserves hold at such a rest then fits in the budget if what is committed beyond the targets did, and a budget of nothing has emptied them |
| Deadline.DeadlineIsWatched | core/connection.go:2702-2764 | In every run a deadline ahead on an open connection has a timer armed for no later than it or a callback waiting for the lock; one that has passed has that, a callback closing for it, or was let pass with no output left |
| Deadline.SetSets | core/connection.go:2702-2735 | Setting the deadline of an open connection sets it, and its timer unless one is set for sooner; on a closed one it does nothing |
| Deadline.ExpiryActs | core/connection.go:2742-2770 | A callback past the deadline goes on to close exactly if there is something for the deadline to be about, lets it pass if not, and before it sets the timer for the rest |
| Deadline.PassedIsActedOn | core/connection.go:2742-2770 | In every run of a read deadline none is let pass: one passed has a timer due, a callback waiting or one closing |
| Deadline.NothingToBeAbout | core/connection.go:2759-2763 | In every run in which no output is ever left the write deadline does not close the connection |
| Deadline.SetHoldsUnlessDecided | core/connection.go:2737-2764 | Setting a later deadline, or none, keeps every timer on its way from closing the connection too soon if and only if no callback has decided to close yet |
| Deadline.MoreTimeCanComeTooLate | core/connection.go:2737-2764 | There is a run in which a connection is closed by a deadline while a later one is set |
| Attachment.ReadIsWhole | core/connection.go:379-409 | In every run a read during which fewer than 2^15 SetAttachments complete returns the type and data word the last one before it stored, and none completes during it |
| Attachment.ReadCanTear | core/connection.go:379-409 | There is a run in which exactly 2^15 complete and the read returns words of two of them |
| Attachment.SwitchedAt | core/connection.go:258-276 | Bit by bit, flags to be set are, flags only to be cleared are, and every other bit is as it was |
| Attachment.FlagsLeaveTheCount | core/connection.go:253-276 | Clearing, setting and replacing flags, bit by bit, leaves the sequence count in the same word as it was |
| Attachment.CountLeavesTheFlags | core/connection.go:249-265 | Stepping the sequence count leaves the flags in the same word as they were, and the count wraps around after 2^16 steps |
| Attachment.OthersLeaveTheFlags | core/connection.go:249-409 | No step of a read or of SetAttachment changes a flag |
| DescriptorTable.Table.ConnectionAt | core/engine_unix.go:634-644 | The table gives the connection that owns the descriptor, or nothing |
| DescriptorTable.Table.ConnectionFor | core/engine_unix.go:649-655 | A token resolves if and only if a connection holds its descriptor under exactly that token, and then to it |
| DescriptorTable.Table.Track | core/engine_unix.go:659-673 | The descriptor is the connection's from now on, and no other descriptor's owner changes |
| DescriptorTable.Table.Detach | core/engine_unix.go:873-901 | The slot is given up if and only if the connection still has it, and no other owner changes |
| DescriptorTable.TokensAreDistinct | core/engine_unix.go:484-490 | The tokens of the first 2^32 - 4 registrations differ from each other and from every listener's, wake-up's and UDP socket's |

## Left out

- The system calls themselves, Windows, kqueue and the portable backend, bindings, dialing, UDP and socket options.
- Splices: no item of the queue is one, and no connection's reads are taken over by one.
- Layers such as TLS, and cork holders: a connection has none; a file's sealer is any function from bytes to bytes that
  seals a chunk with bytes in it into some.
- The server-wide budget as a cause of pauses: `RoundState` keeps `MaxPendingBytes` at zero, and nothing is claimed
  about reads parked for the budget resuming. `SendBudget` proves the total the budget is compared with.
- The mirror of the corked bytes on a closed connection, which its close does not clear.
- Writers waiting for output to drain, output notices and lingering closes, beyond the choice they leave a step.
- The arrays behind the items of the send queue: items are values, so sharing a caller's array is not modelled.
- Liveness under a fair scheduler: the theorems say that what is owed is with someone, not when they act.
- arpc input after a header over the limit, coders, codecs, streams and reconnecting.
- RunsAreBounded: handlers that panic are not modelled, so a leader's followers are always let go.
- Sequence numbers of arpc calls that wrap around 64 bits.
- A hashes message as bytes: its data is a sequence of hashes, so a last part of a hash is not modelled.
- The pieces' availability counts, choking, interest, rate limits, bans, storage, discovery and peer exchange.
- Exact equality of a block's count of requests with its holders: a late block of a snubbed peer leaves another peer's
  request outstanding, so only the upper bound holds.
- ChecksAreExclusive: says nothing of a web seed's own write, which can still be going on while a piece that peers have
  completed meanwhile is checked.
- The torrent's state name, its times and its events.
- BufferPool.Run: takes the pool's operations one after another; `PoolSteps` has their atomic steps.
- SetHoldsIfAccounted: one `SetRetainedBytes` runs at a time; two at once are not among the steps of `PoolSteps`.
- ReservesHoldIfUsedUp: starts at a rest, and no burst begins after it.
- Buffers of the pool are counted and their bytes are values; who holds which array is not modelled.
