# Message delivery in syslog-ng: a model and its proofs

This project models what happens in syslog-ng between a source creating a message and
that message being acknowledged back to the source, and proves that the parts fit
together: reference and ack counting with per-thread caches, the ack tracker and the
source's window, the destination queue with its consumer and its rate limit, the compiler
from log statements to a graph of pipes, the multiplexer that runs the graph, the
structured data of a message, and two wakeup protocols. Two algorithms stand apart:
initialization of filter rules that call each other, and the path trie.

`dafny verify dfyconfig.toml` checks everything.

## How it is organised

| files | subject |
|---|---|
| `RefWord`, `RefCache`, `CloneTree` | the packed REF/ACK word, threads that cache their changes, trees of clones |
| `RingBuffer`, `AckTracker`, `LateAckTracker` | the ring of ack records, the tracker as a machine, the tracker as code |
| `Fifo`, `LogQueueFifo` | the queue as one line with a cursor, the queue as code |
| `ThreadedDest`, `Throttle` | the retrying consumer, the token bucket |
| `LogTree`, `PipeGraph`, `LogCenter` | log statements and what they mean, graphs of pipes, the compiler |
| `Ledger`, `LogPath`, `PathCounts`, `RoutingActs` | a message on its way through the pipes, its counters, and consumers at work meanwhile |
| `Sharing`, `PathIsolation`, `PathWeight`, `PathChoice`, `Pipeline` | which branches may share a message: the check on the pipes, that it is enough, that it is needed, for pipes with one answer and with two, and statements |
| `Multiplexer`, `Delivery` | the loops that do it, and the whole way from statements to queues |
| `MainLoopCall`, `InternalSource` | calls into the main loop, the internal() source |
| `FilterInit`, `HashTree`, `Sdata`, `SdataText` | filter rules, the path trie, structured data and its printed form |

Protocols between threads are machines: a state, the enabled steps, the next state, and
lemmas over every run. Code that changes things in place is a class whose methods are
proved against those machines or against functions on values.

## Side conditions, and where the code is weaker than one would hope

- A producer session adds fewer than BIAS references and acks, which the assertions of
  refcache_stop() do not ensure (`RefCache.BiasRunsOut`), and it asks for an
  acknowledgement before it stops. A consumer session gives away no reference it only
  cached (`RefCache.CachedReferenceGivenAway`).
- A session on the original of a clone must take acks while the clone's callback runs
  (`CloneTree.DueCanRun`).
- A SUSPENDED ack that releases several records gives back one slot of the window.
  `AckTracker.EverythingComesBack` says exactly when the window is whole again, and
  `AckTracker.SuspendedAckLosesASlot` is the example.
- rewind_backlog_all() puts the backlog behind the output list. `Fifo.OrderKept` says
  exactly when the order survives, `Fifo.RewindAllReorders` is the example.
- The length field of an input list has 16 bits. `LogQueueFifo.FifoQueue.MoveInput` says
  exactly when the lengths stay right.
- The token bucket computes in 32 and 64 bits; two's complement wrapping is assumed where
  C leaves the overflow of a signed sum undefined (lib/logqueue.c:151).
  `Throttle.Fits` is the condition on one check, `Throttle.RangeKept` and
  `Throttle.RateBoundedIff` say that the bucket stays in range and the rate is kept exactly
  when every check meets it, and `Throttle.ShortestFatalPause` gives the shortest pause
  after which one does not.
- The compiler computes PIF_CLONE of a statement from the statement's own pipes.
  `Sharing.HopsFine` is a check on the compiled pipes of the statements a source feeds,
  relative to the answers (accept, reject or both) each pipe may give. It is enough for
  correct delivery, whatever the pipes store (`Pipeline.SourceDelivers`). It is also needed
  (`Pipeline.DeliversIff`) if pipes that store carry PIF_CLONE and no pipe that may give
  either answer stands twice among the compiled pipes.
  `Pipeline.EmbeddedRewriteLeaks` and `Pipeline.RewriteAfterDestination` are configurations
  that fail it; `Pipeline.CallerAlone` and `Pipeline.FallbackApart` pass it although they
  are not sound.
- The pipe of a filter that stores matches only through a filter() call lacks PIF_CLONE.
  `FilterInit.FlagIff` says exactly for which rules the flag is right; `LogTree.Honest` is
  the hypothesis that it is right for all rules, and `FilterInit.CalledFilterStores` and
  `Pipeline.CalledFilterLeaks` are the example where it is not.
- A structured data block is recognised by a string prefix. `Sdata.ContiguousIff` says
  exactly when an insertion keeps the blocks together; `Sdata.PrefixSplitsBlock` and
  `Sdata.StandaloneNotFound` are examples where it does not.
- Different structured data ids can be printed alike. `SdataText.CollideIff` says exactly
  when, `SdataText.PrintedTwice` is the example.
- A node whose only key is the empty string has an empty name. `HashTree.FindFqdn` says
  exactly when a node can be found by its name.

## Model

| member | source | states |
|---|---|---|
| RefWord.PackedRoundTrip | lib/logmsg.c:141-159 | what is packed into the word is read back, field by field |
| RefWord.EveryWordIsPacked | lib/logmsg.c:141-159 | every 32-bit word is the packing of its own fields |
| RefWord.FieldsAreIndependent | lib/logmsg.c:1260-1276 | an update changes each counter modulo 2^15 and or-s each flag; nothing leaks between fields |
| RefWord.Cell.Update | lib/logmsg.c:1260-1276 | whatever other threads write between load and exchange, the update is applied once, to the value returned |
| RefCache.RefKeeps | lib/logmsg.c:1291-1309 | ref, cached or not, keeps the invariant: word plus caches are what the owners hold, freed exactly when nobody holds the message, called back exactly when nobody owes an ack |
| RefCache.UnrefKeeps | lib/logmsg.c:1317-1338 | unref keeps it: the message is freed at most once, by the drop after which nobody holds it, whatever is cached elsewhere |
| RefCache.AddAckKeeps | lib/logmsg.c:1347-1362 | add_ack keeps it: the first may come from anyone with a reference, a later one from an owner that owes an ack itself |
| RefCache.AckKeeps | lib/logmsg.c:1373-1402 | an ack keeps it: the last one, and only it, leads to the callback, which is told PROCESSED exactly when no ack was ABORTED or SUSPENDED, and one of these only when some ack was just that |
| RefCache.LastAckSpeaks | lib/logmsg.c:1390-1400 | of an uncached ack that drops the counter the type goes first; if it was PROCESSED, a SUSPENDED ack made before, on whatever path, goes before an ABORTED one |
| RefCache.StartProducerKeeps | lib/logmsg.c:1439-1459 | starting a producer session keeps it: the bias added to the word is made up for in the cache |
| RefCache.StartConsumerKeeps | lib/logmsg.c:1473-1484 | starting a consumer session keeps it, for any number of consumers of one message |
| RefCache.StopAcksKeeps | lib/logmsg.c:1492-1574 | folding cached acks and flags into the word keeps it, with the callback due exactly when nobody owes an ack any more and told what the acks were |
| RefCache.LastStopSpeaks | lib/logmsg.c:1558-1574 | when a session folds the last acks, a SUSPENDED one of its own goes first, then an ABORTED one of its own, then a SUSPENDED and then an ABORTED one made elsewhere |
| RefCache.CallHandsOver | lib/late_ack_tracker.c:152-153 | the callback leaves the source's reference to the thread that calls, which may drop it, and changes nothing else anybody holds |
| RefCache.StopRefsKeeps | lib/logmsg.c:1576-1591 | folding the cached references keeps it, with the message freed exactly when nobody holds it any more |
| RefCache.ProducerMayGive | lib/logmsg.c:97-106 | inside its session a producer may hand over every reference and ack it holds |
| RefCache.UncachedFindsCounter | lib/logmsg.c:1305-1332 | an uncached ref or unref finds a positive counter and a living message |
| RefCache.CachedReferenceGivenAway | lib/logmsg.c:1473-1484 | a consumer that gives away a cached reference has its message freed under it |
| RefCache.BiasRunsOut | lib/logmsg.c:1504-1522 | after k <= BIAS additions a message is freed inside its producer's session if and only if k is BIAS, and the assertions of refcache_stop() hold either way |
| CloneTree.ClonedKeeps | lib/logmsg.c:1121-1154 | cloning takes a reference of the original and passes an ack on to the clone, keeping the original's balance |
| CloneTree.CallKeepsWorld | lib/logmsg.c:1106-1114 | a callback that runs, which for a clone acks its original with the clone's type, keeps the invariant of the whole tree of clones |
| CloneTree.DueCanRun | lib/logmsg.c:1106-1114 | a callback that is due can run at once, except that of a clone while the thread is in a session on the original that takes no acks |
| CloneTree.TypeOfTheTree | lib/logmsg.c:1240-1251 | a message's callback is told PROCESSED exactly when no ack in its whole clone tree was ABORTED or SUSPENDED; where all the others were of one of these kinds it is told that kind, and never one that nobody gave |
| CloneTree.EveryInterleaving | lib/logmsg.c:1260-1591 | in every interleaving word plus caches are what is held; freed once, exactly when nobody holds it; called back once, exactly when nobody owes an ack, and told something its clone tree was acked with |
| RingBuffer.Ring.Push | lib/ringbuffer.c:79-93 | appends the slot handed out before, or says that the ring is full |
| RingBuffer.Ring.Drop | lib/ringbuffer.c:128-140 | drops the n oldest, refuses more than there are; the freed slots come last |
| RingBuffer.Ring.ElementAt | lib/ringbuffer.c:154-163 | the slot of the i-th element, none beyond the last |
| RingBuffer.Ring.ContinualRangeLength | lib/ringbuffer.c:165-183 | the length of the longest prefix that satisfies the predicate |
| AckTracker.NextKeeps | lib/late_ack_tracker.c:97-177 | every step keeps the credit, the records in order, and a releaser under way while a record can be released |
| AckTracker.EveryRun | lib/late_ack_tracker.c:78-177 | bookmarks are saved in increasing order and never past an unacked record; window plus ring never exceed the initial window, and make it up if and only if no SUSPENDED ack has released two or more records; a free source finds a slot and a positive window |
| AckTracker.EverythingComesBack | lib/late_ack_tracker.c:120-154 | when all is acked the ring is empty and the window open; it is back to its initial size if and only if no SUSPENDED ack released two or more records, else short by the sum of the others those acks released |
| AckTracker.SavedAndSuspended | lib/late_ack_tracker.c:131-148 | over every run the source is suspended exactly when the last ack that released records was SUSPENDED, and the bookmarks saved are those of the releases that were not ABORTED |
| AckTracker.SuspendedAckLosesASlot | lib/late_ack_tracker.c:144-147 | a run of ten steps in which two records are released, one slot is given back, and the window stays short when everything is acked |
| LateAckTracker.Tracker.RequestBookmark | lib/late_ack_tracker.c:156-177 | the free slot, none if the ring is full, which a source within its window never meets |
| LateAckTracker.Tracker.TrackMsg | lib/late_ack_tracker.c:97-118 | the requested record joins the ring unacked, since released records were cleared |
| LateAckTracker.Tracker.MarkAcked | lib/late_ack_tracker.c:120-129 | sets the flag of that record and of no other |
| LateAckTracker.Tracker.ReleaseRange | lib/late_ack_tracker.c:131-150 | releases the acked prefix, saves its last bookmark unless ABORTED, gives the slots back and suspends the source if SUSPENDED |
| LateAckTracker.Tracker.ManageMsgAck | lib/late_ack_tracker.c:120-154 | does what setting the flag and then the locked release do in the machine |
| LateAckTracker.Tracker.DropRange | lib/late_ack_tracker.c:78-95 | the n oldest records leave and their slots are clean for the next use |
| LateAckTracker.Tracker.TakeSlot | lib/logsource.c:322-335 | the window goes down by one and was positive |
| LateAckTracker.Tracker.FlowControlAdjust | lib/logsource.c:50-59 | the window grows and the source is no longer suspended |
| LateAckTracker.Tracker.FlowControlSuspend | lib/logsource.c:146-154 | the window grows by one and the source is suspended |
| Fifo.PlacesKept | lib/logqueue-fifo.c:160-523 | pushing, moving a batch, popping, acking, both rewinds and freeing keep the number of places a message is in; only a push adds one |
| Fifo.OrderKept | lib/logqueue-fifo.c:160-523 | they keep each thread's messages in the order it pushed them, rewind_backlog_all if and only if no thread has messages both in the backlog and in the output list |
| Fifo.EveryRun | lib/logqueue-fifo.c:160-523 | in every run each message pushed is in exactly one list or has met exactly one fate, and no other message is anywhere |
| Fifo.EveryRunOrdered | lib/logqueue-fifo.c:160-523 | in every run each thread's messages stay in order until the first rewind_backlog_all that meets a thread with messages both sent and ready, which breaks the order |
| Fifo.RewindAllKeepsOrder | lib/logqueue-fifo.c:452-461 | rewind_backlog_all keeps the order if and only if no thread has messages both sent and ready |
| Fifo.RewindAllReorders | lib/logqueue-fifo.c:452-461 | a run of five operations in which it does not: the message sent first is sent again after the younger one |
| Fifo.MoveDropsFewest | lib/logqueue-fifo.c:160-217 | a batch move drops the oldest, and only as many as it must |
| Fifo.PushRefusedIffFull | lib/logqueue-fifo.c:254-331 | a push past the input lists is refused exactly when the line is full; one into an input list never is |
| Fifo.EveryFate | lib/logqueue-fifo.c:160-523 | in every run dropped messages were acked SUSPENDED if flow control was requested and PROCESSED if not, confirmed ones PROCESSED, freed ones ABORTED, each by the operation that may do so |
| Fifo.ConfirmedInOrder | lib/logqueue-fifo.c:418-440 | a consumer that works with the backlog confirms each thread's messages in the order it pushed them, before any still queued |
| Fifo.TakenBack | lib/logqueue-fifo.c:464-491 | rewinding as many messages as were popped restores the line, and acking them takes just those off its front |
| LogQueueFifo.FifoQueue.PushTail | lib/logqueue-fifo.c:253-333 | onto the thread's input list, else into the wait list, else dropped |
| LogQueueFifo.FifoQueue.MoveInput | lib/logqueue-fifo.c:160-217 | moves the batch and drops its overflow; the lengths stay right if and only if the batch has fewer than 65536 messages |
| LogQueueFifo.FifoQueue.PopHead | lib/logqueue-fifo.c:358-413 | hands out the first message not yet sent, and counts it |
| LogQueueFifo.FifoQueue.AckBacklog | lib/logqueue-fifo.c:418-439 | acks the oldest sent messages, at most as many as there are |
| LogQueueFifo.FifoQueue.RewindBacklog | lib/logqueue-fifo.c:464-488 | puts the youngest sent messages back in front, in order |
| LogQueueFifo.FifoQueue.RewindBacklogAll | lib/logqueue-fifo.c:452-461 | puts the backlog behind the output list |
| LogQueueFifo.FifoQueue.Free | lib/logqueue-fifo.c:490-523 | all lists end empty, and every message still queued is given up, once, in the order of the lists |
| ThreadedDest.InQueueOrder | lib/logthrdestdrv.c:142-207 | over every sequence of answers and arrivals, what is finished and then what is queued is all that came, in the queue's order |
| ThreadedDest.VerdictIff | lib/logthrdestdrv.c:158-195 | in every run a message was accepted if and only if the worker answered SUCCESS for it, and dropped if and only if it answered DROP, or ERROR for the max-th time |
| ThreadedDest.NoTryAfter | lib/logthrdestdrv.c:445-463 | a message that is finished is never handed to the worker again |
| ThreadedDest.AfterAnswer | lib/logthrdestdrv.c:158-195 | the message stays at the head exactly when no answer has finished it; the driver pauses exactly after DROP, NOT_CONNECTED and an ERROR that is to be tried again |
| ThreadedDest.TurnsAreRun | lib/logthrdestdrv.c:142-207 | the turns that `Driver.DoInsert` makes are such a run |
| ThreadedDest.RetriesBounded | lib/logthrdestdrv.c:169-185 | the counter counts the ERROR answers of the head, and with a limit of at least one no message gets more than the limit |
| ThreadedDest.Driver.DoInsert | lib/logthrdestdrv.c:142-207 | goes through turns of the machine until suspended, out of messages or out of tokens; takes one token for each turn; the backlog is empty between turns |
| ThreadedDest.Driver.Turn | lib/logthrdestdrv.c:150-199 | one message popped, if there is one and the rate limit allows it, and settled by the worker's answer |
| ThreadedDest.Driver.Accept | lib/logthrdestdrv.c:447-463 | finishes the head of the queue and resets the counter |
| Throttle.Limiter.CheckItems | lib/logqueue.c:91-168 | refills the bucket, registers for a push on an empty queue, tells the consumer to go, wait or come back |
| Throttle.Limiter.PopHead | lib/logqueue.h:109-123 | no token, no message; a message costs one token |
| Throttle.RangeKept | lib/logqueue.c:121-153 | after any check, whatever the pause or the clock, the bucket is between 0 and the limit if the credit of the check is a multiple of 2^32 or leaves bit 31 of the sum clear, and negative otherwise |
| Throttle.PauseBounded | lib/logqueue.c:121-153 | the check adds what has accrued, up to the limit, as long as the sum is below 2^31; from there up to 2^32 the bucket turns negative |
| Throttle.ShortestFatalPause | lib/logqueue.c:121-153 | for every rate: an empty bucket is in range after every shorter pause and negative after this one |
| Throttle.LongPauseOverflows | lib/logqueue.c:141-152 | at 10000 a second that is a pause of 59 hours and 39 minutes |
| Throttle.RateBounded | lib/logqueue.c:121-165 | while every check so far meets that condition, pops are at most a full bucket plus the rate times the time since the first check |
| Throttle.RateBoundedIff | lib/logqueue.c:121-165 | in every run the rate is kept at every point, however many messages are taken there, if and only if every check meets that condition |
| Throttle.RateReached | lib/logqueue.c:121-153 | and while no check finds the bucket full, pops and tokens together are at least a full bucket plus the rate times the time, less one token for each refill and one more |
| Throttle.TimeoutSuffices | lib/logqueue.c:154-165 | with an empty bucket the next check yields a token if and only if its credit is positive as a 32-bit number, which it is after the returned timeout and before the shortest fatal pause |
| Throttle.TimeoutTight | lib/logqueue.c:154-165 | and a wait shorter than the timeout by more than a millisecond yields none |
| LogTree.HardIsAnyFlow | lib/center.c:458-466 | the first pipe asks for flow control exactly when the parent or any statement below does |
| LogTree.CompiledIsDirect | lib/center.c:334-543 | following the compiled pipes gives exactly the deliveries of a direct reading of the statement |
| LogTree.CompilesIff | lib/center.c:334-504 | a statement is refused exactly when it or an embedded one names something that does not exist, names a source or is a catch-all where it must not, or has no pipe |
| LogTree.HopsAreForkEvents | lib/logmpx.c:58-136 | two passes visit exactly the branches a reader expects: fallback only without a match, nothing after a matching final |
| LogTree.SourceReading | lib/center.c:334-543 | the pipes behind a source deliver what its top-level statements say, in order, with contents and flow control, whatever each pipe stores and rejects |
| LogTree.SourceFlow | lib/center.c:515-516 | every delivery comes from a top-level statement that is visited, with flow control requested exactly when a statement anywhere in its tree asks for it |
| PipeGraph.ChainDone | lib/logpipe.h:307-311 | pipes linked by pipe_next are the tree of pipes their stages stand for |
| LogCenter.Center.Instantiate | lib/center.c:244-302 | a rule's own pipes the first time, linked copies afterwards; no pipe in use changes |
| LogCenter.Center.AddItem | lib/center.c:360-457 | one endpoint adds its pipes to the chain, or is refused exactly when it does not resolve |
| LogCenter.Center.AddForks | lib/center.c:448-468 | embedded statements become the hops of one multiplexer |
| LogCenter.Center.Finish | lib/center.c:506-516 | the branch flags go on the first pipe and onto no other |
| LogCenter.Center.FinalPipe | lib/center.c:491-496 | following pipe_next ends at the last pipe of the chain |
| LogCenter.Center.FeedAll | lib/center.c:209-228 | a catch-all statement is fed once by every source |
| LogCenter.Center.FeedMentioned | lib/center.c:518-530 | another one by its sources, once for each mention |
| LogCenter.FeedingIsRight | lib/center.c:518-535 | the statements a source feeds are, in the order of the configuration, every catch-all once and every other one once for each item that names the source |
| LogCenter.FeedingHas | lib/center.c:518-535 | so a statement is fed exactly if it is a catch-all or names the source |
| LogCenter.Center.InitPipeLine | lib/center.c:334-543 | builds exactly the pipes `LogTree.Compile` stands for, or returns NULL exactly when there are none |
| LogCenter.Center.Init | lib/center.c:574-592 | succeeds exactly when all statements compile; each source's multiplexer then holds the pipelines of the statements it is to feed, as often and in the order it is to feed them |
| Ledger.TakeBalanced | lib/logmsg.c:1205-1223 | giving up one unit, and passing on those of ended clones, keeps every counter made up of claims and living clones |
| Ledger.RootIffClaims | lib/logmsg.c:1106-1114 | the original ends once, exactly when there is no claim on it or on any clone |
| PathCounts.PathFair | lib/logmpx.c:58-136 | queueing into any tree of pipes uses up exactly the reference and ack that came with the message |
| PathCounts.DriversFair | lib/dgroup.c:88-101 | so does every driver of a destination group |
| PathCounts.DriverFair | lib/logthrdestdrv.c:410-430 | a queueing driver, flow-controlled or breaking the ack chain, leaves one reference and the ack owed with its node |
| PathCounts.DriverOwes | lib/logthrdestdrv.c:418-422 | and the node owes the ack exactly when flow control was requested |
| PathCounts.PathOwes | lib/logmpx.c:58-136 | the same for all nodes left by any tree of pipes |
| PathCounts.AckedAfterTheLastLeaf | lib/logmpx.c:58-136 | after the routing, in whatever order consumers finish, the source is acked once, after the last node queued with flow control, and the message freed once, after the last node |
| PathCounts.AckedInEveryInterleaving | lib/logmpx.c:58-136 | in every interleaving of routing operations and consumers the source is acked once, exactly when neither the routing thread nor a node owes an ack, and the message freed once, exactly when neither holds a reference |
| RoutingActs.PathDoes | lib/logmpx.c:58-136 | routing through any tree of pipes is a sequence of such operations, all possible one after the other, that uses up what the thread held |
| RoutingActs.RoutedInEveryInterleaving | lib/logmpx.c:58-136 | with consumers finishing nodes at any time in between, the thread is never stopped, decides as if it were alone and ends up holding nothing: the source is then acked exactly when no node queued with flow control is left, and the message freed exactly when no node is left |
| PathIsolation.StoreAllGood | lib/logmsg.c:450-496 | stores into a message nobody refers to are seen by nobody else and show in full |
| PathIsolation.CloneGood | lib/logmsg.c:1121-1154 | a clone shows its original's contents and disturbs no one |
| PathIsolation.EnqueueGood | lib/logmsg.c:385-393 | a queued message is marked as referenced and remembered as it is |
| PathIsolation.HopIsolated | lib/logmpx.c:92-123 | a hop sees the contents the message has on entry, and leaves the message in one of the ways of `Sharing.HopExits`: matched or not, referenced or not, changed or not |
| PathIsolation.PathIsolated | lib/logmpx.c:58-136 | in a tree of pipes that passes the check every destination gets and keeps the contents a reading of the pipes gives; of other messages only the caller's may change, and it comes out in one of the ways of `Sharing.Exits` |
| PathIsolation.EveryDriver | lib/dgroup.c:88-101 | every driver of the group gets every delivery to it |
| PathIsolation.MailOf | lib/dgroup.c:88-101 | and nothing else is queued |
| PathWeight.PathWeighs | lib/logmpx.c:58-136 | if every pipe has one answer, a tree that fails the check lets pipes that leave a trace leave one too many in some queued message |
| PathChoice.SplitHopsFine | lib/logmpx.c:58-136 | for a pipe that stands in one place, the check passes with both answers if it passes with each of them |
| PathChoice.Decide | lib/logmpx.c:58-136 | so if it fails, it fails for one choice of one answer per pipe |
| Pipeline.MarkedIff | lib/center.c:305-331 | a statement is marked with PIF_CLONE exactly when one of its own pipes carries it; so if pipes that store carry it, a statement that stores itself is marked |
| Pipeline.SourceDelivers | lib/logmpx.c:58-136 | if the pipes of the statements a source feeds pass the check, the queues hold exactly the mails the configuration says, and every queued message stays what it was, whatever the pipes store and whichever of their answers they give |
| Pipeline.NodeFlow | lib/logthrdestdrv.c:410-430 | each queue node is a delivery of one of the source's statements, queued with flow control exactly when that statement or one embedded in it asks for it |
| Pipeline.AckedByStatements | lib/logmsg.c:1404-1424 | so, whatever the consumers have done, the source has its ack exactly when all nodes left are deliveries of statements that ask for no flow control |
| Pipeline.DeliversIff | lib/logmpx.c:58-136 | where storing pipes carry PIF_CLONE and no pipe with two answers is used twice, that holds for all messages and all pipes if and only if the pipes pass the check; filters, final, fallback and embedded statements included |
| Pipeline.Misdelivers | lib/logmpx.c:58-136 | the behaviour of the pipes and the message that go wrong when the check fails |
| Pipeline.SoundIsApart | lib/center.c:512-513 | statements that are marked whenever they or embedded ones store, and store nothing after a destination, pass the check |
| Pipeline.ClonedNotLast | lib/logmpx.c:95-123 | a statement with a rewriting branch before a plain one passes the check although it is not marked itself |
| Pipeline.CallerAlone | lib/logmpx.c:95-123 | a single statement passes the check although its filter stores without PIF_CLONE: nobody else sees the message |
| Pipeline.FallbackApart | lib/logmpx.c:76-123 | a rewriting branch that is the last delivery only after a destination with a driver got the message works on a clone, so the next statement is safe |
| Pipeline.EmbeddedRewriteLeaks | lib/logmpx.c:95-123 | a rewriting statement alone inside a plain one: the destination of the next statement gets the rewritten message, even if the rewriting branch rejected it |
| Pipeline.RewriteAfterDestination | lib/center.c:334-543 | a rewrite after a destination changes the message in that destination's queue |
| Pipeline.CalledFilterLeaks | lib/filter.c:760-775 | a filter that stores but lacks PIF_CLONE: the destination of the next statement gets what it stored, even if it rejected the message |
| Multiplexer.Router.FindFallback | lib/logmpx.c:34-50 | whether any hop is a fallback branch |
| Multiplexer.Router.QueuePass | lib/logmpx.c:69-134 | one pass of the loop does what the tree of pipes says |
| Multiplexer.Router.QueueHop | lib/logmpx.c:86-125 | clone or reference, and flow control inherited |
| Multiplexer.Router.QueueGroup | lib/dgroup.c:88-101 | every driver gets the message, in order |
| Multiplexer.Router.Queue | lib/logpipe.h:285-296 | queueing into the graph does what `LogPath.RunPath` says of the tree it is |
| Multiplexer.Router.Forward | lib/logpipe.h:271-282 | on to the next pipe, or the message is dropped |
| Delivery.Deliver | lib/logmpx.c:58-136 | compiler and run time together: if the pipes pass the check, the drivers' queues receive exactly what the statements the source is to feed say, and every queued message still is what it was when the routing is over |
| MainLoopCall.EveryCallOnce | lib/mainloop-call.c:55-123 | each call runs at most once and stays in its site until then; a waiting call returns its own result; a site is never refilled while in use |
| MainLoopCall.LastFiledFirst | lib/mainloop-call.c:84-108 | of the calls waiting the main loop executes the one filed last |
| MainLoopCall.NoLostWakeup | lib/mainloop-call.c:98-123 | a thread asleep after its call is woken by the main thread's next step; an idle main loop has executed everything |
| MainLoopCall.NeverStuck | lib/mainloop-call.c:55-123 | while a thread is inside a call somebody can go on |
| MainLoopCall.StepsRunOut | lib/mainloop-call.c:55-123 | every step other than a new call or a spurious wakeup brings the end nearer |
| MainLoopCall.EveryCallReturns | lib/mainloop-call.c:55-123 | without new calls and spurious wakeups every run ends, with all calls executed and all callers back |
| InternalSource.NextKeepsAwake | lib/afinter.c:213-269 | every step keeps a wakeup coming, or the main thread looking, while the source can send |
| InternalSource.NoLostWakeup | lib/afinter.c:104-122 | with messages waiting and room to send, an event or task is pending, or a thread is about to raise one, or the main thread will look at window and queue again, unless it is shutting the source down |
| InternalSource.InOrder | lib/afinter.c:444-474 | messages leave in the order accepted, none lost or doubled, and the window is never overdrawn |
| InternalSource.AcceptedUnlessFull | lib/afinter.c:444-474 | a message posted is accepted exactly when fewer than 10000 are waiting |
| InternalSource.SendsOnlyWhenFree | lib/logsource.c:41-59 | the source is suspended from a SUSPENDED ack until a wakeup, and starts to send only when not suspended and with an open window |
| FilterInit.Initializer.InitCall | lib/filter.c:507-541 | a call that fails lies on a path to a missing rule or around a cycle; one that succeeds is linked and leaves no flag set |
| FilterInit.Initializer.InitPipe | lib/filter.c:700-709 | success leaves the rule initialized after all rules it calls; failure names a path to a missing rule or around a cycle |
| FilterInit.InitRule | lib/filter.c:507-541 | ends, and succeeds if and only if no cycle and no missing rule can be reached |
| FilterInit.InitializedIsSafe | lib/filter.c:507-541 | from an initialized rule no cycle and no missing rule is reachable |
| FilterInit.EvalAgrees | lib/filter.c:129-157 | the value of an initialized filter does not depend on the order of initialization |
| FilterInit.EvalMeans | lib/filter.c:129-157 | a filter comes out true, or false, exactly when one of the listed combinations of leaf answers is the case, calls unfolded and negations pushed to the leaves |
| FilterInit.VisitsInOrder | lib/filter.c:129-157 | evaluation visits leaves in the order in which they are written |
| FilterInit.VisitsDecide | lib/filter.c:129-157 | leaves it does not visit make no difference to the result or to what is visited |
| FilterInit.NoVisitInVain | lib/filter.c:129-157 | it stops as soon as it can: where no leaf is used twice, what was visited before a leaf that is visited leaves the result open |
| FilterInit.TouchesVisited | lib/filter.c:129-157 | it stores exactly when it visits a leaf that stores and matches |
| FilterInit.CallMeansRule | lib/filter.c:489-505 | a call evaluates to what its rule evaluates to, negated if asked |
| FilterInit.FlagIff | lib/filter.c:552-565 | PIF_CLONE of an initialized filter tells whether it can store if and only if the rule has a storing expression of its own or reaches none through filter() calls |
| FilterInit.OnlyStores | lib/filter.c:129-157 | an evaluation stores only if a storing expression stands in the rule or in one it calls |
| FilterInit.CalledFilterStores | lib/filter.c:489-505 | the example: filter f { filter(g); } stores whenever g matches, and its pipe lacks PIF_CLONE |
| HashTree.HTree.constructor | lib/hashtree.c:234-246 | the first key names the root, the others a chain below it |
| HashTree.HTree.LongestMatchKeys | lib/hashtree.c:147-179 | the keys are followed as far as the tree goes; no node is returned if not even the first key is there and the root has children |
| HashTree.HTree.FindLongestMatch | lib/hashtree.c:190-218 | the node of the longest prefix of the keys in the tree, and where the rest begins |
| HashTree.HTree.Find | lib/hashtree.c:316-335 | finds exactly the node whose path is the text |
| HashTree.HTree.InsertKeys | lib/hashtree.c:114-132 | one node more for each key, the last with the whole path, and no other path changes |
| HashTree.HTree.Insert | lib/hashtree.c:248-270 | afterwards the path is there, and only it and its missing prefixes were added |
| HashTree.OthersUnchanged | lib/hashtree.c:248-270 | an insert changes no other lookup |
| HashTree.HTree.Fqdn | lib/hashtree.c:541-558 | the keys from below the root to the node, joined by dots |
| HashTree.FindFqdn | lib/hashtree.c:541-558 | looking up a node's name gives the node if and only if its path is not one empty key |
| HashTree.FqdnFind | lib/hashtree.c:316-335 | the node found for a path has that path as its name, and no other node has |
| HashTree.SplitJoin | lib/hashtree.c:39-43 | splitting undoes joining, with that one exception |
| Sdata.SdataArray.Update | lib/logmsg.c:216-298 | one element more in its place, for every name, none beyond 255, and a shared array is left alone |
| Sdata.SdataArray.FindBlock | lib/logmsg.c:265-283 | the last element that the prefix test takes for the same block |
| Sdata.SdataArray.MakeRoom | lib/logmsg.c:233-260 | an array of the message's own with a free slot and the same elements |
| Sdata.ContiguousIff | lib/logmsg.c:262-297 | an insertion of any name keeps the blocks together if and only if the element it goes in front of allows it |
| Sdata.InsertKeepsBlocks | lib/logmsg.c:262-297 | always, if no id begins another |
| Sdata.InsertionsKeepBlocks | lib/logmsg.c:216-298 | any number of insertions keeps the blocks together and their number within 255 |
| Sdata.PrefixSplitsBlock | lib/logmsg.c:277-278 | an id that begins another splits the other's block |
| Sdata.StandaloneNotFound | lib/logmsg.c:277-278 | the first parameter of a block without parameters does not find its block |
| SdataText.AppendKeyEscaped | lib/logmsg.c:780-800 | appends the name with %XX for bytes that cannot stand in one |
| SdataText.AppendEscaped | lib/logmsg.c:802-818 | appends the value with quotes, backslashes and brackets escaped |
| SdataText.NameSplit | lib/logmsg.c:855-897 | a name is split into id and parameter, whether or not the length of the id is known |
| SdataText.Format | lib/logmsg.c:820-938 | prints the elements as blocks, one for each run of neighbours with the same id |
| SdataText.ValueBack | lib/logmsg.c:802-818 | an escaped value reads back exactly |
| SdataText.KeyUnescaped | lib/logmsg.c:780-800 | a name without '%' can be recovered from its escaped form |
| SdataText.CollideIff | lib/logmsg.c:780-800 | two names are printed alike if and only if they are equal once every %XX that a special byte is printed as is read as that byte |
| SdataText.KeyIsSdName | lib/logmsg.c:780-800 | a printed name is an SD-NAME if and only if it is neither empty nor too long and has no control character |
| SdataText.PrintedReadsBack | lib/logmsg.c:820-938 | the printed text of contiguous elements reads back, by the grammar of section 6.3 of RFC 5424, as the same blocks with escaped names and exact values; the reader finds each id once if and only if no two ids are printed alike |
| SdataText.NoPercentTellable | lib/logmsg.c:780-800 | no two ids without a percent sign are printed alike |
| SdataText.PrintedTwice | lib/logmsg.c:820-938 | the ids "a=" and "a%3D", of which neither begins the other, print as two blocks a%3D |

## Left out

- Pipeline.DeliversIff: if a pipe that may accept and reject stands twice among the compiled pipes, the check is enough but not shown to be needed; its two answers to the same contents agree, and the check does not use that.
- Pipeline.Misdelivers: needs pipes that store to carry PIF_CLONE; whether a store by another pipe does harm depends on which parts of the message the clones before it share, which the check does not follow. `Pipeline.CalledFilterLeaks` is an example that goes wrong.
- FilterInit.FlagIff: "can store" means that a storing expression is reachable, not that some message reaches it.
- FilterInit.EvalMeans: each leaf has one answer during an evaluation; that a leaf may see what an earlier one stored is not modelled.
- PathCounts.AckedInEveryInterleaving: is about the operations that routing consists of, in any order in which the thread holds what it uses; `RoutingActs.RoutedInEveryInterleaving` has the orders that occur.
- CloneTree.CallKeepsWorld: the case excluded by `CloneTree.DueCanRun` is not a step.
- PathIsolation.HopIsolated: contents are three opaque parts (name-value table, tags, structured data); the layout of the name-value table and of the tag bits is not modelled.
- PathCounts.DriverFair: the queue of a driver always accepts here; what happens to a message that does not fit is stated by `LogQueueFifo`.
- RefCache.StopAcksKeeps: the two halves of refcache_stop() are two steps, with other threads free to act in between and the callback running between them.
- RefCache.UnrefKeeps: memory order of the atomic operations is taken to be sequential.
- LateAckTracker.Tracker.FlowControlAdjust: waking the source is reduced to clearing its suspended flag (`InternalSource` has the wakeups), and the rate-adjusted sleeping is not modelled.
- LateAckTracker.Tracker.FlowControlSuspend: likewise.
- LogQueueFifo.FifoQueue.MoveInput: list nodes are values in sequences; embedded and allocated queue nodes are not told apart.
- ThreadedDest.Driver.Turn: connecting, the sequence number and the session around the worker's insert are not modelled.
- Throttle.RateBounded: holds for a clock that does not go back.
- Throttle.RateBoundedIff: likewise.
- Throttle.Limiter.CheckItems: the callback registered for the next push is reduced to a flag, and that a push calls it is not modelled.
- LogTree.SourceReading: embedded statements come after all other endpoints, as the grammar has it.
- LogCenter.Center.Instantiate: a pipe whose clone function fails is not modelled.
- LogCenter.Center.Init: log_pipe_init() of the finished pipes and its failures are modelled only for filters (`FilterInit`) and for the multiplexer's search for fallback branches.
- FilterInit.InitRule: copies of a filter pipe that share one expression are not modelled.
- InternalSource.NoLostWakeup: the source is initialized and deinitialized once.
- HashTree.HTree.Insert: the delimiter is "." and trees are built by htree_new() and htree_insert(); unlinking, joining and walking are left out.
- SdataText.PrintedReadsBack: blocks with parameters, parameter names without dots, and seq_num 0, so that no sequenceId is added.
- log_queue_fifo_push_head() and queue types other than the memory queue.
- the direct execution of main_loop_call() on the main thread, which involves no other thread.
- the early ack tracker: it acks at once and keeps nothing.
- serialization of messages, matchers, templates, the DNS cache, readers, writers, transports and control sockets.
- configuration parsing, statistics, MARK timing and debug messages.
