# Verification of the dojot flow broker

A Dafny model of the three cores of the flow broker, with machine-checked proofs of what they guarantee:

* the **context service**: the read-write locks on ZooKeeper, the lock table of the context manager, its client,
  and the windowed sum as a real user of them;
* the **flow engine**: the dispatch of an event to flows, the queues, the executor and the device cache;
* the **nodes**: `switch`, `change` and the dotted paths they read and write.

`dafny verify dfyconfig.toml` checks the whole project.

## How the model is built

The context service (`ContextService.dfy`) is a transition system: any number of lock requests, a ZooKeeper store
with content, live lock nodes and a counter for each data path, calls in flight, armed timers and watches. Every
ZooKeeper call is two steps, the server's answer and the callback, and any other step can come in between. A step
may also deliver an error. Callbacks are atomic. The attempts may belong to several processes, each with a ZooKeeper
session of its own: calls of different attempts are served in any order, whoever issued first. `ContextManager.dfy` holds the callbacks as methods of a class
that updates its table in place; the contract of each says which step of the transition system it is. The two
scans are loops over the node names as strings (`LockScan.dfy`, `LockNames.dfy`). What holds in every state is in
`ContextInvariant.dfy`, `ContextSafety.dfy` and `ContextTheorems.dfy`, what every run keeps or reaches in
`ContextWrites.dfy`, `ContextProgress.dfy`, `ContextBlocking.dfy`, `ContextLiveness.dfy` and
`ContextInevitable.dfy`, what each step answers in `ContextAnswers.dfy`, and what fails in `ContextFailures.dfy` and `ContextRace.dfy`. `EndToEnd.dfy` adds the client (`ContextClient.dfy`), the messages on the
wire (which may be lost) and the messages of others, and `ReleaseComesThrough.dfy` follows a release through all of it; `ClientCluster.dfy` puts any number of clients together, and
`CumulativeService.dfy` runs the node `CumulativeSum.dfy` on them.

The flow engine is modelled by a queue with priorities and one unacknowledged message (`TaskQueue.dfy`), by the
executor as a class that works on such a queue (`Executor.dfy`), by a recursive evaluator that the queue is compared with
(`Interpreter.dfy`), by all event and task queues together (`Pipeline.dfy`), and by the flow manager and the
ingestor as classes and loops over stored flows (`FlowManager.dfy`, `Ingestor.dfy`, `DeviceIngestor.dfy`). The device
cache is a class (`DeviceCache.dfy`) and, over time, a transition system for one device (`CacheCoherence.dfy`), whose
steps add up to what the class does (`CacheLookup.dfy`).

## Main results

* In every race-free interleaving: readers and writers exclude each other, no update is lost, and the writes on each
  path are a chain of read-modify-writes in lock order, except beside a live node with number 0
  (`ServiceIsSafeBesideZero`); with sequence numbers from 1 there is no such node (`ServiceIsSafe`). A waiter has its
  grant within reach if and only if no request that it has to wait for was lost by a failed call
  (`WaiterCanBeGrantedExactly`), and then the grant is inevitable: in whatever order the calls, callbacks and timers
  under way go on, they end after a bounded number of steps, and by then the waiter has been granted, unless its own
  timer was first or one of its own calls failed (`GrantIsInevitableExactly`). Waiters rescan a bounded number of times, and conflicting requests are
  served first come, first served. Every live lock node is accounted for.
* When the calls, callbacks and timers under way have come to their end, every attempt has given exactly the answers
  it owed (`EverybodyIsAnswered`), and over every race-free run answers given and answers owed add up (`DebtsArePaid`).
  A release that is accepted while its lock is held is never rejected, and resolved after six steps of its own, or four
  without a save, unless one of its messages is lost, one of its calls fails or one of its timers fires
  (`AcceptedReleaseComesThrough`).
* In race-free runs of any number of clients and the service, if the promise of a save is resolved, the text has been
  written exactly once, under the request's own write lock and while its node was alive, whatever messages were lost
  (`ResolvedSaveIsWritten`, `ResolvedSavesAreWritten`); nothing else is ever written for a request (`WrittenIsAsked`);
  and a lock whose hold timer has fired never writes (`NoWriteAfterHoldTimeout`).
* Concurrent executions of one cumulative-sum node, at any number of clients, leave what a sequential execution of the
  saved events in write-lock order leaves (`StretchIsSerialisable`, `WindowedSumIsSerialisable`), which for positive
  values is the exact window.
* The tasks of a device reach the executors in the order of its events, and nothing of an earlier event is left
  anywhere when a later one starts (`DevicesAreServedInOrder`); no event and no task is lost or made up on the way
  (`NothingIsLostOrMadeUp`).
* The queues execute what the recursive evaluator does, in any order of delivery; every run ends; executions are
  bounded by wire paths. A node's results go on as one task for each wire of each output with a message, and as no
  others (`ChildrenAreTheFanOut`). An event starts exactly the heads that scanning all nodes of all flows would start, if and
  only if no flow that it reaches lets one node stand for another with the same identifier (`DispatchIsScanExactly`).
* A cached device record differs from the device manager's only while a change of the device is being processed, or
  after failures that are listed exactly, until a later change or a data event puts the record right
  (`QuietCacheExactly`).

## What the code does not guarantee

The members named here are theorems about the code as it is, with the exact condition or a run that shows it. What
`orchestrator/index.js` does about an uncaught exception or an unhandled rejection, ending the process, is quoted from
the code and is not part of the model.

* **Sequence number 0.** Both scans start from the number 0 and look for a greater one
  (`contextManager/ZookeeperRWLock.js:22,29,53,61`), so the node with suffix `0000000000` is never watched, and
  ZooKeeper starts counting at 0 for a new path. Exclusion and no-lost-update hold in all race-free runs exactly if the
  numbers start from 1 (`SafeExactlyFromOne`); if they start from 0, all that fails is between that one node and the
  others (`ServiceIsSafeBesideZero`), and the windowed sum is serialisable over the writes that were not read while it
  was alive (`StretchIsSerialisable`).
* **Wait timer against a pending scan.** The timer deletes the node, and the reply of `a_get_children` that is
  still to come can grant the lock all the same, and then leaves its holder without a node. That happens in some
  continuation if and only if a scan is pending that was answered with nothing to wait for, or that is unanswered with
  no lost request ahead (`RaceExactly`; in the second case the requests ahead may have to be served between the timer
  and the scan, which takes requests of other processes); `RaceLosesUpdate` shows a lost update. The other theorems about the context
  service are about runs without this step, the timer/scan race, unless they say otherwise.
* **Failed calls.** When `a_get`, `a_set`, the delete of a release or that of a wait timer fails, nothing deletes the
  lock node any more: in no continuation is a conflicting request behind it ever granted (`LostNodeBlocksForever`), and
  only those are held up (`WaiterCanBeGrantedExactly`).
* **A context content that is not JSON** in a positive reply makes the client's handler throw between the change of
  state and the settlement: the caller waits for ever (`UnreadableReplyExactly`). A save of an empty content
  gets no reply at all.
* **A window whose sum is zero** is reset as if it were empty (`ExactUnlessZeroSum`).
* **A failed cache write** is said to affect only performance (`orchestrator/ingestor.js:375-376`); it leaves the old
  record in the cache (`FailedWriteIsNotOnlyPerformance`) until the next change, or until a data event that could not
  read the cache fetches the record and writes it (`StaleUntilWritten`, `DataEventRepairsExactly`). A remove event that
  is processed while the cache cannot be read never deletes the entry (`UnreadableCacheKeepsRemovedDevice`).
* **Messages without attributes.** A create or update event without them is cached but comes to nothing, for their
  transformation throws; so do device data and configure events without them, if the device has static attributes
  (`LostExactly`).
* **Old heads** (`device in`, `device template in`) fire on data of devices they do not name, once their flow is
  reached (`OldHeadsFireForOthers`). A flow's old heads fire only for what they name if and only if every head by which
  the flow can be found names the same device or template as each of them (`OldHeadsFireForTheirOwnExactly`). The
  `enabled` field is not looked at by the dispatch, and `set` cannot turn it off.
* **Nodes with one identifier.** Neither `create` nor `set` checks identifiers, and of several nodes with one the last
  stands for all in the node map. A flow then fires other heads than the scan of its nodes if and only if a head and
  the different node that stands for it are there and the event would fire one of the two (`HeadsAgreeWithScan`);
  whether some event does can be seen on the flow (`FlowAgreesExactly`). `SharedIdentifierMisfires` shows such a pair.
* **A hop to a node that is not in the flow**, or a handler that throws instead of rejecting, leaves the delivery
  unacknowledged (`Hop`); the process then ends itself (`orchestrator/index.js:32-35`).
* **An operand of the switch node that cannot be retrieved** becomes a rejected promise: exactly for the type
  `jsonata`, and for a path that is no text, has no key or meets null (`OperandIsRejectedExactly`). The rule compares
  with that promise, which nobody handles, so the process ends itself (`orchestrator/index.js:27-30`).
* **Negative device identifiers** have no queue unless the number of queues divides them (`QueueExistsExactly`).
* The comments on the scans ask for a sorted array of children; the proofs need no order.
* When saving fails, or the sum cannot be written to the output path after it was saved, the cumulative-sum node
  resolves with a text, whose first letter is then sent on as the message (`FailedSaveSendsOneLetter`).

## Model

| member | source | states |
|---|---|---|
| `LockNames.NameRoundTrip` | contextManager/ZookeeperRWLock.js:23-25 | the name of a lock node, cut after the 6 characters of its prefix, gives back its mode and number |
| `LockNames.PaddedOrder` | contextManager/ZookeeperRWLock.js:29 | string order on zero-padded numbers of one width is numeric order |
| `LockNames.SuffixOrder` | contextManager/ZookeeperRWLock.js:28-29 | comparing the 10-digit suffixes of two names compares their sequence numbers |
| `LockNames.FirstNames` | contextManager/ZookeeperRWLock.js:23-25 | two names as they look: `rlock-0000000000` and `wlock-0000000017` |
| `LockScan.FindNextElemToBeWatchedWriteCase` | contextManager/ZookeeperRWLock.js:20-39 | the loop finds the greatest earlier node with a number above 0, in any order of the children, or nothing if there is none |
| `LockScan.FindNextElemToBeWatchedReadCase` | contextManager/ZookeeperRWLock.js:51-72 | the same among the write nodes |
| `LockScan.ScanAgreesWithRecipe` | contextManager/ZookeeperRWLock.js:76 | the scan and the shared-locks recipe agree on whether a lock is free exactly unless the only blocking nodes have number 0 |
| `LockScan.ReadersShare` | contextManager/ZookeeperRWLock.js:20-72 | a read lock is granted exactly when no write lock from number 1 on is before it, a write lock when no lock at all is; otherwise the scan gives the last one to wait for |
| `ContextManager.ContextHandler.constructor` | contextManager/index.js:167-177 | a new process has an empty lock table and no pending calls |
| `ContextManager.ContextHandler.LockAndGet` | contextManager/index.js:281-292 | a lock request starts an attempt in the phase of creating its node |
| `ContextManager.ContextHandler.OnCreate` | contextManager/ZookeeperRWLock.js:151-169 | the create callback arms the wait timer and scans, or refuses on an error |
| `ContextManager.ContextHandler.TryLock` | contextManager/ZookeeperRWLock.js:180-185 | a scan is issued; it is late if the timeout delete is on its way |
| `ContextManager.ContextHandler.OnChildren` | contextManager/ZookeeperRWLock.js:185-203 | the children callback is a step of the protocol: it grants or watches what the scan over the returned names finds, or refuses on an error |
| `ContextManager.ContextHandler.NodeToBeWatched` | contextManager/ZookeeperRWLock.js:191-196 | the scan for the node's own mode over the children's names finds what blocks it |
| `ContextManager.ContextHandler.Decide` | contextManager/ZookeeperRWLock.js:197-206 | no predecessor: the timer is cleared and the content read, unless the promise was rejected before; else the predecessor is checked |
| `ContextManager.ContextHandler.OnExists` | contextManager/ZookeeperRWLock.js:219-235 | the exists callback rescans, waits or gives up, by its result code |
| `ContextManager.ContextHandler.OnWatch` | contextManager/ZookeeperRWLock.js:207-218 | the watch event rescans, or gives up when the session is not connected |
| `ContextManager.ContextHandler.LockWaitTimeout` | contextManager/ZookeeperRWLock.js:247-249 | the wait timer issues the delete and leaves the attempt as it is |
| `ContextManager.ContextHandler.OnTimeoutDelete` | contextManager/ZookeeperRWLock.js:249-255 | after the delete the promise is rejected once, whatever its outcome |
| `ContextManager.ContextHandler.OnGet` | contextManager/index.js:297-339 | the content is given to the client with a table entry and a hold timer; a single-shot read goes straight to its release; an error refuses and unlocks nothing |
| `ContextManager.ContextHandler.SaveAndUnlock` | contextManager/index.js:341-375 | the table entry is consumed and the write issued, for a write lock; otherwise the save is refused, or ignored when the content is empty |
| `ContextManager.ContextHandler.OnSet` | contextManager/index.js:375-386 | after the write the release is issued; an error refuses and unlocks nothing |
| `ContextManager.ContextHandler.Unlock` | contextManager/index.js:404-423 | the table entry is consumed and the release issued, or the request refused |
| `ContextManager.ContextHandler.Timeout` | contextManager/index.js:439-452 | the hold timer consumes the entry and issues the release |
| `ContextManager.ContextHandler.OnDelete` | contextManager/ZookeeperRWLock.js:278-295 | the end of a release: after a save or an unlock the client gets exactly one `Okay` if the node was deleted and exactly one `Refused` if it was gone or the call failed; a single-shot read gets its content or a refusal; after the hold timeout nobody gets anything |
| `ContextAnswers.ReleaseAnswers` | contextManager/index.js:385-430 | the same of the transition system, by purpose and outcome of the delete |
| `ContextAnswers.HolderAnswers` | contextManager/index.js:297-386 | the other steps of a granted lock: the content that was read, one refusal if the get or the set fails, and no other answer |
| `ContextAnswers.ProtocolAnswers` | contextManager/ZookeeperRWLock.js:137-256 | the steps of the lock protocol answer only with one refusal, when a call fails before the timer has rejected the promise, or when the timeout delete ends while the attempt waits |
| `ContextAnswers.MessageAnswers` | contextManager/index.js:281-412 | a save or unlock without its lock and a save under a read lock are refused at once, an empty save is ignored, and nothing else is answered at once |
| `ContextAnswers.DebtsArePaid` | contextManager/index.js:281-430 | over every race-free run, the answers an attempt has given and those it still owes are those it owed before, and one more for every release that was asked for |
| `ContextAnswers.DebtorCanMove` | contextManager/ZookeeperRWLock.js:137-256 | while an answer is owed, the attempt has a step to take that is no failure |
| `ContextAnswers.EverybodyIsAnswered` | contextManager/index.js:281-430 | from every reachable state, in whatever order the calls, callbacks and timers under way go on: when nothing more can happen, every attempt has given exactly the answers it owed |
| `ContextAnswers.GrantCarriesTheContent` | contextManager/index.js:297-339 | the answer to a lock request or single-shot read, whatever comes between, carries what the server had at the path when it was read under the lock |
| `ContextInvariant.StepKeepsLockInv` | contextManager/ZookeeperRWLock.js:137-256 | every step except the timer/scan race keeps the lock invariant: which nodes are live and whose they are, what every waiter knows, what every grant excludes, and that the table holds the held locks |
| `ContextInvariant.Bystander` | contextManager/ZookeeperRWLock.js:206-218 | a step changes no other attempt, except that a deletion wakes those that watch the node |
| `ContextSafety.GrantedExclude` | contextManager/ZookeeperRWLock.js:191-203 | of two granted live nodes on one path, one a writer, one has number 0 |
| `ContextSafety.CommitSparesRivals` | contextManager/index.js:371-375 | at a write, no other attempt on the path holds a content it makes stale, and later writers have greater numbers |
| `ContextSafety.StepKeepsInv` | contextManager/index.js:281-452 | every step except the race keeps the lock invariant and the chain of read-modify-writes |
| `ContextTheorems.ServiceIsSafeBesideZero` | contextManager/index.js:281-452 | for every first sequence number, in every state of every race-free run: attempts with numbers above 0 exclude each other, a write that was not read beside a live node 0 overwrites just what it read, and on every path such writes continue the chain, all in lock order but those of node 0 |
| `ContextTheorems.WritesHoldTheLock` | contextManager/index.js:341-375 | a write is served only for a granted write lock whose node is alive |
| `ContextTheorems.NothingIsCold` | contextManager/ZookeeperRWLock.js:22-29 | with numbers from 1 no node has number 0 and no content is read beside one |
| `ContextTheorems.ServiceIsSafe` | contextManager/index.js:281-452 | exclusion, no lost update and atomic registers in every state of every race-free run with numbers from 1 |
| `ContextFailures.NumberZeroBreaksExclusion` | contextManager/ZookeeperRWLock.js:22-29 | with numbers from 0 two writers hold a lock at once and one overwrites the other |
| `ContextFailures.SafeExactlyFromOne` | contextManager/ZookeeperRWLock.js:22-29 | exclusion and no lost update hold in all race-free runs if and only if numbers start from 1 |
| `ContextFailures.RaceReached` | contextManager/ZookeeperRWLock.js:163-203 | the race leads to a granted attempt whose node is gone |
| `ContextFailures.RaceLosesUpdate` | contextManager/ZookeeperRWLock.js:163-256 | a run with the race in which an update is lost, with numbers from 1 |
| `ContextRace.RaceExactly` | contextManager/ZookeeperRWLock.js:183-256 | over all continuations: after the wait timer has fired the lock can still be granted, and then without a node, if and only if a scan is pending that was answered with nothing to wait for, or is unanswered with no lost request ahead |
| `ContextBlocking.LostNodeBlocksForever` | contextManager/index.js:299-308 | after a failed get, set or delete the node stays in every continuation, and no request that has to wait for it is ever granted |
| `ContextBlocking.LostAheadIsForever` | contextManager/ZookeeperRWLock.js:249-255 | a request with a lost one ahead is granted in no continuation |
| `ContextProgress.LocksAreAccounted` | contextManager/index.js:312-320 | a lock node is live exactly if it is covered by exactly one of wait timer, call in flight, table entry, or a failure |
| `ContextProgress.NothingLostWithoutFailures` | contextManager/index.js:299-308 | without failed get, set and delete calls nothing is lost |
| `ContextProgress.EntryIsConsumedOnce` | contextManager/index.js:356-369 | a table entry goes only by a save under its write lock, an unlock or its own hold timer, and its lock is held no more |
| `ContextProgress.ProtocolStepDecreases` | contextManager/ZookeeperRWLock.js:180-239 | every step of the lock protocol lowers the attempt's bound on the steps before it |
| `ContextProgress.RetriesAreBounded` | contextManager/ZookeeperRWLock.js:205-229 | over a whole run the protocol steps of an attempt are bounded, whatever the others do |
| `ContextProgress.NewAttemptStepsAreBounded` | contextManager/ZookeeperRWLock.js:180-239 | a new attempt takes at most five steps for each conflicting node before it, and five more |
| `ContextProgress.GrantsAreFifo` | contextManager/ZookeeperRWLock.js:191-203 | a granted request has no earlier conflicting node alive, and none of them is granted |
| `ContextLiveness.WaiterCanBeGrantedExactly` | contextManager/ZookeeperRWLock.js:180-239 | from every reachable state a waiter with a running timer can be granted, even without client messages and before its timer fires, if and only if no lost request is ahead that it has to wait for |
| `ContextInevitable.GrantIsInevitableExactly` | contextManager/ZookeeperRWLock.js:137-256 | from every reachable state, every run of the calls, callbacks and timers under way has at most as many steps as the budget of all attempts; and a waiter whose timer is running is granted in all of those that go on to the end, its own timer and failures of its own calls left out, if and only if no lost request is ahead that it has to wait for |
| `ContextInevitable.EverythingEnds` | contextManager/ZookeeperRWLock.js:180-256 | whatever the order, each step spends some of the budget, so the steps under way come to an end |
| `ContextInevitable.SomethingCanHappen` | contextManager/ZookeeperRWLock.js:206-239 | while a waiter has nothing lost ahead, a step other than its timer can be taken |
| `ContextLiveness.ArmedWatchIsOnLiveNode` | contextManager/ZookeeperRWLock.js:206-218 | an armed watch is on a live node with a smaller number, owned by another attempt |
| `ContextLiveness.Drained` | contextManager/ZookeeperRWLock.js:247-295 | an attempt that is not lost can always remove its node, by its own steps alone |
| `ContextLiveness.BlockerLeaves` | contextManager/ZookeeperRWLock.js:180-239 | if somebody but no lost request blocks an attempt, one of those before it can leave while all others keep their place |
| `ContextWrites.NoWriteAfterHoldTimeout` | contextManager/index.js:439-452 | once the hold timer has fired, that lock never writes, in any continuation |
| `ContextClient.ContextManagerClient.LockAndGetContext` | lib/ContextManagerClient.js:165-200 | a new entry waits with an armed timer and an unsettled promise, and the command is sent |
| `ContextClient.ContextManagerClient.UnlockContext` | lib/ContextManagerClient.js:115-163 | a release is sent only for a held lock, and with a save only for a write lock; otherwise the promise is rejected and nothing changes |
| `ContextClient.ContextManagerClient.OnMessage` | lib/ContextManagerClient.js:46-104 | the reply handler, by the state of the entry; an unknown request is ignored |
| `ContextClient.ContextManagerClient.TimeoutRequest` | lib/ContextManagerClient.js:18-25 | the entry goes and its promise is rejected |
| `ContextClient.ReplySettles` | lib/ContextManagerClient.js:46-104 | what a reply does to the promise, to each entry and to its timer, by the state of the entry |
| `ContextClient.TimeoutRejects` | lib/ContextManagerClient.js:18-25 | a timeout rejects the unsettled promise of its entry and no other |
| `ContextClient.CallsSend` | lib/ContextManagerClient.js:115-200 | which command each call sends, and which calls are rejected in place |
| `ContextClient.StepKeepsClientInv` | lib/ContextManagerClient.js:46-200 | waiting entries, live timers and unsettled promises correspond one to one; processing entries have no timer and a resolved lock promise; no promise is settled twice |
| `ContextClient.RunKeepsClientInv` | lib/ContextManagerClient.js:46-200 | the same over whole runs of calls, replies and timeouts |
| `ContextClient.NoCallerIsForgotten` | lib/ContextManagerClient.js:176-200 | a promise without an answer has an armed timer that will reject it |
| `ContextClient.UnreadableReplyExactly` | lib/ContextManagerClient.js:62-67 | a step keeps the table in order if and only if a positive reply carries a content that parses |
| `ContextClient.LateReplyIsIgnored` | lib/ContextManagerClient.js:50-54 | in every continuation after the client's timeout, a reply to that request changes no client state |
| `EndToEnd.ReplyMeans` | lib/ContextManagerClient.js:58-97 | a positive reply to a waiting request is the grant of its lock or stands for its completed release |
| `EndToEnd.CommandsMean` | lib/ContextManagerClient.js:165-200 | which lock a command asks for: a write lock, a read lock, or a single-shot read |
| `EndToEnd.HoldOnReleased` | contextManager/index.js:375-399 | the steps of a released lock confirm a save only after its text has been written |
| `EndToEnd.StepKeepsWorld` | lib/ContextManagerClient.js:46-200 | every step of client, service, network and other clients keeps the relation between client and service |
| `EndToEnd.ResolvedSaveIsWritten` | lib/ContextManagerClient.js:74-83 | a resolved save was written by the service exactly once, with that text, under that request's write lock while its node was alive |
| `EndToEnd.WrittenIsAsked` | contextManager/index.js:341-375 | whatever is written for a request is the text it was released with, over the content that its grant carried |
| `ReleaseComesThrough.AcceptedReleaseComesThrough` | lib/ContextManagerClient.js:115-163 | from every reachable state, a save or unlock that is accepted while its lock is held, with none of its messages lost, none of its calls failing and none of its timers firing: whatever else happens, its promise is never rejected, is resolved exactly after six steps of its own, or four without a save, and until then its next step can be taken |
| `ClientCluster.StepKeepsCluster` | lib/ContextManagerClient.js:46-200 | with any number of clients, every step keeps the relation between each of them and the service |
| `ClientCluster.ResolvedSavesAreWritten` | lib/ContextManagerClient.js:74-83 | the same for every client of any number of them |
| `CumulativeSum.SumExpired` | orchestrator/nodes/cumulative-sum/cumulative-sum.js:99-108 | the loop finds the first entry that has not expired and the sum of those before it |
| `CumulativeSum.Accumulate` | orchestrator/nodes/cumulative-sum/cumulative-sum.js:81-112 | the stored window without its expired prefix and with the event, or the refusal of an event older than the last |
| `CumulativeSum.OneExecution` | orchestrator/nodes/cumulative-sum/cumulative-sum.js:76-112 | on a time-ordered window with a sum: older events are refused, otherwise what remains is the event and the entries of the last `timePeriod` times 60000 milliseconds, and the sum is theirs |
| `CumulativeSum.WindowMembers` | orchestrator/nodes/cumulative-sum/cumulative-sum.js:86-111 | the members of the window that the node is meant to keep |
| `CumulativeSum.SlicingIsFiltering` | orchestrator/nodes/cumulative-sum/cumulative-sum.js:100-111 | on time-ordered entries cutting the prefix is filtering by the threshold |
| `CumulativeSum.ExactUnlessZeroSum` | orchestrator/nodes/cumulative-sum/cumulative-sum.js:81-84 | the step on an exact window is exact if and only if the stored sum is not zero or the whole window is about to expire |
| `CumulativeSum.ZeroSumForgets` | orchestrator/nodes/cumulative-sum/cumulative-sum.js:81-84 | a window with 5 and -5 is forgotten |
| `CumulativeSum.WindowIsExact` | orchestrator/nodes/cumulative-sum/cumulative-sum.js:86-112 | for positive values, after any sequence of events, entries and sum are the exact window of all accepted events |
| `CumulativeService.HistoryIsSums` | orchestrator/nodes/cumulative-sum/cumulative-sum.js:79-114 | every write of the context is what the node computes for the event of that request from the content that was granted to it |
| `CumulativeService.StretchIsSerialisable` | orchestrator/nodes/cumulative-sum/cumulative-sum.js:78-120 | for every first sequence number, over any stretch of writes not read beside a live node 0 the context goes on as a sequential execution of the saved events, none refused, in write-lock order |
| `CumulativeService.WindowedSumIsSerialisable` | orchestrator/nodes/cumulative-sum/cumulative-sum.js:78-120 | after any race-free run of the executions at any number of clients, if no write was read beside a live node 0, as with numbers from 1, the stored context is what a sequential execution of the saved events leaves |
| `CumulativeService.StoredWindowIsExact` | orchestrator/nodes/cumulative-sum/cumulative-sum.js:78-120 | and with positive values it is the exact window of the saved events |
| `CumulativeService.ReportedSumIsSavedOnce` | orchestrator/nodes/cumulative-sum/cumulative-sum.js:114-117 | an execution that has reported its sum is in that order exactly once, with the content it was granted |
| `CumulativeService.FailedSaveSendsOneLetter` | orchestrator/nodes/cumulative-sum/cumulative-sum.js:117-120 | after a failed save, or a sum that cannot be written to the output path, the nodes behind the one output get the letter F as their message |
| `CumulativeService.SavedSumIsSentOn` | orchestrator/nodes/cumulative-sum/cumulative-sum.js:114-117 | after a save that succeeded, the one message sent on has the sum at the output path and is the old one at every path apart |
| `CumulativeService.MessyTimeNeverWrites` | orchestrator/nodes/cumulative-sum/cumulative-sum.js:89-97 | an execution that is refused for "messy time" never writes |
| `Routing.HexIdsAreSpreadByValue` | orchestrator/util.js:1-6 | a hexadecimal identifier goes to the queue of its value modulo the number of queues |
| `Routing.HexRoundTrip` | orchestrator/util.js:6 | the number that the hexadecimal digits of n stand for is n |
| `Routing.NumberedDevice` | orchestrator/util.js:1-6 | the identifier made of the digits of n goes to queue n modulo the number of queues |
| `Routing.ParsedNumber` | orchestrator/util.js:6 | white space, a sign, the mark 0x, digits and what follows them are read as parseInt reads them |
| `Routing.RemainderIsLeft` | orchestrator/util.js:6 | the remainder has the sign of the dividend and is smaller than the divisor |
| `Routing.QueueExistsExactly` | orchestrator/util.js:6 | the number is a queue's index if and only if the identifier does not parse, is not negative, or is divided by the number of queues |
| `Routing.NegativeIdHasNoQueue` | orchestrator/util.js:6 | identifier "-3" with ten queues gives -3 |
| `TaskQueue.DeliveryIsInOrder` | orchestrator/amqp.js:238-246 | a delivery takes the first waiting message, high priority first, and keeps the order of the rest |
| `TaskQueue.SentWaitsInOrder` | orchestrator/amqp.js:131-147 | a message joins behind those of its priority, and before all of the lower one |
| `Pipeline.StepKeepsQueues` | orchestrator/ingestor.js:308-358 | every step keeps event queues in arrival order, running tasks of one event, and tasks of a lane in the order of events |
| `Pipeline.DeliveredTaskIsNext` | orchestrator/executor.js:77-103 | when a task is delivered, every earlier event of its lane is settled: nothing of it is left in any queue |
| `Pipeline.StepKeepsSettled` | orchestrator/executor.js:97-103 | what has settled stays settled |
| `Pipeline.DevicesAreServedInOrder` | orchestrator/ingestor.js:168-206 | over every run, tasks of one device are delivered in the order of its events, each after all earlier events have settled |
| `Pipeline.NothingIsLostOrMadeUp` | orchestrator/ingestor.js:308-358 | over every run, a task has been received and waits as often, together, as it was made; and each event that arrived has been taken up once or waits once |
| `FlowManager.FlowManager.Parse` | orchestrator/flowManager.js:94-136 | parsing succeeds exactly on flows whose nodes have types (and old template heads a template), and gives heads, devices and templates in node order |
| `FlowManager.DeviceIsIndexed` | orchestrator/flowManager.js:114-126 | a flow is indexed under a device if and only if one of its heads names the device |
| `FlowManager.TemplateIsIndexed` | orchestrator/flowManager.js:119-130 | the same for templates |
| `FlowManager.IndexIsOfTheHeads` | orchestrator/flowManager.js:94-136 | the heads, devices and templates of the index are exactly those of the nodes with wires of the four kinds |
| `FlowManager.IndexIsInOrder` | orchestrator/flowManager.js:94-136 | they are in the order of the nodes |
| `FlowManager.ParsesExactly` | orchestrator/flowManager.js:94-136 | a flow parses if and only if every node has a type and every old template head with wires a template |
| `FlowManager.FlowManager.Create` | orchestrator/flowManager.js:167-213 | exactly the valid requests add a flow with the index of its nodes; the invariant of the collection is kept |
| `FlowManager.FlowManager.Set` | orchestrator/flowManager.js:215-243 | replaces title, enabled and nodes with their index where given and keeps the rest; other flows and failing calls change nothing |
| `FlowManager.FlowManager.Remove` | orchestrator/flowManager.js:245-257 | exactly the named flow goes |
| `FlowManager.FlowManager.GetByDevice` | orchestrator/flowManager.js:259-265 | exactly the stored flows with the device in their index |
| `FlowManager.FlowManager.GetByTemplate` | orchestrator/flowManager.js:267-273 | exactly the stored flows with the template in their index |
| `Ingestor.FoundIsReached` | orchestrator/ingestor.js:265-272 | the lookups by device and templates find exactly the flows that a scan of all nodes reaches |
| `Ingestor.HeadsAgreeWithScan` | orchestrator/ingestor.js:209-239 | for every flow and event, firing the heads through the node map is scanning the nodes, in order and as a bag, if and only if for no head a different node stands in the map while the event fires one of the two |
| `Ingestor.FlowAgreesExactly` | orchestrator/ingestor.js:209-239 | a flow fires on every event as the scan of its nodes if and only if for no head a different node stands in the map while some event fires one of the two |
| `Ingestor.DispatchIsScanExactly` | orchestrator/ingestor.js:261-292 | over all flows, the dispatched firings are those of the scan, in order and as a bag, if and only if that holds of every flow that the event reaches |
| `Ingestor.Publish` | orchestrator/ingestor.js:168-192 | one task for every wire of every output, in order: each leads to where its wire does, with the message, the flow and the metadata |
| `Ingestor.FireHead` | orchestrator/ingestor.js:217-239 | the switch over the kind of a head sends its first tasks if it fires, and nothing otherwise |
| `Ingestor.FirstTasksAreTheFanOut` | orchestrator/ingestor.js:168-239 | the first tasks of a head are exactly those, with `{payload: event}` for the new kinds and `{payload: attrs}` for the old ones |
| `Ingestor.FireHeads` | orchestrator/ingestor.js:216-245 | the loop over the heads sends the first tasks of exactly those that fire, in order |
| `Ingestor.HandleFlow` | orchestrator/ingestor.js:208-245 | a flow sends the tasks of the heads that its node map fires |
| `Ingestor.LookUp` | orchestrator/ingestor.js:265-272 | the queries together return exactly the flows indexed under the device or one of the templates |
| `Ingestor.RemoveRepeated` | orchestrator/ingestor.js:276-282 | every flow that was found remains once |
| `Ingestor.ScanFiresWhatShould` | orchestrator/ingestor.js:216-239 | the scan of all nodes of all flows lists exactly the heads that should fire, and each once if the reached flows have distinct node identifiers |
| `Ingestor.FiresExactly` | orchestrator/ingestor.js:218-235 | when a node fires, kind by kind, and that no other does |
| `Ingestor.LastNodeCounts` | orchestrator/ingestor.js:209-212 | of several nodes with one identifier the last stands for it in the node map |
| `Ingestor.HeadGetsItsEvent` | orchestrator/ingestor.js:208-292 | a head that an event is for, and that stands for itself in the node map, gets the event along each of its wires |
| `Ingestor.HandleEvent` | orchestrator/ingestor.js:261-292 | the lookups, the removal of repeated flows and the loops over heads and wires send exactly the first tasks of the heads that the reached flows fire through their node maps; these are the tasks of the scan of every node of every flow whenever no reached flow misfires |
| `Ingestor.EventHeadsAreNeverMissed` | orchestrator/ingestor.js:226-235 | for heads of the new kinds the index hides nothing: they fire exactly by their own device, templates and event |
| `Ingestor.OldHeadsFireForOthers` | orchestrator/ingestor.js:220-225 | a head of the old kind fires for a device it does not name |
| `Ingestor.OldHeadsFireForTheirOwnExactly` | orchestrator/ingestor.js:220-225 | the old heads of a flow fire only for the device or template they name if and only if every head by which the flow can be found names the same as each of them |
| `Ingestor.SharedIdentifierMisfires` | orchestrator/ingestor.js:209-217 | of two heads with one identifier the second fires twice and the first not at all |
| `DeviceIngestor.DeviceIngestor.PreProcessEvent` | orchestrator/ingestor.js:330-359 | every delivery is acknowledged exactly once; messages that do not parse and unknown sources change nothing and send nothing |
| `DeviceIngestor.DeviceIngestor.PreProcessDeviceManagerEvent` | orchestrator/ingestor.js:361-416 | what is cached and what is sent for create, update, remove, configure and other events, whatever the calls to cache and device manager do; other devices' entries are untouched |
| `DeviceIngestor.DeviceIngestor.PreProcessDeviceEvent` | orchestrator/ingestor.js:418-451 | device data is dispatched with the templates and static attributes of the record that the lookup gives, and lost if it gives none, or static attributes for a message without any |
| `DeviceIngestor.DispatchedPresents` | orchestrator/ingestor.js:361-451 | the event that is dispatched, kind by kind: its device, the templates of the record or of the lookup, its source, tenant and timestamp, and the payload and attributes with the static values over those of the message |
| `DeviceIngestor.TemplateHeadGetsTheEvent` | orchestrator/ingestor.js:361-451 | a head for one of those templates and that event, which stands for itself in the node map, gets it along each of its wires |
| `DeviceIngestor.CachedThenExactly` | orchestrator/ingestor.js:372-431 | what is cached afterwards, kind by kind |
| `DeviceIngestor.ExpectedIsScanned` | orchestrator/ingestor.js:361-451 | what the pre-processing of an event sends are the tasks of the scan of all nodes of all flows, if no flow that the event reaches misfires |
| `DeviceIngestor.AddStatic` | orchestrator/ingestor.js:439-444 | the loop puts the static attributes over those of the event, and throws if there are none to put them over |
| `DeviceIngestor.LostExactly` | orchestrator/ingestor.js:361-470 | from the cached record and the outcome of the calls: an event comes to nothing exactly if it is not understood, lacks the attributes that are transformed or extended, or its lookup fails |
| `DeviceIngestor.KeysAreDifferent` | orchestrator/DeviceCache.js:53 | cache keys are different for different devices, if no tenant has a colon in its name |
| `Executor.TaskConsumer.SendMessage` | orchestrator/amqp.js:131-147 | a message joins the end of its priority, or is refused |
| `Executor.TaskConsumer.Hop` | orchestrator/executor.js:39-117 | unless it throws, a hop sends the children with the high priority, those that are not refused, and then acknowledges exactly once, as its last action; and exactly when it throws |
| `Executor.TaskConsumer.SendAll` | orchestrator/executor.js:77-96 | the loops over outputs and wires send one task for each wire of each output with a message, in order |
| `Executor.TaskConsumer.SendOutput` | orchestrator/executor.js:80-94 | the inner loop sends one task for each wire, with the message of the output, in the same flow and with the same metadata |
| `Executor.ChildrenAreTheFanOut` | orchestrator/executor.js:43-96 | the children of a task: for each output with a message and each wire of it, in this order, one task that leads to where the wire does, with that message and the flow and metadata of its parent; none for a node without a type or wires, or a handler that does not resolve |
| `Executor.FanOutLeavesNoChoice` | orchestrator/executor.js:77-96 | so there are no other tasks and no other order |
| `Executor.KeptOfOne` | orchestrator/executor.js:83-96 | a send that is refused loses its task and no other |
| `Executor.CrashesExactly` | orchestrator/executor.js:39-66 | which hops throw: to a node that is not in the flow, or to one with a type whose handler throws |
| `Executor.OneMessageOnePort` | orchestrator/executor.js:77-80 | results with one message send on one port only |
| `Interpreter.EvaluatorUnfolds` | orchestrator/executor.js:76-96 | the recursive evaluator: a node, then whatever its results are wired to |
| `Interpreter.DeliveryKeepsWorth` | orchestrator/executor.js:39-117 | a delivery keeps executions done plus executions to come, or lowers them by what is lost |
| `Interpreter.QueueEvaluatesFlows` | orchestrator/executor.js:39-117 | in any order of delivery an emptied queue has executed exactly what the evaluator does; with losses, a part of it |
| `Interpreter.EveryRunDrains` | orchestrator/executor.js:76-96 | on acyclic flows a run has at most as many deliveries as the evaluator has executions, and without losses can go on exactly while it has fewer |
| `Interpreter.ExecutionsFollowPaths` | orchestrator/executor.js:76-96 | the executions from a task follow wire paths, each at most once, for any weight of nodes |
| `Interpreter.ExecutionsAreBoundedByPaths` | orchestrator/executor.js:76-96 | in every run the executions at a node, and all of them, are bounded by wire paths from the first tasks |
| `Interpreter.TurnIsADelivery` | orchestrator/executor.js:77-103 | a turn of the executor on its queue is a delivery of the first task, with the children behind the running ones |
| `Interpreter.Consume` | orchestrator/amqp.js:242-246 | the consumer's loop ends, has executed what the evaluator does, and has acknowledged each delivery once |
| `EventRun.EventRunsItsFlows` | orchestrator/ingestor.js:261-292 | from dispatch to the last delivery: in any order, an event's tasks end in exactly the evaluator's executions from the heads that the reached flows fire, and until then the run can go on |
| `EventRun.EventRunsWhatTheScanFires` | orchestrator/ingestor.js:261-292 | if no reached flow misfires, those are the executions from the heads that scanning every node of every flow fires |
| `DeviceCache.AddStaticAttrs` | orchestrator/DeviceCache.js:157-170 | the loops collect the static attributes over all templates |
| `DeviceCache.AddTemplateAttrs` | orchestrator/DeviceCache.js:160-167 | the inner loop adds the static attributes of one template |
| `DeviceCache.LastStaticCounts` | orchestrator/DeviceCache.js:157-170 | a label is present exactly if a static attribute with a value has it, with the value of the last such |
| `DeviceCache.InfoIsOfTheRecord` | orchestrator/DeviceCache.js:95-121 | what is cached of a record: its templates, and its static attributes template by template, those of a later one over those of an earlier one |
| `DeviceCache.DeviceCache.AddDevice` | orchestrator/DeviceCache.js:33-42 | the record is written for its device only, unless the write fails |
| `DeviceCache.DeviceCache.DeleteDevice` | orchestrator/DeviceCache.js:51-60 | the entry of that device goes, unless the call fails |
| `DeviceCache.DeviceCache.RequestDeviceInfo` | orchestrator/DeviceCache.js:95-121 | the response is cached if the cache is ready; a failed write loses the response too |
| `DeviceCache.DeviceCache.GetDeviceInfo` | orchestrator/DeviceCache.js:68-88 | a cached record is returned as it is; a miss asks the device manager, and once more if that failed; an unreadable cache asks once |
| `DeviceCache.LookupGivesARecord` | orchestrator/DeviceCache.js:68-121 | a lookup gives the cached record or an answer of the device manager, and caches what it gives if the cache is ready |
| `CacheCoherence.CacheIsCoherent` | orchestrator/DeviceCache.js:33-121 | in every run without a stale-leaving failure, while no change of the device is pending or in hand, nothing is cached or what the device manager knows |
| `CacheCoherence.QuietCacheExactly` | orchestrator/DeviceCache.js:33-121 | over every run, whatever fails: such a quiet cache is coherent if and only if the last change was not left stale or a data event has written the record since |
| `CacheCoherence.LookupsAreCurrent` | orchestrator/DeviceCache.js:68-88 | in the runs without such a failure, what a lookup hands out while the cache is quiet is the device manager's record |
| `CacheCoherence.LastChangeExactly` | orchestrator/ingestor.js:372-394 | the processing of the last change leaves the cache coherent if and only if it is not one of the named failures with an entry cached |
| `CacheCoherence.StaleUntilWritten` | orchestrator/DeviceCache.js:70-121 | while only data events come, a stale entry is repaired if and only if one of them fetches the record and writes it |
| `CacheLookup.ProcessingIsTheCode` | orchestrator/DeviceCache.js:33-121 | the steps of an event, with the device unchanged meanwhile, end with the cache and the lookup that the methods of the cache give |
| `CacheLookup.DataEventRepairsExactly` | orchestrator/DeviceCache.js:68-121 | a data event repairs a stale entry if and only if the cache is not ready or not readable at first, the device manager answers, and the cache is ready and takes the write then |
| `CacheCoherence.FailedWriteIsNotOnlyPerformance` | orchestrator/ingestor.js:375-383 | a failed write leaves the old record cached after all events have been processed |
| `CacheCoherence.UnreadableCacheKeepsRemovedDevice` | orchestrator/ingestor.js:384-394 | a remove event that cannot read the cache leaves the removed device cached |
| `DottedPath.Get` | lib/DataHandlerBase.js:113-127 | the loop returns the value at the path, through objects and the length and characters of strings, or fails where a property is missing |
| `DottedPath.Set` | lib/DataHandlerBase.js:91-106 | the loop writes the value at the path, makes missing objects, and fails at an intermediate that is not an object |
| `DottedPath.KeysAreSeparatedByDots` | lib/DataHandlerBase.js:92-114 | a text without a dot is its own key, and dots separate keys |
| `DottedPath.ExtraDotsChangeNothing` | lib/DataHandlerBase.js:92-114 | leading, trailing and doubled dots change nothing |
| `DottedPath.SplitUndoesJoin` | lib/DataHandlerBase.js:92-114 | keys joined by dots split back into themselves |
| `DottedPath.KeysAreProper` | lib/DataHandlerBase.js:92-114 | no key is empty or has a dot in it, and exactly the texts of dots have none |
| `DottedPath.PositionIsDecimal` | lib/DataHandlerBase.js:119-123 | the keys that stand for a position are decimal numbers without leading zeros |
| `DottedPath.TextProperties` | lib/DataHandlerBase.js:119-123 | a text has its length and its characters by position, and no other property |
| `DottedPath.UpdateSucceedsExactly` | lib/DataHandlerBase.js:95-104 | a write succeeds if and only if every existing intermediate is an object |
| `DottedPath.GetAfterSet` | lib/DataHandlerBase.js:91-127 | reading after a write gives the value written |
| `DottedPath.SecondSetWins` | lib/DataHandlerBase.js:91-106 | the second write to a path wins |
| `DottedPath.SetPreservesOthers` | lib/DataHandlerBase.js:91-127 | a write leaves every path alone that is not a prefix or an extension |
| `DottedPath.SetKeepsWritable` | lib/DataHandlerBase.js:95-104 | and leaves it as writable as it was |
| `DottedPath.SetsCommute` | lib/DataHandlerBase.js:91-106 | writes to such paths commute |
| `ChangeNode.HandleMessage` | orchestrator/nodes/change/index.js:138-181 | the loop applies the rules in order and rejects at the first that fails |
| `ChangeNode.OneSetRule` | orchestrator/nodes/change/index.js:138-181 | what one rule leaves at its path, type by type, and that paths apart are as they were |
| `ChangeNode.TrueWords` | orchestrator/nodes/change/index.js:138-181 | the words that mean true: 1, and true in any case of its letters |
| `ChangeNode.RuleFailsExactly` | orchestrator/nodes/change/index.js:138-181 | a rule of another kind changes nothing; a set rule fails if and only if its type is unknown, what it copies is missing, or its path cannot be written |
| `ChangeNode.RulesInOrder` | orchestrator/nodes/change/index.js:138-181 | rules are applied one after the other |
| `ChangeNode.LastWriteWins` | orchestrator/nodes/change/index.js:141-173 | literal set rules leave the last write of each path, and other paths alone |
| `SwitchNode.Get` | orchestrator/nodes/switch/index.js:142-156 | the loop gives the value at a path, undefined where a property is missing, and fails at null |
| `SwitchNode.ReadIsLookup` | orchestrator/nodes/switch/index.js:142-156 | that finds what the base class finds, and where that one fails it gives undefined unless a part of the path leads to null |
| `SwitchNode.RetrieveRuleValue` | orchestrator/nodes/switch/index.js:200-229 | an operand is the previous value, the configured one, or what the message has at a path, as a number if it can be read as one; an error becomes a value |
| `SwitchNode.OperandIsRejectedExactly` | orchestrator/nodes/switch/index.js:205-222 | an operand becomes a rejected promise if and only if it is an expression, or a path that is no text, has no key, or fails at null |
| `SwitchNode.TryRules` | orchestrator/nodes/switch/index.js:260-281 | the loop with its else flag meets the declarative reading: which outputs are the message, where it stops, and exactly when it fails |
| `SwitchNode.HandleMessage` | orchestrator/nodes/switch/index.js:244-291 | the node rejects exactly if its property cannot be read or a rule that is reached cannot be evaluated; otherwise the outputs are those of the reading, and the tested value is left on the configuration |
| `SwitchNode.NumberRules` | orchestrator/nodes/switch/index.js:12-18 | on numbers the comparisons fire for what they say: equal, not equal, less, at most, greater, at least, between |
| `SwitchNode.OtherRules` | orchestrator/nodes/switch/index.js:12-24 | equality is identity but for NaN, and not-equal its complement; the rules without operand fire for the values they name |
| `SwitchNode.KnownOperators` | orchestrator/nodes/switch/index.js:11-26 | which rules cannot be evaluated |
| `SwitchNode.OneRuleDecides` | orchestrator/nodes/switch/index.js:244-291 | from a configuration with one comparison and a number in the message to the output: the message goes out if and only if the comparison holds |
| `SwitchNode.PropertyIsTested` | orchestrator/nodes/switch/index.js:250-259 | a text at the path of the property is tested as it is, or as a number if the type of the property says so |
| `SwitchNode.ValuesAreKept` | orchestrator/nodes/switch/index.js:142-156 | any other value is tested as it is, an object as that part of the message |
| `SwitchNode.RulesTried` | orchestrator/nodes/switch/index.js:260-281 | all rules are tried, unless checkall is "false" and one fires before the last |
| `SwitchNode.OperandStandsFor` | orchestrator/nodes/switch/index.js:200-229 | what an operand stands for, kind by kind |
| `SwitchNode.ReadingIsUnique` | orchestrator/nodes/switch/index.js:260-281 | the declarative reading leaves no choice |
| `SwitchNode.FinalElseCatchesTheRest` | orchestrator/nodes/switch/index.js:268-276 | a single final else fires exactly when no rule holds |
| `SwitchNode.AdjacentElsesAlternate` | orchestrator/nodes/switch/index.js:268-276 | an else right after an else fires exactly when that one does not |
| `SwitchNode.OnePortAtMost` | orchestrator/nodes/switch/index.js:277 | with checkall "false" at most one output is not null, and it is the last |
| `SwitchNode.SwitchSendsOnOnePort` | orchestrator/executor.js:77-80 | a hop through such a node sends tasks on one port at most |

## Left out

- ZooKeeper session expiry, connection loss, process restarts and broker redelivery: the lock and context manager
  code does not handle them; a session is assumed to last.
- ZeroMQ, Kafka, RabbitMQ, Redis, MongoDB and HTTP transport, reconnection and backoff: only the contracts of
  queue, store and channel are kept. Messages between client and context manager may be lost but not changed.
- The creation of the data path before the lock node (`contextManager/ZookeeperHelper.js`): a lock request starts at
  the creation of its lock node, in an existing path.
- Children of a lock path that are not lock nodes (nested context names), and the overflow of ZooKeeper's sequence
  number beyond 2^31 - 1: the counter of a path is unbounded.
- Commands that lack a field, other than an empty content, and the `dump` command.
- JavaScript coercions and floating point: values of the windowed sum are integers, and `Number()`, the relational
  operators, substring search and regular expressions of the switch node are parameters. `parseInt` is exact for any length.
- The check of the parameters of the cumulative-sum node, which refuses an execution before it asks for its lock, and
  the reading of value and timestamp from the message: an event is given as a value and a timestamp.
- SwitchNode.HandleMessage: leaves open what the JSON of the next task makes of the value left on the configuration.
- `checkConfig` of the switch and change nodes (nothing in the repository calls it) and jsonata expressions.
- DottedPath.Set: does not model that other references to the changed objects see the write, because messages are value trees.
- ChangeNode.LastWriteWins: is stated for rules whose paths are equal or apart; rules of type `msg`, which may share
  objects, are applied on value trees.
- Arrays in messages: a message is a tree of objects and plain values. The length of a string counts characters, not
  UTF-16 units.
- Handlers of other nodes: the interpreter is stated for handlers that are functions of node, message, flow and
  metadata. A handler that keeps state between messages, as the switch node's `previousValue`, is not covered.
- Executor.TaskConsumer.Hop: the payload is a value rather than text; that `JSON.parse` undoes `JSON.stringify` is assumed.
- Pipeline.DevicesAreServedInOrder: assumes one consumer per queue, as one process makes; a second process would add more.
- The conversion of template identifiers to strings, the layout of create and update messages for the flows
  (`_transformDeviceEvent`) and what else a message holds besides its attributes: parameters of the event. Attributes
  that are not an object are not modelled.
- CumulativeService.WindowedSumIsSerialisable: assumes that only executions of the node release write locks on its
  context, as they do in `handleMessage`, and that a saved context is read back as it was.
- Flow changes while an event is dispatched: all lookups of one event see one collection.
- CacheCoherence.CacheIsCoherent: is about one device, with its events processed one at a time (proved for the queues
  above); the initial filling of the cache is not modelled, the cache starts coherent.
- Geofence, template, HTTP, FTP, notification and device-actuation nodes, remote nodes, Docker and Kubernetes clients,
  the REST API, authentication, locale files, HTML editors, logging and health checks.
