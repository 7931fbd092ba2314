# Verified model of the kv_engine front end

This project models the parts of the Couchbase memcached front end in which several commands,
connections or threads are in flight at once, and proves what holds of every run of them. Apart from
a few counterexamples, every result is a statement about all inputs, all interleavings and all
answers of the engine.

| files | what they model |
|---|---|
| `Mcbp.dfy` | the framing of the binary protocol, with an encoder it is proved against |
| `CommandLog.dfy`, `CookieDeque.dfy`, `Connection.dfy` | the command pipeline of a connection: out-of-order execution with barriers, notifications, the time slice, close |
| `Buckets.dfy`, `BucketManager.dfy` | creating, deleting and iterating over buckets, selecting and leaving them, buffers being sent: the steps, and the methods that carry them out in place |
| `BucketCounts.dfy`, `BucketInvariant.dfy` | what every step of that system keeps: names, owners, counts, and what they say about the engine |
| `BucketSafety.dfy`, `BucketProgress.dfy`, `BucketScenes.dfy` | what that means for every run, how long a delete waits, and runs that show what is not kept |
| `BucketSelect.dfy`, `BucketVisits.dfy`, `BucketLife.dfy` | what a select, forEach, destroyAll, a create and a delete lead to, in every run |
| `ExternalAuthState.dfy`, `ExternalAuthSteps.dfy`, `ExternalAuth.dfy` | the external authentication manager, its provider connections, and their reference counts |
| `DcpStream.dfy`, `DcpPipe.dfy` | the DCP proxy of the cluster framework |
| `Replication.dfy` | the vbucket map of a test bucket and the replication streams made from it |
| `FdBudget.dfy` | how file descriptors are shared out |
| `TimeKeeping.dfy` | expiry times and the correction of the server's clock |

`Wrappers.dfy` holds `Option`.

Main results:

- **Pipeline.** `Connection.Run`: if a barrier is involved, a command is done before the next one
  starts, and a command is a barrier exactly if the validator says so or the mode is ordered; without
  unordered execution the pipeline is a strict one-at-a-time queue; a stream of packets is taken apart
  into exactly those packets, and every accepted one has one fate; a queued command always has
  something that will wake it up; the first cookie is never replaced. The code nowhere states the
  invariant that makes this true; it is `CookieDeque.Shape`.
- **Framing.** Whatever a client encodes is recognised as what it is, whatever follows it
  (`Mcbp.EncodedIsFramed`), and a stream of packets can be cut in one way only (`Mcbp.CutIsUnique`).
- **Buckets.** For any number of connections, creators, deleters, iterators and cluster configuration
  updates, and in every run: names and owners are unique, and every client count is its holders less
  what was given up twice. For every bucket that no connection gave up twice: its engine is destroyed
  only when nobody holds a reference to it and nobody can get one again, and a delete waits for
  exactly as many releases as there were clients, none of them its own connection. A connection that
  holds a bucket holds the one it selected; forEach visits every bucket, destroyAll leaves none, and both
  end. What the users of the buckets rely on holds after a run if and only if no step of it was one of two
  kinds (`BucketSafety.PromisesHoldIffHarmless`).
- **Authentication.** No lambda is ever queued for, or run on, a destroyed connection; a connection
  is destroyed exactly when its counts say nobody refers to it, and then nobody does; each task is in
  one place and is called back at most once, with an answer to its own request that a provider sent,
  or with a failure if the request had no provider; after a turn of the
  manager no request is without a provider, and whoever is still queued came in during that turn.
- **DCP proxy.** Copying bytes refines looking at every frame; in terms of packets, the other side gets
  all but those about adding streams, or what the filter makes of them.

Things the code does not do, each with the exact condition and a run that shows it:

- A DCP connection can give up its bucket twice. close() does not wait for a blocked command on a DCP
  connection, so one that deletes its own bucket can be closed while destroy() has yet to take it out
  of it. Both call disassociate_bucket(), the client count drops twice, and the engine is destroyed
  while another connection is bound to it (`BucketScenes.ClosingDeleterDestroysABucketInUse`). Nothing
  of that kind happens if a connection is not closed before its own delete has cleared its index
  (`BucketSafety.NeverLateNorEarlyKeepsPromises`).
- For the same reason a DCP connection is destroyed with its bucket while a command of it is blocked in
  the engine (`Connection.Connection.ExecuteCommandsCallback`, `Connection.BlockedDcpIsDestroyed`).
- Shutdown can take the "no bucket" slot. `destroyAll` reads the state and then the name of a slot
  without a lock. If a client deletes the bucket in between, the name is empty, the delete that
  follows claims slot 0, and its engine can be destroyed while connections are bound to it
  (`BucketSafety.NoBucketStaysReady`, `BucketSafety.EmptyNameIsALateRead`,
  `BucketScenes.ShutdownDestroysNoBucket`). The results about the other slots do not depend on it.
- The client count of that slot does not recover: it lags by the number of connections that ever
  deleted their own bucket, and that is the number of such connections still alive only until the
  first of them leaves (`BucketSafety.NoBucketDrift`, `BucketScenes.DriftOutlivesTheOrphan`).
- A connection can carry the index of a bucket whose engine is gone, exactly while it is between
  giving up its reference and clearing the index (`BucketSafety.EngineIsDestroyedUnreferenced`,
  `BucketScenes.IndexOutlivesTheEngine`). Whoever looks at its bucket then, as those that iterate
  over all connections do, may see the slot Destroying, reset, or reused.
- A provider that registers twice is unregistered once when it is closed, and then is never destroyed
  and stays a provider until it is shut down again (`ExternalAuth.AuthManager.Callback`,
  `ExternalAuth.AuthManager.Turns`, `ExternalAuth.RegisteredTwice`).
- An idle pipeline takes the next frame exactly if the concurrency limit is above the number of
  cookies it holds. It never holds more than two, so a limit of three or more always does; with a
  limit of two it can starve, asking for callbacks for ever
  (`Connection.Connection.ExecuteCommandPipeline`, `CookieDeque.LongDequeIsBusy`,
  `Connection.TwoCookiesStarve`).
- The copying mode of the DCP proxy forwards an extra DcpAddStream if one arrives after the awaited
  ones (`DcpPipe.Pipe.ForwardsAllButAddStreams`, `DcpPipe.ExtraAddStream`).
- The file descriptor budget underflows without descriptors for the reservation, and is exceeded
  if the wish wraps (`FdBudget.Settings.Recalculate`, `FdBudget.TooFewDescriptors`,
  `FdBudget.WishWraps`).
- A wall clock set back by about two minutes between two checks, so that it reads about a minute less
  than at the first, is not noticed, because the check compares the distance only; nor is a drift by
  as much as a check is late (`TimeKeeping.NoticedUnlessPutBack`, `TimeKeeping.UnnoticedDrift`,
  `TimeKeeping.PutBackUnnoticed`, `TimeKeeping.LateLookUnnoticed`).
- A protocol expiry other than zero can mean "never" if the clock says the server started before 1970
  (`TimeKeeping.OnlyZeroIsNever`, `TimeKeeping.FebruaryIsNever`).

Where the engine, the network, a packet filter or a scheduler decides something the model leaves the
choice open.

## Model

| member | source | states |
|---|---|---|
| Mcbp.EncodedIsFramed | include/mcbp/protocol/header.h:46-83 | a packet, in either encoding and whatever follows it, is recognised as a whole exactly if its magic is legal and its parts fit in its body, and as malformed otherwise |
| Mcbp.HeaderReadsBack | include/mcbp/protocol/header.h:46-83 | magic, opcode and all lengths of an encoded packet read as they were written, most significant byte first |
| Mcbp.CutIsIncomplete | daemon/connection.cc:1434-1486 | any proper beginning of a packet is incomplete |
| Mcbp.CutIsUnique | daemon/connection.cc:1434-1486 | frames cut off a stream of packets, in whatever way, are the first of those packets |
| Mcbp.NextFrame | include/mcbp/protocol/header.h:30-230 | a recognised frame is at least a header long and lies within the buffer |
| Mcbp.NextFrameIsStable | daemon/connection.cc:1434-1486 | a frame is recognised from its header alone: bytes that arrive later never change an answer other than "incomplete" |
| CommandLog.ArrivalKeepsOrder | docs/UnorderedExecution.md:16-25 | a new arrival does not disturb the order of barriers |
| CommandLog.RunKeepsOrder | docs/UnorderedExecution.md:16-25 | an execution that starts nothing too early keeps every barrier apart from the commands before and after it |
| CommandLog.BarriersOnlyIsFifo | docs/UnorderedExecution.md:3-7 | when every accepted command is a barrier, execution is strictly first in first out, one at a time, with no run after the last one of a command |
| CookieDeque.ExactlyOneFate | daemon/connection.cc:546-638 | an accepted command is done, dropped or pending, never two of these, and pending in one cookie only |
| CookieDeque.LongDequeIsBusy | daemon/connection.cc:546-549 | with nothing in flight the deque has at most two entries |
| CookieDeque.BusyAndBlocked | daemon/connection.cc:473-522 | something in flight means a cookie blocked in the engine, or a queued one alone at the back |
| CookieDeque.QueuedIsLast | daemon/connection.cc:480-500 | a command that has to wait is the last one, is a barrier, and everything before it is blocked or unused |
| CookieDeque.StartedBarrierIsAlone | daemon/connection.cc:496-500 | nothing else is in flight while a barrier runs |
| CookieDeque.RunKeepsWellFormed | daemon/connection.cc:502-513 | executing a command the invariant allows to run keeps the order of barriers |
| CookieDeque.ExecutedKeepsInv | daemon/connection.cc:572-591 | starting a new command, whether it completes or blocks, keeps the invariant even if it changes the execution mode |
| CookieDeque.QueuedKeepsInv | daemon/connection.cc:581-591 | so does queueing a barrier behind commands in flight |
| CookieDeque.BlockedKeepsInv | daemon/connection.cc:665-689 | so does a notified command that blocks again |
| CookieDeque.ResetKeepsInv | daemon/connection.cc:502-507 | so does retiring a completed command in place |
| CookieDeque.EraseKeepsInv | daemon/connection.cc:672-681 | so does erasing its cookie |
| CookieDeque.DropKeepsInv | daemon/connection.cc:1513-1523 | so does dropping a command that was not started, at close |
| Connection.PacketAvailable | daemon/connection.cc:1434-1486 | a packet is available exactly if a whole frame is in the buffer, whatever the size limit; an incomplete one is an error exactly if it is going to exceed the limit |
| Connection.Connection.constructor | daemon/connection.cc:1308-1321 | a new connection has one unused cookie, an empty log, and satisfies the invariant |
| Connection.Connection.Execute | daemon/cookie.cc:121-179 | an execution completes or blocks one command and is logged; only a command that cannot be reordered may change the mode |
| Connection.Connection.ExecuteQueued | daemon/connection.cc:502-518 | a queued barrier is executed once; its cookie is reset, erased or blocked, and the front stays |
| Connection.Connection.ProcessAllReadyCookies | daemon/connection.cc:473-522 | the scan is at most one execution: of the queued barrier, if and only if nothing is blocked; otherwise nothing changes |
| Connection.Connection.EmplaceCookie | daemon/connection.cc:546-549 | the next command gets the unused back cookie or a new one |
| Connection.Connection.TakeFrame | daemon/cookie.cc:439-545 | a request is rejected exactly if it is not valid, throttled exactly if it is and a limit is exceeded, and otherwise a barrier exactly in ordered mode or if the validator does not support its being reordered; a response is accepted, and a barrier exactly in ordered mode |
| Connection.Connection.Dispatch | daemon/connection.cc:567-592 | an accepted command is started unless it is a barrier and something is in flight |
| Connection.Connection.Start | daemon/connection.cc:572-591 | a command that may start runs once; done, its cookie is reset, otherwise it keeps a private copy of its frame; the invariant holds even if the mode changed |
| Connection.Connection.Postpone | daemon/connection.cc:581-591 | a barrier behind commands in flight waits with a private copy of its frame |
| Connection.Connection.Refuse | daemon/connection.cc:593-632 | a rejected or rate limited frame is answered and leaves an unused cookie and the invariant |
| Connection.Connection.Handle | daemon/connection.cc:551-632 | a frame is judged so, and executed, queued or refused; only an accepted one costs budget, and only one that is not a waiting barrier is executed; a refused one is answered, and shuts the connection down exactly if there are too many connections; when the read loop stops |
| Connection.Connection.HandlePacket | daemon/connection.cc:546-638 | one round drains exactly one frame, the one at the head, which gets exactly one fate, and the bytes still add up |
| Connection.Connection.ReadPackets | daemon/connection.cc:543-639 | the read loop ends, stays within budget and deque limit, reads everything that may be read, each frame with its own verdict, and reports a bad header it comes to |
| Connection.Connection.Rearm | daemon/connection.cc:642-662 | reading is enabled exactly if output has room and nothing in flight forbids it, and a callback is triggered exactly if a frame is already there and may be taken |
| Connection.Connection.ReadAndRearm | daemon/connection.cc:537-662 | the rest of a pass: no lost wakeup, nothing readable left unread, nothing changed if no frame was taken |
| Connection.Connection.ExecuteCommandPipeline | daemon/connection.cc:524-663 | budget, deque limit, no lost wakeup, nothing readable left unread; an idle pipeline takes a frame exactly if the deque is below the limit, and otherwise stays as it is |
| Connection.Connection.ProcessNotifiedCookie | daemon/connection.cc:665-689 | a blocked command runs once more; if done, the front is reset and any other cookie erased, and a callback is triggered; for an unused cookie nothing happens |
| Connection.Connection.ReleaseCookies | daemon/connection.cc:1509-1523 | close drops what was not started and counts references up to the first blocked cookie |
| Connection.Connection.Close | daemon/connection.cc:1509-1552 | the state becomes immediate_close if and only if no counted reference, no blocked command (unless DCP) and no data is left |
| Connection.Connection.StepDcp | daemon/connection.cc:803-868 | a producer steps within what is left of the budget, a consumer within a budget of its own; every step counted succeeded, it stops only for want of a message, room or budget, asks for another callback exactly for want of budget, and the connection closes only after one that failed for good |
| Connection.Connection.Teardown | daemon/connection.cc:879-893 | a connection deleted at the end of a callback has no reference but its own, and none on any cookie |
| Connection.Connection.ServeDcp | daemon/connection.cc:803-868 | nothing changes unless it is a running DCP connection whose first cookie is idle; a producer steps within the budget, a consumer within its own, it closes only after a step that failed for good, and a step that found room and nothing against it but the budget asks for another callback |
| Connection.Connection.Serve | daemon/connection.cc:786-868 | executions and DCP steps while the connection is running stay within the budget, whatever a command makes of the budget meanwhile |
| Connection.Connection.ExecuteCommandsCallback | daemon/connection.cc:786-896 | executions and DCP steps of one callback are at most max_reqs_per_event as it was at the start, and as much again as it is at the end for a DCP consumer; a connection is deleted only without references; a DCP one is deleted with its bucket whatever is blocked; one that is stuck, has a bad header at the head of its input or whose bucket is going away does not go on |
| Connection.NoCountedReferences | daemon/connection.cc:1513-1523 | if nothing is blocked and close counted no references, no cookie is referenced |
| Connection.AllCounted | daemon/connection.cc:1513-1523 | nor if the connection is in ordered mode, whatever is blocked |
| Connection.ReferencesKeepInv | daemon/server_api.cc:101-118 | reference counts of cookies may change at any time without a claim depending on them |
| Connection.HasOneFate | daemon/connection.cc:546-638 | every accepted command is done, dropped or pending in one cookie, and only one of these |
| Connection.InvKeepsPromises | daemon/connection.cc:473-689 | the invariant implies barrier order, strict order without unordered execution, exactly one fate, private copies |
| Connection.PacketsAreTaken | daemon/connection.cc:543-639 | the frames taken off a stream of packets are those packets, in order |
| Connection.Run | daemon/connection.cc:473-896 | all of this, each arrival judged by the callback that took it, the deque limit and the wakeup of queued commands, in every run; the frames drained and the buffer are the bytes of the events that took effect, which are all unless the connection was deleted |
| Connection.TwoCookiesStarve | daemon/connection.cc:543-545 | a run with a limit of two after which nothing is in flight, a frame is waiting, and any number of callbacks take nothing and ask for another |
| Connection.BlockedDcpIsDestroyed | daemon/connection.cc:1541-1551 | a run in which a DCP connection is deleted while a command of it is blocked |
| Buckets.Find | daemon/buckets.cc:306-321 | the first slot with a name |
| BucketManager.Manager.constructor | daemon/buckets.cc:510-522 | the initial array: slot 0 Ready and nameless, the others unused; the empty trace leads there |
| BucketManager.LocalIsQuiet | daemon/buckets.cc:152-183 | whatever is done without the global lock only takes names away, leaves free slots free and starts no thread |
| BucketManager.Manager.OtherThreads | daemon/buckets.cc:152-183 | so it is for any schedule, of which exactly the steps without that lock are taken |
| BucketManager.Manager.ScanForCreate | daemon/buckets.cc:152-162 | although other threads reset and change slots while it goes on, a name it does not find is nowhere, one it finds is there, and the free slot it settles for is still free |
| BucketManager.Manager.Create | daemon/buckets.cc:152-183 | a slot that is claimed was free and is the only one of its name, whatever others do until it is claimed; otherwise no thread owns anything, and the name exists exactly if that is the answer |
| BucketManager.Manager.ScanForDestroy | daemon/buckets.cc:306-321 | the first slot with the name decides, and is claimed exactly if Ready; nothing else changes |
| BucketManager.Manager.TakeStep | daemon/buckets.cc:138-500 | every step, carried out in place on the array and the fields, leaves the object in the state its trace of steps leads to |
| BucketManager.RunEvents | daemon/buckets.cc:138-500 | every run on the array leads to where its events lead to; there slot 0 is the nameless Ready one, names and owners are unique, counts are exact, whoever holds a reference finds an engine and an engine is destroyed unreferenced, if and only if every step was harmless |
| BucketCounts.StepKeepsOwners | daemon/buckets.cc:138-500 | every step of every thread keeps names unique, one owner for each slot in transition, and an engine in exactly the slots that should have one |
| BucketCounts.StepAccounted | daemon/memcached.cc:133-215 | every step keeps every client count equal to holders and pins less what was given up in excess |
| BucketCounts.ReleaseAccounted | daemon/memcached.cc:144-152 | so does giving up a bucket, by whoever and in whatever phase of the connection |
| BucketInvariant.StepOk | daemon/buckets.cc:138-500 | every step of every thread, without exception, keeps the invariant |
| BucketInvariant.PinningOk | daemon/protocol/mcbp/cluster_config_executor.cc:87-281 | so does pinning a Ready bucket without the global lock, and giving up the pin of one that is being deleted meanwhile |
| BucketInvariant.DetachingOk | daemon/buckets.cc:341-344 | so does a delete that takes its own connection out of the bucket, whatever that connection is doing |
| BucketSafety.ReachableIsOk | daemon/buckets.cc:138-500 | so the invariant holds in every state of every run |
| BucketSafety.NamesAreUnique | daemon/buckets.cc:152-183 | in every run slots in use have different names, none but slot 0 an empty one, and slot 0 is the nameless Ready one exactly if no delete ever claimed it |
| BucketSafety.OwnershipIsUnique | daemon/buckets.cc:306-330 | in every run a slot is in transition exactly if one thread owns it, and nothing is ever Stopping |
| BucketSafety.CountsAreAccountedFor | daemon/memcached.cc:133-215 | in every run the client count of a bucket is its connections, the pin of forEach and the pins of those that set or push a cluster configuration, less the times it was given up twice; it is exact if and only if that never happened, and then fits its 32 bits; the transit count is the buffers being sent |
| BucketSafety.NoBucketDrift | daemon/buckets.cc:341-344 | the count of slot 0 is its bound connections and pins less the connections that ever deleted their own bucket; those still alive exactly if none has left yet |
| BucketSafety.EngineIsDestroyedUnreferenced | daemon/buckets.cc:419-441 | when the engine of a bucket nobody gave up twice is destroyed, and until the slot is reset, no connection, iterator, pin or buffer holds a reference to it, and a connection that still carries its index has given up its reference and is about to clear the index |
| BucketSafety.NoDanglingReference | daemon/memcached.cc:154-197 | whoever holds a reference to such a slot finds an engine in it, and so it is for slot 0 if no delete claimed it |
| BucketSafety.NobodySeesANewBucket | daemon/buckets.cc:189-282 | a bucket being created has a name and no reference, however the creation ends |
| BucketSafety.FreeSlotsAreClean | daemon/buckets.cc:28-46 | a slot that was reset is as good as new, although reset leaves the counters alone |
| BucketSafety.IteratedBucketStaysReady | daemon/buckets.cc:446-480 | in every run the bucket forEach works on stays Ready and has its engine, and is counted |
| BucketSafety.PromisesHoldExactly | daemon/buckets.cc:138-500 | in every state of every run all of this holds together if and only if no delete ever claimed slot 0 and no connection gave up a bucket twice |
| BucketSafety.PromisesHoldIffHarmless | daemon/buckets.cc:138-500 | over every run: if and only if no step of it was a delete by destroyAll under an empty name, or a connection giving up a bucket it had given up |
| BucketSafety.StepKeepsNoBucket | daemon/buckets.cc:487-500 | nothing but such a delete by destroyAll ever claims slot 0, and slot 0 never is the no-bucket again after one |
| BucketSafety.NoBucketStaysReady | daemon/buckets.cc:487-500 | slot 0 stays Ready all along a run if and only if destroyAll never deletes by an empty name in it |
| BucketSafety.EmptyNameIsALateRead | daemon/buckets.cc:493-494 | the name destroyAll reads is empty if and only if the slot it saw Ready was deleted and reset before the name was read |
| BucketSafety.BoundDeletersDoNotDouble | daemon/connection.cc:1541-1545 | as long as no connection was closed before its own delete had cleared its index, only such an early close gives up a bucket twice |
| BucketSafety.NeverLateNorEarlyKeepsPromises | daemon/buckets.cc:341-344 | so the promises hold after every run without a late read and without an early close |
| BucketSafety.OnlyTheEmptyNameHitsNoBucket | daemon/buckets.cc:487-500 | a delete would take slot 0 exactly for the empty name |
| BucketProgress.WaitingStep | daemon/memcached.cc:144-177 | while a delete waits no step of anyone adds a client, nor a buffer once the clients are gone |
| BucketProgress.WaitingStaysSound | daemon/buckets.cc:341-431 | nor can anyone give up the bucket twice any more |
| BucketProgress.WaitCountsDown | daemon/buckets.cc:346-431 | over any run the clients (then buffers) that are left are those there were less the releases, by connections and by those that set or push a cluster configuration |
| BucketProgress.WaitEnds | daemon/buckets.cc:346-431 | the wait is over exactly after as many releases as there were clients (then buffers) |
| BucketScenes.ClosingDeleterDestroysABucketInUse | daemon/connection.cc:1541-1551 | a run in which a DCP connection is closed during its own delete, is taken out of the bucket twice, and the engine is destroyed while another connection is bound to it |
| BucketScenes.ShutdownDestroysNoBucket | daemon/buckets.cc:487-500 | a run in which destroyAll claims slot 0, and its engine is destroyed, while a connection is bound to it |
| BucketScenes.DriftOutlivesTheOrphan | daemon/memcached.cc:149-152 | a run after which no connection is left and the count of slot 0 is -1 |
| BucketScenes.IndexOutlivesTheEngine | daemon/memcached.cc:149-152 | a run in which a connection between the two statements of disassociate_bucket carries the index of a bucket whose engine is gone |
| BucketSelect.HoldsWhatItSelected | daemon/memcached.cc:154-197 | in every run a connection that holds a bucket holds one with the name it selected last, for as long as it holds it |
| BucketSelect.JoinsWhatItSelected | daemon/memcached.cc:162-177 | and that bucket was Ready when it joined it |
| BucketSelect.FoundNothing | daemon/memcached.cc:162-197 | in every run a connection that found no bucket and joins slot 0 came to every slot at a moment when that was not Ready under the name it selected |
| BucketSelect.SearchGoesOn | daemon/memcached.cc:162-197 | a search that comes to what it looks for takes it, and otherwise goes on to the next slot |
| BucketVisits.BecomesReady | daemon/buckets.cc:189-282 | a bucket becomes Ready exactly when its engine was initialised with success |
| BucketVisits.ForEachVisitsAll | daemon/buckets.cc:446-480 | in every run forEach, when it comes to the end, has worked on every bucket that was Ready when it began, and all of them still are |
| BucketVisits.ForEachNeverWaits | daemon/buckets.cc:448-480 | forEach can always go on, whatever others do |
| BucketVisits.ForEachEnds | daemon/buckets.cc:448-480 | and in every run it takes no more of its own steps than two for each slot and one |
| BucketVisits.DestroyAllLeavesNone | daemon/buckets.cc:487-500 | over every run in which no bucket becomes Ready meanwhile no bucket is Ready where destroyAll has been, and none but slot 0 when it is done |
| BucketVisits.DestroyAllWaitsFor | daemon/buckets.cc:492-499 | destroyAll waits for forEach before it starts a delete, goes on exactly when that delete is done, and waits for nothing else |
| BucketVisits.DestroyAllEnds | daemon/buckets.cc:492-499 | and in every run it takes at most four steps of its own for each slot |
| BucketLife.CreateGoesOn | daemon/buckets.cc:189-282 | a create ends after at most four steps of its own: with the bucket Ready under its name if its engine was made and initialised, and otherwise with the slot free; it touches no other slot |
| BucketLife.DestroyGoesOn | daemon/buckets.cc:341-441 | a delete ends after at most six, with the slot free; it touches no other slot |
| BucketLife.DeleteTakesTheNamedOne | daemon/buckets.cc:300-330 | a delete takes the bucket of that name if it is Ready, and otherwise changes nothing |
| BucketLife.DeleteWaitsForOthers | daemon/buckets.cc:341-346 | in every run a delete that waits does not wait for the connection that asked for it |
| BucketLife.NothingElseMovesIt | daemon/buckets.cc:341-346 | in every run a connection that asked for a delete, unless it is a DCP connection, stays as it is until the delete is done: nothing but the delete moves it |
| BucketLife.CountsAreHistory | daemon/memcached.cc:133-215 | in every run the transit count is the buffers handed to the network less those sent, and the client count the connections that hold the bucket and the pins taken and not given back, less double releases |
| ExternalAuthSteps.ExactlyOnePlace | daemon/external_auth_manager_thread.cc:149-261 | a task is queued, outstanding, called back, overwritten or dropped, and only one of these; it is called back once at most |
| ExternalAuthSteps.ResponsesArePaired | daemon/external_auth_manager_thread.cc:231-257 | until the 32-bit counter wraps no two calls are for the same id, and no id that was answered is outstanding |
| ExternalAuthSteps.IssueAccounted | daemon/external_auth_manager_thread.cc:231-232 | handing out an id keeps every task in one place, also when the id is in use |
| ExternalAuthSteps.IssueFresh | daemon/external_auth_manager_thread.cc:231-232 | until the counter wraps the next id is unused |
| ExternalAuthSteps.CallAccounted | daemon/external_auth_manager_thread.cc:253-257 | answering moves a task from outstanding to called |
| ExternalAuthSteps.PostDecrement | daemon/external_auth_manager_thread.cc:283-291 | queueing the decrement behind everything else keeps each queued packet covered by a reference |
| ExternalAuthSteps.RunFront | daemon/external_auth_manager_thread.cc:284-291 | running the first queued job keeps the counts exact and the rest covered |
| ExternalAuthSteps.DestroyCounted | daemon/connection.cc:1547-1551 | a connection whose counts are down to its own is on no list, reserved by nobody and has nothing queued, so that destroying it keeps the counts |
| ExternalAuthSteps.UnreferencedWillClose | daemon/connection.cc:1547-1551 | a connection being closed that nothing refers to has its callback scheduled |
| ExternalAuth.AuthManager.Add | daemon/external_auth_manager_thread.cc:29-34 | one more registration and one more reference |
| ExternalAuth.AuthManager.Remove | daemon/external_auth_manager_thread.cc:36-45 | the first registration, and no other, moves to the list of dead connections; the references stay |
| ExternalAuth.AuthManager.EnqueueRequest | daemon/external_auth_manager_thread.cc:47-51 | a new task is queued last |
| ExternalAuth.AuthManager.ResponseReceived | daemon/external_auth_manager_thread.cc:53-77 | a response is queued, unless it is a success that cannot be parsed |
| ExternalAuth.AuthManager.Shutdown | daemon/connection.cc:56-58 | any state becomes closing, and nothing else changes |
| ExternalAuth.AuthManager.Reserve | daemon/server_api.cc:101-103 | the front cookie gets a reference |
| ExternalAuth.AuthManager.Release | daemon/server_api.cc:105-118 | a connection whose cookie is reserved exists, and the decrement is queued on its thread |
| ExternalAuth.AuthManager.RunJob | daemon/external_auth_manager_thread.cc:181-229 | a job that runs finds its connection alive |
| ExternalAuth.AuthManager.Finish | daemon/connection.cc:885-893 | destroyed exactly if it is not running, its counts are down to one and nothing else holds it up |
| ExternalAuth.AuthManager.Callback | daemon/connection.cc:879-893 | the same, with the unregistration: a destroyed connection is on no list, in no request and in no queue; a closing one stays registered exactly if it was registered more than once |
| ExternalAuth.AuthManager.OtherThreads | daemon/external_auth_manager_thread.cc:255-257 | whatever others do while the mutex is free, or held, keeps the invariant and leaves requests and ids alone; nothing is queued as a response but what providers sent, and nobody is told to send the active users |
| ExternalAuth.AuthManager.Abandon | daemon/external_auth_manager_thread.cc:271-281 | exactly the requests with a connection lose it, and each gets a failure queued |
| ExternalAuth.AuthManager.GiveUp | daemon/external_auth_manager_thread.cc:264-292 | then the reference is handed to a queued decrement |
| ExternalAuth.AuthManager.PurgePendingDeadConnections | daemon/external_auth_manager_thread.cc:262-293 | after it no request is with a connection that was on the list, and all of them have an answer queued |
| ExternalAuthSteps.AllAnswered | daemon/external_auth_manager_thread.cc:243-261 | once all queued responses are handled nobody without a provider is left |
| ExternalAuth.AuthManager.IssueNext | daemon/external_auth_manager_thread.cc:231-232 | the task at the front gets the next id and leaves the queue |
| ExternalAuth.AuthManager.CancelRequests | daemon/external_auth_manager_thread.cc:150-162 | without a provider every task gets an id and a queued failure |
| ExternalAuth.AuthManager.Forward | daemon/external_auth_manager_thread.cc:167-233 | a packet is queued for the provider under the id of the request; an unknown kind of task is dropped |
| ExternalAuth.AuthManager.ProcessRequestQueue | daemon/external_auth_manager_thread.cc:149-234 | the queue is emptied and every task went to the first provider, or was cancelled if there is none |
| ExternalAuth.AuthManager.CallBack | daemon/external_auth_manager_thread.cc:253-257 | a request is forgotten before its task is called |
| ExternalAuth.AuthManager.ProcessResponseQueue | daemon/external_auth_manager_thread.cc:243-261 | exactly the requests with a queued response are called back, in the order of the queue and each with the first response to it, whatever happens while the mutex is free, and none without a provider is left; afterwards the queue holds exactly what came in meanwhile |
| ExternalAuth.AuthManager.Answer | daemon/external_auth_manager_thread.cc:247-259 | one response: whoever waits for it is called and forgotten, and nobody else |
| ExternalAuth.AuthManager.Sleep | daemon/external_auth_manager_thread.cc:85-96 | what happens during the wait takes nothing from the queues |
| ExternalAuth.AuthManager.Work | daemon/external_auth_manager_thread.cc:98-107 | whoever was with a connection that was to be removed, or had an answer queued, was called; only tasks known before are called; the queue then holds only what came from providers meanwhile |
| ExternalAuthSteps.DeliveriesAreFirst | daemon/external_auth_manager_thread.cc:243-261 | each request with a response gets the first one with its id, and nobody else is called |
| ExternalAuth.AuthManager.PushActiveUsers | daemon/external_auth_manager_thread.cc:123-147 | the list goes to the first provider |
| ExternalAuth.AuthManager.Iterate | daemon/external_auth_manager_thread.cc:84-115 | after a turn no request is without a provider, whoever is queued was enqueued during it, whoever had an answer queued before it, or was with a connection that was to be removed, was called; a turn that has something to do calls only tasks it knew before; what is left in the queue came from providers during it; the first provider is told to send the active users if it is time, and otherwise nobody is |
| ExternalAuth.AuthManager.Turns | daemon/external_auth_manager_thread.cc:84-115 | and no number of turns destroys a connection that is still registered while it is being closed |
| ExternalAuth.Run | daemon/external_auth_manager_thread.cc:29-293 | in every run: one place for each task, called back once at most with an answer to its own request, which a provider sent with that id or which is the failure made up for a request that had no provider or lost it; nothing refers to a connection that is gone; one being closed that nothing refers to will notice; after n turns no request is without a provider, whoever is queued was enqueued in the n-th, and no failure the manager made up is left in the queue |
| ExternalAuth.AuthManager.ValidKeepsPromises | daemon/external_auth_manager_thread.cc:29-293 | the invariant implies these |
| ExternalAuth.RegisteredTwice | daemon/connection.cc:879-883 | a provider that registered twice is such a connection |
| DcpStream.StreamAppend | cluster_framework/dcppipe.cc:120-184 | what a stream comes to does not depend on where it is cut |
| DcpStream.CleanPrefix | cluster_framework/dcppipe.cc:94-99 | a stream without a bad frame has none in any beginning |
| DcpStream.NothingButAddStreamsIsLost | cluster_framework/dcppipe.cc:141-182 | without a filter only add stream frames and the incomplete end are not forwarded |
| DcpStream.CopyIsExact | cluster_framework/dcppipe.cc:186-197 | copying a stream is the same as looking at its frames if and only if it has no add stream |
| DcpStream.IdentityFilter | cluster_framework/dcppipe.cc:128-139 | a filter that returns what it was shown changes nothing |
| DcpStream.PacketsAreForwarded | cluster_framework/dcppipe.cc:120-184 | of a stream of packets all but those about adding streams are forwarded, unchanged and in order |
| DcpStream.PacketsAreFiltered | cluster_framework/dcppipe.cc:127-139 | a filter is shown each packet and the side it came from, and what it returns is sent instead; nothing for nothing |
| DcpPipe.Framed | cluster_framework/dcppipe.cc:127-182 | taking one frame keeps the account of what was forwarded, and a bad frame shows in the stream |
| DcpPipe.Pipe.GetFrame | cluster_framework/dcppipe.cc:80-118 | takes a whole frame off the input, or nothing, and throws exactly at a bad header |
| DcpPipe.Pipe.StreamAdded | cluster_framework/dcppipe.cc:148-150 | the running callback fires exactly at the last awaited stream |
| DcpPipe.Pipe.TakeFrame | cluster_framework/dcppipe.cc:127-183 | one round of the loop keeps the account, and switches to copying at the right frame, which takes along all that has arrived |
| DcpPipe.Pipe.PassThrough | cluster_framework/dcppipe.cc:186-197 | moves all of the input |
| DcpPipe.Pipe.ReadCallback | cluster_framework/dcppipe.cc:120-184 | the loop ends, and throws only if the stream has a bad frame |
| DcpPipe.Pipe.Deliver | cluster_framework/dcppipe.cc:120-197 | the same for a chunk arriving on either side in either mode; once bytes are copied none of that side is held back |
| DcpPipe.Pipe.ForwardsAllButAddStreams | cluster_framework/dcppipe.cc:120-197 | for any chunking: the frames but the add streams are forwarded in order; copying starts exactly when the awaited ones were seen, the callback fires once, and nothing is forwarded that should not be if and only if there were no more of them |
| DcpPipe.Pipe.ForwardsWhatTheFilterReturns | cluster_framework/dcppipe.cc:128-139 | with a filter, what it returns is forwarded, frame by frame, for ever |
| DcpPipe.Pipe.ForwardsThePackets | cluster_framework/dcppipe.cc:120-197 | in terms of packets, for any chunking: the other side gets all but those about adding streams |
| DcpPipe.Pipe.ForwardsTheFilteredPackets | cluster_framework/dcppipe.cc:127-139 | or exactly what the filter makes of them |
| DcpPipe.CopyingRefinesFraming | cluster_framework/dcppipe.cc:152-158 | with exactly the awaited add streams, a pipe without a filter and one with an identity filter forward the same up to the incomplete end, and each reports once |
| DcpPipe.Run | cluster_framework/dcppipe.cc:120-197 | any chunking of two streams without bad frames is taken without an exception |
| DcpPipe.ExtraAddStream | cluster_framework/dcppipe.cc:186-197 | a run in which a response after the last awaited one is forwarded |
| Replication.BuildMap | cluster_framework/bucket.cc:32-40 | every vbucket goes on in the round robin where the one before stopped |
| Replication.ChainIsDistinct | cluster_framework/bucket.cc:32-40 | the copies of a vbucket are on different nodes if and only if there are enough nodes |
| Replication.CopiesAreBalanced | cluster_framework/bucket.cc:32-40 | the numbers of copies on any two nodes differ by one at most |
| Replication.CollectVbuckets | cluster_framework/dcp_replicator.cc:166-177 | for each node, the vbuckets active there with a replica here, in order |
| Replication.CreatePipesForNode | cluster_framework/dcp_replicator.cc:163-195 | one pipeline from each node there is something to get from |
| Replication.CreatePipes | cluster_framework/dcp_replicator.cc:99-103 | the same for every node |
| Replication.StreamsAreExact | cluster_framework/dcp_replicator.cc:99-195 | one stream for each replica of each vbucket, from its active node to that of the replica; no other, and none from a node to itself |
| FdBudget.Settings.Recalculate | daemon/memcached.cc:315-366 | the shares fit afterwards, with at least 1050 for the engines, if and only if the reservation fits and the wish did not wrap unnoticed; the engines' share is set once; a wish that is granted in part is cut to what is left, and the system connections to half of that exactly if they would exceed it |
| FdBudget.Run | daemon/memcached.cc:315-366 | over every sequence of changes the shares fit in the end if and only if every wish can be honoured, and that is so whenever the reservation fits and no sum wraps; the engines keep the share the first wish left them, the system connections are as the wishes left them, and within a wish that was cut |
| FdBudget.SaneWishesAreHonoured | daemon/memcached.cc:318-334 | whatever share the engines got, every wish can be honoured if the initial reservation fits and no sum wraps |
| FdBudget.TooFewDescriptors | daemon/memcached.cc:336-338 | the subtraction underflows without descriptors for the reservation |
| FdBudget.WishWraps | daemon/memcached.cc:334-336 | a wish near the end of the range wraps and is granted |
| TimeKeeping.OnlyZeroIsNever | daemon/mc_time.cc:117-151 | only expiry zero converts to zero, if and only if the epoch is not negative or a remainder of it is small |
| TimeKeeping.FebruaryIsNever | daemon/mc_time.cc:136-140 | an absolute expiry that converts to zero |
| TimeKeeping.RoundTrip | daemon/mc_time.cc:117-175 | an absolute expiry after the start comes back as sent, an earlier one as the second after the start, a relative one as that much after now |
| TimeKeeping.NeverTooEarly | daemon/mc_time.cc:117-151 | a relative expiry is never in the past nor too late, and too early only at the end of time; an absolute one before the start is the second after it |
| TimeKeeping.NoticedUnlessPutBack | daemon/mc_time.cc:231-235 | a wall clock change outside 59..61 seconds is noticed exactly if it is not one of -61..-59 |
| TimeKeeping.Clock.Tick | daemon/mc_time.cc:213-261 | the gap at a check is what the wall clock gained on the uptime since the epoch was set, no check since was suspicious, and exactly a suspicious one makes the gap zero; its size is within the allowance |
| TimeKeeping.Run | daemon/mc_time.cc:213-261 | after any run of ticks the epoch is what the last suspicious look set, or the start if there was none, the looks since are those the ticks made due, and the gap is within what they allow |
| TimeKeeping.UnnoticedDrift | daemon/mc_time.cc:232-235 | what goes unnoticed is at most a second a check and as much as the checks were not a minute of uptime apart; a minute and all the uptime between for a clock put back |
| TimeKeeping.RegularAllowance | daemon/mc_time.cc:232-235 | with checks a minute apart and a clock that goes forward that is a second a check, after the first |
| TimeKeeping.PutBackUnnoticed | daemon/mc_time.cc:231-235 | a run in which the clock is two minutes off and nothing was noticed |
| TimeKeeping.LateLookUnnoticed | daemon/mc_time.cc:228-235 | a run in which a check comes half a minute late and a drift of half a minute goes unnoticed |

## Left out

- Connection.Connection.Execute: an exception from a command executor is not modelled, only the malformed header that ends the read loop; what an executor does apart from completing, blocking, references, output, mode and shutdown is open.
- Connection.Connection.ProcessNotifiedCookie: a notification for a command that was not started is not modelled; the engine notifies what it blocked.
- Cookie reference counts are unbounded here; the source refuses to go past 255.
- BucketManager.Manager.ScanForDestroy: the scan of a delete is one step; it is decided at the one slot it claims. A delete command always has a name, as the request validator demands.
- BucketInvariant.DetachingOk: a connection that was destroyed while its own delete still names it is passed over; what the source does with a connection that is no longer there is not modelled, and its number is not used again before the delete is over.
- BucketSafety.EmptyNameIsALateRead: the name of a slot is read in one go, not character by character.
- BucketSafety.CountsAreAccountedFor: the counters are integers here. That the client count of a bucket fits 32 bits unless it was given up twice is proved; where it then goes below zero the source's wraps. For the transit counter nothing of the kind is proved.
- ExternalAuth.AuthManager.Add: the 8-bit connection reference count does not wrap here.
- ExternalAuth.AuthManager.ResponseReceived: the update of the RBAC database is not modelled.
- ExternalAuth.AuthManager.Callback: cookies other than the front one are one open choice, since their references are counted in the pipeline model.
- ExternalAuth.AuthManager.OtherThreads: jobs are kept in order for each connection; that jobs of connections on the same thread are in order too is not used.
- ExternalAuth.AuthManager.Forward: the packets' contents and the question whether an RBAC entry is up to date.
- DcpPipe.Pipe.constructor: the DcpAddStream requests themselves, sockets and the notification pipe.
- DcpPipe.Pipe.ForwardsWhatTheFilterReturns: a filter is a function of the side and the packet, without a memory of its own, and returns nothing or at least a header.
- Replication.BuildMap: the running counter is an int in the source and must not overflow; here it is unbounded.
- createPipeForNodes selects vbuckets without looking at the producer, so the exact cover is claimed for createPipes only.
- FdBudget.Run: the number of worker threads is fixed and small enough for the reservation to be representable; only the calls up to the first that does not fit are followed.
- TimeKeeping.Clock.Tick: the uptime is a non-negative integer here, without the cast to 32 bits.
- mc_time_limit_abstime (the smaller of an expiry and now plus a limit), the error maps, the comparison of cluster map versions, datatype filters and bucket name checks are not modelled: each is one comparison or table.
- The DCP message builders, validators, privilege and executor tables, cryptography, JSON, logging, auditing, tracing, statistics and settings are not part of this model.
- cleanup_buckets runs after the worker threads stopped and deliberately waits for no client.
