# turnloop in Dafny

turnloop is an embeddable event loop: a driver keeps handles, operations, deadlines and a bounded
queue of completions exact while a backend, worker threads and the host act in any order. This
project models that bookkeeping and proves what the loop promises its host, over every run.

The project has three layers for the driver, and one module for each smaller component.

**The loop model** (`LoopModel`, `LoopSteps`, `LoopRuns`, `LoopTheorems`, `LoopEvents`, `LoopTimers`,
`LoopCancel`, `LoopReports`, `LoopRefusal`). The state a host can reason about: per-handle lists of live operations,
one stream of every completion ever produced with the number delivered, deadlines, reservations and the
result ring. It has no counter and no link. Twenty kinds of step cover everything the host, the backend
and the workers can do; a run is any sequence of them. The theorems hold in every state a run reaches.

**The driver** (`DriverLinks`, `DriverCounts`, `DriverState`, `DriverSteps`, `DriverCalls`, `LoopDriver`).
The class `LoopDriver.Driver` is the driver as it is written: linked records for the intrusive operation
lists, a deque of completions, and counters, all updated in place. `Represents` ties those fields to a
state of the loop model: following `next` from `head` gives exactly the list, `previous` is its inverse,
every counter equals the number it stands for, and the queue is the undelivered part of the stream. The
counters are natural numbers, so every decrement inside a call is shown to have what it takes. Every public call is proved to be a sequence of steps of the loop
model, so every theorem of the model holds of the class; `trace` records the steps.

**The components**: the generational table behind keys (`SlotTable`), the deadline queue (`TimerHeap`),
the lock-free slot queue under the result ring (`SlotQueue`),
the blocking pool (`BlockingPool`), the external-wait service (`ExternalWait`), the executor's slots
(`ExecutorSlots`) and stream adapter (`AsyncStream`), the sans-I/O driver (`SansIo`), domain names
(`DnsName`, `DnsLayouts`), the worker ring (`WorkerRing`) and the publishing order (`PublishOrder`). Concurrent
protocols are classes whose methods are the atomic sections of the source, or steps for each atomic
access, so that any interleaving is a sequence of calls or steps.

What the environment answers is a parameter or an open choice: a backend refusal, the events of a poll,
the keys a table hands out (fresh, which `SlotTable` proves of the real table), clock readings, what a
core or a transport returns. The backend is held to its contract (`LoopEvents.Honest`,
`LoopEvents.Batch`): an event for a live operation names one that was handed to it, a filesystem request
answers once, a transport comes from an operation that reserved for it, a poll brings at most
`events_per_turn` events and at most `budget` multishot connections. Stale, late and repeated events are
allowed.

Where the code and a reading of its documentation differ, the model follows the code:

- A refused submission is documented to leave nothing behind. A multishot accept that the backend refuses
  leaves one extra slot promised exactly when the pool of promised slots was short before the call
  (`LoopRefusal.RefusalLeavesNoTrace`; `LoopRefusal.RefusalLeavesSlot` is a run that gets there).
- The result ring is documented to have room for every result it is owed. By count it has; but a push looks
  at each slot once, and each can be taken just when it is looked at. A push can fail, and the port's
  assertion fire, on a ring of any size, with never more than two operations charged
  (`SlotQueue.RunFails`). No push can fail if and only if the credit is at most one or at most one thread
  publishes (`SlotQueue.PushNeverFails`, `SlotQueue.CompletionFits`). The loop model takes a publication
  as one step, which is what a push that finds a slot amounts to.
- Undoing a handle restores its free slot unless its key was the last generation of the slot
  (`LoopTheorems.RefusedHandle`). A loop that has retired a slot can never be rebuilt
  (`LoopDriver.Driver.Rebuild`).
- The name decoder refuses some well-formed compressed names: exactly those that take more than 128 steps
  to read (`DnsName.Name`; `DnsName.CapRefuses` is one).

## Model

| member | source | states |
|---|---|---|
| LoopRuns.StepSafe | crates/turnloop/src/driver.rs:127-1932 | every step, enabled or not, keeps the whole loop invariant, and only extends the stream: nothing produced is changed, reordered or withdrawn, and nothing gone comes back |
| LoopRuns.RunSafe | crates/turnloop/src/driver.rs:1760-1932 | the same over any sequence of steps |
| LoopTheorems.ReachedInv | crates/turnloop/src/driver.rs:127-206 | every state a run reaches from a new loop satisfies the invariant |
| LoopTheorems.ExactlyOnce | crates/turnloop/src/driver.rs:468-492 | over any run an issued operation is live, refused or ended, never two of these; it has a terminal completion exactly if it ended, at most one, and nothing after it; a refused one has none |
| LoopTheorems.ClosedLast | crates/turnloop/src/driver.rs:430-448 | after the `Closed` of a handle no completion for that handle is ever produced, so `Closed` is unique and last |
| LoopTheorems.SilentAfterRelease | crates/turnloop/src/driver.rs:1264-1283 | once a handle is gone (closed, detached or discarded) it never comes back, and nothing undelivered or produced later names it |
| LoopTheorems.InOrder | crates/turnloop/src/driver.rs:1654-1689 | completions are delivered in the order produced; the delivered prefix only grows |
| LoopRuns.GrowsOut | crates/turnloop/src/driver.rs:1654-1689 | nothing but a delivery moves the delivered prefix |
| LoopTheorems.QueueParts | crates/turnloop/src/driver.rs:449-467 | each queued completion is charged to exactly one of five bounds: operation terminals, `Closed` entries and the three event classes |
| LoopTheorems.QueueBounded | crates/turnloop/src/driver.rs:139-144 | in every reachable state the queue is within `3*events_per_turn + max_operations + max_handles` |
| LoopTheorems.RingCredit | crates/turnloop/src/driver.rs:372-385 | results in the ring plus work in flight equal the operations charged to the ring, which never exceed `min(max_undelivered, max_operations)` |
| LoopTheorems.RingHasRoom | crates/turnloop/src/blocking.rs:236-286 | in every reachable state results in the ring plus work in flight are exactly the charged operations, within the credit and so within the number of slots (a count; `SlotQueue` says when a push finds the slot) |
| LoopTheorems.PromisesAreFree | crates/turnloop/src/driver.rs:257-264 | promised handle slots never exceed the free ones, and the multishot pool never exceeds the armed multishot accepts |
| LoopTheorems.DeadlinesAgree | crates/turnloop/src/driver.rs:549-581 | a handle has a timer deadline exactly while it is a timer with an operation; a connect deadline belongs to live native work that was neither cancelled nor timed out |
| LoopTheorems.LivenessExact | crates/turnloop/src/driver.rs:494-496 | the liveness weight is zero if and only if no referenced handle but an idle timer is left, no operation of a referenced handle or of none, and no undelivered result of one; told by the handles, given that queued results carry the right flag |
| LoopReports.ReachedFlags | crates/turnloop/src/driver.rs:468-492 | over every run, each undelivered operation result counts as a reference exactly if its operation had no handle or its handle is referenced now |
| LoopReports.ReachedLiveness | crates/turnloop/src/driver.rs:494-496 | over every run, the weight is zero exactly when the loop is idle |
| LoopReports.ReferenceReports | crates/turnloop/src/driver.rs:518-547 | changing a handle's reference changes that field of it and, of what is queued, at most flags; `ReachedFlags` says which |
| LoopReports.HandleStarts | crates/turnloop/src/driver.rs:288-313 | a new handle is visible, referenced, open and without operations, and takes one free slot |
| LoopReports.OpStarts | crates/turnloop/src/driver.rs:314-367 | an operation that is entered stands last in its handle's list with all its fields; a multishot accept adds a slot to the pool, and work for the ring is owed a result |
| LoopReports.TimerStarts | crates/turnloop/src/driver.rs:549-568 | a timer is armed for just the time asked for, with the token given |
| LoopReports.FinishReports | crates/turnloop/src/driver.rs:468-492 | ending an operation adds, field by field, the completion with its token, key, visible handle and result, with the reference of its handle, and then exactly one `Closed`, with the closing token, if that was the last operation of a closing handle |
| LoopReports.EmitReports | crates/turnloop/src/driver.rs:1690-1758 | a result that is not the last adds one completion with the operation's token, key and handle, and changes nothing else |
| LoopReports.CloseReports | crates/turnloop/src/driver.rs:1220-1242 | beginning to close adds `Closed` with the token given exactly if the handle has no operation |
| LoopTheorems.RefusalTrace | crates/turnloop/src/driver.rs:386-429 | entering an operation and retiring it restores handles, lists, deadlines, ring and reservations; the pool keeps one slot exactly when a multishot accept was refused while it was short |
| LoopTheorems.RefusedHandle | crates/turnloop/src/driver.rs:589-597 | creating a handle and removing it again restores everything but its key, and its slot only if the key was of the last generation |
| LoopRefusal.RefusalLeavesNoTrace | crates/turnloop/src/driver.rs:1082-1091 | in every reachable state a refused submission leaves only its spent key if and only if it is not a multishot accept made while the pool is short |
| LoopRefusal.RefusalLeavesSlot | crates/turnloop/src/driver.rs:1056-1092 | a five-step run after which a refused multishot accept leaves one slot more promised than before |
| LoopCancel.VerdictStands | crates/turnloop/src/driver.rs:1165-1213 | once an operation was cancelled, stopped or timed out, no later step changes how it will report that |
| LoopCancel.StepSettles | crates/turnloop/src/driver.rs:1712-1722 | a step changes how an operation will report its end only by asking it to end, once; no operation starts so asked |
| LoopCancel.VerdictDelivered | crates/turnloop/src/driver.rs:1702-1758 | over any run every completion an operation produces after it was asked to end is terminal, carries its token and reports exactly that: `Cancelled`, `Stopped` or the timeout |
| LoopCancel.VerdictCaused | crates/turnloop/src/driver.rs:648-665 | over any run an operation is timed out only if its deadline expired it, and cancelled or stopped only if it was asked to be |
| LoopCancel.UserCancelReported | crates/turnloop/src/driver.rs:1165-1213 | an operation its user cancelled or stopped reports, over any run, exactly `Stopped` if it was stopped and is no filesystem request, and `Cancelled` otherwise; never a timeout or its result |
| LoopCancel.ExpiryReported | crates/turnloop/src/driver.rs:648-665 | an operation whose deadline expired reports exactly `Failed(TimedOut)`, or `Cancelled` if it is a filesystem request |
| LoopCancel.StepAnswers | crates/turnloop/src/driver.rs:1712-1722 | no step adds a completion of an operation asked to end but its acknowledgement, with its token; events that are not terminal add none |
| LoopCancel.TokensCarried | crates/turnloop/src/driver.rs:468-492 | over any run every completion of an operation carries the token it was submitted with, and names its handle or none |
| LoopReports.TimerEndReports | crates/turnloop/src/driver.rs:1165-1213 | cancelling or stopping a timer ends it at once and reports exactly that, with its token |
| LoopReports.JobReports | crates/turnloop/src/driver.rs:1853-1889 | a collected result is reported as published, unless its operation was asked to end: then as that |
| LoopReports.RingCaused | crates/turnloop/src/driver.rs:1853-1889 | over every run whatever is in the ring is what a worker published for that operation |
| LoopReports.JobReported | crates/turnloop/src/driver.rs:1849-1890 | over any run, work whose result was published and which nobody asks to end reports exactly that result, terminal and with its token |
| LoopEvents.ConnectionHasRoom | crates/turnloop/src/driver.rs:1296-1326 | a single-shot connection always finds a slot because its own is released first; a multishot one exactly if the budget is at least one |
| LoopEvents.EventSettles | crates/turnloop/src/driver.rs:1690-1758 | any honest event keeps the invariant, touches no other operation, and costs the budget at most the multishot connection it brings |
| LoopReports.EventReports | crates/turnloop/src/driver.rs:1723-1758 | an event of a live operation nobody asked to end is reported as the backend's own result, or, for a transport, as the new handle, which is then a referenced open socket, or as why there is none; with the operation's token, key, handle and the event's last-one mark |
| LoopReports.EventAcknowledges | crates/turnloop/src/driver.rs:1702-1722 | an event of an operation asked to end is swallowed unless it is the last, and then reports the end asked for, field by field |
| LoopReports.FsReports | crates/turnloop/src/driver.rs:1473-1492 | a filesystem request reports the backend's answer, and names the handle it was opening only if that succeeded |
| LoopReports.BatchReports | crates/turnloop/src/driver.rs:1805-1811 | in a whole poll each event whose operation is live at its turn and was not asked to end is reported as its own result, at its place in the order |
| LoopReports.HouseKeeps | crates/turnloop/src/driver.rs:1296-1326 | housing a connection keeps every operation's identity and every handle, and adds at most the new socket |
| LoopReports.RefillMaximal | crates/turnloop/src/driver.rs:1309-1314 | a refilled pool is as full as it can be: every armed accept has a slot, or no unpromised slot is left; nothing else changes |
| LoopEvents.BatchHoused | crates/turnloop/src/driver.rs:1331-1335 | in any batch within the poll's budget, in any order and mixed with single-shot accepts, errors, cancelled and stale events, every connection is housed |
| LoopEvents.ConnectionsHoused | crates/turnloop/src/driver.rs:1805-1811 | in every reachable state, every connection of a poll within its budget is housed |
| LoopTimers.FireDeadlines | crates/turnloop/src/driver.rs:1817-1847 | firing a timer touches only its own deadline, which it removes or moves strictly past `now` |
| LoopReports.FireReports | crates/turnloop/src/driver.rs:1821-1846 | a due timer reports that it fired: for the last time, with its deadline gone, if it does not repeat, and otherwise once more, with the deadline one period after `now`; one whose next time the clock cannot express ends with an error |
| LoopTimers.FiredMore | crates/turnloop/src/driver.rs:1817-1847 | taking the first due timer extends the order: all due, in (deadline, key) order, each once, none before one due earlier, none due again; each fired one adds one completion with its token, for the last time if it does not repeat, and is otherwise armed again one period after `now` |
| LoopDriver.Driver.constructor | crates/turnloop/src/driver.rs:127-206 | a new driver represents the empty model state, reached by no step |
| DriverCalls.FieldsSafe | crates/turnloop/src/driver.rs:127-206 | between calls, over every run: the pool is within the armed accepts, reservations within the free slots, live operations within `outstanding <= max_operations`, each event class, the queue and the ring within their capacities, and `refs` is zero exactly when the loop is idle |
| LoopDriver.Driver.NewHandle | crates/turnloop/src/driver.rs:288-313 | succeeds exactly if an unpromised slot is free, and then is the step that adds the handle |
| LoopDriver.Driver.NewOp | crates/turnloop/src/driver.rs:314-367 | refused exactly at the operation limit; otherwise the operation is linked at the tail and every counter it touches moves (`DriverState.RepAdmit` gives the meaning) |
| DriverState.RepAdmit | crates/turnloop/src/driver.rs:314-367 | after `new_op` the records are the lists with the operation appended to its handle's, and all counters still equal what they count |
| LoopDriver.Driver.Retire | crates/turnloop/src/driver.rs:386-429 | unlinks an operation from anywhere in its list and releases its slot, credit, deadline and reference; no counter it takes from is zero |
| LoopDriver.Driver.Uncharge | crates/turnloop/src/driver.rs:386-402 | each decrement of `retire`, in the source's order, has what it takes |
| DriverState.RepBacks | crates/turnloop/src/driver.rs:386-402 | in every represented state each counter covers what retiring any live operation takes from it |
| DriverState.RepRetire | crates/turnloop/src/driver.rs:386-429 | after `retire` the records are the lists without the operation, `head`, `tail`, `previous` and `next` included, and all counters equal what they count |
| DriverLinks.AppendList | crates/turnloop/src/driver.rs:345-357 | appending keeps a list linked both ways |
| DriverLinks.SpliceList | crates/turnloop/src/driver.rs:403-417 | removing any member, first, middle or last, keeps the rest linked both ways in order |
| LoopDriver.Driver.Enqueue | crates/turnloop/src/driver.rs:449-467 | at every call the queue is below its capacity and the class below `events_per_turn`, so neither assertion of the source can fail |
| LoopDriver.Driver.MaybeClosed | crates/turnloop/src/driver.rs:430-448 | queues `Closed` exactly when a closing handle has no operation left and none is queued |
| LoopDriver.Driver.Finish | crates/turnloop/src/driver.rs:468-492 | queues the terminal result, retires the operation and may close its handle, within the queue bounds; `LoopReports.FinishReports` gives the completion field by field |
| LoopDriver.Driver.FinishFs | crates/turnloop/src/driver.rs:1473-1492 | is the model's terminal step: a successful open reveals its handle, a failed or cancelled one discards it and its completion names none |
| DriverState.RepFinish | crates/turnloop/src/driver.rs:1473-1492 | all three ways of finishing represent the model's one terminal step |
| DriverCounts.ReferenceWeight | crates/turnloop/src/driver.rs:518-531 | a handle's reference carries exactly its pending operations plus one if it is not an idle timer |
| LoopDriver.Driver.SetRef | crates/turnloop/src/driver.rs:518-547 | unknown, foreign and hidden handles are refused unchanged; otherwise the handle and every queued terminal result of it change their reference, and the count follows |
| LoopDriver.Driver.Follow | crates/turnloop/src/driver.rs:532-544 | the in-place pass over the queue re-references exactly the handle's terminal results and moves the count by their number, never below zero on the way |
| DriverSteps.RefBacked | crates/turnloop/src/driver.rs:518-531 | a referenced handle's own weight and all queued references are part of the count, so taking them out cannot underflow |
| LoopDriver.Driver.Alive | crates/turnloop/src/driver.rs:494-496 | true exactly if something referenced is left to wait for: a handle, an operation or an undelivered result, judged by the handles and not by any stored flag |
| LoopDriver.Driver.Timer | crates/turnloop/src/driver.rs:549-568 | refuses a zero repeat, a full handle table and a full operation table (undoing the handle), and otherwise adds and arms the timer |
| LoopDriver.Driver.TimerReset | crates/turnloop/src/driver.rs:570-581 | moves a deadline exactly for a visible, open timer of this loop that is armed |
| LoopDriver.Driver.Open | crates/turnloop/src/driver.rs:589-597 | opens a handle or, refused, takes it back |
| LoopDriver.Driver.Connect | crates/turnloop/src/driver.rs:625-647 | succeeds exactly if both tables have room and nobody refuses; each failure has its error, and handles, operations, queue, deadlines, ring and pool are as before |
| LoopDriver.Driver.ExpireConnects | crates/turnloop/src/driver.rs:648-665 | exactly the connects that lose their deadline are timed out, each of them due; none due is left, unless the backend refuses one, whose deadline then stays |
| DriverCalls.TimedOutMeans | crates/turnloop/src/driver.rs:648-665 | a connect that lost its deadline was due and is asked to end for that; every other operation is as it was |
| LoopDriver.Driver.Spawn | crates/turnloop/src/driver.rs:707-799 | all handles and the exit operation are created, or, with the error of the first pipe, lookup or submission that fails, none is left |
| LoopDriver.Driver.RollBack | crates/turnloop/src/driver.rs:739-751 | removing the created handles in order restores the handle table exactly |
| LoopDriver.Driver.SignalStop | crates/turnloop/src/driver.rs:827-834 | unknown handles unchanged; otherwise every operation is stopped, which its acknowledgement will report, and then the handle closes or, if that is refused, stays as the stops left it |
| LoopDriver.Driver.Attempt | crates/turnloop/src/driver.rs:1071-1091 | refused at the operation limit unchanged, entered if accepted, and otherwise exactly the rejection step |
| LoopDriver.Driver.Submit | crates/turnloop/src/driver.rs:1056-1092 | each error in the source's order; a reserving operation needs an unpromised slot, any other needs none; a refusal leaves what `RefusalTrace` says |
| DriverCalls.SubmitRefusals | crates/turnloop/src/driver.rs:1056-1081 | the error order of a submission amounts to: not found exactly for a foreign, missing or hidden handle, invalid exactly for a closing one or one of another kind, accepted exactly if a slot it needs and a place for it are free |
| DriverCalls.FsRefusals | crates/turnloop/src/driver.rs:1377-1444 | a filesystem request is accepted exactly if somebody serves it, its result has credit, its target is an open file of that service and the tables have room |
| DriverCalls.CloseRefusals | crates/turnloop/src/driver.rs:1220-1234 | a close is accepted exactly for a visible open handle that the backend, where it has a say, is ready to close |
| DriverCalls.DetachRefusals | crates/turnloop/src/driver.rs:1264-1283 | a detach is considered exactly for a visible open socket of this loop |
| DriverCalls.PipesFit | crates/turnloop/src/driver.rs:707-751 | a child's descriptors can be set up exactly if every new pipe has an unpromised slot and every inherited handle is there, or was made for an earlier pipe |
| LoopDriver.Driver.Cancel | crates/turnloop/src/driver.rs:1165-1213 | false and unchanged for foreign, finished, cancelled or refused work; a timer ends at once with `Stopped` or `Cancelled` as asked, in a completion given field by field; other work is marked once |
| LoopDriver.Driver.CancelAll | crates/turnloop/src/driver.rs:1235-1239 | the walk by `next` ends and asks each operation once, in order, although a timer leaves the list as it is cancelled; no other operation is touched |
| DriverCalls.WalkAsks | crates/turnloop/src/driver.rs:1235-1239 | each operation of the list is marked as the walk asks, unless it already was or the backend refuses |
| LoopDriver.Driver.Close | crates/turnloop/src/driver.rs:1220-1242 | each refusal unchanged; otherwise the handle is closing, all its operations are asked to end, and `Closed` is queued at once if there are none |
| LoopDriver.Driver.Detach | crates/turnloop/src/driver.rs:1264-1283 | each refusal in the source's order; `WouldBlock`, with its operations asked to end, exactly if anything of the handle is pending or queued; otherwise, unless the backend refuses, the handle is gone |
| LoopDriver.Driver.AttachReserved | crates/turnloop/src/driver.rs:1296-1326 | is the model's housing step, with its result |
| LoopDriver.Driver.Refill | crates/turnloop/src/driver.rs:1309-1314 | the loop tops the pool up by the smaller of what is owed and what is spare |
| LoopDriver.Driver.Budget | crates/turnloop/src/driver.rs:1331-1335 | the difference of counters is the free slots no single-shot operation holds, and is never negative |
| LoopDriver.Driver.SubmitJob | crates/turnloop/src/driver.rs:1607-1632 | refused exactly when the result credit or the operation table is used up; a pool refusal leaves only the key |
| LoopDriver.Driver.Resolve | crates/turnloop/src/driver.rs:1577-1596 | a host lookup, or a pool job exactly if the host has none; each of the six outcomes with its result, state and steps |
| LoopDriver.Driver.OpenFile | crates/turnloop/src/driver.rs:1398-1431 | the handle of an open request is created hidden with its operation, or both are undone |
| LoopDriver.Driver.Fs | crates/turnloop/src/driver.rs:1377-1444 | each error in the source's order, and after any error nothing but spent keys |
| LoopDriver.Driver.Publish | crates/turnloop/src/blocking.rs:273-286 | the result joins the ring, which by count has a slot for it |
| LoopDriver.Driver.Arrive | crates/turnloop/src/driver.rs:1776-1910 | results that workers publish while a call is under way join the ring in order, and nothing else changes |
| LoopDriver.Driver.AcceptEvent | crates/turnloop/src/driver.rs:1690-1758 | reacts exactly as the model's event function; events of another loop or of finished work change nothing; an answer for work nobody asked to end is queued as it is, with its token, key and handle, and one for work asked to end only as that |
| LoopDriver.Driver.AcceptEvents | crates/turnloop/src/driver.rs:1805-1811 | takes a whole poll, and every connection in it is housed |
| LoopDriver.Driver.FireTimer | crates/turnloop/src/driver.rs:1821-1846 | one-shot, repeating and no-longer-expressible timers take the model's three ways |
| LoopDriver.Driver.FireTimers | crates/turnloop/src/driver.rs:1817-1847 | fires in (deadline, key) order, each at most once, and leaves a due timer only if the turn's share or the timer reserve is used up |
| DriverCalls.FiredMeans | crates/turnloop/src/driver.rs:1817-1847 | the timers a turn fires, in literal order of deadlines and keys; those not fired keep their deadline |
| LoopDriver.Driver.Collect | crates/turnloop/src/driver.rs:1853-1889 | finishes the operation of any ring entry with the result its cancellation state calls for |
| LoopDriver.Driver.CollectResults | crates/turnloop/src/driver.rs:1849-1890 | while workers go on publishing between looks: a turn's share of results is collected, or the ring was found empty |
| LoopDriver.Driver.TakePosts | crates/turnloop/src/driver.rs:1893-1910 | queues a prefix of the posts, as many as the turn's share and the post reserve allow |
| DriverCalls.PostsReported | crates/turnloop/src/driver.rs:1893-1910 | posts are reported in order, each with its token and payload |
| LoopDriver.Driver.Deliver | crates/turnloop/src/driver.rs:1654-1689 | hands over the oldest completion; delivering `Closed` releases its handle |
| LoopDriver.Driver.Drain | crates/turnloop/src/driver.rs:1654-1689 | delivers the oldest completions in order, as many as the host has room for |
| LoopDriver.Driver.Discover | crates/turnloop/src/driver.rs:1767-1815 | polls exactly when no native result is queued and nothing else waits or is announced, or native work is pending, between two rounds of connect timeouts, with results arriving before and during the poll |
| DriverCalls.PollsExactly | crates/turnloop/src/driver.rs:1776-1800 | a turn polls exactly when no native result is queued and native work is pending or nothing waits for the host |
| LoopDriver.Driver.Turn | crates/turnloop/src/driver.rs:1760-1932 | the whole turn as a composition of its phases, with results and posts arriving meanwhile; the output is the next stretch of the stream, filled while anything is left, and `alive` is exact |
| LoopDriver.Driver.Rebuild | crates/turnloop/src/driver.rs:236-249 | succeeds exactly if the loop owns no handle, operation or work in flight, nothing is undelivered or posted, no slot was ever retired and the new configuration is valid |
| DriverCalls.QuietMeans | crates/turnloop/src/driver.rs:236-249 | what may be rebuilt has no handle, operation, work or result, and all its slots |
| SlotTable.Table.Insert | crates/turnloop/src/table.rs:72-81 | refused exactly at the ceiling; otherwise the key was never handed out before and the map gains it |
| SlotTable.Table.Get | crates/turnloop/src/table.rs:82-87 | is the lookup of the finite map, so a removed key names nothing although its slot is in use again |
| SlotTable.Table.Remove | crates/turnloop/src/table.rs:94-107 | removes exactly the key; the slot is free again unless that was its last generation |
| SlotTable.Occupy | crates/turnloop/src/table.rs:72-81 | the key made for a free slot is unissued, and table, map and issued keys stay in step |
| TimerHeap.Heap.Insert | crates/turnloop/src/timer/heap.rs:30-36 | the four-ary heap represents the map with the deadline added |
| TimerHeap.Heap.Cancel | crates/turnloop/src/timer/heap.rs:37-56 | true exactly if this key is armed, even if its slot is armed under another key; the heap represents the map without it |
| TimerHeap.Heap.PopExpired | crates/turnloop/src/timer/heap.rs:57-64 | yields the first entry in (deadline, key) order if it is due, and nothing exactly if none is |
| TimerHeap.Heap.Up | crates/turnloop/src/timer/heap.rs:70-79 | sifting up restores the order and the position index |
| TimerHeap.Heap.Down | crates/turnloop/src/timer/heap.rs:80-98 | sifting down past the least of four children restores the order and the position index |
| TimerHeap.RootFirst | crates/turnloop/src/timer/heap.rs:27-29 | in an ordered heap the root precedes every entry |
| SlotQueue.StepKeeps | crates/turnloop/src/queue.rs:75-118 | every atomic access of a push or pop, in any interleaving, keeps slots, phases, counts and credits in step |
| SlotQueue.RunExact | crates/turnloop/src/queue.rs:75-121 | over every run the queue is a bag: a store adds one result, a pop takes one that is there and none twice; `occupied` never underflows; a pop finds nothing only if nothing was published when it began |
| SlotQueue.SlotLeft | crates/turnloop/src/queue.rs:65-74 | by count there is always an empty slot for an operation that has not pushed yet |
| SlotQueue.RunFails | crates/turnloop/src/blocking.rs:273-286 | for every ring size a run with at most two operations charged in which a push finds every slot taken, so the assertion fires |
| SlotQueue.PushNeverFails | crates/turnloop/src/queue.rs:75-93 | no push can fail, over all runs, if and only if the credit is at most one or at most one thread pushes at a time |
| SlotQueue.CompletionFits | crates/turnloop/src/blocking.rs:236-286 | the same for a loop's configuration: exactly if `min(max_undelivered, max_operations) <= 1` or one thread publishes |
| BlockingPool.BoundedQueue.Submit | crates/turnloop/src/blocking.rs:446-480 | refused exactly when every slot is filled or promised; queued plus reserved never exceed the capacity |
| BlockingPool.BoundedQueue.PushReserved | crates/turnloop/src/blocking.rs:549-562 | queueing into a reservation never overflows the queue |
| BlockingPool.BoundedQueue.Take | crates/turnloop/src/blocking.rs:385-403 | workers take jobs in the order they were queued, and find none exactly if all were taken |
| BlockingPool.LongSet.Submit | crates/turnloop/src/blocking.rs:623-655 | a job is handed to a parked worker without one, starts a worker, or is refused at the ceiling; `jobs <= idle <= threads <= max` in every interleaving |
| BlockingPool.LongSet.NotStarted | crates/turnloop/src/blocking.rs:648-653 | a failed thread start gives its place back and accepts nothing |
| BlockingPool.LongSet.Park | crates/turnloop/src/blocking.rs:671-673 | a worker finishes its job, the one time a result of it is published, and parks |
| BlockingPool.LongSet.Wake | crates/turnloop/src/blocking.rs:674-694 | a parked worker takes the oldest handed job even if its wait timed out, and leaves without one only if no job is promised to anyone |
| BlockingPool.LongSet.OwnWorker | crates/turnloop/src/blocking.rs:583-596 | every accepted unfinished long job can be matched to a live worker of its own |
| ExternalWait.Service.Notify | crates/turnloop/src/external_wait.rs:95-106 | the helper is awake afterwards, and every wait then registered on the condition is marked: it stays behind its generation whatever happens next |
| ExternalWait.Service.Submit | crates/turnloop/src/external_wait.rs:152-185 | reports a value that already differs, registers in a free slot with the current generation, or is refused; never both |
| ExternalWait.Service.Cancel | crates/turnloop/src/external_wait.rs:186-204 | a registered wait is reported cancelled once, anything else not at all |
| ExternalWait.Service.Close | crates/turnloop/src/external_wait.rs:205-218 | exactly the waits of the loop that is gone are dropped, unreported |
| ExternalWait.Service.Scan | crates/turnloop/src/external_wait.rs:108-150 | with the host storing values before each look: a wait whose generation or value moved is reported changed, else one past its deadline expired, else it stays; reports come in order and once; no wait that was ever notified is left; and it parks no later than the earliest deadline left, with every remaining wait at its condition's current generation |
| ExternalWait.ScanConcludes | crates/turnloop/src/external_wait.rs:108-150 | for each wait, in its own fields: which of changed, expired and still waiting it is, and that its slot and the published reports say so |
| ExternalWait.SeenLatest | crates/turnloop/src/external_wait.rs:108-150 | the value a look sees is the last one stored before it, and looking moves no generation |
| ExternalWait.NotifyReaches | crates/turnloop/src/external_wait.rs:95-151 | the next scan after a notification reports every wait it found registered, whatever the host stores meanwhile and even if the value is unchanged |
| ExecutorSlots.TokenRoundTrip | crates/turnloop/src/executor.rs:110-114 | for every index below 2^32 and generation up to 2^31-1 a token decodes to exactly its reservation |
| ExecutorSlots.InternalMatchesNothing | crates/turnloop/src/executor.rs:46-50 | the token of unawaited closes is claimed and matches no reservation |
| ExecutorSlots.Slots.Reserve | crates/turnloop/src/executor.rs:142-158 | a reservation is new, takes the first slot that is neither used nor worn out, and its slot lends nothing to a native operation; refused only if there is none |
| ExecutorSlots.Slots.Submitted | crates/turnloop/src/executor.rs:778-809 | from acceptance the slot and its bytes belong to the operation |
| ExecutorSlots.Slots.Abandon | crates/turnloop/src/executor.rs:179-198 | the slot outlives its future exactly if an operation in flight still has its bytes, and then keeps them and its reservation; a connect, which lends none, gives its slot back at once |
| ExecutorSlots.Slots.Free | crates/turnloop/src/executor.rs:159-178 | a reservation that was given back is over for good: whatever completes under its token later, such as an abandoned connect, reaches nobody |
| ExecutorSlots.Slots.Dispatch | crates/turnloop/src/executor.rs:224-250 | a completion reaches a slot exactly if the slot still belongs to the reservation in the token, and no other slot changes; its result waits there, or the slot is free again if it was abandoned; the loan of the operation submitted under it ends, and a reservation that is over is never reached |
| ExecutorSlots.Slots.Claims | crates/turnloop/src/executor.rs:209-222 | exactly tagged tokens are claimed; a `Closed` is shown to every future watching its handle and touches no slot that lends bytes |
| ExecutorSlots.Slots.Poll | crates/turnloop/src/executor.rs:199-206 | a result is handed over once, with its slot, or kept by a read that has bytes left |
| AsyncStream.AsyncIo.PollRead | crates/turnloop/src/executor.rs:829-881 | returned bytes are always the next of those native reads left in the slot, whatever buffers and Pending results came before; empty buffers, refusals, end of file and errors as the source answers them |
| AsyncStream.FitsReceived | crates/turnloop/src/executor.rs:778-809 | a native read fills the slot it was lent; what arrived is what was returned followed by what is left there |
| AsyncStream.FitsReturned | crates/turnloop/src/executor.rs:852-870 | handing out a prefix of what is left keeps that, and the slot goes exactly with the last byte |
| AsyncStream.AsyncIo.PollWrite | crates/turnloop/src/executor.rs:884-949 | bytes are staged in a slot before anything can refuse them; a report of `n` bytes accepts exactly the first `n`, any other report none; one write is in flight at a time, and each refusal comes in the source's order |
| AsyncStream.FitsWrite | crates/turnloop/src/executor.rs:908-943 | once submitted, the staged bytes are exactly the part of the accepted bytes that is still pending |
| AsyncStream.FitsWritten | crates/turnloop/src/executor.rs:884-949 | what ended native writes found in their slots, followed by what the pending one will find, is always what was accepted, whatever the outcome |
| AsyncStream.LastEnded | crates/turnloop/src/executor.rs:950-965 | the outcome that waits in a held slot is that of the write that ended last |
| AsyncStream.AsyncIo.NativeWrite | crates/turnloop/src/executor.rs:224-250 | a native write that ends found in its slot, lent until then, exactly the bytes accepted for it |
| AsyncStream.FitsElsewhere | crates/turnloop/src/executor.rs:142-250 | nothing that happens to other slots and operations changes what this adapter staged, brought or is owed |
| AsyncStream.AsyncIo.Elsewhere | crates/turnloop/src/executor.rs:142-250 | other futures reserve, stage, submit, free, abandon and complete their own slots without touching this adapter's bytes |
| AsyncStream.AsyncIo.Drop | crates/turnloop/src/executor.rs:984-1000 | dropping the adapter abandons its slots; a write in flight still finds the accepted bytes |
| AsyncStream.AsyncIo.PollFlush | crates/turnloop/src/executor.rs:950-965 | pending exactly while the accepted write is, and then reports the outcome of the write that ended last, each exactly once: moved bytes as success, an error as that error |
| AsyncStream.AsyncIo.PollShutdown | crates/turnloop/src/executor.rs:728-777 | the write direction ends only after every accepted write has ended; a shutdown that failed is reported as its error and leaves the direction open |
| AsyncStream.AsyncIo.NativeShutdown | crates/turnloop/src/executor.rs:224-250 | the outcome of the native shutdown is what waits for the adapter |
| AsyncStream.AsyncIo.PollClose | crates/turnloop/src/executor.rs:966-983 | the handle is closed only after every accepted write has ended well |
| SansIo.Driver.Next | crates/turnloop-io/src/lib.rs:484-534 | a delivered event commits both guards; every failing or interrupted exit drops the transport and then tells the core; while a transport is present, bytes ingested followed by the window are the bytes received, and bytes written followed by the pending output are the bytes the core produced |
| SansIo.Driver.EndExchange | crates/turnloop-io/src/lib.rs:569-575 | an exchange that ends uncommitted aborts transport and core |
| SansIo.Driver.Round | crates/turnloop-io/src/lib.rs:505-533 | one pass ingests only bytes of the present transport, in order, and writes only what the core produced, in order |
| SansIo.Driver.Drain | crates/turnloop-io/src/lib.rs:323-330 | writes the core's output in order and forgets it only when all of it is written and flushed, over any partial writes; a failed drain has written a prefix |
| SansIo.Driver.Flush | crates/turnloop-io/src/lib.rs:474-481 | leaves nothing unsent, or drops the transport |
| SansIo.Driver.ReplaceStream | crates/turnloop-io/src/lib.rs:445-453 | refused while a transport is present; otherwise nothing of the old one is left to ingest, even after an interrupted read |
| SansIo.Driver.IntoParts | crates/turnloop-io/src/lib.rs:536-546 | the unread input handed over completes what the core ingested |
| DnsName.Encode | crates/turnloop-io/src/dns.rs:77-92 | accepts exactly the names of at most 253 ASCII characters whose labels have 1 to 63, and writes their wire form |
| DnsName.Name | crates/turnloop-io/src/dns.rs:221-261 | accepts exactly the names that an unlimited reader reads in at most 128 steps, with its result, and leaves the cursor past the name inside the packet; `DnsLayouts.NameExact` says what those are without the reader |
| DnsLayouts.NameExact | crates/turnloop-io/src/dns.rs:221-261 | the decoder yields `r` exactly if some mix of labels and backward pointers of at most 128 items ending in the root stands there, whose labels, joined by dots, make `r` of at most 253 bytes |
| DnsLayouts.ReadsLayout | crates/turnloop-io/src/dns.rs:221-261 | however labels and pointers alternate, over any chain of them, the name reads as all labels in order, in one step for each item, and the cursor ends after the first pointer or the root |
| DnsLayouts.LaidOut | crates/turnloop-io/src/dns.rs:221-261 | whatever reads as a name is laid out as one in the packet |
| DnsLayouts.Compressed | crates/turnloop-io/src/dns.rs:225-260 | labels followed by a pointer to where other labels stand read as both, joined, in one step for each label, one for the pointer and one for the root, with the cursor after the pointer |
| DnsLayouts.Utf8Exact | crates/turnloop-io/src/dns.rs:247-249 | the labels accepted as text are exactly the encodings of sequences of Unicode scalar values |
| DnsLayouts.TrimsDots | crates/turnloop-io/src/dns.rs:80-80 | the encoder ignores the dots at the end of a name and nothing else |
| DnsName.RoundTrip | crates/turnloop-io/src/dns.rs:77-92 | every encodable name is decoded back exactly wherever its wire form stands in a packet, in one step for each label and one for the root |
| DnsName.Tight | crates/turnloop-io/src/dns.rs:221-225 | the encoded name of 253 characters and 127 labels takes exactly 128 steps |
| DnsName.CapRefuses | crates/turnloop-io/src/dns.rs:225-260 | a well-formed name behind 128 pointers needs more than 128 steps |
| WorkerRing.Ring.WriteWord | spikes/web/worker-poster.js:17-19 | no word of a message not yet taken is overwritten, in any interleaving |
| WorkerRing.Ring.StoreHead | spikes/web/worker-poster.js:20-20 | publishing appends the message to the queue, across 32-bit wrap-around |
| WorkerRing.Ring.StoreTail | spikes/web/worker-poster.js:26-33 | the message taken is the oldest posted and not yet taken, whatever producers did while it was read |
| WorkerRing.Ring.Post | spikes/web/worker-poster.js:11-25 | succeeds exactly if the lock is free and the ring is not full; a false result moves no message |
| WorkerRing.Ring.Take | spikes/web/worker-poster.js:26-33 | yields the oldest message, or nothing exactly if there is none |
| WorkerRing.SplitRoundTrip | spikes/web/worker-poster.js:18-31 | two 64-bit numbers survive as four signed 32-bit words |
| WorkerRing.SlotOf | spikes/web/worker-poster.js:17-17 | truncating a counter to 32 bits names the same slot |
| PublishOrder.Publish | scripts/ci/common.py:84-112 | an order exists exactly if something is selected, no path dependency is missing or unversioned and nothing needs itself; it is a permutation of the selection with every dependency first |
| PublishOrder.Sorter.Visit | scripts/ci/common.py:89-105 | places a crate after everything it needs; failing means a fault or a cycle exists |
| PublishOrder.OrderedIsSound | scripts/ci/common.py:84-112 | a publishing order rules out every cycle and fault |

## Left out

- Platform backends, sockets, processes, signals, terminals and the filesystem itself: their answers are parameters.
- Public calls that only delegate to one that is modelled: listeners, `signal_start`, `fs_watch` and the TCP connect variants are `Open` or `Connect`; `external_wait` and `blocking` are `SubmitJob`; `attach` is `Open`.
- Accessors, socket options, raw transports and statistics.
- Option, keepalive and backlog calls on a handle, which change no loop state.
- The result a request carries beyond what the loop reads: one constructor stands for all results that carry no handle, and one for the three that carry a new handle.
- A result published synchronously while a wait or file request is being cancelled: it is a worker step of its own.
- LoopDriver.Driver.Collect: takes any entry of the result ring, because the slot queue promises no order (`SlotQueue.RunExact`).
- SlotQueue.CompletionFits: takes any charged operation to be able to publish from a thread of its own, as long jobs do; which threads a given pool has is the parameter.
- LoopDriver.Driver.NewOp: sets the flags that its callers set right after it (reservation, result credit, native) together with the insertion.
- The seven counters and the per-class counts are one record of the class rather than eight fields.
- `notifier`, parking and wake-ups, and memory ordering: atomic accesses are taken in one order.
- The wasm variants of the external-wait service and the web-only calls.
- ExternalWait.Service.Notify: generations are unbounded, so a wrap after 2^64 notifications is not modelled.
- BlockingPool.LongSet.Park: a panic that escapes a job's own guard, and the lock-free statistics mirrors, are not modelled.
- ExecutorSlots.Slots.Dispatch: wakers, timers owned by a slot and the closes it starts are not modelled.
- The executor's task table: `spawn_local`, `run_ready`, join handles and wakers.
- SansIo.Driver.Next: runs for a given number of rounds, and running out counts as an interruption; protocol events are only counted as delivered or not.
- AsyncStream.AsyncIo.NativeWrite: a native write is taken to end as a whole, as the adapter does; how far a failed one got is not modelled.
- The rest of the DNS packet parser: header flags, question and answer sections, SRV and TXT records.
- The B-tree deadline index of the benchmarks, which promises what `TimerHeap` proves of the index the driver uses.
- The parking half of the worker ring, and its wake-up counters.
- Lingering close, the connection pool policy and the benchmark and contract-test crates.
