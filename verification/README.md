# Trio, modelled in Dafny

Trio is a structured-concurrency runtime for Python. This project models the state machines at its
core and the DTLS handshake codec, and proves what they promise:

* cancellation, deadlines, scheduling and nurseries (`trio/_core/_run.py`): `times`, `exceptions`,
  `deadlines`, `cancel_state`, `cancel_tree`, `cancel_tasks`, `cancel_scopes`, `cancel_meaning`,
  `nursery_state`, `nursery`, `cancel_findings`;
* the DTLS records, handshake volleys and cookies (`trio/_dtls.py`): `bytes`, `dtls_records`,
  `dtls_volley`, `dtls_packets`, `dtls_reassembly`, `dtls_cookie`; the formats are those of sections
  4.1, 4.2.1, 4.2.2 and 4.2.3 of RFC 6347;
* memory channels (`trio/_channel.py`): `channel_state`, `channel_steps`, `channel_inv`, `channel`;
* parking lots, locks, conditions, limiters and semaphores (`trio/_core/_parking_lot.py`,
  `trio/_sync.py`): `parking_lot`, `sync`;
* the SSL object and transport shared by many tasks (`trio/_ssl.py`): `ssl_retry`;
* jobs from other threads (`trio/_core/_entry_queue.py`), worker threads
  (`trio/_core/_thread_cache.py`) and the epoll backend (`trio/_core/_io_epoll.py`): `entry_queue`,
  `thread_cache`, `epoll`.

## How the model is built

Objects of the source that update their fields become classes here, and each operation a method that
does the same in the same order. Tasks, cancel statuses, scopes, nurseries and channel endpoints refer
to each other in cycles; they are numbers, and their attributes are maps and sets in a record held by
the class (`Frame` and `Signals` for the runner, `Family` for nurseries, `State` for a channel). An
attribute that may be None is a partial map, and a boolean one is the set of those that have it. The
proofs are lemmas about such records, one for each step, and the methods put them together.

The code that runs in several threads, and `_retry`, whose tasks interleave at every await, are
machines instead: a `Step` is what happens without interruption, and the theorems are about all
sequences of steps that are possible.

### Cancellation

`recalculate` is an incremental worklist that stops at every status whose state did not change, and
that can be re-entered: the `cancel_called` getter cancels a scope when the clock has passed its
deadline, and the abort callback of a nursery's `__aexit__` cancels the nursery's scope. Its contract
is therefore relative (`Propagated`): it settles the status it is called for, and leaves settled
whatever was settled before, at any depth of re-entry. It tells everybody who comes under cancellation
and nobody else: a task loses its abort function only in a status that is cancelled, and that a
cancelled scope does reach when this is worked out afresh along the tree (`Reached`). It cancels
further scopes only for a reason, a deadline that the clock has passed or a nursery whose parent was
told to exit, and no two of these are each other's reason (`Founded`). Operations that also change the
tree promise the same of their end (`Effects`).

All operations on scopes, statuses and tasks keep `Valid()`: every attached status agrees with its
scope and its parent, no task that still has an abort function is under a cancelled status, run queue
and batch hold every scheduled task exactly once, every task has been queued once for each pause, and
the deadline heap covers exactly the registered deadlines. `CancelMeaning` says what that amounts to,
in terms of paths to the root; `NurseryRunner` adds the nurseries, and keeps its invariants through
every one of these operations.

Three findings about the source belong here.

* A status that is made without a parent is not recalculated, so the scope of a task without a status
  must not be cancelled already; `Runner.Enter` says exactly what is missing otherwise. The program
  itself never gets there: the one task without a status is init, which opens a nursery with a fresh
  scope.
* "We only attempt to abort once per blocking call" holds for cancellation, at any depth of re-entry
  and of mis-nesting, because a task is told only of a cancellation of its own status, which the
  callback cannot bring about again. It does not hold for KeyboardInterrupt: when the main task waits in
  a nursery's `__aexit__`, the interrupt calls the callback, which cancels the nursery's scope, and the
  propagation can call it again. It does so just when it brings the task's own status under
  cancellation: always when the task is not cancelled and the nursery's scope is around its status with
  no shield in between, and otherwise only if another scope around it is cancelled meanwhile for a
  reason of its own, a deadline or another nursery exit, so that where there is none of either it is
  known beforehand (`CancelTasks.InterruptCalls`). `CancelFindings.AbortedTwice` is a run of the
  program, from its start, in which it happens.
* After `expire(now)` an effective deadline in the past means an effective cancellation, except where
  a scope has been exited while its status, empty at that moment, is used again afterwards
  (`CancelMeaning.DeadlinesKept`). `CancelFindings.LateButNotCancelled` is a run that ends there.

### DTLS

Two more findings: `encode_volley` does not return when the MTU is 25 or less and there is a handshake
message (`DtlsPackets.TooSmallMtu`), and `decode_client_hello_untrusted` raises StopIteration, not
`BadPacket`, on the empty packet and on no other (`DtlsRecords.ClientHelloFailures`). Its caller never
hands it that packet, which `is_client_hello_untrusted` rejects before.

## Model

| member | source | states |
|---|---|---|
| `Exceptions.CatchTakesExactlyCancelled` | trio/_core/_run.py:531-545 | a scope that catches takes out exactly the `Cancelled` leaves of a tree of groups, at any depth, lets the others through in order, and leaves no group that should have collapsed |
| `Exceptions.RestLeaves` | trio/_core/_run.py:539-545 | the rest of a split group has exactly the leaves that are not `Cancelled`, and there is no rest just when there are none |
| `Exceptions.CollapseLeaves` | trio/_core/_run.py:123-145 | collapsing single-member groups changes no leaf and finishes in one pass |
| `DeadlineHeap.HeapPush` | trio/_core/_run.py:162-164 | pushing keeps the heap in order of deadline and adds exactly the entry |
| `DeadlineHeap.PrunedLength` | trio/_core/_run.py:179-198 | pruning keeps exactly one entry for every registered scope, whatever stale and duplicate entries there are: the assertion in `_prune` holds |
| `DeadlineHeap.PrunedContents` | trio/_core/_run.py:187-193 | what pruning keeps is exactly what is still registered |
| `DeadlineHeap.PutInHeap` | trio/_core/_run.py:613-634 | after the registered deadline of a scope has changed, the heap covers the new ones |
| `DeadlineHeap.Deadlines.Add` | trio/_core/_run.py:162-164 | the heap gains the entry, and the count one |
| `DeadlineHeap.Deadlines.Change` | trio/_core/_run.py:613-634 | `_active` stays the number of registered deadlines, and each of them has its entry |
| `DeadlineHeap.Deadlines.NextDeadline` | trio/_core/_run.py:169-177 | the result is the minimum of the registered deadlines, or infinity; what is discarded are the first entries of the heap, none of which was in force |
| `DeadlineHeap.Deadlines.Prune` | trio/_core/_run.py:179-198 | the heap has `_active` entries afterwards and still covers every registered deadline |
| `CancelState.Chain` | trio/_core/_run.py:358-375 | two propagations, one after the other or one inside the other, amount to one: what they leave settled, tell and cancel adds up, and whom they tell stays cancelled |
| `CancelState.RootedExact` | trio/_core/_run.py:350-375 | what `recalculate` computes for a status from its parent is what reaches it along the whole way outward, if everything on that way is settled |
| `CancelState.FoundedThen` | trio/_core/_run.py:701-741 | of any set of scopes that were cancelled on the way one has a reason that does not depend on the rest of the set: no two cancellations are each other's reason |
| `CancelState.ProgressMade` | trio/_core/_run.py:363-375 | after each round of the worklist the visited statuses are settled, the others are as they were or on the list, and nobody was told of a cancellation that was there before |
| `CancelState.FlippedPropagated` | trio/_core/_run.py:370-375 | changing the state of one status can unsettle only its children and leave untold only its own tasks, and takes back no cancellation that reaches it |
| `CancelState.FlaggedPropagated` | trio/_core/_run.py:707-712 | raising the flag of a scope can unsettle only its own status |
| `CancelState.RescheduledWellFormed` | trio/_core/_run.py:1485-1517 | `reschedule` of a blocked task keeps run queue and batch without duplicates, and the counts of pauses and queueings in step |
| `CancelState.AnsweredPropagated` | trio/_core/_run.py:1249-1261 | the abort function of a cancelled task is called once and given up, whatever its callback starts; and what the callback cancels has its reason in the cancellation that was there before |
| `CancelState.WokenThen` | trio/_core/_run.py:1249-1272 | over any number of propagations an abort function is called once, when it is given up, and never otherwise; nobody is woken twice, and nobody whose function did not answer SUCCEEDED |
| `CancelState.WokenByAbort` | trio/_core/_run.py:1254-1261 | a task that loses its abort function to a propagation wakes up just when the function answered SUCCEEDED |
| `CancelState.ChildrenUnseen` | trio/_core/_run.py:363-375 | the worklist never meets a status twice, which is why it ends |
| `CancelState.EnclosedByChild` | trio/_core/_run.py:312-320 | what a status encloses is itself and what its children enclose |
| `CancelScopes.Runner.Reschedule` | trio/_core/_run.py:1503-1514 | the task goes to the end of the run queue with what it is to be sent, and has no abort function any more; the source's assertion is the precondition |
| `CancelScopes.Runner.AttemptAbort` | trio/_core/_run.py:1249-1261 | the abort function of a cancelled task is called once and given up, and neither it nor its callback takes away that of another task that was cancelled before |
| `CancelScopes.Runner.CallAbortFunc` | trio/_core/_run.py:1254-1256 | the callback of a nursery cancels its scope, which takes away no abort function of a task that was cancelled before; any other answers for itself |
| `CancelScopes.Runner.AttemptDeliveryOfAnyPendingCancel` | trio/_core/_run.py:1263-1272 | afterwards no cancellation is withheld from the task; nothing happens without an abort function or without a cancelled status; nobody else is told of an old cancellation |
| `CancelScopes.Runner.Recalculate` | trio/_core/_run.py:358-375 | settles the status, unsettles none, delivers to every task that comes under cancellation and to no other, each once, terminates, takes no cancellation back that still reaches its status, and cancels other scopes only for a reason that is not circular, re-entrant calls included |
| `CancelScopes.Runner.Visit` | trio/_core/_run.py:365-375 | one round settles its status, passes on exactly its children if the state changed, and tells exactly its tasks if it was cancelled, besides what re-entrant calls have a reason for |
| `CancelScopes.Runner.Cancel` | trio/_core/_run.py:701-712 | the scope is cancelled and its status settled; a second call changes nothing; only those whom cancellation reaches are told |
| `CancelScopes.Runner.CancelCalled` | trio/_core/_run.py:715-741 | the getter answers truly, and cancels an open or unused scope whose deadline the clock has passed |
| `CancelScopes.Runner.UpdateRegisteredDeadline` | trio/_core/_run.py:613-634 | a scope has its deadline registered just while it is open, not cancelled and its deadline finite |
| `CancelScopes.Runner.NewScope` | trio/_core/_run.py:447-462 | a new scope disturbs nothing |
| `CancelScopes.Runner.NewStatus` | trio/_core/_run.py:284-289 | a status with a parent is settled when it is made; one without is settled just when its scope is not cancelled |
| `CancelScopes.Runner.Enter` | trio/_core/_run.py:465-477 | a scope is used once; the task moves into a new settled status below its old one, a deadline in the past cancels at once; the one unsettled case is a cancelled scope entered by a task without a status |
| `CancelScopes.Runner.Activate` | trio/_core/_run.py:1240-1247 | the task changes its status, is told of a cancellation it comes under, nobody who is not cancelled is, and everything stays in step |
| `CancelScopes.Runner.SetParent` | trio/_core/_run.py:295-302 | a new parent settles the status, and takes back no cancellation if it had none before; losing a parent unsettles it at most, and not if that parent was not cancelling it |
| `CancelScopes.Runner.EnclosesStatus` | trio/_core/_run.py:312-320 | the loop decides whether a status is on the other's way to the root |
| `CancelScopes.Runner.MarkAbandoned` | trio/_core/_run.py:377-380 | marks exactly the statuses below and including this one |
| `CancelScopes.Runner.CloseStatus` | trio/_core/_run.py:322-348 | a status with tasks or children left becomes an abandoned root that stays cancelled, its tasks told and its children settled; an empty one just leaves the tree |
| `CancelScopes.Runner.LeaveScope` | trio/_core/_run.py:480-530 | the four cases of an exit, nested, abandoned, mis-nested and refused, and where the task goes in each |
| `CancelScopes.Runner.CatchIn` | trio/_core/_run.py:531-545 | catching happens just when the status is cancelled and its parent's cancellation is not visible |
| `CancelScopes.Runner.CloseScope` | trio/_core/_run.py:479-550 | the whole exit: what is let through, who is moved where, what is abandoned, and that everything attached is settled again |
| `CancelScopes.Runner.CancelScope` | trio/_core/_run.py:701-712 | a program's `cancel` keeps every invariant, takes no cancellation back, cancels no further scope without a reason, and wakes only tasks that are cancelled |
| `CancelScopes.Runner.SetShield` | trio/_core/_run.py:693-698 | raising or lowering a shield keeps every attached status in agreement with its parent, and wakes only tasks that are cancelled |
| `CancelScopes.Runner.SetDeadline` | trio/_core/_run.py:663-665 | the new deadline is registered, or none, as it should be |
| `CancelScopes.Runner.Expire` | trio/_core/_run.py:200-214 | cancels exactly the scopes registered at or before `now`, besides those with a reason of their own, does nothing when there are none, leaves no such deadline registered, takes no cancellation back, reports truly, and bounds the heap by 2 * active + 1000 |
| `CancelScopes.Runner.Spawn` | trio/_core/_run.py:1567-1581 | the new task is in its status and scheduled once |
| `CancelScopes.Runner.ExitTask` | trio/_core/_run.py:1607-1608 | the task leaves its status, and nothing refers to it any more |
| `CancelScopes.Runner.StartBatch` | trio/_core/_run.py:2263-2277 | the run queue becomes the batch in any order; every scheduled task is in exactly one of them, once |
| `CancelScopes.Runner.PopTask` | trio/_core/_run.py:2278-2287 | the task taken from the batch had something to be sent, and is in neither queue any more |
| `CancelScopes.Runner.PauseAndGoOn` | trio/_core/_run.py:2324-2327 | a pause that does not wait is followed by exactly one queueing |
| `CancelScopes.Runner.PauseAndWait` | trio/_core/_run.py:2328-2335 | a task that blocks under a cancelled status loses its abort function at once, and is queued just when that answers SUCCEEDED; one that is not cancelled just waits |
| `CancelScopes.Runner.DeliverKeyboardInterrupt` | trio/_core/_run.py:1274-1283 | the interrupt gives the abort function up and wakes the task just when it answers SUCCEEDED; it is called twice just when that brings the task's own status under cancellation, and once otherwise |
| `CancelScopes.Runner.PauseInterrupted` | trio/_core/_run.py:2328-2335 | a task that blocks while an interrupt is pending is interrupted at once, before it is told of a cancellation |
| `CancelTree.PropagatedSound` | trio/_core/_run.py:358-375 | a propagation keeps everything that holds between operations |
| `CancelTree.CancelledGrows` | trio/_core/_run.py:358-375 | from a state between operations no propagation takes a cancellation back |
| `CancelTree.AttachedGrows` | trio/_core/_run.py:295-302 | nor does the attaching of a status that had no parent, which `started()` relies on |
| `CancelTree.DetachedQuietly` | trio/_core/_run.py:295-302 | a status taken from a parent that was not cancelling it needs no recalculation, which `started()` relies on |
| `CancelTree.AbandonedRootSound` | trio/_core/_run.py:338-348 | making a status an abandoned root leaves to do exactly its children and its tasks |
| `CancelTree.CalledBack` | trio/_core/_run.py:1249-1261 | a nursery's callback that is called without regard to cancellation is called again just when it cancels the task's own status; which it does if the nursery's scope reaches that, and otherwise only if another scope around the task is cancelled for a reason of its own |
| `CancelTasks.BatchSound` | trio/_core/_run.py:2263-2277 | taking the run queue as the batch keeps every scheduled task in one place |
| `CancelTasks.PoppedSound` | trio/_core/_run.py:2278-2287 | the popped task runs: it is in neither queue, and has been queued once more than it has paused |
| `CancelTasks.InterruptCalls` | trio/_core/_run.py:1274-1283 | how often an interrupt calls the abort function: twice just when the task's own status comes under cancellation, which can be told beforehand, exactly, where no other open scope around the task has a deadline or is that of a nursery exit |
| `CancelMeaning.CancelledMeansOnPath` | trio/_core/_run.py:218-375 | a status is effectively cancelled just when some status on its way outward, up to the first shield, was itself cancelled: the early-stopping worklist equals the simple definition |
| `CancelMeaning.ReachableStates` | trio/_core/_run.py:218-375 | in every state between operations the flags equal the path definition, no task that could be woken sleeps under a cancellation, run queue and batch together hold exactly the scheduled tasks, once, and exactly the open uncancelled scopes with a finite deadline have it registered |
| `CancelMeaning.ExactlyTheCancelledAreTold` | trio/_core/_run.py:1249-1272 | whatever an operation does, a task that was blocked before has its abort function called, once, just when a cancelled scope is on its way outward, and wakes up just when the function answers SUCCEEDED |
| `CancelMeaning.CancellationIsCaught` | trio/_core/_run.py:350-375 | from any cancelled status the way outward reaches a scope that would catch, nothing before it would, and it was itself cancelled or is an abandoned root |
| `CancelMeaning.DeadlinesKept` | trio/_core/_run.py:382-387 | after `expire(now)` a status has an effective deadline at or before `now` just when it is cancelled, through any shields; the one exception is exact |
| `CancelFindings.QuietStays` | trio/_core/_run.py:701-741 | where no scope was cancelled and none has a deadline, no operation that was not asked to cancels any, and nobody is woken |
| `CancelFindings.AbortedTwice` | trio/_core/_run.py:1249-1283 | a run from the start of the program in which an interrupt calls one abort function twice in one blocking call |
| `CancelFindings.LateButNotCancelled` | trio/_core/_run.py:322-388 | a run from the start of the program after which a task's effective deadline is past and its status not cancelled |
| `NurseryState.OneOpenNursery` | trio/_core/_run.py:1571-1573 | every live task but init is a child of exactly one nursery, and that nursery is not closed |
| `NurseryState.KeptThrough` | trio/_core/_run.py:967-976 | no propagation of cancellation wakes a parent parked in `__aexit__` |
| `NurseryState.InterruptedKept` | trio/_core/_run.py:967-976 | nor does an interrupt |
| `NurseryState.ClosedKept` | trio/_core/_run.py:946-951 | a nursery that has become empty may close, and its parked parent can be rescheduled: it is blocked and not queued |
| `NurseryState.AdoptedKept` | trio/_core/_run.py:776-782 | moving all children to an open nursery keeps every task in exactly one open nursery |
| `NurseryState.LessInside` | trio/_core/_run.py:1101-1103 | when something other than a child goes, only that nursery has to be looked at |
| `Nurseries.NurseryRunner.OpenNursery` | trio/_core/_run.py:828-834 | a nursery opens with a fresh scope, not cancelled by opening it, whose status is the task's own |
| `Nurseries.NurseryRunner.SpawnImpl` | trio/_core/_run.py:1529-1580 | a closed nursery gains no child; an open one gains the task, which inherits its status and is scheduled |
| `Nurseries.NurseryRunner.SpawnInit` | trio/_core/_run.py:1531-1580 | the init task is scheduled, and is the one task without a nursery |
| `Nurseries.NurseryRunner.CheckNurseryClosed` | trio/_core/_run.py:946-951 | the nursery closes just when body, children and pending starts are gone, and at that moment the parked parent is rescheduled, once |
| `Nurseries.NurseryRunner.AddExc` | trio/_core/_run.py:942-944 | the nursery's scope is cancelled, nothing else without a reason that is not circular, and only cancelled tasks are told |
| `Nurseries.NurseryRunner.TaskExited` | trio/_core/_run.py:1583-1622 | the task leaves its one nursery; an error or a lost cancel scope cancels that nursery, unless it is the main task's, which tells only tasks that are cancelled, and nothing is cancelled otherwise; the last child's exit reschedules the parked parent, and nobody else |
| `Nurseries.NurseryRunner.NestedChildFinished` | trio/_core/_run.py:959-982 | the parent parks just when children or pending starts are left, and otherwise goes on to a checkpoint in a closed nursery; an exception cancels the nursery's scope, and no other without a reason |
| `Nurseries.NurseryRunner.AexitResumes` | trio/_core/_run.py:977-984 | an exception out of that checkpoint cancels the nursery's scope, and nothing happens without one |
| `Nurseries.NurseryRunner.CloseScope` | trio/_core/_run.py:479-550 | the exit from a scope, in any nesting, keeps every task in its one open nursery and every parked parent parked |
| `Nurseries.NurseryRunner.Interrupt` | trio/_core/_run.py:1274-1283 | so does an interrupt, which calls the abort function as often as `InterruptCalls` says |
| `Nurseries.NurseryRunner.StartBegin` | trio/_core/_run.py:1082-1091 | a closed nursery refuses; an open one stays open for the pending start, and the child is spawned in a nursery whose status is younger; opening it cancels nothing without a reason |
| `Nurseries.NurseryRunner.StartEnd` | trio/_core/_run.py:1101-1103 | the nursery closes just when this was the last thing it waited for, and its parked parent is then put on the run queue, and nobody else |
| `Nurseries.NurseryRunner.Started` | trio/_core/_run.py:761-811 | children, tasks and the whole subtree of statuses move to the new nursery, every status settled; nothing moves under a cancelled or closed one; the assertion holds while the start is pending; only tasks that come under cancellation by moving are told; the old nursery's parent is rescheduled, and nobody else |
| `Nurseries.NurseryRunner.MoveAll` | trio/_core/_run.py:773-811 | the move itself: what goes where, that it is complete before the old nursery is closed, and who is told or woken |
| `Nurseries.MoveStatuses` | trio/_core/_run.py:793-804 | exactly the direct children and tasks of the one status, but for the old parent task, are below the other, and everything is settled although attaching may cancel anything |
| `ByteStrings.FromTo` | trio/_dtls.py:210-212 | a number that fits is read back from its big-endian bytes |
| `ByteStrings.ToFrom` | trio/_dtls.py:210-212 | bytes are written back from the number they stand for |
| `DtlsRecords.RecordsUntrusted` | trio/_dtls.py:144-159 | the loop yields exactly the whole records of the packet, and tells whether anything is left over |
| `DtlsRecords.RecordRoundTrip` | trio/_dtls.py:144-169 | a printed record is parsed back, whatever follows it |
| `DtlsRecords.RecordReprinted` | trio/_dtls.py:144-169 | a parsed record is printed back byte for byte |
| `DtlsRecords.RecordsRoundTrip` | trio/_dtls.py:144-169 | a sequence of printed records is parsed back, with nothing left over |
| `DtlsRecords.RecordsReprinted` | trio/_dtls.py:144-169 | for all bytes, the parsed records are a prefix of the packet, and all of it just when nothing was left over |
| `DtlsRecords.FragmentRoundTrip` | trio/_dtls.py:191-229 | a printed fragment is parsed back just when its length field is true, and rejected otherwise |
| `DtlsRecords.FragmentReprinted` | trio/_dtls.py:191-229 | an accepted payload is printed back byte for byte |
| `DtlsRecords.ClientHelloDecoded` | trio/_dtls.py:232-298 | the signed bits of a ClientHello are its body around the cookie, whatever the cookie, the record number and the message number |
| `DtlsRecords.DecodedClientHello` | trio/_dtls.py:232-298 | every packet that is accepted is such a ClientHello |
| `DtlsRecords.ClientHelloFailures` | trio/_dtls.py:232-298 | the decoder returns or raises `BadPacket` just on the packets that are not empty |
| `DtlsVolley.RecordEncoder.EncodeVolley` | trio/_dtls.py:383-452 | fails its assertions just when an unsplittable record exceeds the MTU, and otherwise produces the specified packets and record numbers |
| `DtlsVolley.RecordEncoder.EncodeHandshake` | trio/_dtls.py:407-447 | the fragmenting loop ends for every MTU above 25, stays within the MTU, and does what the specification says |
| `DtlsVolley.RecordEncoder.AppendWhole` | trio/_dtls.py:387-406 | an unsplittable record goes into the packet or a fresh one, which is within the MTU just when the record is |
| `DtlsPackets.PacketsOfVolley` | trio/_dtls.py:383-452 | every packet is within the MTU, the packets in a row are the records in a row, and record numbers are consecutive from the first to the encoder's next |
| `DtlsPackets.BodyCovered` | trio/_dtls.py:407-447 | a body is cut into contiguous fragments that cover it once, none empty, or one empty fragment for an empty body |
| `DtlsPackets.TooSmallMtu` | trio/_dtls.py:413-423 | with an MTU of 25 or less the loop makes no progress in any number of rounds |
| `DtlsReassembly.DecodeVolleyTrusted` | trio/_dtls.py:332-373 | the loop with its list and dictionary returns the specified messages, or the first error |
| `DtlsReassembly.FragmentArrives` | trio/_dtls.py:352-371 | the next fragment of a message that is arriving extends exactly what has arrived |
| `DtlsReassembly.FragmentsDecode` | trio/_dtls.py:332-452 | the fragments of one message reassemble to it for any state of the current packet |
| `DtlsReassembly.VolleyRoundTrip` | trio/_dtls.py:332-452 | for every MTU that the records fit, decoding the packets of an encoded volley gives back its messages |
| `DtlsCookie.Signable` | trio/_dtls.py:521-526 | the loop builds the length-prefixed concatenation |
| `DtlsCookie.SignableInjective` | trio/_dtls.py:519-526 | different fields are never serialized to the same bytes |
| `DtlsCookie.CookieMeaning` | trio/_dtls.py:529-562 | a cookie is accepted just when it was made for this address and ClientHello, in this interval or the one before, or HMAC collides on the very inputs that were signed and are checked |
| `DtlsCookie.OthersRejected` | trio/_dtls.py:529-562 | unless HMAC collides on these inputs, a cookie is rejected for every other address and every other ClientHello, and outside of its interval and the next |
| `DtlsCookie.SameCookie` | trio/_dtls.py:529-547 | two cookies with one salt are equal just when their fields are, or HMAC collides on the two serializations |
| `DtlsCookie.CookieLifetime` | trio/_dtls.py:515-562 | a cookie is good for thirty seconds; from sixty seconds on it is accepted just if HMAC collides on the inputs of the two times |
| `DtlsCookie.ChallengeCarriesCookie` | trio/_dtls.py:565-602 | the HelloVerifyRequest is well formed and carries the cookie |
| `DtlsCookie.ChallengeAnswered` | trio/_dtls.py:621-642 | a client that repeats its ClientHello with the cookie of the challenge within thirty seconds is let in |
| `ChannelSteps.QueueRises` | trio/_channel.py:133-150 | delivered values and queued values together are in the order of sending: the channel is one FIFO queue |
| `ChannelSteps.ExactlyOnePlace` | trio/_channel.py:88-381 | every accepted value was delivered once, or is queued, or was dropped, and is unchanged |
| `ChannelSteps.DroppedKept` | trio/_channel.py:173-176 | taking senders off the queue drops exactly their values and keeps the order of the rest |
| `ChannelSteps.AdvancedKept` | trio/_channel.py:271-276 | the first blocked sender's value joins the buffer behind everything in it |
| `ChannelInv.SendClosedInv` | trio/_channel.py:229-241 | closing a send channel keeps all invariants, and after the last one nobody waits to receive |
| `ChannelInv.ReceiveClosedInv` | trio/_channel.py:368-381 | closing a receive channel keeps all invariants, and after the last one nobody waits to send |
| `ChannelInv.SendClosingOk` | trio/_channel.py:229-237 | the assertion that no sender is left holds when the last send channel closes |
| `ChannelInv.ReceiveClosingOk` | trio/_channel.py:368-376 | the assertion that no receiver is left holds when the last receive channel closes |
| `Channel.MemoryChannel.SendNowait` | trio/_channel.py:133-150 | which outcome each state has; an accepted value goes to the first blocked receiver, who found the queue empty, or to the end of the queue |
| `Channel.MemoryChannel.Send` | trio/_channel.py:153-178 | a value that finds no room waits at the end of the queue with its task |
| `Channel.MemoryChannel.AbortSend` | trio/_channel.py:173-176 | cancellation takes exactly this task's value out of the queue |
| `Channel.MemoryChannel.ReceiveNowait` | trio/_channel.py:267-284 | the front of the queue is returned, and the first blocked sender is woken; an empty queue is the end just when no send channel is open |
| `Channel.MemoryChannel.Receive` | trio/_channel.py:287-314 | a task waits just when the queue is empty and a send channel is open |
| `Channel.MemoryChannel.AbortReceive` | trio/_channel.py:309-312 | cancellation of a receiver changes no value |
| `Channel.MemoryChannel.CloneSend` | trio/_channel.py:181-206 | a clone counts as one more open endpoint; a closed one cannot be cloned |
| `Channel.MemoryChannel.CloneReceive` | trio/_channel.py:317-345 | likewise |
| `Channel.MemoryChannel.CloseSend` | trio/_channel.py:216-241 | wakes exactly its own senders with ClosedResourceError and drops their values; the last one wakes all receivers with EndOfChannel |
| `Channel.MemoryChannel.CloseReceive` | trio/_channel.py:355-381 | wakes exactly its own receivers; the last one wakes all senders with BrokenResourceError and empties the queue |
| `ParkingLot.WithoutOrder` | trio/_core/_parking_lot.py:125-127 | cancellation of one parked task keeps the order of the others |
| `ParkingLot.ParkingLots.Park` | trio/_core/_parking_lot.py:116-129 | the task is last in its lot and in no other |
| `ParkingLot.ParkingLots.Abort` | trio/_core/_parking_lot.py:125-127 | the task goes from the lot that it is in now, even after being moved |
| `ParkingLot.ParkingLots.Unpark` | trio/_core/_parking_lot.py:131-151 | exactly the first tasks are woken, in order, up to the count |
| `ParkingLot.ParkingLots.Repark` | trio/_core/_parking_lot.py:158-195 | exactly the first tasks move to the end of the other lot, or of the same one, in order, and know where they are |
| `Sync.LockAndConditions.AcquireNowait` | trio/_sync.py:505-520 | the lock is taken just when it has no owner; the owner cannot take it again |
| `Sync.LockAndConditions.Acquire` | trio/_sync.py:523-534 | a task that has to wait is last in line |
| `Sync.LockAndConditions.Release` | trio/_sync.py:537-550 | ownership passes to the first in line, who is the only one woken; a lock with a queue always has an owner |
| `Sync.LockAndConditions.Return` | trio/_sync.py:523-534 | a task that comes back from the line owns the lock |
| `Sync.LockAndConditions.Wait` | trio/_sync.py:702-731 | the owner gives the lock to the next in line and waits at the condition |
| `Sync.LockAndConditions.Notify` | trio/_sync.py:737-760 | the first waiting tasks move to the end of the line for the lock, and none is woken |
| `Sync.CapacityLimiter.WakeWaiters` | trio/_sync.py:200-203 | exactly as many tasks as there are free tokens, and the first in line, are woken in order and get one each |
| `Sync.CapacityLimiter.SetTotal` | trio/_sync.py:191-198 | a larger total wakes the first in line, as many as it has room for; a smaller one takes nothing away and wakes nobody |
| `Sync.CapacityLimiter.Acquire` | trio/_sync.py:228-292 | a token is granted just when one is free and nobody waits; the total is not exceeded |
| `Sync.CapacityLimiter.Release` | trio/_sync.py:308-321 | a freed token goes to the first in line, who is woken, if there is room for it; the total is not exceeded |
| `Sync.Semaphore.Acquire` | trio/_sync.py:415-440 | the value is the initial one plus releases minus granted acquires, and waiters imply that it is zero |
| `Sync.Semaphore.Release` | trio/_sync.py:443-458 | a release goes to the first waiter or to the value, within the maximum |
| `Sync.Semaphore.Abort` | trio/_sync.py:415-440 | a cancelled waiter leaves the line, and neither the value nor the order of the others changes |
| `SslRetry.OrderKept` | trio/_ssl.py:436-606 | sent bytes, held-back bytes and the chunks in line are, in this order, what the SSL object produced |
| `SslRetry.HandshakeAlone` | trio/_ssl.py:499-507 | while the handshake calls the SSL object nobody has bytes in line and none are held back, so the assertion holds |
| `SslRetry.StepKeeps` | trio/_ssl.py:436-606 | every step of every task keeps order, lines, handshake and receive counts right |
| `SslRetry.WireInOrder` | trio/_ssl.py:436-606 | in every interleaving the transport is given a prefix of what the SSL object produced, one task at a time, and a task receives only if no receive was completed since its last SSL call |
| `EntryQueue.TaskKeeps` | trio/_core/_entry_queue.py:73-105 | every operation of the queue task keeps the invariant and finds what it takes |
| `EntryQueue.OthersKeep` | trio/_core/_entry_queue.py:113-126 | so does every step of submitters and signal handlers, a handler that interrupts the main thread inside its own call included |
| `EntryQueue.JobsAreRun` | trio/_core/_entry_queue.py:35-126 | in every interleaving the jobs run are a prefix of those accepted; at the end all have run, once and in order, and every idempotent one since it was last accepted; a sleeping task with jobs has a wakeup coming |
| `EntryQueue.TaskGoesOn` | trio/_core/_entry_queue.py:73-78 | the queue task is never stuck at `popleft` or `del` |
| `ThreadCache.ExitKeeps` | trio/_core/_thread_cache.py:88-98 | a worker that exits was on the idle list, where nobody can choose it any more |
| `ThreadCache.WaitAgainKeeps` | trio/_core/_thread_cache.py:88-94 | a worker that finds itself off the idle list after its timeout has a job coming |
| `ThreadCache.StepKeeps` | trio/_core/_thread_cache.py:45-111 | every step of submitters and workers keeps every worker with at most one of idle list, submitter and lock |
| `ThreadCache.NotLost` | trio/_core/_thread_cache.py:105-111 | a job that was handed in stays on its way until it runs, also while its submitter has found no idle worker and makes a new one |
| `ThreadCache.JobsAreSafe` | trio/_core/_thread_cache.py:45-111 | in every interleaving no job is lost, run twice or overwritten, no exited worker is given one, and a worker that wakes up finds its job |
| `Epoll.EpollIOManager.Poll` | trio/_core/_io_epoll.py:224-229 | an event disarms its file in the kernel, whether or not anything was wanted of it, which is all that is out of step until the batch is processed |
| `Epoll.EpollIOManager.UpdateRegistrations` | trio/_core/_io_epoll.py:250-277 | the kernel's armed flags become the wanted ones, or the entry goes and everybody is woken with the error |
| `Epoll.EpollIOManager.WakeAll` | trio/_core/_io_common.py:7-22 | every waiter of the file is woken once, the running one by an exception |
| `Epoll.EpollIOManager.EpollWait` | trio/_core/_io_epoll.py:279-296 | a task sleeps armed, or is refused because another waits for the same, or gets the error |
| `Epoll.EpollIOManager.Abort` | trio/_core/_io_epoll.py:290-294 | the task goes, and the other waiter of the file stays armed |
| `Epoll.EpollIOManager.ProcessEvents` | trio/_core/_io_epoll.py:231-248 | a batch wakes exactly the tasks that its flags are for, each once, and arms the rest again |
| `Epoll.EpollIOManager.NotifyClosing` | trio/_core/_io_epoll.py:306-317 | exactly the waiters of the file are woken, and nothing of it is left |

## Left out

- `heapq` is taken to keep its list in order of deadline; ties between equal deadlines come in any order.
- Deadlines are real numbers with both infinities; NaN and rounding are not part of this model.
- Guest mode, and so the time between polling for events and processing them, is not part of this model.
- The exceptions that a nursery collects in `_pending_excs`, and the group it makes of them, are not part of this model; an exception counts only as a cancellation of the nursery's scope.
- Abort callbacks other than that of a nursery's `__aexit__` touch only their own wait queue.
- Cancellation that arrives at the checkpoint before an operation begins changes nothing, and is not part of the operations here.
- `Nurseries.NurseryRunner.Wake` is not for a parent parked in a nursery's `__aexit__`, whom only its nursery puts on the run queue.
- A callback of the entry queue that raises ends the run, and is not part of `EntryQueue`.
- Sleeping in the run loop, idle detection, autojump clocks, instruments, system tasks and the exit of the init task are not part of this model.
- A task that is detached for ever (`PermanentlyDetachCoroutineObject`) is one that exits.
- Objects are numbers with attributes in maps; that two attributes name the same object is equality of numbers, and garbage collection is not part of this model.
- `DtlsVolley.RecordEncoder.EncodeVolley` assumes messages that the headers can hold, where `struct` raises an error otherwise; its termination is proved for an MTU above 25, and below that it does not terminate.
- `DtlsPackets.PacketsOfVolley` and `DtlsReassembly.VolleyRoundTrip` are for an MTU below 65549, above which a fragment's length may not fit the record header, and for record numbers below 2^64 and 2^48.
- HMAC, the random salt and the clock are parameters; about HMAC only a non-empty digest is assumed. The time must not be negative, as packing it requires.
- Retransmission, the association of packets with connections and the rest of `DTLSChannel` and `DTLSEndpoint` are not part of this model.
- The order in which `close` of a channel wakes its tasks is not part of this model.
- SSL failures, cancellation of a send or receive, and the closing of a stream are not part of `SslRetry`; the bytes on the wire are in no promised order after them.
- `Sync.CapacityLimiter.Acquire` assumes that nobody else waits for the same borrower, since the set of borrowers counts it once.
- The manager's own wakeup socket is not part of `Epoll`, and the kernel's choice of events is any.
- Events, unbounded queues, path and file wrappers, subprocesses, the Windows and kqueue backends and the test helpers would only add easy members.
